/** What a batch subscribe leaves bound and on file when nobody else touches the manager. */
module BatchQuiet {

  import opened Basics
  import opened SymbolNames
  import opened NotificationManager
  import opened NotificationInvariant
  import opened ManagerLaws
  import opened BatchSubscribe
  import opened BatchProofs

  // ---------------------------------------------------------------- what has been filed so far

  /** The entry of config idx as a commit files it. */
  function FreshEntry(p: Plan, idx: nat): Pending
    requires idx < |p.configs|
  {
    Pending(p.configs[idx], 0)
  }

  ghost predicate CommittedEntry(p: Plan, committed: seq<nat>, e: Pending)
    requires Indices(committed, |p.configs|)
  {
    exists m :: 0 <= m < |committed| && e == FreshEntry(p, committed[m])
  }

  /** Since v, exactly the committed configs were filed anew, and what was on file under their keys is gone. */
  ghost predicate FiledSince(p: Plan, v: View, u: View, committed: seq<nat>)
    requires Indices(committed, |p.configs|)
  {
    forall e :: e in u.pending <==>
      CommittedEntry(p, committed, e) || (e in v.pending && PendingKey(e) !in CommittedKeys(p, committed))
  }

  /** The handle of the committed entry is bound to its name and to the batch's channel. */
  ghost predicate BoundTo(p: Plan, u: View, b: Batch, idx: nat)
    requires Shaped(p, b) && idx < |p.configs|
  {
    var h := b.results[idx].handle;
    h in u.active && u.active[h].ch == p.ch && KeyOf(u.active[h].fullName) == KeyOf(p.configs[idx].name)
  }

  ghost predicate BoundSince(p: Plan, v: View, u: View, b: Batch)
    requires Shaped(p, b)
  {
    && (forall m | 0 <= m < |b.committed| :: BoundTo(p, u, b, b.committed[m]))
    && u.channel == (if b.committed == [] then v.channel else Some(p.ch))
    && (forall h | h in u.active && h !in v.active :: exists m ::
          0 <= m < |b.committed| && b.results[b.committed[m]].handle == h)
  }

  ghost predicate Effects(p: Plan, v: View, u: View, b: Batch)
    requires Shaped(p, b)
  {
    FiledSince(p, v, u, b.committed) && BoundSince(p, v, u, b)
  }

  lemma SinceStart(p: Plan, v: View, b: Batch)
    requires Shaped(p, b) && b.committed == []
    ensures Effects(p, v, v, b)
  {
    assert CommittedKeys(p, b.committed) == {};
  }

  lemma SinceReport(p: Plan, v: View, u: View, b: Batch, idx: nat, c: Batch)
    requires Shaped(p, b) && Effects(p, v, u, b) && idx < |b.results| && idx !in b.committed
    requires c.committed == b.committed && |c.results| == |b.results| && c.results == b.results[idx := c.results[idx]]
    ensures Effects(p, v, u, c)
  {
    forall m | 0 <= m < |c.committed| ensures BoundTo(p, u, c, c.committed[m]) {
      assert b.committed[m] in b.committed && BoundTo(p, u, b, b.committed[m]);
    }
    forall h | h in u.active && h !in v.active
      ensures exists m :: 0 <= m < |c.committed| && c.results[c.committed[m]].handle == h
    {
      var m :| 0 <= m < |b.committed| && b.results[b.committed[m]].handle == h;
      assert b.committed[m] in b.committed;
      assert c.results[c.committed[m]].handle == h;
    }
  }

  lemma CommittedEntrySnoc(p: Plan, committed: seq<nat>, idx: nat, e: Pending)
    requires Indices(committed, |p.configs|) && idx < |p.configs|
    ensures Indices(committed + [idx], |p.configs|)
    ensures CommittedEntry(p, committed + [idx], e) <==> e == FreshEntry(p, idx) || CommittedEntry(p, committed, e)
  {
    var more := committed + [idx];
    assert more[|committed|] == idx;
    if m :| 0 <= m < |committed| && e == FreshEntry(p, committed[m]) {
      assert more[m] == committed[m];
    }
    if m :| 0 <= m < |more| && e == FreshEntry(p, more[m]) && m < |committed| {
      assert more[m] == committed[m];
    }
  }

  /** No committed entry has the key of a config whose commit finds nothing live under it. */
  lemma KeyIsNew(p: Plan, v: View, u: View, b: Batch, cfg: Config)
    requires Shaped(p, b) && BoundSince(p, v, u, b) && !HasLive(u, cfg.name)
    ensures KeyOf(cfg.name) !in CommittedKeys(p, b.committed)
  {
    forall m | 0 <= m < |b.committed| ensures KeyOf(p.configs[b.committed[m]].name) != KeyOf(cfg.name) {
      assert BoundTo(p, u, b, b.committed[m]);
    }
  }

  lemma FiledBind(p: Plan, v: View, at: View, u: View, committed: seq<nat>, idx: nat)
    requires Indices(committed, |p.configs|) && FiledSince(p, v, at, committed) && idx < |p.configs|
    requires KeyOf(p.configs[idx].name) !in CommittedKeys(p, committed)
    requires FiledAs(at.pending, u.pending, FreshEntry(p, idx))
    ensures Indices(committed + [idx], |p.configs|) && FiledSince(p, v, u, committed + [idx])
  {
    var key := KeyOf(p.configs[idx].name);
    CommittedSnoc(p, committed, idx);
    forall e ensures e in u.pending <==>
      CommittedEntry(p, committed + [idx], e)
      || (e in v.pending && PendingKey(e) !in CommittedKeys(p, committed + [idx]))
    {
      CommittedEntrySnoc(p, committed, idx, e);
      if CommittedEntry(p, committed, e) {
        EntryKey(p, committed, e);
      }
    }
  }

  lemma EntryKey(p: Plan, committed: seq<nat>, e: Pending)
    requires Indices(committed, |p.configs|) && CommittedEntry(p, committed, e)
    ensures PendingKey(e) in CommittedKeys(p, committed)
  {
    var m :| 0 <= m < |committed| && e == FreshEntry(p, committed[m]);
    assert KeyOf(p.configs[committed[m]].name) == PendingKey(e);
  }

  lemma BoundBind(p: Plan, v: View, at: View, u: View, b: Batch, idx: nat, h: Handle, full: Name)
    requires Shaped(p, b) && BoundSince(p, v, at, b) && idx < |b.results| && idx !in b.committed
    requires h !in at.active && u.active == at.active[h := Bound(full, p.ch)] && u.channel == Some(p.ch)
    requires KeyOf(full) == KeyOf(p.configs[idx].name)
    ensures BoundSince(p, v, u, Keep(b, idx, h))
  {
    var c := Keep(b, idx, h);
    forall m | 0 <= m < |c.committed| ensures BoundTo(p, u, c, c.committed[m]) {
      if m < |b.committed| {
        assert b.committed[m] in b.committed && BoundTo(p, at, b, b.committed[m]);
      }
    }
    forall g | g in u.active && g !in v.active
      ensures exists m :: 0 <= m < |c.committed| && c.results[c.committed[m]].handle == g
    {
      if g == h {
        assert c.results[c.committed[|b.committed|]].handle == g;
      } else {
        var m :| 0 <= m < |b.committed| && b.results[b.committed[m]].handle == g;
        assert b.committed[m] in b.committed && c.results[c.committed[m]].handle == g;
      }
    }
  }

  // ---------------------------------------------------------------- along the requests

  lemma SinceItem(j: Job, w: World, n: nat, g: Progress, v: View)
    requires Ready(j.p, w) && Rely(j.env, w.theirs, w.names) && Quiet(j.env) && n < |j.p.sent| && Shaped(j.p, g.b)
    requires Itemized(j.p.reply) && Midway(j.p, w, g.b, n, g.x.s) && Effects(j.p, v, g.x.s.v, g.b)
    ensures Effects(j.p, v, ItemAfter(j, n, g).x.s.v, ItemAfter(j, n, g).b)
  {
    ItemCases(j, w, n, g);
    FreshNow(g.b, j.p, w, n);
    OthersQuiet(j.env, g.x);
    OthersAllowed(j.env, g.x, w.theirs, w.names);
    if Learned(j.p.reply, |j.p.sent|, n).None? {
      SinceReport(j.p, v, g.x.s.v, g.b, j.p.sent[n], ItemAfter(j, n, g).b);
    } else {
      SinceCommit(j, w, n, Learned(j.p.reply, |j.p.sent|, n).value, g.(x := Others(j.env, g.x)), v);
    }
  }

  lemma SinceCommit(j: Job, w: World, n: nat, h: Handle, g: Progress, v: View)
    requires Ready(j.p, w) && Rely(j.env, w.theirs, w.names) && Quiet(j.env) && n < |j.p.sent| && Shaped(j.p, g.b)
    requires Learned(j.p.reply, |j.p.sent|, n) == Some(h) && ReportedTo(g.b, j.p, n) && Sound(g.x.s, w.names)
    requires BoundIsKept(g.b, j.p, n, g.x.s.v.active.Keys) && Effects(j.p, v, g.x.s.v, g.b)
    ensures Effects(j.p, v, BindAfter(j, n, h, g).x.s.v, BindAfter(j, n, h, g).b)
  {
    var idx := j.p.sent[n];
    var cfg := j.p.configs[idx];
    FreshNow(g.b, j.p, w, n);
    OthersQuiet(j.env, g.x);
    CommitFacts(j, cfg, h, g.x, w);
    var c := Committed(j, cfg, h, g.x);
    if c.refusal.Some? {
      SinceReport(j.p, v, g.x.s.v, g.b, idx, Drop(g.b, idx, h, c.refusal.value));
    } else {
      OthersQuiet(j.env, c.x);
      KeyIsNew(j.p, v, g.x.s.v, g.b, cfg);
      FiledBind(j.p, v, g.x.s.v, c.x.s.v, g.b.committed, idx);
      BoundBind(j.p, v, g.x.s.v, c.x.s.v, g.b, idx, h, g.x.s.symbols[KeyOf(cfg.name)]);
    }
  }

  ghost predicate Since(j: Job, v: View, k: Progress) {
    Fit(j.p) && Shaped(j.p, k.b) && Effects(j.p, v, k.x.s.v, k.b)
  }

  lemma SinceNext(j: Job, w: World, g: Progress, path: Path, n: nat)
    requires Starts(j, w, g) && Quiet(j.env) && Follows(path, j, g) && n < |j.p.sent| && Since(j, g.x.s.v, path(n))
    ensures Since(j, g.x.s.v, path(n + 1))
  {
    PathUnderway(j, w, g, path, n);
    PathNext(j, g, path, n);
    SinceItem(j, w, n, path(n), g.x.s.v);
  }

  lemma {:induction false} SincePath(j: Job, w: World, g: Progress, path: Path, n: nat)
    requires Starts(j, w, g) && Quiet(j.env) && Follows(path, j, g) && n <= |j.p.sent| && g.b.committed == []
    ensures Since(j, g.x.s.v, path(n))
  {
    if n == 0 {
      PathStart(j, g, path);
      SinceStart(j.p, g.x.s.v, g.b);
    } else {
      SincePath(j, w, g, path, n - 1);
      SinceNext(j, w, g, path, n - 1);
    }
  }

  lemma SinceReported(j: Job, w: World, g: Progress)
    requires Starts(j, w, g) && Quiet(j.env) && g.b.committed == []
    ensures Since(j, g.x.s.v, Reported(j, g))
  {
    ReportedStep(j, w, g);
    if Itemized(j.p.reply) {
      SincePath(j, w, g, PathOf(j, g), |j.p.sent|);
    } else {
      SinceStart(j.p, g.x.s.v, Reported(j, g).b);
    }
  }

  // ---------------------------------------------------------------- the whole call

  ghost predicate SuccessEntry(configs: seq<Config>, results: seq<Result>, e: Pending)
    requires |results| <= |configs|
  {
    exists i :: 0 <= i < |results| && Success(results[i]) && e == Pending(configs[i], 0)
  }

  ghost predicate AnySuccess(results: seq<Result>) {
    exists i :: 0 <= i < |results| && Success(results[i])
  }

  /** The successful entry's handle is bound to its name and to this channel. */
  predicate SuccessBound(u: View, cfg: Config, r: Result, ch: Chan) {
    r.handle in u.active && u.active[r.handle].ch == ch && KeyOf(u.active[r.handle].fullName) == KeyOf(cfg.name)
  }

  /**
   * From v to u exactly the successes were filed, each as declared and with no attempts counted, and their handles
   * bound to their names and to the channel; the channel is theirs if there is one, else it is as it was.
   */
  ghost predicate SuccessesFiled(configs: seq<Config>, results: seq<Result>, ch: Chan, v: View, u: View)
    requires |results| <= |configs|
  {
    && (forall e :: e in u.pending <==>
          SuccessEntry(configs, results, e) || (e in v.pending && PendingKey(e) !in SuccessKeys(configs, results)))
    && (forall i | 0 <= i < |results| && Success(results[i]) :: SuccessBound(u, configs[i], results[i], ch))
    && u.channel == (if AnySuccess(results) then Some(ch) else v.channel)
  }

  lemma SameEntries(p: Plan, b: Batch, e: Pending)
    requires Shaped(p, b) && forall idx | 0 <= idx < |b.results| :: Success(b.results[idx]) <==> idx in b.committed
    ensures CommittedEntry(p, b.committed, e) <==> SuccessEntry(p.configs, b.results, e)
  {
    if m :| 0 <= m < |b.committed| && e == FreshEntry(p, b.committed[m]) {
      assert b.committed[m] in b.committed;
    }
    if i :| 0 <= i < |b.results| && Success(b.results[i]) && e == Pending(p.configs[i], 0) {
      var m :| 0 <= m < |b.committed| && b.committed[m] == i;
      assert e == FreshEntry(p, b.committed[m]);
    }
  }

  lemma EffectsFiled(p: Plan, w: World, b: Batch, n: nat, s: Shared, v: View, u: View)
    requires Ready(p, w) && n <= |p.sent| && Midway(p, w, b, n, s) && Shaped(p, b) && Effects(p, v, u, b)
    ensures SuccessesFiled(p.configs, b.results, p.ch, v, u)
  {
    CommittedSucceed(p, w, b, n, s);
    forall idx | 0 <= idx < |b.results| ensures Success(b.results[idx]) <==> idx in b.committed {
      SucceedsIfCommitted(p, w, b, n, s, idx);
    }
    forall e ensures CommittedEntry(p, b.committed, e) <==> SuccessEntry(p.configs, b.results, e) {
      SameEntries(p, b, e);
    }
    forall i | 0 <= i < |b.results| && Success(b.results[i]) ensures SuccessBound(u, p.configs[i], b.results[i], p.ch) {
      var m :| 0 <= m < |b.committed| && b.committed[m] == i;
      assert BoundTo(p, u, b, b.committed[m]);
    }
    if b.committed != [] {
      assert b.committed[0] in b.committed;
    }
  }

  lemma QuietBatchFiles(j: Job, w: World, acks: Handle -> bool, g: Progress)
    requires Starts(j, w, g) && Quiet(j.env) && g.b.committed == []
    ensures
      var k := Settled(j, acks, Reported(j, g));
      SuccessesFiled(j.p.configs, k.b.results, j.p.ch, g.x.s.v, k.x.s.v)
  {
    var r := Reported(j, g);
    ReportedStep(j, w, g);
    SinceReported(j, w, g);
    EffectsFiled(j.p, w, r.b, ReportedCount(j.p), r.x.s, g.x.s.v, r.x.s.v);
    QuietBatch(j, w, acks, g);
    OthersQuiet(j.env, r.x);
    TrackReported(j, w, g);
    NothingSwept(j.p, g.x.s.v, r.x.s.v, r.b);
  }

  lemma NoneSucceeds(configs: seq<Config>, results: seq<Result>, ch: Chan, v: View)
    requires |results| <= |configs| && forall i | 0 <= i < |results| :: !Success(results[i])
    ensures SuccessesFiled(configs, results, ch, v, v)
  {
    assert SuccessKeys(configs, results) == {};
  }

  /**
   * Undisturbed, a call files exactly its successes, as declared and with no attempts counted, binds each to its name
   * and to the caller's channel, and sets the channel exactly when something succeeded.
   */
  lemma QuietAddFiles(env: Env, a: Call, w: World, x: Moment)
    requires Fair(env, a, w, x) && Quiet(env)
    ensures
      var out := Add(env, a, x);
      |out.results| <= |a.configs| && SuccessesFiled(a.configs, out.results, a.ch, x.s.v, out.x.s.v)
  {
    AddCases(env, a, x);
    CallStarts(env, a, w, x);
    OthersQuiet(env, x);
    QuietAdd(env, a, w, x);
    var out := Add(env, a, x);
    if out.sent != [] {
      QuietBatchFiles(JobOf(env, a, x), w, a.acks, StartOf(env, a, x));
    } else {
      if Screens(env, a, x) {
        ScreenedChooses(env, a, x);
      }
      NoneSucceeds(a.configs, out.results, a.ch, x.s.v);
    }
  }

  // ---------------------------------------------------------------- when nobody else does anything

  /** The others do nothing at all. */
  ghost predicate Still(env: Env) {
    forall n, s :: env(n, s) == s
  }

  lemma OthersStill(env: Env, x: Moment)
    requires Still(env)
    ensures Others(env, x).s == x.s && Quiet(env)
  {
  }

  /** Nothing on the way to request n has changed the cache or the epoch. */
  lemma {:induction false} StillPath(j: Job, w: World, g: Progress, path: Path, n: nat)
    requires Starts(j, w, g) && Still(j.env) && Follows(path, j, g) && n <= |j.p.sent|
    ensures path(n).x.s.symbols == g.x.s.symbols && path(n).x.s.epoch == g.x.s.epoch
  {
    if n == 0 {
      PathStart(j, g, path);
    } else {
      StillPath(j, w, g, path, n - 1);
      PathUnderway(j, w, g, path, n - 1);
      PathNext(j, g, path, n - 1);
      StillItem(j, w, n - 1, path(n - 1));
    }
  }

  lemma StillItem(j: Job, w: World, n: nat, g: Progress)
    requires Ready(j.p, w) && Still(j.env) && n < |j.p.sent| && Shaped(j.p, g.b) && Itemized(j.p.reply)
    requires Midway(j.p, w, g.b, n, g.x.s)
    ensures ItemAfter(j, n, g).x.s.symbols == g.x.s.symbols && ItemAfter(j, n, g).x.s.epoch == g.x.s.epoch
  {
    ItemCases(j, w, n, g);
    OthersStill(j.env, g.x);
    if Learned(j.p.reply, |j.p.sent|, n).Some? {
      var h := Learned(j.p.reply, |j.p.sent|, n).value;
      var y := Others(j.env, g.x);
      var c := Committed(j, j.p.configs[j.p.sent[n]], h, y);
      OthersStill(j.env, y);
      OthersStill(j.env, c.x);
    }
  }

  /** The requests have keys of their own, none of them live when the batch began. */
  ghost predicate Distinct(p: Plan, live: set<Key>)
    requires Fit(p)
  {
    && (forall i | 0 <= i < |p.sent| :: KeyOf(p.configs[p.sent[i]].name) !in live)
    && (forall i, k | 0 <= i < k < |p.sent| ::
          KeyOf(p.configs[p.sent[i]].name) != KeyOf(p.configs[p.sent[k]].name))
  }

  /** So nothing is live under the key of a request whose turn it is. */
  lemma NothingLive(p: Plan, w: World, v: View, u: View, b: Batch, n: nat, s: Shared)
    requires Ready(p, w) && n < |p.sent| && Midway(p, w, b, n, s) && Shaped(p, b) && BoundSince(p, v, u, b)
    requires Extends(v, u, LearnedSet(p.reply, |p.sent|)) && Distinct(p, LiveKeys(v))
    ensures !HasLive(u, p.configs[p.sent[n]].name)
  {
    var key := KeyOf(p.configs[p.sent[n]].name);
    forall h | h in u.active ensures KeyOf(u.active[h].fullName) != key {
      if h in v.active {
        assert KeyOf(v.active[h].fullName) in LiveKeys(v);
      } else {
        var m :| 0 <= m < |b.committed| && b.results[b.committed[m]].handle == h;
        assert BoundTo(p, u, b, b.committed[m]);
        assert b.committed[m] in b.committed;
        var i :| 0 <= i < n && p.sent[..n][i] == b.committed[m];
      }
    }
  }

  /** The commit of a request in an undisturbed batch is refused only if the symbol is not in the cache. */
  lemma StillCommit(j: Job, w: World, g: Progress, n: nat, h: Handle)
    requires Starts(j, w, g) && Still(j.env) && n < |j.p.sent| && g.b.committed == [] && g.x.s.epoch == j.begin
    requires Itemized(j.p.reply) && Distinct(j.p, LiveKeys(g.x.s.v)) && !WrongChannel(g.x.s.v, j.p.ch)
    requires Learned(j.p.reply, |j.p.sent|, n) == Some(h)
    ensures j.p.sent[n] in PathOf(j, g)(n + 1).b.committed <==> KeyOf(j.p.configs[j.p.sent[n]].name) in g.x.s.symbols
  {
    var path := PathOf(j, g);
    var here := path(n);
    var cfg := j.p.configs[j.p.sent[n]];
    OthersStill(j.env, g.x);
    PathUnderway(j, w, g, path, n);
    PathNext(j, g, path, n);
    StillPath(j, w, g, path, n);
    TrackPath(j, w, g, path, n);
    SincePath(j, w, g, path, n);
    NothingLive(j.p, w, g.x.s.v, here.x.s.v, here.b, n, here.x.s);
    var y := Others(j.env, here.x);
    OthersStill(j.env, here.x);
    OthersStill(j.env, y);
    CommittedWhenBound(j, w, n, here, h);
    CommitFacts(j, cfg, h, y, w);
  }

  /** Settling an undisturbed batch changes no result. */
  lemma SettlesAsReported(j: Job, w: World, acks: Handle -> bool, g: Progress)
    requires Starts(j, w, g) && Quiet(j.env) && g.b.committed == []
    ensures Settled(j, acks, Reported(j, g)).b.results == Reported(j, g).b.results
  {
    var r := Reported(j, g);
    TrackReported(j, w, g);
    OthersQuiet(j.env, r.x);
    NothingSwept(j.p, g.x.s.v, r.x.s.v, r.b);
  }

  lemma StillReports(j: Job, w: World, g: Progress, n: nat, h: Handle)
    requires Starts(j, w, g) && Still(j.env) && n < |j.p.sent| && g.b.committed == [] && g.x.s.epoch == j.begin
    requires Distinct(j.p, LiveKeys(g.x.s.v)) && !WrongChannel(g.x.s.v, j.p.ch)
    requires Learned(j.p.reply, |j.p.sent|, n) == Some(h)
    ensures Success(Reported(j, g).b.results[j.p.sent[n]]) <==> KeyOf(j.p.configs[j.p.sent[n]].name) in g.x.s.symbols
  {
    var path := PathOf(j, g);
    ReportedStep(j, w, g);
    StillCommit(j, w, g, n, h);
    ReportedAtOnce(j, w, g, path, n);
  }

  /** What is reported of a request when it is answered is what is reported in the end. */
  lemma ReportedAtOnce(j: Job, w: World, g: Progress, path: Path, n: nat)
    requires Starts(j, w, g) && n < |j.p.sent| && Follows(path, j, g)
    ensures |path(|j.p.sent|).b.results| == |j.p.configs|
    ensures Success(path(|j.p.sent|).b.results[j.p.sent[n]]) <==> j.p.sent[n] in path(n + 1).b.committed
  {
    ReportStands(j, w, g, path, n, |j.p.sent|);
    PathUnderway(j, w, g, path, n + 1);
    SucceedsUnderway(j, w, g, path(n + 1), n + 1, j.p.sent[n]);
  }

  lemma SucceedsUnderway(j: Job, w: World, g: Progress, k: Progress, n: nat, idx: nat)
    requires Starts(j, w, g) && n <= |j.p.sent| && Underway(j, w, g, k, n) && idx < |k.b.results|
    ensures Success(k.b.results[idx]) <==> idx in k.b.committed
  {
    SucceedsIfCommitted(j.p, w, k.b, n, k.x.s, idx);
  }

  /** An undisturbed request ends as a success exactly when it was given a handle and its symbol is in the cache. */
  lemma StillSucceeds(j: Job, w: World, acks: Handle -> bool, g: Progress, n: nat)
    requires Starts(j, w, g) && Still(j.env) && n < |j.p.sent| && g.b.committed == [] && g.x.s.epoch == j.begin
    requires Distinct(j.p, LiveKeys(g.x.s.v)) && !WrongChannel(g.x.s.v, j.p.ch)
    ensures Success(Settled(j, acks, Reported(j, g)).b.results[j.p.sent[n]]) <==>
      Learned(j.p.reply, |j.p.sent|, n).Some? && KeyOf(j.p.configs[j.p.sent[n]].name) in g.x.s.symbols
  {
    OthersStill(j.env, g.x);
    if Learned(j.p.reply, |j.p.sent|, n).Some? {
      SettlesAsReported(j, w, acks, g);
      StillReports(j, w, g, n, Learned(j.p.reply, |j.p.sent|, n).value);
    } else {
      BatchSettles(j, w, acks, g);
      assert FinalItem(j.p, Settled(j, acks, Reported(j, g)).b, LookedAt(j, g).s.v.active.Keys, n);
    }
  }

  lemma {:induction false} StillScreen(env: Env, configs: seq<Config>, live: set<Key>, resolves: nat -> bool,
                                       i: nat, q: Screening)
    requires i <= |configs| == |q.results| && Increasing(q.sent, i) && Still(env)
    ensures Screen(env, configs, live, resolves, i, q).x.s == q.x.s
    decreases |configs| - i
  {
    if i < |configs| {
      OthersStill(env, q.x);
      StillScreen(env, configs, live, resolves, i + 1, ScreenOne(env, configs, live, resolves, i, q));
    }
  }

  lemma ChosenDistinct(p: Plan, live: set<Key>, resolves: nat -> bool, q: Screening)
    requires Fit(p) && p.sent == q.sent && Chosen(p.configs, live, resolves, q, |p.configs|)
    ensures Distinct(p, live)
  {
    forall i | 0 <= i < |p.sent| ensures Sends(p.configs, live, resolves, p.sent[i]) {
      assert p.sent[i] in q.sent;
    }
    forall i, k | 0 <= i < k < |p.sent|
      ensures KeyOf(p.configs[p.sent[i]].name) != KeyOf(p.configs[p.sent[k]].name)
    {
      assert !MetBefore(p.configs, p.sent[k]) && p.sent[i] < p.sent[k];
    }
  }

  /**
   * When nobody else does anything, a subscribe succeeds for a config exactly when it was sent, the PLC gave it a
   * handle and its symbol is in the cache: nothing else stands in its way.
   */
  lemma AddSucceedsExactly(env: Env, a: Call, w: World, x: Moment, i: nat)
    requires Fair(env, a, w, x) && Still(env) && i < |Add(env, a, x).sent|
    ensures
      var out, p := Add(env, a, x), JobOf(env, a, x).p;
      && |out.results| == |a.configs| && out.sent == p.sent
      && (Success(out.results[p.sent[i]]) <==>
            Learned(p.reply, |p.sent|, i).Some? && KeyOf(a.configs[p.sent[i]].name) in x.s.symbols)
  {
    var j, g := JobOf(env, a, x), StartOf(env, a, x);
    AddCases(env, a, x);
    CallStarts(env, a, w, x);
    OthersStill(env, x);
    ScreenedChooses(env, a, x);
    StillScreen(env, a.configs, LiveKeys(Others(env, x).s.v), a.resolves, 0, FirstLook(a.configs, Others(env, x)));
    ChosenDistinct(j.p, LiveKeys(x.s.v), a.resolves, Screened(env, a, x));
    StillSucceeds(j, w, a.acks, g, i);
  }
}
