/** What a batch subscribe promises, whatever the other goroutines do meanwhile. */
module BatchProofs {

  import opened Basics
  import opened SymbolNames
  import opened NotificationManager
  import opened NotificationInvariant
  import opened ManagerLaws
  import opened BatchSubscribe

  // ---------------------------------------------------------------- what is assumed of the others and of the PLC

  /** The cache files every symbol under its own name's key. */
  predicate CacheOk(symbols: map<Key, Name>, names: set<Name>) {
    forall k | k in symbols :: KeyOf(symbols[k]) == k && symbols[k] in names
  }

  ghost predicate Sound(s: Shared, names: set<Name>) {
    Good(s.v, names) && CacheOk(s.symbols, names)
  }

  /** Others may do anything that keeps the bookkeeping, but bind only handles the PLC gave them. */
  ghost predicate Allowed(before: Shared, after: Shared, theirs: set<Handle>, names: set<Name>) {
    && (forall h | h in after.v.active :: h in before.v.active || h in theirs)
    && before.epoch <= after.epoch
    && (Sound(before, names) ==> Sound(after, names))
  }

  ghost predicate Rely(env: Env, theirs: set<Handle>, names: set<Name>) {
    forall n, s :: Allowed(s, env(n, s), theirs, names)
  }

  /** Nobody else touches the manager; the cache may still be swapped. */
  ghost predicate Quiet(env: Env) {
    forall n, s :: env(n, s).v == s.v
  }

  lemma OthersAllowed(env: Env, x: Moment, theirs: set<Handle>, names: set<Name>)
    requires Rely(env, theirs, names)
    ensures Allowed(x.s, Others(env, x).s, theirs, names)
  {
  }

  lemma OthersQuiet(env: Env, x: Moment)
    requires Quiet(env)
    ensures Others(env, x).s.v == x.s.v
  {
  }

  /** The handle the library learns for request i, if any. */
  function Learned(reply: Reply, n: nat, i: nat): Option<Handle>
    requires Answers(reply, n) && i < n
  {
    match reply
    case NoClient => None
    case SumFails => None
    case SumReply(items) => if items[i].error == 0 && items[i].handle != 0 then Some(items[i].handle) else None
    case OneByOne(outs) => if LinkUp(outs, i + 1) && outs[i].Handle? && outs[i].h != 0 then Some(outs[i].h) else None
  }

  function LearnedSet(reply: Reply, n: nat): set<Handle>
    requires Answers(reply, n)
  {
    set i | 0 <= i < n && Learned(reply, n, i).Some? :: Learned(reply, n, i).value
  }

  /** What the entry of a request without a handle says in the end. */
  function Failure(reply: Reply, n: nat, i: nat): Result
    requires Answers(reply, n) && i < n
  {
    match reply
    case NoClient => BLANK
    case SumFails => Skip(Transport)
    case SumReply(items) =>
      if items[i].error != 0 then Result(items[i].error, items[i].handle, None) else Skip(NoHandle)
    case OneByOne(outs) =>
      if !LinkUp(outs, i + 1) then Skip(Transport)
      else if outs[i].Rejected? then Result(outs[i].code, 0, None)
      else Skip(NoHandle)
  }

  /** The PLC gives every registration of the batch its own handle, none of them bound or given to others. */
  ghost predicate FreshHandles(reply: Reply, n: nat, bound: set<Handle>, theirs: set<Handle>)
    requires Answers(reply, n)
  {
    && (forall i | 0 <= i < n && Learned(reply, n, i).Some? ::
          Learned(reply, n, i).value !in bound && Learned(reply, n, i).value !in theirs)
    && (forall i, j | 0 <= i < j < n && Learned(reply, n, i).Some? :: Learned(reply, n, j) != Learned(reply, n, i))
  }

  /** The handles given to others, the names in use, and the handles bound when the batch began. */
  datatype World = World(theirs: set<Handle>, names: set<Name>, first: set<Handle>)

  ghost predicate Ready(p: Plan, w: World) {
    && Fit(p)
    && FreshHandles(p.reply, |p.sent|, w.first, w.theirs)
    && Compatible(w.names)
    && forall cfg | cfg in p.configs :: cfg.name in w.names
  }

  // ---------------------------------------------------------------- the requests reported so far

  /** A request whose handle was bound, and one whose handle was refused. */
  predicate Kept(b: Batch, idx: nat, h: Handle)
    requires idx < |b.results|
  {
    b.results[idx] == Result(0, h, None) && idx in b.committed && h !in b.refused
  }

  predicate Dropped(b: Batch, idx: nat, h: Handle)
    requires idx < |b.results|
  {
    b.results[idx].handle == h && b.results[idx].skipped.Some? && idx !in b.committed && h in b.refused
  }

  /** Neither a success nor skipped with a handle to release. */
  predicate Handleless(r: Result) {
    !Success(r) && (r.skipped.Some? ==> r.handle == 0)
  }

  ghost predicate ItemReported(b: Batch, p: Plan, i: nat)
    requires Fit(p) && i < |p.sent| && p.sent[i] < |b.results|
  {
    match Learned(p.reply, |p.sent|, i)
    case None => b.results[p.sent[i]] == Failure(p.reply, |p.sent|, i) && p.sent[i] !in b.committed
    case Some(h) => Kept(b, p.sent[i], h) || Dropped(b, p.sent[i], h)
  }

  ghost predicate LearnedBy(p: Plan, n: nat, h: Handle)
    requires Fit(p) && n <= |p.sent|
  {
    exists i | 0 <= i < n :: Learned(p.reply, |p.sent|, i) == Some(h)
  }

  /** The first n requests are reported, the others blank, and nothing else counts as a success. */
  ghost predicate ReportedTo(b: Batch, p: Plan, n: nat)
    requires Fit(p) && n <= |p.sent|
  {
    && |b.results| == |p.configs|
    && (forall i | 0 <= i < n :: ItemReported(b, p, i))
    && (forall i | n <= i < |p.sent| :: b.results[p.sent[i]] == BLANK)
    && (forall idx | 0 <= idx < |b.results| && idx !in p.sent :: Handleless(b.results[idx]))
    && (forall idx | idx in b.committed :: idx in p.sent[..n])
    && (forall h | h in b.refused :: LearnedBy(p, n, h))
  }

  /** A handle of this batch is bound only if its request was committed. */
  ghost predicate BoundIsKept(b: Batch, p: Plan, n: nat, bound: set<Handle>)
    requires Fit(p) && n <= |p.sent| && |b.results| == |p.configs|
  {
    forall i |
      0 <= i < |p.sent| && Learned(p.reply, |p.sent|, i).Some? && Learned(p.reply, |p.sent|, i).value in bound ::
      i < n && Kept(b, p.sent[i], Learned(p.reply, |p.sent|, i).value)
  }

  /** n requests are reported and the shared state is s. */
  ghost predicate Midway(p: Plan, w: World, b: Batch, n: nat, s: Shared)
    requires Fit(p) && n <= |p.sent|
  {
    Sound(s, w.names) && ReportedTo(b, p, n) && BoundIsKept(b, p, n, s.v.active.Keys)
  }

  lemma FreshNow(b: Batch, p: Plan, w: World, n: nat)
    requires Ready(p, w) && n < |p.sent| && ReportedTo(b, p, n)
    ensures p.sent[n] !in b.committed && b.results[p.sent[n]] == BLANK
    ensures Learned(p.reply, |p.sent|, n).Some? ==> Learned(p.reply, |p.sent|, n).value !in b.refused
  {
  }

  /** Reporting request n leaves the earlier ones as they were. */
  lemma EarlierKept(b: Batch, c: Batch, p: Plan, w: World, n: nat)
    requires Ready(p, w) && n < |p.sent| && ReportedTo(b, p, n)
    requires |c.results| == |b.results| && c.results == b.results[p.sent[n] := c.results[p.sent[n]]]
    requires c.committed == b.committed || c.committed == b.committed + [p.sent[n]]
    requires c.refused == b.refused ||
      (Learned(p.reply, |p.sent|, n).Some? && c.refused == b.refused + [Learned(p.reply, |p.sent|, n).value])
    requires ItemReported(c, p, n)
    ensures ReportedTo(c, p, n + 1)
    ensures forall i: nat, h: Handle | i < n && Kept(b, p.sent[i], h) && Learned(p.reply, |p.sent|, i) == Some(h) ::
      Kept(c, p.sent[i], h)
  {
    forall i | 0 <= i < n ensures ItemReported(c, p, i) {
      assert ItemReported(b, p, i) && p.sent[i] != p.sent[n];
    }
    forall idx | idx in c.committed ensures idx in p.sent[..n + 1] {
      if idx in b.committed {
        var i :| 0 <= i < n && p.sent[..n][i] == idx;
        assert p.sent[..n + 1][i] == idx;
      } else {
        assert p.sent[..n + 1][n] == idx;
      }
    }
    forall h | h in c.refused ensures LearnedBy(p, n + 1, h) {
      if h in b.refused {
        var i :| 0 <= i < n && Learned(p.reply, |p.sent|, i) == Some(h);
      }
    }
  }

  lemma RejectKeeps(b: Batch, p: Plan, w: World, n: nat, s: Shared)
    requires Ready(p, w) && n < |p.sent| && Midway(p, w, b, n, s) && Learned(p.reply, |p.sent|, n).None?
    ensures Midway(p, w, Reject(b, p.sent[n], Failure(p.reply, |p.sent|, n)), n + 1, s)
  {
    FreshNow(b, p, w, n);
    EarlierKept(b, Reject(b, p.sent[n], Failure(p.reply, |p.sent|, n)), p, w, n);
  }

  lemma DropKeeps(b: Batch, p: Plan, w: World, n: nat, s: Shared, h: Handle, why: Refusal)
    requires Ready(p, w) && n < |p.sent| && Midway(p, w, b, n, s) && Learned(p.reply, |p.sent|, n) == Some(h)
    ensures Midway(p, w, Drop(b, p.sent[n], h, why), n + 1, s)
  {
    FreshNow(b, p, w, n);
    EarlierKept(b, Drop(b, p.sent[n], h, why), p, w, n);
  }

  lemma KeepKeeps(b: Batch, p: Plan, w: World, n: nat, s: Shared, h: Handle, after: Shared)
    requires Ready(p, w) && n < |p.sent| && Midway(p, w, b, n, s) && Learned(p.reply, |p.sent|, n) == Some(h)
    requires Sound(after, w.names) && after.v.active.Keys <= s.v.active.Keys + {h}
    ensures Midway(p, w, Keep(b, p.sent[n], h), n + 1, after)
  {
    FreshNow(b, p, w, n);
    EarlierKept(b, Keep(b, p.sent[n], h), p, w, n);
  }

  lemma MidwayKept(p: Plan, w: World, b: Batch, n: nat, s: Shared, after: Shared)
    requires Ready(p, w) && n <= |p.sent| && Midway(p, w, b, n, s) && Allowed(s, after, w.theirs, w.names)
    ensures Midway(p, w, b, n, after)
  {
  }

  lemma MidwayOthers(env: Env, p: Plan, w: World, b: Batch, n: nat, x: Moment)
    requires Ready(p, w) && n <= |p.sent| && Midway(p, w, b, n, x.s) && Rely(env, w.theirs, w.names)
    ensures Midway(p, w, b, n, Others(env, x).s)
  {
    OthersAllowed(env, x, w.theirs, w.names);
    MidwayKept(p, w, b, n, x.s, Others(env, x).s);
  }

  // ---------------------------------------------------------------- one request

  /** Exactly the bindings of v, plus handles from hs. */
  ghost predicate Extends(v: View, w: View, hs: set<Handle>) {
    && (forall h | h in v.active :: h in w.active && w.active[h] == v.active[h])
    && (forall h | h in w.active :: h in v.active || h in hs)
  }

  /** The moment whose state the commit checks of a request see, when the batch stands at g before it. */
  function CheckedAt(j: Job, g: Progress): Moment {
    Others(j.env, Others(j.env, g.x))
  }

  lemma BindKeys(v: View, cfg: Config, full: Name, h: Handle, ch: Chan)
    requires OnFile(v)
    ensures Bind(v, cfg, full, h, ch).keys == v.keys + {KeyOf(cfg.name)}
  {
    FiledKeeps(RaiseRegistered(v.(active := v.active[h := Bound(full, ch)])), Pending(cfg, 0));
  }

  /** u is v with exactly this handle bound, to this name and channel, and exactly this config filed anew. */
  ghost predicate BoundMore(v: View, u: View, cfg: Config, full: Name, h: Handle, ch: Chan) {
    && u.active == v.active[h := Bound(full, ch)] && u.channel == Some(ch)
    && u.registered == Max(v.registered, |u.active|)
    && u.keys == v.keys + {KeyOf(cfg.name)} && FiledAs(v.pending, u.pending, Pending(cfg, 0))
  }

  lemma BindFacts(v: View, cfg: Config, full: Name, h: Handle, ch: Chan, u: View, names: set<Name>)
    requires Good(v, names) && cfg.name in names && full in names
    requires KeyOf(full) == KeyOf(cfg.name) && !HasLive(v, cfg.name) && u == Bind(v, cfg, full, h, ch)
    ensures Good(u, names) && BoundMore(v, u, cfg, full, h, ch)
  {
    BindGood(v, cfg, full, h, ch, names);
    BindKeys(v, cfg, full, h, ch);
    BindExactly(v, cfg, full, h, ch);
  }

  /** What a commit leaves, when its name is looked up at x and its checks see y. */
  ghost predicate Commits(j: Job, cfg: Config, h: Handle, x: Moment, y: Moment, c: Verdict, w: World) {
    && Sound(c.x.s, w.names) && c.x.s.epoch == y.s.epoch
    && (y.s.epoch != j.begin ==> c.refusal == Some(Stranded))
    && (c.refusal.Some? ==> c.x == y)
    && (c.refusal.None? <==> Clear(j, cfg, x, y))
    && (c.refusal.None? ==> BoundMore(y.s.v, c.x.s.v, cfg, x.s.symbols[KeyOf(cfg.name)], h, j.p.ch))
  }

  /** Nothing stands against the commit: same epoch, cached name, right channel, nothing live under the key. */
  predicate Clear(j: Job, cfg: Config, x: Moment, y: Moment) {
    && y.s.epoch == j.begin && KeyOf(cfg.name) in x.s.symbols
    && !WrongChannel(y.s.v, j.p.ch) && !HasLive(y.s.v, cfg.name)
  }

  lemma CommitFacts(j: Job, cfg: Config, h: Handle, x: Moment, w: World)
    requires Rely(j.env, w.theirs, w.names) && Sound(x.s, w.names) && cfg.name in w.names
    ensures Commits(j, cfg, h, x, Others(j.env, x), Committed(j, cfg, h, x), w)
  {
    OthersAllowed(j.env, x, w.theirs, w.names);
    var y := Others(j.env, x);
    var c := Committed(j, cfg, h, x);
    if c.refusal.None? {
      BindFacts(y.s.v, cfg, x.s.symbols[KeyOf(cfg.name)], h, j.p.ch, c.x.s.v, w.names);
    }
  }

  lemma BindStep(j: Job, w: World, n: nat, h: Handle, g: Progress)
    requires Ready(j.p, w) && Rely(j.env, w.theirs, w.names) && n < |j.p.sent| && Shaped(j.p, g.b)
    requires Midway(j.p, w, g.b, n, g.x.s) && Learned(j.p.reply, |j.p.sent|, n) == Some(h)
    ensures
      var k := BindAfter(j, n, h, g);
      Midway(j.p, w, k.b, n + 1, k.x.s) && g.x.s.epoch <= Others(j.env, g.x).s.epoch <= k.x.s.epoch
  {
    var idx := j.p.sent[n];
    var y := Others(j.env, g.x);
    var c := Committed(j, j.p.configs[idx], h, g.x);
    CommitFacts(j, j.p.configs[idx], h, g.x, w);
    OthersAllowed(j.env, g.x, w.theirs, w.names);
    MidwayOthers(j.env, j.p, w, g.b, n, g.x);
    if c.refusal.Some? {
      DropKeeps(g.b, j.p, w, n, y.s, h, c.refusal.value);
    } else {
      KeepKeeps(g.b, j.p, w, n, y.s, h, c.x.s);
      OthersAllowed(j.env, c.x, w.theirs, w.names);
      MidwayOthers(j.env, j.p, w, Keep(g.b, idx, h), n + 1, c.x);
    }
  }

  /** Which of onItem's three cases applies. */
  lemma ItemCases(j: Job, w: World, n: nat, g: Progress)
    requires Ready(j.p, w) && n < |j.p.sent| && Shaped(j.p, g.b) && Itemized(j.p.reply) && ReportedTo(g.b, j.p, n)
    ensures
      var y := Others(j.env, g.x);
      ItemAfter(j, n, g) ==
      match Learned(j.p.reply, |j.p.sent|, n)
      case None => Progress(Reject(g.b, j.p.sent[n], Failure(j.p.reply, |j.p.sent|, n)), y)
      case Some(h) => BindAfter(j, n, h, g.(x := y))
  {
    FreshNow(g.b, j.p, w, n);
  }

  lemma ItemStep(j: Job, w: World, n: nat, g: Progress)
    requires Ready(j.p, w) && Rely(j.env, w.theirs, w.names) && n < |j.p.sent| && Shaped(j.p, g.b)
    requires Itemized(j.p.reply) && Midway(j.p, w, g.b, n, g.x.s)
    ensures
      var k := ItemAfter(j, n, g);
      Midway(j.p, w, k.b, n + 1, k.x.s) && g.x.s.epoch <= k.x.s.epoch
  {
    ItemCases(j, w, n, g);
    OthersAllowed(j.env, g.x, w.theirs, w.names);
    MidwayOthers(j.env, j.p, w, g.b, n, g.x);
    if Learned(j.p.reply, |j.p.sent|, n).None? {
      RejectKeeps(g.b, j.p, w, n, Others(j.env, g.x).s);
    } else {
      BindStep(j, w, n, Learned(j.p.reply, |j.p.sent|, n).value, g.(x := Others(j.env, g.x)));
    }
  }

  /** A request touches its own entry only, and is refused when its commit check sees another epoch than the batch's. */
  lemma ItemOwn(j: Job, w: World, n: nat, g: Progress)
    requires Ready(j.p, w) && Rely(j.env, w.theirs, w.names) && n < |j.p.sent| && Shaped(j.p, g.b)
    requires Itemized(j.p.reply) && Midway(j.p, w, g.b, n, g.x.s)
    ensures
      var k := ItemAfter(j, n, g);
      && |k.b.results| == |g.b.results|
      && (forall idx | 0 <= idx < |g.b.results| && idx != j.p.sent[n] :: k.b.results[idx] == g.b.results[idx])
      && (Learned(j.p.reply, |j.p.sent|, n).Some? && CheckedAt(j, g).s.epoch != j.begin ==>
            k.b.results[j.p.sent[n]].skipped == Some(Refused(Stranded)))
      && g.x.s.epoch <= CheckedAt(j, g).s.epoch
  {
    ItemCases(j, w, n, g);
    OthersAllowed(j.env, g.x, w.theirs, w.names);
    OthersAllowed(j.env, Others(j.env, g.x), w.theirs, w.names);
    if Learned(j.p.reply, |j.p.sent|, n).Some? {
      CommitFacts(j, j.p.configs[j.p.sent[n]], Learned(j.p.reply, |j.p.sent|, n).value, Others(j.env, g.x), w);
    }
  }

  /**
   * A request is committed exactly when its checks find nothing; its handle is then bound, in the batch's own
   * epoch.
   */
  lemma CommittedWhenBound(j: Job, w: World, n: nat, g: Progress, h: Handle)
    requires Ready(j.p, w) && Rely(j.env, w.theirs, w.names) && n < |j.p.sent| && Shaped(j.p, g.b)
    requires Itemized(j.p.reply) && Midway(j.p, w, g.b, n, g.x.s) && Learned(j.p.reply, |j.p.sent|, n) == Some(h)
    ensures
      var c := Committed(j, j.p.configs[j.p.sent[n]], h, Others(j.env, g.x));
      && (j.p.sent[n] in ItemAfter(j, n, g).b.committed <==> c.refusal.None?)
      && (c.refusal.None? ==> h in c.x.s.v.active && CheckedAt(j, g).s.epoch == j.begin)
  {
    ItemCases(j, w, n, g);
    FreshNow(g.b, j.p, w, n);
    OthersAllowed(j.env, g.x, w.theirs, w.names);
    CommitFacts(j, j.p.configs[j.p.sent[n]], h, Others(j.env, g.x), w);
  }

  // ---------------------------------------------------------------- all requests

  ghost predicate Starts(j: Job, w: World, g: Progress) {
    && Ready(j.p, w) && Rely(j.env, w.theirs, w.names) && Shaped(j.p, g.b)
    && Midway(j.p, w, g.b, 0, g.x.s)
  }

  /** n requests are reported, and the epoch has not fallen since the batch began. */
  ghost predicate Underway(j: Job, w: World, g: Progress, k: Progress, n: nat) {
    && Fit(j.p) && n <= |j.p.sent| && Shaped(j.p, k.b)
    && Midway(j.p, w, k.b, n, k.x.s) && g.x.s.epoch <= k.x.s.epoch
  }

  /** What the report of request n changes. */
  ghost predicate Reports(j: Job, n: nat, g: Progress, k: Progress)
    requires Fit(j.p) && n < |j.p.sent| && Shaped(j.p, g.b) && Shaped(j.p, k.b)
  {
    && (forall idx | 0 <= idx < |g.b.results| && idx != j.p.sent[n] :: k.b.results[idx] == g.b.results[idx])
    && (Learned(j.p.reply, |j.p.sent|, n).Some? && CheckedAt(j, g).s.epoch != j.begin ==>
          k.b.results[j.p.sent[n]].skipped == Some(Refused(Stranded)))
    && g.x.s.epoch <= CheckedAt(j, g).s.epoch && g.x.s.epoch <= k.x.s.epoch
  }

  lemma PathStep(j: Job, w: World, g: Progress, path: Path, n: nat)
    requires Starts(j, w, g) && Follows(path, j, g) && n < |j.p.sent| && Underway(j, w, g, path(n), n)
    ensures Underway(j, w, g, path(n + 1), n + 1) && Reports(j, n, path(n), path(n + 1))
  {
    var here := path(n);
    PathNext(j, g, path, n);
    ItemStep(j, w, n, here);
    ItemOwn(j, w, n, here);
  }

  lemma PathNext(j: Job, g: Progress, path: Path, n: nat)
    requires Follows(path, j, g) && n < |j.p.sent|
    ensures Shaped(j.p, path(n).b) && path(n + 1) == ItemAfter(j, n, path(n))
  {
    assert path(n) == ItemsDone(j, g, n) && path(n + 1) == ItemsDone(j, g, n + 1);
  }

  lemma PathStart(j: Job, g: Progress, path: Path)
    requires Follows(path, j, g)
    ensures path(0) == g
  {
    assert path(0) == ItemsDone(j, g, 0);
  }

  lemma {:induction false} PathUnderway(j: Job, w: World, g: Progress, path: Path, n: nat)
    requires Starts(j, w, g) && Follows(path, j, g) && n <= |j.p.sent|
    ensures Underway(j, w, g, path(n), n)
  {
    if n == 0 {
      PathStart(j, g, path);
    } else {
      PathUnderway(j, w, g, path, n - 1);
      PathStep(j, w, g, path, n - 1);
    }
  }

  /** The epoch does not fall between one request and a later one. */
  lemma {:induction false} EpochNeverFalls(j: Job, w: World, g: Progress, path: Path, m: nat, n: nat)
    requires Starts(j, w, g) && Follows(path, j, g) && m <= n <= |j.p.sent|
    ensures path(m).x.s.epoch <= path(n).x.s.epoch
    decreases n
  {
    if m < n {
      EpochNeverFalls(j, w, g, path, m, n - 1);
      PathUnderway(j, w, g, path, n - 1);
      PathStep(j, w, g, path, n - 1);
    }
  }

  /** What request i reported still stands after n requests. */
  lemma {:induction false} ReportStands(j: Job, w: World, g: Progress, path: Path, i: nat, n: nat)
    requires Starts(j, w, g) && Follows(path, j, g) && i < n <= |j.p.sent|
    ensures |path(n).b.results| == |path(i + 1).b.results| == |j.p.configs|
    ensures path(n).b.results[j.p.sent[i]] == path(i + 1).b.results[j.p.sent[i]]
    decreases n
  {
    PathUnderway(j, w, g, path, i + 1);
    if i + 1 < n {
      ReportStands(j, w, g, path, i, n - 1);
      PathUnderway(j, w, g, path, n - 1);
      PathStep(j, w, g, path, n - 1);
    }
  }

  ghost function PathOf(j: Job, g: Progress): (path: Path)
    requires Fit(j.p) && Shaped(j.p, g.b) && Itemized(j.p.reply)
    ensures Follows(path, j, g)
  {
    (n: nat) => if n <= |j.p.sent| then ItemsDone(j, g, n) else g
  }

  // ---------------------------------------------------------------- up to settle

  ghost predicate NoneAfter(p: Plan, n: nat)
    requires Fit(p)
  {
    forall i | n <= i < |p.sent| :: Learned(p.reply, |p.sent|, i).None?
  }

  /** Marking changes nothing that is reported already, and every blank entry that was sent. */
  lemma {:induction false} MarkedIs(p: Plan, results: seq<Result>, n: nat, idx: nat)
    requires Fit(p) && |results| == |p.configs| && n <= |p.sent| && idx < |results|
    ensures Marked(p, results, n)[idx] ==
      if idx in p.sent[..n] && results[idx] == BLANK then Skip(Transport) else results[idx]
  {
    if n > 0 {
      MarkedIs(p, results, n - 1, idx);
      MarkedIs(p, results, n - 1, p.sent[n - 1]);
      assert p.sent[..n] == p.sent[..n - 1] + [p.sent[n - 1]];
      assert p.sent[n - 1] !in p.sent[..n - 1];
    }
  }

  lemma AllReportedMarked(p: Plan, w: World, b: Batch, s: Shared)
    requires Ready(p, w) && Midway(p, w, b, |p.sent|, s) && Itemized(p.reply)
    ensures Marked(p, b.results, |p.sent|) == b.results
  {
    forall idx | 0 <= idx < |b.results| ensures Marked(p, b.results, |p.sent|)[idx] == b.results[idx] {
      MarkedIs(p, b.results, |p.sent|, idx);
      if idx in p.sent {
        var i :| 0 <= i < |p.sent| && p.sent[i] == idx;
        assert ItemReported(b, p, i);
        NeverBlank(p, i);
      } else {
        assert idx !in p.sent[..|p.sent|];
      }
    }
  }

  lemma NeverBlank(p: Plan, i: nat)
    requires Fit(p) && i < |p.sent|
    ensures Learned(p.reply, |p.sent|, i) != Some(0)
    ensures !p.reply.NoClient? ==> Failure(p.reply, |p.sent|, i) != BLANK
  {
  }

  lemma SumFailsMarked(p: Plan, w: World, b: Batch, s: Shared)
    requires Ready(p, w) && Midway(p, w, b, 0, s) && p.reply.SumFails?
    ensures Midway(p, w, b.(results := Marked(p, b.results, |p.sent|)), |p.sent|, s)
  {
    var c := b.(results := Marked(p, b.results, |p.sent|));
    forall idx | 0 <= idx < |b.results|
      ensures c.results[idx] == if idx in p.sent && b.results[idx] == BLANK then Skip(Transport) else b.results[idx]
    {
      MarkedIs(p, b.results, |p.sent|, idx);
      assert p.sent[..|p.sent|] == p.sent;
    }
  }

  /** How many requests are reported when settle begins. */
  function ReportedCount(p: Plan): nat {
    if p.reply.NoClient? then 0 else |p.sent|
  }

  lemma ReportedStep(j: Job, w: World, g: Progress)
    requires Starts(j, w, g)
    ensures Underway(j, w, g, Reported(j, g), ReportedCount(j.p)) && NoneAfter(j.p, ReportedCount(j.p))
    ensures Itemized(j.p.reply) ==> Reported(j, g) == PathOf(j, g)(|j.p.sent|)
  {
    if Itemized(j.p.reply) {
      var k := PathOf(j, g)(|j.p.sent|);
      PathUnderway(j, w, g, PathOf(j, g), |j.p.sent|);
      AllReportedMarked(j.p, w, k.b, k.x.s);
    } else if j.p.reply.SumFails? {
      SumFailsMarked(j.p, w, g.b, g.x.s);
    }
  }

  // ---------------------------------------------------------------- settling

  predicate Swept(b: Batch, idx: nat, bound: set<Handle>)
    requires idx < |b.results|
  {
    idx in b.committed && b.results[idx].handle !in bound
  }

  lemma {:induction false} UnboundExactly(b: Batch, bound: set<Handle>, k: nat, idx: nat)
    requires k <= |b.committed| && Indices(b.committed, |b.results|) && idx < |b.results|
    ensures idx in Unbound(b, bound, k) <==> idx in b.committed[..k] && b.results[idx].handle !in bound
  {
    if k > 0 {
      UnboundExactly(b, bound, k - 1, idx);
      assert b.committed[..k] == b.committed[..k - 1] + [b.committed[k - 1]];
    }
  }

  lemma {:induction false} AmendedIs(results: seq<Result>, entries: seq<nat>, n: nat, idx: nat)
    requires Indices(entries, |results|) && n <= |entries| && idx < |results|
    ensures AmendAll(results, entries, n)[idx] == if idx in entries[..n] then Amended(results[idx]) else results[idx]
  {
    if n > 0 {
      AmendedIs(results, entries, n - 1, idx);
      assert entries[..n] == entries[..n - 1] + [entries[n - 1]];
    }
  }

  lemma {:induction false} LeftoverExactly(results: seq<Result>, committed: seq<nat>, k: nat, h: Handle)
    requires Indices(committed, |results|) && k <= |committed|
    ensures h in Leftover(results, committed, k) <==>
      h != 0 && exists m | 0 <= m < k :: results[committed[m]].skipped.Some? && results[committed[m]].handle == h
  {
    if k > 0 {
      LeftoverExactly(results, committed, k - 1, h);
    }
  }

  /** Settling amends exactly the committed entries that are not bound. */
  lemma AmendExactly(b: Batch, bound: set<Handle>, idx: nat)
    requires Indices(b.committed, |b.results|) && idx < |b.results|
    ensures |AmendedBatch(b, bound).results| == |b.results|
    ensures AmendedBatch(b, bound).results[idx] ==
      if Swept(b, idx, bound) then Amended(b.results[idx]) else b.results[idx]
  {
    var stranded := Unbound(b, bound, |b.committed|);
    assert stranded[..|stranded|] == stranded && b.committed[..|b.committed|] == b.committed;
    UnboundExactly(b, bound, |b.committed|, idx);
    AmendedIs(b.results, stranded, |stranded|, idx);
  }

  /** Settling sets aside exactly the handles of those entries, besides the ones set aside before. */
  lemma ReleaseExactly(b: Batch, bound: set<Handle>, h: Handle)
    requires Indices(b.committed, |b.results|)
    requires forall m | 0 <= m < |b.committed| :: b.results[b.committed[m]].skipped.None?
    ensures h in AmendedBatch(b, bound).refused <==>
      || h in b.refused
      || (h != 0 && exists idx | 0 <= idx < |b.results| :: Swept(b, idx, bound) && b.results[idx].handle == h)
  {
    var c := AmendedBatch(b, bound);
    forall idx | 0 <= idx < |b.results|
      ensures c.results[idx] == if Swept(b, idx, bound) then Amended(b.results[idx]) else b.results[idx]
    {
      AmendExactly(b, bound, idx);
    }
    LeftoverExactly(c.results, b.committed, |b.committed|, h);
    if m :| 0 <= m < |b.committed| && c.results[b.committed[m]].skipped.Some? && c.results[b.committed[m]].handle == h {
      assert Swept(b, b.committed[m], bound);
    }
    if idx :| 0 <= idx < |b.results| && Swept(b, idx, bound) && b.results[idx].handle == h {
      var m :| 0 <= m < |b.committed| && b.committed[m] == idx;
      assert c.results[b.committed[m]].skipped.Some?;
    }
  }

  /** The outcome of one request: a success exactly when its handle is bound, and released exactly when it is not. */
  ghost predicate FinalItem(p: Plan, c: Batch, bound: set<Handle>, i: nat)
    requires Fit(p) && |c.results| == |p.configs| && i < |p.sent|
  {
    match Learned(p.reply, |p.sent|, i)
    case None => c.results[p.sent[i]] == Failure(p.reply, |p.sent|, i)
    case Some(h) =>
      && c.results[p.sent[i]].handle == h
      && (h in bound ==> Success(c.results[p.sent[i]]))
      && (h !in bound ==> c.results[p.sent[i]].skipped.Some?)
      && (h in c.refused <==> h !in bound)
  }

  ghost predicate Final(p: Plan, c: Batch, bound: set<Handle>)
    requires Fit(p)
  {
    && |c.results| == |p.configs|
    && (forall i | 0 <= i < |p.sent| :: FinalItem(p, c, bound, i))
    && (forall idx | 0 <= idx < |p.configs| && idx !in p.sent :: Handleless(c.results[idx]))
    && (forall h | h in c.refused :: h in LearnedSet(p.reply, |p.sent|))
  }

  /** Committed entries are reported without a reason to skip them. */
  lemma CommittedKept(p: Plan, w: World, b: Batch, n: nat, s: Shared)
    requires Ready(p, w) && n <= |p.sent| && Midway(p, w, b, n, s)
    ensures Indices(b.committed, |b.results|)
    ensures forall m | 0 <= m < |b.committed| :: b.results[b.committed[m]].skipped.None?
  {
    forall m | 0 <= m < |b.committed| ensures b.committed[m] < |b.results| && b.results[b.committed[m]].skipped.None? {
      assert b.committed[m] in b.committed;
      var i :| 0 <= i < n && p.sent[..n][i] == b.committed[m];
      assert ItemReported(b, p, i);
    }
  }

  /** The committed entry that carries a learned handle is the one it was learned for. */
  lemma SweptIsOwn(p: Plan, w: World, b: Batch, n: nat, s: Shared, i: nat, idx: nat)
    requires Ready(p, w) && n <= |p.sent| && Midway(p, w, b, n, s) && i < n && idx < |b.results| && idx in b.committed
    requires Learned(p.reply, |p.sent|, i) == Some(b.results[idx].handle)
    ensures idx == p.sent[i]
  {
    var k :| 0 <= k < n && p.sent[..n][k] == idx;
    assert ItemReported(b, p, k);
  }

  lemma SettledItem(p: Plan, w: World, b: Batch, n: nat, s: Shared, i: nat)
    requires Ready(p, w) && n <= |p.sent| && Midway(p, w, b, n, s) && NoneAfter(p, n) && i < |p.sent|
    requires Shaped(p, b) && (p.reply.NoClient? || n == |p.sent|)
    ensures |AmendedBatch(b, s.v.active.Keys).results| == |p.configs|
    ensures FinalItem(p, AmendedBatch(b, s.v.active.Keys), s.v.active.Keys, i)
  {
    var bound := s.v.active.Keys;
    AmendExactly(b, bound, p.sent[i]);
    CommittedKept(p, w, b, n, s);
    if i >= n {
      assert p.sent[i] !in b.committed;
    } else {
      assert ItemReported(b, p, i);
      if Learned(p.reply, |p.sent|, i).Some? {
        var h := Learned(p.reply, |p.sent|, i).value;
        NeverBlank(p, i);
        ReleaseExactly(b, bound, h);
        if idx :| 0 <= idx < |b.results| && Swept(b, idx, bound) && b.results[idx].handle == h {
          SweptIsOwn(p, w, b, n, s, i, idx);
        }
      }
    }
  }

  lemma SettledFinal(p: Plan, w: World, b: Batch, n: nat, s: Shared)
    requires Ready(p, w) && n <= |p.sent| && Midway(p, w, b, n, s) && NoneAfter(p, n)
    requires Shaped(p, b) && (p.reply.NoClient? || n == |p.sent|)
    ensures Final(p, AmendedBatch(b, s.v.active.Keys), s.v.active.Keys)
  {
    var bound := s.v.active.Keys;
    var c := AmendedBatch(b, bound);
    forall i | 0 <= i < |p.sent| ensures |c.results| == |p.configs| && FinalItem(p, c, bound, i) {
      SettledItem(p, w, b, n, s, i);
    }
    forall idx | 0 <= idx < |p.configs| && idx !in p.sent
      ensures |c.results| == |p.configs| && Handleless(c.results[idx])
    {
      AmendExactly(b, bound, idx);
    }
    forall h | h in c.refused ensures h in LearnedSet(p.reply, |p.sent|) {
      SettledLearned(p, w, b, n, s, h);
    }
  }

  lemma SettledLearned(p: Plan, w: World, b: Batch, n: nat, s: Shared, h: Handle)
    requires Ready(p, w) && n <= |p.sent| && Midway(p, w, b, n, s) && Shaped(p, b)
    requires h in AmendedBatch(b, s.v.active.Keys).refused
    ensures h in LearnedSet(p.reply, |p.sent|)
  {
    CommittedKept(p, w, b, n, s);
    ReleaseExactly(b, s.v.active.Keys, h);
    if h in b.refused {
      var i :| 0 <= i < n && Learned(p.reply, |p.sent|, i) == Some(h);
    } else {
      var idx :| 0 <= idx < |b.results| && Swept(b, idx, s.v.active.Keys) && b.results[idx].handle == h;
      var i :| 0 <= i < n && p.sent[..n][i] == idx;
      assert ItemReported(b, p, i);
    }
  }

  // ---------------------------------------------------------------- what settling leaves of the manager

  lemma UnfiledOne(v: View, name: Name, names: set<Name>, u: View)
    requires Good(v, names) && Compatible(names) && name in names && u == Unfiled(v, name)
    ensures Good(u, names) && u.active == v.active && u.keys == v.keys - {KeyOf(name)}
  {
    UnfiledGood(v, name, names);
    CompatibleFinds(v, name, names);
    UnfiledKeepsExactly(v, name);
  }

  function EntryKeys(configs: seq<Config>, entries: seq<nat>): set<Key>
    requires Indices(entries, |configs|)
  {
    set m | 0 <= m < |entries| :: KeyOf(configs[entries[m]].name)
  }

  lemma EntryKeysCons(configs: seq<Config>, entries: seq<nat>)
    requires Indices(entries, |configs|) && entries != []
    ensures EntryKeys(configs, entries) == {KeyOf(configs[entries[0]].name)} + EntryKeys(configs, entries[1..])
  {
    var rest := entries[1..];
    forall k | k in EntryKeys(configs, entries)
      ensures k in {KeyOf(configs[entries[0]].name)} + EntryKeys(configs, rest)
    {
      var m :| 0 <= m < |entries| && k == KeyOf(configs[entries[m]].name);
      assert m > 0 ==> rest[m - 1] == entries[m];
    }
    forall k | k in EntryKeys(configs, rest) ensures k in EntryKeys(configs, entries) {
      var m :| 0 <= m < |rest| && k == KeyOf(configs[rest[m]].name);
      assert entries[m + 1] == rest[m];
    }
  }

  lemma {:induction false} UnfileAllGood(v: View, configs: seq<Config>, entries: seq<nat>, names: set<Name>)
    requires Good(v, names) && Compatible(names) && forall cfg | cfg in configs :: cfg.name in names
    requires Indices(entries, |configs|)
    ensures
      var u := UnfileAll(v, configs, entries);
      Good(u, names) && u.active == v.active && u.keys == v.keys - EntryKeys(configs, entries)
    decreases |entries|
  {
    if entries != [] {
      assert configs[entries[0]] in configs;
      var u := Unfiled(v, configs[entries[0]].name);
      UnfiledOne(v, configs[entries[0]].name, names, u);
      UnfileAllGood(u, configs, entries[1..], names);
      EntryKeysCons(configs, entries);
    }
  }

  /** Settling takes exactly the keys of the amended entries off file. */
  lemma SettleUnfilesExactly(p: Plan, w: World, b: Batch, v: View, k: Key)
    requires Ready(p, w) && Shaped(p, b) && Good(v, w.names)
    ensures k in SettledView(p, b, v).keys <==> k in v.keys && !SweptKey(p, b, v.active.Keys, k)
  {
    var stranded := Unbound(b, v.active.Keys, |b.committed|);
    assert b.committed[..|b.committed|] == b.committed;
    forall idx | 0 <= idx < |b.results| ensures idx in stranded <==> Swept(b, idx, v.active.Keys) {
      UnboundExactly(b, v.active.Keys, |b.committed|, idx);
    }
    UnfileAllGood(v, p.configs, stranded, w.names);
    if k in EntryKeys(p.configs, stranded) {
      var m :| 0 <= m < |stranded| && KeyOf(p.configs[stranded[m]].name) == k;
      assert stranded[m] in stranded;
    }
    if SweptKey(p, b, v.active.Keys, k) {
      var idx :| 0 <= idx < |b.results| && Swept(b, idx, v.active.Keys) && KeyOf(p.configs[idx].name) == k;
      var m :| 0 <= m < |stranded| && stranded[m] == idx;
    }
  }

  /** Some entry that settle amends has this key. */
  predicate SweptKey(p: Plan, b: Batch, bound: set<Handle>, k: Key)
    requires Shaped(p, b)
  {
    exists idx | 0 <= idx < |b.results| :: Swept(b, idx, bound) && KeyOf(p.configs[idx].name) == k
  }

  lemma {:induction false} ConfirmedAmong(hs: seq<Handle>, acks: Handle -> bool, n: nat)
    requires n <= |hs|
    ensures forall h | h in Confirmed(hs, acks, n) :: h in hs
  {
    if n > 0 {
      ConfirmedAmong(hs, acks, n - 1);
    }
  }

  lemma {:induction false} FlushFewer(v: View, hs: seq<Handle>)
    ensures forall h | h in FlushAll(v, hs, false).active :: h in v.active
    ensures (forall h | h in hs :: h !in v.active) ==> FlushAll(v, hs, false) == v
    decreases |hs|
  {
    if hs != [] {
      FlushFewer(FlushOne(v, hs[0], false), hs[1..]);
      if hs[0] !in v.active {
        assert v.active - {hs[0]} == v.active;
      }
    }
  }

  lemma {:induction false} ConfirmedExactly(hs: seq<Handle>, acks: Handle -> bool, n: nat, h: Handle)
    requires n <= |hs|
    ensures h in Confirmed(hs, acks, n) <==> h in hs[..n] && acks(h)
  {
    if n > 0 {
      ConfirmedExactly(hs, acks, n - 1, h);
      assert hs[..n] == hs[..n - 1] + [hs[n - 1]];
    }
  }

  lemma {:induction false} FlushedExactly(v: View, hs: seq<Handle>, h: Handle)
    ensures h in FlushAll(v, hs, false).active <==> h in v.active && h !in hs
    decreases |hs|
  {
    if hs != [] {
      FlushedExactly(FlushOne(v, hs[0], false), hs[1..], h);
      assert h in hs <==> h == hs[0] || h in hs[1..];
    }
  }

  /** A best-effort delete unbinds exactly the handles it names whose deletion the PLC confirms. */
  lemma ReleasesConfirmed(env: Env, hs: seq<Handle>, acks: Handle -> bool, x: Moment, h: Handle)
    ensures h in Released(env, hs, acks, x).s.v.active <==>
      h in BookedAt(env, hs, x).s.v.active && !(h in hs && acks(h))
  {
    if hs != [] {
      ConfirmedExactly(hs, acks, |hs|, h);
      assert hs[..|hs|] == hs;
      FlushedExactly(Others(env, x).s.v, Confirmed(hs, acks, |hs|), h);
    }
  }

  /** The moment at which a best-effort delete books the answers. */
  function BookedAt(env: Env, hs: seq<Handle>, x: Moment): Moment {
    if hs == [] then x else Others(env, x)
  }

  lemma ReleasedFacts(env: Env, hs: seq<Handle>, acks: Handle -> bool, x: Moment, w: World)
    requires Rely(env, w.theirs, w.names) && Compatible(w.names) && Sound(x.s, w.names)
    ensures
      var y := BookedAt(env, hs, x);
      var z := Released(env, hs, acks, x);
      && Sound(z.s, w.names) && z.s.epoch == y.s.epoch && x.s.epoch <= z.s.epoch
      && (forall h | h in z.s.v.active :: h in y.s.v.active)
      && (forall h | h in z.s.v.active :: h in x.s.v.active || h in w.theirs)
      && ((forall h | h in hs :: h !in y.s.v.active) ==> z == y)
  {
    if hs != [] {
      var y := Others(env, x);
      OthersAllowed(env, x, w.theirs, w.names);
      ConfirmedAmong(hs, acks, |hs|);
      FlushAllGood(y.s.v, Confirmed(hs, acks, |hs|), false, w.names);
      FlushFewer(y.s.v, Confirmed(hs, acks, |hs|));
    }
  }

  /** The moment at which settle looks at what is bound. */
  ghost function LookedAt(j: Job, g: Progress): Moment
    requires Fit(j.p) && Shaped(j.p, g.b)
  {
    Others(j.env, Reported(j, g).x)
  }

  /** Whatever the others do, the batch ends with every request decided by what is bound when settle looks. */
  lemma BatchSettles(j: Job, w: World, acks: Handle -> bool, g: Progress)
    requires Starts(j, w, g)
    ensures
      var k := Settled(j, acks, Reported(j, g));
      && Final(j.p, k.b, LookedAt(j, g).s.v.active.Keys)
      && Sound(k.x.s, w.names) && g.x.s.epoch <= k.x.s.epoch
      && forall h | h in k.x.s.v.active :: h in LookedAt(j, g).s.v.active || h in w.theirs
  {
    var r := Reported(j, g);
    ReportedStep(j, w, g);
    var y := LookedAt(j, g);
    OthersAllowed(j.env, r.x, w.theirs, w.names);
    MidwayOthers(j.env, j.p, w, r.b, ReportedCount(j.p), r.x);
    SettledFinal(j.p, w, r.b, ReportedCount(j.p), y.s);
    var stranded := Unbound(r.b, y.s.v.active.Keys, |r.b.committed|);
    UnfileAllGood(y.s.v, j.p.configs, stranded, w.names);
    var c := AmendedBatch(r.b, y.s.v.active.Keys);
    ReleasedFacts(j.env, c.refused, acks, With(y, SettledView(j.p, r.b, y.s.v)), w);
  }

  // ---------------------------------------------------------------- swaps of the cache

  /** Settling leaves an entry that was never committed. */
  lemma UncommittedStands(j: Job, w: World, acks: Handle -> bool, g: Progress, idx: nat)
    requires Starts(j, w, g) && idx < |j.p.configs| && idx !in Reported(j, g).b.committed
    ensures |Settled(j, acks, Reported(j, g)).b.results| == |j.p.configs|
    ensures Settled(j, acks, Reported(j, g)).b.results[idx] == Reported(j, g).b.results[idx]
  {
    AmendExactly(Reported(j, g).b, LookedAt(j, g).s.v.active.Keys, idx);
  }

  /** A request whose commit check sees another epoch than the one the batch began in is refused and released. */
  lemma SwapRefusesItem(j: Job, w: World, acks: Handle -> bool, g: Progress, i: nat, h: Handle)
    requires Starts(j, w, g) && i < |j.p.sent| && Learned(j.p.reply, |j.p.sent|, i) == Some(h)
    requires CheckedAt(j, PathOf(j, g)(i)).s.epoch != j.begin
    ensures
      var c := Settled(j, acks, Reported(j, g)).b;
      && |c.results| == |j.p.configs| && c.results[j.p.sent[i]].skipped == Some(Refused(Stranded))
      && h in c.refused && h !in LookedAt(j, g).s.v.active
  {
    var path := PathOf(j, g);
    var r := Reported(j, g);
    ReportedStep(j, w, g);
    PathUnderway(j, w, g, path, i);
    PathStep(j, w, g, path, i);
    ReportStands(j, w, g, path, i, |j.p.sent|);
    assert ItemReported(r.b, j.p, i);
    UncommittedStands(j, w, acks, g, j.p.sent[i]);
    BatchSettles(j, w, acks, g);
    assert FinalItem(j.p, Settled(j, acks, r).b, LookedAt(j, g).s.v.active.Keys, i);
  }

  /** A swap seen by then: once the epoch has risen, no later request is bound. */
  lemma SwapRefusesTheRest(j: Job, w: World, acks: Handle -> bool, g: Progress, m: nat, i: nat, h: Handle)
    requires Starts(j, w, g) && g.x.s.epoch == j.begin && m <= i < |j.p.sent|
    requires Learned(j.p.reply, |j.p.sent|, i) == Some(h) && PathOf(j, g)(m).x.s.epoch != j.begin
    ensures
      var c := Settled(j, acks, Reported(j, g)).b;
      && |c.results| == |j.p.configs| && c.results[j.p.sent[i]].skipped == Some(Refused(Stranded))
      && h in c.refused && h !in LookedAt(j, g).s.v.active
  {
    var path := PathOf(j, g);
    PathUnderway(j, w, g, path, m);
    PathUnderway(j, w, g, path, i);
    EpochNeverFalls(j, w, g, path, m, i);
    PathStep(j, w, g, path, i);
    SwapRefusesItem(j, w, acks, g, i, h);
  }

  /** The entries of configs that were not sent stay as the screening left them. */
  lemma {:induction false} UnsentStands(j: Job, w: World, g: Progress, path: Path, n: nat, idx: nat)
    requires Starts(j, w, g) && Follows(path, j, g) && n <= |j.p.sent| && idx < |j.p.configs| && idx !in j.p.sent
    ensures |path(n).b.results| == |j.p.configs| && path(n).b.results[idx] == g.b.results[idx]
  {
    PathUnderway(j, w, g, path, n);
    if n == 0 {
      PathStart(j, g, path);
    } else {
      UnsentStands(j, w, g, path, n - 1, idx);
      PathUnderway(j, w, g, path, n - 1);
      PathStep(j, w, g, path, n - 1);
    }
  }

  lemma UnsentSettles(j: Job, w: World, acks: Handle -> bool, g: Progress, idx: nat)
    requires Starts(j, w, g) && idx < |j.p.configs| && idx !in j.p.sent
    ensures |Settled(j, acks, Reported(j, g)).b.results| == |j.p.configs|
    ensures Settled(j, acks, Reported(j, g)).b.results[idx] == g.b.results[idx]
  {
    ReportedStep(j, w, g);
    if Itemized(j.p.reply) {
      UnsentStands(j, w, g, PathOf(j, g), |j.p.sent|, idx);
    } else if j.p.reply.SumFails? {
      MarkedIs(j.p, g.b.results, |j.p.sent|, idx);
      assert idx !in j.p.sent[..|j.p.sent|];
    }
    assert idx !in Reported(j, g).b.committed;
    UncommittedStands(j, w, acks, g, idx);
  }

  // ---------------------------------------------------------------- when nobody else touches the manager

  function CommittedKeys(p: Plan, committed: seq<nat>): set<Key>
    requires Indices(committed, |p.configs|)
  {
    set m | 0 <= m < |committed| :: KeyOf(p.configs[committed[m]].name)
  }

  /** The keys of the entries reported as successes. */
  function SuccessKeys(configs: seq<Config>, results: seq<Result>): set<Key>
    requires |results| <= |configs|
  {
    set i | 0 <= i < |results| && Success(results[i]) :: KeyOf(configs[i].name)
  }

  /** Since v, the batch has bound and filed exactly what it committed, and nobody else has touched the manager. */
  ghost predicate Tracked(p: Plan, v: View, u: View, b: Batch)
    requires Fit(p) && Shaped(p, b)
  {
    && Extends(v, u, LearnedSet(p.reply, |p.sent|))
    && u.keys == v.keys + CommittedKeys(p, b.committed)
    && forall m | 0 <= m < |b.committed| :: b.results[b.committed[m]].handle in u.active
  }

  lemma TrackReport(p: Plan, v: View, u: View, b: Batch, idx: nat, c: Batch)
    requires Fit(p) && Shaped(p, b) && Tracked(p, v, u, b) && idx < |b.results| && idx !in b.committed
    requires c.committed == b.committed && |c.results| == |b.results| && c.results == b.results[idx := c.results[idx]]
    ensures Tracked(p, v, u, c)
  {
    forall m | 0 <= m < |c.committed| ensures c.results[c.committed[m]].handle in u.active {
      assert b.committed[m] in b.committed;
    }
  }

  lemma TrackBind(p: Plan, v: View, at: View, u: View, b: Batch, idx: nat, h: Handle)
    requires Fit(p) && Shaped(p, b) && Tracked(p, v, at, b) && idx < |b.results| && idx !in b.committed
    requires h !in at.active && h in LearnedSet(p.reply, |p.sent|) && h in u.active
    requires u.active == at.active[h := u.active[h]] && u.keys == at.keys + {KeyOf(p.configs[idx].name)}
    ensures Tracked(p, v, u, Keep(b, idx, h))
  {
    var c := Keep(b, idx, h);
    forall m | 0 <= m < |c.committed| ensures c.results[c.committed[m]].handle in u.active {
      if m < |b.committed| {
        assert b.committed[m] in b.committed;
      }
    }
    CommittedSnoc(p, b.committed, idx);
  }

  lemma CommittedSnoc(p: Plan, committed: seq<nat>, idx: nat)
    requires Indices(committed, |p.configs|) && idx < |p.configs|
    ensures CommittedKeys(p, committed + [idx]) == CommittedKeys(p, committed) + {KeyOf(p.configs[idx].name)}
  {
    var more := committed + [idx];
    forall k | k in CommittedKeys(p, more) ensures k in CommittedKeys(p, committed) + {KeyOf(p.configs[idx].name)} {
      var m :| 0 <= m < |more| && k == KeyOf(p.configs[more[m]].name);
      assert m < |committed| ==> more[m] == committed[m];
    }
    forall k | k in CommittedKeys(p, committed) ensures k in CommittedKeys(p, more) {
      var m :| 0 <= m < |committed| && k == KeyOf(p.configs[committed[m]].name);
      assert more[m] == committed[m];
    }
    assert more[|committed|] == idx;
  }

  lemma TrackItem(j: Job, w: World, n: nat, g: Progress, v: View)
    requires Ready(j.p, w) && Rely(j.env, w.theirs, w.names) && Quiet(j.env) && n < |j.p.sent| && Shaped(j.p, g.b)
    requires Itemized(j.p.reply) && Midway(j.p, w, g.b, n, g.x.s) && Tracked(j.p, v, g.x.s.v, g.b)
    ensures Tracked(j.p, v, ItemAfter(j, n, g).x.s.v, ItemAfter(j, n, g).b)
  {
    ItemCases(j, w, n, g);
    FreshNow(g.b, j.p, w, n);
    OthersQuiet(j.env, g.x);
    var idx := j.p.sent[n];
    if Learned(j.p.reply, |j.p.sent|, n).None? {
      TrackReport(j.p, v, g.x.s.v, g.b, idx, ItemAfter(j, n, g).b);
    } else {
      TrackCommit(j, w, n, Learned(j.p.reply, |j.p.sent|, n).value, g.(x := Others(j.env, g.x)), v);
    }
  }

  lemma TrackCommit(j: Job, w: World, n: nat, h: Handle, g: Progress, v: View)
    requires Ready(j.p, w) && Rely(j.env, w.theirs, w.names) && Quiet(j.env) && n < |j.p.sent| && Shaped(j.p, g.b)
    requires Learned(j.p.reply, |j.p.sent|, n) == Some(h) && ReportedTo(g.b, j.p, n) && Sound(g.x.s, w.names)
    requires BoundIsKept(g.b, j.p, n, g.x.s.v.active.Keys) && Tracked(j.p, v, g.x.s.v, g.b)
    ensures Tracked(j.p, v, BindAfter(j, n, h, g).x.s.v, BindAfter(j, n, h, g).b)
  {
    var idx := j.p.sent[n];
    FreshNow(g.b, j.p, w, n);
    OthersQuiet(j.env, g.x);
    CommitFacts(j, j.p.configs[idx], h, g.x, w);
    var c := Committed(j, j.p.configs[idx], h, g.x);
    if c.refusal.Some? {
      TrackReport(j.p, v, g.x.s.v, g.b, idx, Drop(g.b, idx, h, c.refusal.value));
    } else {
      OthersQuiet(j.env, c.x);
      assert h in c.x.s.v.active;
      TrackBind(j.p, v, g.x.s.v, c.x.s.v, g.b, idx, h);
    }
  }

  lemma TrackStart(p: Plan, v: View, b: Batch)
    requires Fit(p) && Shaped(p, b) && b.committed == []
    ensures Tracked(p, v, v, b)
  {
    assert CommittedKeys(p, b.committed) == {};
  }

  ghost predicate TrackedTo(j: Job, v: View, k: Progress) {
    Fit(j.p) && Shaped(j.p, k.b) && Tracked(j.p, v, k.x.s.v, k.b)
  }

  lemma TrackNext(j: Job, w: World, g: Progress, path: Path, n: nat)
    requires Starts(j, w, g) && Quiet(j.env) && Follows(path, j, g) && n < |j.p.sent|
    requires TrackedTo(j, g.x.s.v, path(n))
    ensures TrackedTo(j, g.x.s.v, path(n + 1))
  {
    PathUnderway(j, w, g, path, n);
    PathNext(j, g, path, n);
    TrackItem(j, w, n, path(n), g.x.s.v);
  }

  lemma {:induction false} TrackPath(j: Job, w: World, g: Progress, path: Path, n: nat)
    requires Starts(j, w, g) && Quiet(j.env) && Follows(path, j, g) && n <= |j.p.sent| && g.b.committed == []
    ensures TrackedTo(j, g.x.s.v, path(n))
  {
    if n == 0 {
      PathStart(j, g, path);
      TrackStart(j.p, g.x.s.v, g.b);
    } else {
      TrackPath(j, w, g, path, n - 1);
      TrackNext(j, w, g, path, n - 1);
    }
  }

  lemma TrackReported(j: Job, w: World, g: Progress)
    requires Starts(j, w, g) && Quiet(j.env) && g.b.committed == []
    ensures Tracked(j.p, g.x.s.v, Reported(j, g).x.s.v, Reported(j, g).b)
  {
    ReportedStep(j, w, g);
    if Itemized(j.p.reply) {
      TrackPath(j, w, g, PathOf(j, g), |j.p.sent|);
    }
  }

  /** Nothing was swept, so settling amends nothing. */
  lemma NothingSwept(p: Plan, v: View, u: View, b: Batch)
    requires Fit(p) && Shaped(p, b) && Tracked(p, v, u, b)
    ensures AmendedBatch(b, u.active.Keys).results == b.results && SettledView(p, b, u) == u
  {
    NoneUnbound(b, u.active.Keys, |b.committed|);
  }

  lemma {:induction false} NoneUnbound(b: Batch, bound: set<Handle>, k: nat)
    requires k <= |b.committed| && Indices(b.committed, |b.results|)
    requires forall m | 0 <= m < |b.committed| :: b.results[b.committed[m]].handle in bound
    ensures Unbound(b, bound, k) == []
  {
    if k > 0 {
      NoneUnbound(b, bound, k - 1);
    }
  }

  lemma RefusedUnbound(p: Plan, c: Batch, bound: set<Handle>)
    requires Fit(p) && Final(p, c, bound)
    ensures forall h | h in c.refused :: h !in bound
  {
    forall h | h in c.refused ensures h !in bound {
      var i :| 0 <= i < |p.sent| && Learned(p.reply, |p.sent|, i) == Some(h);
      assert FinalItem(p, c, bound, i);
    }
  }

  lemma SucceedsIfCommitted(p: Plan, w: World, b: Batch, n: nat, s: Shared, idx: nat)
    requires Ready(p, w) && n <= |p.sent| && Midway(p, w, b, n, s) && idx < |b.results|
    ensures Success(b.results[idx]) <==> idx in b.committed
  {
    if idx in p.sent {
      var i :| 0 <= i < |p.sent| && p.sent[i] == idx;
      if i < n {
        assert ItemReported(b, p, i);
        NeverBlank(p, i);
      }
    }
  }

  /** Among the reported requests, the successes are exactly the committed ones. */
  lemma CommittedSucceed(p: Plan, w: World, b: Batch, n: nat, s: Shared)
    requires Ready(p, w) && n <= |p.sent| && Midway(p, w, b, n, s)
    ensures Indices(b.committed, |p.configs|) && CommittedKeys(p, b.committed) == SuccessKeys(p.configs, b.results)
  {
    CommittedKept(p, w, b, n, s);
    forall idx | 0 <= idx < |b.results| ensures Success(b.results[idx]) <==> idx in b.committed {
      SucceedsIfCommitted(p, w, b, n, s, idx);
    }
    forall k | k in CommittedKeys(p, b.committed) ensures k in SuccessKeys(p.configs, b.results) {
      var m :| 0 <= m < |b.committed| && k == KeyOf(p.configs[b.committed[m]].name);
      assert b.committed[m] in b.committed;
    }
    forall k | k in SuccessKeys(p.configs, b.results) ensures k in CommittedKeys(p, b.committed) {
      var i :| 0 <= i < |b.results| && Success(b.results[i]) && k == KeyOf(p.configs[i].name);
      var m :| 0 <= m < |b.committed| && b.committed[m] == i;
    }
  }

  /** Undisturbed, a batch adds exactly its successes to what is bound and on file. */
  lemma QuietBatch(j: Job, w: World, acks: Handle -> bool, g: Progress)
    requires Starts(j, w, g) && Quiet(j.env) && g.b.committed == []
    ensures
      var k := Settled(j, acks, Reported(j, g));
      && |k.b.results| == |j.p.configs|
      && k.x.s.v == LookedAt(j, g).s.v
      && Extends(g.x.s.v, k.x.s.v, LearnedSet(j.p.reply, |j.p.sent|))
      && k.x.s.v.keys == g.x.s.v.keys + SuccessKeys(j.p.configs, k.b.results)
  {
    var r := Reported(j, g);
    ReportedStep(j, w, g);
    TrackReported(j, w, g);
    OthersQuiet(j.env, r.x);
    var y := LookedAt(j, g);
    NothingSwept(j.p, g.x.s.v, y.s.v, r.b);
    CommittedSucceed(j.p, w, r.b, ReportedCount(j.p), r.x.s);
    BatchSettles(j, w, acks, g);
    var c := AmendedBatch(r.b, y.s.v.active.Keys);
    RefusedUnbound(j.p, c, y.s.v.active.Keys);
    MidwayOthers(j.env, j.p, w, r.b, ReportedCount(j.p), r.x);
    OthersQuiet(j.env, y);
    ReleasedFacts(j.env, c.refused, acks, y, w);
  }

  // ---------------------------------------------------------------- what is sent

  predicate MetBefore(configs: seq<Config>, idx: nat)
    requires idx < |configs|
  {
    exists j | 0 <= j < idx :: KeyOf(configs[j].name) == KeyOf(configs[idx].name)
  }

  /** Config idx is sent: not live already, the first of its key in the batch, and resolvable. */
  predicate Sends(configs: seq<Config>, live: set<Key>, resolves: nat -> bool, idx: nat)
    requires idx < |configs|
  {
    KeyOf(configs[idx].name) !in live && !MetBefore(configs, idx) && resolves(idx)
  }

  /** What the entry of config idx says before anything is sent. */
  function FirstReport(configs: seq<Config>, live: set<Key>, resolves: nat -> bool, idx: nat): Result
    requires idx < |configs|
  {
    if KeyOf(configs[idx].name) in live || MetBefore(configs, idx) then Skip(DuplicateSymbol)
    else if !resolves(idx) then Skip(Unresolved)
    else BLANK
  }

  /** The first n configs are sorted into sent and skipped ones. */
  ghost predicate Chosen(configs: seq<Config>, live: set<Key>, resolves: nat -> bool, q: Screening, n: nat)
    requires n <= |configs|
  {
    && |q.results| == |configs|
    && (forall idx | 0 <= idx < n :: idx in q.sent <==> Sends(configs, live, resolves, idx))
    && (forall idx | 0 <= idx < n :: q.results[idx] == FirstReport(configs, live, resolves, idx))
    && (forall idx | n <= idx < |configs| :: q.results[idx] == BLANK)
    && (forall i | 0 <= i < n :: KeyOf(configs[i].name) in live || KeyOf(configs[i].name) in q.met)
    && (forall k | k in q.met :: k !in live && exists i | 0 <= i < n :: KeyOf(configs[i].name) == k)
  }

  lemma ChooseNone(configs: seq<Config>, live: set<Key>, resolves: nat -> bool, q: Screening)
    requires |q.results| == |configs| && q.met == {} && forall idx | 0 <= idx < |configs| :: q.results[idx] == BLANK
    ensures Chosen(configs, live, resolves, q, 0)
  {
  }

  lemma ChooseNext(env: Env, configs: seq<Config>, live: set<Key>, resolves: nat -> bool, q: Screening, n: nat,
                   r: Screening)
    requires n < |configs| && Chosen(configs, live, resolves, q, n) && Increasing(q.sent, n)
    requires r == ScreenOne(env, configs, live, resolves, n, q)
    ensures Chosen(configs, live, resolves, r, n + 1)
  {
    assert n !in q.sent;
    var key := KeyOf(configs[n].name);
    assert key in live || (key in q.met <==> MetBefore(configs, n));
  }

  lemma {:induction false} ScreenChooses(env: Env, configs: seq<Config>, live: set<Key>, resolves: nat -> bool,
                                         i: nat, q: Screening)
    requires i <= |configs| == |q.results| && Increasing(q.sent, i) && Chosen(configs, live, resolves, q, i)
    ensures Chosen(configs, live, resolves, Screen(env, configs, live, resolves, i, q), |configs|)
    decreases |configs| - i
  {
    if i < |configs| {
      var r := ScreenOne(env, configs, live, resolves, i, q);
      ChooseNext(env, configs, live, resolves, q, i, r);
      ScreenChooses(env, configs, live, resolves, i + 1, r);
    }
  }

  /** Exactly the configs that are not live, first of their key and resolvable are sent. */
  lemma ScreenedChooses(env: Env, a: Call, x: Moment)
    ensures Chosen(a.configs, LiveKeys(Others(env, x).s.v), a.resolves, Screened(env, a, x), |a.configs|)
  {
    var y := Others(env, x);
    ChooseNone(a.configs, LiveKeys(y.s.v), a.resolves, FirstLook(a.configs, y));
    ScreenChooses(env, a.configs, LiveKeys(y.s.v), a.resolves, 0, FirstLook(a.configs, y));
  }

  /** From s the others, and only they, have led to u. */
  ghost predicate Drifts(s: Shared, u: Shared, env: Env, w: World) {
    Allowed(s, u, w.theirs, w.names) && (Quiet(env) ==> u.v == s.v)
  }

  lemma DriftsOn(env: Env, s: Shared, x: Moment, w: World)
    requires Rely(env, w.theirs, w.names) && Drifts(s, x.s, env, w)
    ensures Drifts(s, Others(env, x).s, env, w)
  {
    OthersAllowed(env, x, w.theirs, w.names);
  }

  lemma {:induction false} ScreenDrifts(env: Env, configs: seq<Config>, live: set<Key>, resolves: nat -> bool,
                                        i: nat, q: Screening, s: Shared, w: World)
    requires i <= |configs| == |q.results| && Increasing(q.sent, i)
    requires Rely(env, w.theirs, w.names) && Drifts(s, q.x.s, env, w)
    ensures Drifts(s, Screen(env, configs, live, resolves, i, q).x.s, env, w)
    decreases |configs| - i
  {
    if i < |configs| {
      DriftsOn(env, s, q.x, w);
      ScreenDrifts(env, configs, live, resolves, i + 1, ScreenOne(env, configs, live, resolves, i, q), s, w);
    }
  }

  // ---------------------------------------------------------------- the whole call

  /** The call meets others and a PLC that keep to the rules. */
  ghost predicate Fair(env: Env, a: Call, w: World, x: Moment) {
    && Rely(env, w.theirs, w.names) && Compatible(w.names) && Sound(x.s, w.names)
    && x.s.v.active.Keys <= w.first + w.theirs
    && Answered(a.plc) && (forall n :: FreshHandles(a.plc(n), n, w.first, w.theirs))
    && forall cfg | cfg in a.configs :: cfg.name in w.names
  }

  /** The configs are looked at: the runtime serves, there is something to do and the channel is the manager's. */
  predicate Screens(env: Env, a: Call, x: Moment) {
    a.running && a.configs != [] && !WrongChannel(Others(env, x).s.v, a.ch)
  }

  lemma CallStarts(env: Env, a: Call, w: World, x: Moment)
    requires Fair(env, a, w, x)
    ensures Starts(JobOf(env, a, x), w, StartOf(env, a, x))
    ensures Drifts(x.s, StartOf(env, a, x).x.s, env, w)
  {
    var y := Others(env, x);
    var live := LiveKeys(y.s.v);
    DriftsOn(env, x.s, x, w);
    ScreenDrifts(env, a.configs, live, a.resolves, 0, FirstLook(a.configs, y), x.s, w);
    ScreenedChooses(env, a, x);
    var q := Screened(env, a, x);
    ChosenStarts(JobOf(env, a, x).p, w, q, live, a.resolves);
  }

  lemma ChosenStarts(p: Plan, w: World, q: Screening, live: set<Key>, resolves: nat -> bool)
    requires Ready(p, w) && Sound(q.x.s, w.names) && q.x.s.v.active.Keys <= w.first + w.theirs
    requires p.sent == q.sent && Chosen(p.configs, live, resolves, q, |p.configs|)
    ensures Midway(p, w, Batch(q.results, [], []), 0, q.x.s)
  {
    forall i | 0 <= i < |p.sent| ensures q.results[p.sent[i]] == BLANK {
      assert p.sent[i] in q.sent;
    }
  }

  /** The moment at which the settle step of the call looks at what is bound. */
  ghost function SettleLook(env: Env, a: Call, x: Moment): Moment
    requires Answered(a.plc)
  {
    LookedAt(JobOf(env, a, x), StartOf(env, a, x))
  }

  ghost function Settlement(env: Env, a: Call, x: Moment): Progress
    requires Answered(a.plc)
  {
    Settled(JobOf(env, a, x), a.acks, Reported(JobOf(env, a, x), StartOf(env, a, x)))
  }

  /** Which of the ways out a call takes. */
  lemma AddCases(env: Env, a: Call, x: Moment)
    requires Answered(a.plc)
    ensures
      var out := Add(env, a, x);
      var q := Screened(env, a, x);
      && (!Screens(env, a, x) ==>
            && out.results == [] && out.sent == [] && out.released == []
            && (out.x == x || out.x == Others(env, x)))
      && (Screens(env, a, x) ==> out.sent == q.sent)
      && (Screens(env, a, x) && q.sent == [] ==> out.results == q.results && out.released == [] && out.x == q.x)
      && (Screens(env, a, x) && q.sent != [] ==>
            out == Outcome(Settlement(env, a, x).b.results, CallFails(JobOf(env, a, x).p.reply), q.sent,
                           Settlement(env, a, x).b.refused, Settlement(env, a, x).x))
  {
  }

  /** Whatever the others do, a call that sends anything ends with every request decided by what settle saw bound. */
  lemma AddDecides(env: Env, a: Call, w: World, x: Moment)
    requires Fair(env, a, w, x)
    ensures
      var out := Add(env, a, x);
      && Sound(out.x.s, w.names) && x.s.epoch <= out.x.s.epoch
      && (out.sent != [] ==>
            Final(JobOf(env, a, x).p, Batch(out.results, [], out.released), SettleLook(env, a, x).s.v.active.Keys))
      && (out.sent == [] ==> out.released == [])
  {
    AddCases(env, a, x);
    CallStarts(env, a, w, x);
    OthersAllowed(env, x, w.theirs, w.names);
    BatchSettles(JobOf(env, a, x), w, a.acks, StartOf(env, a, x));
    if Add(env, a, x).sent != [] {
      var c := Settlement(env, a, x).b;
      FinalWithout(JobOf(env, a, x).p, c, Batch(c.results, [], c.refused), SettleLook(env, a, x).s.v.active.Keys);
    }
  }

  lemma FinalWithout(p: Plan, c: Batch, d: Batch, bound: set<Handle>)
    requires Fit(p) && Final(p, c, bound) && d.results == c.results && d.refused == c.refused
    ensures Final(p, d, bound)
  {
    forall i | 0 <= i < |p.sent| ensures FinalItem(p, d, bound, i) {
      assert FinalItem(p, c, bound, i);
    }
  }

  /**
   * A call sends exactly the configs it should, judged by what is live when it starts, and reports why it skips
   * the rest.
   */
  lemma AddSendsExactly(env: Env, a: Call, w: World, x: Moment, idx: nat)
    requires Fair(env, a, w, x) && Screens(env, a, x) && idx < |a.configs|
    ensures
      var out := Add(env, a, x);
      var live := LiveKeys(Others(env, x).s.v);
      && |out.results| == |a.configs|
      && (idx in out.sent <==> Sends(a.configs, live, a.resolves, idx))
      && (idx !in out.sent ==> out.results[idx] == FirstReport(a.configs, live, a.resolves, idx))
  {
    AddCases(env, a, x);
    ScreenedChooses(env, a, x);
    var q := Screened(env, a, x);
    if q.sent != [] {
      CallStarts(env, a, w, x);
      AddDecides(env, a, w, x);
      if idx !in q.sent {
        UnsentSettles(JobOf(env, a, x), w, a.acks, StartOf(env, a, x), idx);
      }
    }
  }

  /** Each handle the library learned is bound when settle looks or released, never both. */
  lemma LearnedEndsOnce(env: Env, a: Call, w: World, x: Moment, h: Handle)
    requires Fair(env, a, w, x) && Add(env, a, x).sent != []
    requires h in LearnedSet(JobOf(env, a, x).p.reply, |JobOf(env, a, x).p.sent|)
    ensures (h in SettleLook(env, a, x).s.v.active) != (h in Add(env, a, x).released)
  {
    AddDecides(env, a, w, x);
    var p := JobOf(env, a, x).p;
    var i :| 0 <= i < |p.sent| && Learned(p.reply, |p.sent|, i) == Some(h);
    var out := Add(env, a, x);
    assert FinalItem(p, Batch(out.results, [], out.released), SettleLook(env, a, x).s.v.active.Keys, i);
  }

  /** Entry idx was sent, a handle was learned for it, and it is among these. */
  ghost predicate BoundFor(p: Plan, bound: set<Handle>, idx: nat)
    requires Fit(p)
  {
    exists i | 0 <= i < |p.sent| ::
      p.sent[i] == idx && Learned(p.reply, |p.sent|, i).Some? && Learned(p.reply, |p.sent|, i).value in bound
  }

  /**
   * An entry is a success exactly when it was sent, its handle was learned, and that handle was bound when settle
   * looked.
   */
  lemma SuccessMeansBound(env: Env, a: Call, w: World, x: Moment, idx: nat)
    requires Fair(env, a, w, x) && Add(env, a, x).sent != [] && idx < |a.configs|
    ensures |Add(env, a, x).results| == |a.configs|
    ensures Success(Add(env, a, x).results[idx]) <==>
      BoundFor(JobOf(env, a, x).p, SettleLook(env, a, x).s.v.active.Keys, idx)
  {
    AddDecides(env, a, w, x);
    var p := JobOf(env, a, x).p;
    var c := Batch(Add(env, a, x).results, [], Add(env, a, x).released);
    FinalSuccess(p, c, SettleLook(env, a, x).s.v.active.Keys, idx);
  }

  lemma FinalSuccess(p: Plan, c: Batch, bound: set<Handle>, idx: nat)
    requires Fit(p) && Final(p, c, bound) && idx < |p.configs|
    ensures Success(c.results[idx]) <==> BoundFor(p, bound, idx)
  {
    if idx in p.sent {
      var i :| 0 <= i < |p.sent| && p.sent[i] == idx;
      assert FinalItem(p, c, bound, i);
      if Learned(p.reply, |p.sent|, i).None? {
        assert !Success(Failure(p.reply, |p.sent|, i));
      }
    }
  }

  /** Undisturbed, a call adds exactly its successes to what is bound and on file. */
  lemma QuietAdd(env: Env, a: Call, w: World, x: Moment)
    requires Fair(env, a, w, x) && Quiet(env)
    ensures
      var out := Add(env, a, x);
      && |out.results| <= |a.configs|
      && out.x.s.v.keys == x.s.v.keys + SuccessKeys(a.configs, out.results)
      && (out.sent == [] ==> out.x.s.v == x.s.v)
      && (out.sent != [] ==>
            && out.x.s.v == SettleLook(env, a, x).s.v
            && Extends(x.s.v, out.x.s.v, LearnedSet(JobOf(env, a, x).p.reply, |out.sent|)))
  {
    AddCases(env, a, x);
    CallStarts(env, a, w, x);
    OthersQuiet(env, x);
    var out := Add(env, a, x);
    if out.sent != [] {
      QuietBatch(JobOf(env, a, x), w, a.acks, StartOf(env, a, x));
    } else if Screens(env, a, x) {
      ScreenedChooses(env, a, x);
      assert forall idx | 0 <= idx < |out.results| :: !Success(out.results[idx]);
    }
  }

  /** Once the cache has been swapped since the batch of a call began, none of its later requests is bound. */
  lemma AddRefusesAfterSwap(env: Env, a: Call, w: World, x: Moment, m: nat, i: nat, h: Handle)
    requires Fair(env, a, w, x) && m <= i < |Add(env, a, x).sent|
    requires Learned(JobOf(env, a, x).p.reply, |JobOf(env, a, x).p.sent|, i) == Some(h)
    requires PathOf(JobOf(env, a, x), StartOf(env, a, x))(m).x.s.epoch != StartOf(env, a, x).x.s.epoch
    ensures
      var out := Add(env, a, x);
      && |out.results| == |a.configs| && out.results[out.sent[i]].skipped == Some(Refused(Stranded))
      && h in out.released && h !in SettleLook(env, a, x).s.v.active
  {
    AddCases(env, a, x);
    CallStarts(env, a, w, x);
    SwapRefusesTheRest(JobOf(env, a, x), w, a.acks, StartOf(env, a, x), m, i, h);
  }

  /** Request i of a call was sent and answered with an error code. */
  ghost predicate Errs(env: Env, a: Call, x: Moment, i: nat)
    requires Answered(a.plc)
  {
    var p := JobOf(env, a, x).p;
    i < |Add(env, a, x).sent| <= |p.sent| && Itemized(p.reply) && ItemResult(p.reply, |p.sent|, i).error != 0
  }

  /** The entry of a request answered with an error code reports that code and is not skipped. */
  lemma ErrorIsReported(env: Env, a: Call, w: World, x: Moment, i: nat)
    requires Fair(env, a, w, x) && Errs(env, a, x, i)
    ensures
      var p := JobOf(env, a, x).p;
      var out := Add(env, a, x);
      && a.configs != [] && out.sent == p.sent && |out.results| == |a.configs|
      && out.results[p.sent[i]] == ItemResult(p.reply, |p.sent|, i)
      && out.results[p.sent[i]].skipped.None?
  {
    var p := JobOf(env, a, x).p;
    var out := Add(env, a, x);
    AddCases(env, a, x);
    AddDecides(env, a, w, x);
    assert FinalItem(p, Batch(out.results, [], out.released), SettleLook(env, a, x).s.v.active.Keys, i);
  }

  /**
   * A call fails exactly when the runtime does not serve, another channel is in use, or what it sent could not be
   * delivered: no client, no answer to the sum command, or a link lost between the single requests.
   */
  lemma AddFailsExactly(env: Env, a: Call, x: Moment)
    requires Answered(a.plc)
    ensures
      var out, y := Add(env, a, x), Others(env, x).s.v;
      out.err <==>
        || !a.running
        || (a.configs != [] && y.channel.Some? && y.channel.value != a.ch)
        || (out.sent != [] &&
            match JobOf(env, a, x).p.reply
            case NoClient => true
            case SumFails => true
            case SumReply(_) => false
            case OneByOne(outs) => exists i :: 0 <= i < |outs| && outs[i].LinkDown?)
  {
    AddCases(env, a, x);
  }

  /** A call that is refused for its channel sends nothing and changes nothing of its own. */
  lemma OtherChannelRefused(env: Env, a: Call, x: Moment)
    requires Answered(a.plc) && a.running && a.configs != []
    requires Others(env, x).s.v.channel.Some? && Others(env, x).s.v.channel.value != a.ch
    ensures Add(env, a, x) == Outcome([], true, [], [], Others(env, x))
  {
  }
}
