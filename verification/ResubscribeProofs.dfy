/** What re-subscribing and recovering promise. */
module ResubscribeProofs {

  import opened Basics
  import opened SymbolNames
  import opened NotificationManager
  import opened NotificationInvariant
  import opened BatchSubscribe
  import opened BatchProofs
  import opened Resubscribe

  ghost predicate Enumerates(order: set<Handle> -> seq<Handle>) {
    forall hs: set<Handle>, h: Handle :: h in order(hs) <==> h in hs
  }

  ghost predicate Behaved(o: Outside, w: World) {
    && Rely(o.env, w.theirs, w.names) && Compatible(w.names) && Enumerates(o.order)
    && Answered(o.plc) && forall n :: FreshHandles(o.plc(n), n, w.first, w.theirs)
  }

  /** A sound state in which only handles of w are bound. */
  ghost predicate Steady(s: Shared, w: World) {
    Sound(s, w.names) && s.v.active.Keys <= w.first + w.theirs
  }

  lemma SteadyOthers(env: Env, x: Moment, w: World)
    requires Rely(env, w.theirs, w.names)
    ensures Sound(x.s, w.names) ==> Sound(Others(env, x).s, w.names)
    ensures Steady(x.s, w) ==> Steady(Others(env, x).s, w)
  {
    OthersAllowed(env, x, w.theirs, w.names);
  }

  // ---------------------------------------------------------------- the pieces

  lemma {:induction false} FilteredUnique(symbols: map<Key, Name>, onDemand: set<Key>, entries: seq<Pending>)
    requires UniqueKeys(entries)
    ensures UniqueKeys(Filtered(symbols, onDemand, entries))
    decreases |entries|
  {
    if entries != [] {
      var front := entries[..|entries| - 1];
      FilteredUnique(symbols, onDemand, front);
      var last := entries[|entries| - 1];
      var less := Filtered(symbols, onDemand, front);
      forall i | 0 <= i < |less| ensures PendingKey(less[i]) != PendingKey(last) {
        assert less[i] in less;
        var j :| 0 <= j < |front| && front[j] == less[i];
      }
    }
  }

  /** Exactly the skipped results' handles are to be released. */
  lemma {:induction false} OrphansExactly(results: seq<Result>, n: nat, h: Handle)
    requires n <= |results|
    ensures h in Orphans(results, n) <==>
      h != 0 && exists i | 0 <= i < n :: results[i].skipped.Some? && results[i].handle == h
  {
    if n > 0 {
      OrphansExactly(results, n - 1, h);
    }
  }

  /** Exactly the skipped entries under the cap are queued again. */
  lemma {:induction false} RetryKeys(results: seq<Result>, valid: seq<Pending>, n: nat, k: Key)
    requires n <= |results| <= |valid|
    ensures k in KeysOf(RetryList(results, valid, n)) <==>
      exists i | 0 <= i < n :: Retried(results[i], valid[i]) && PendingKey(valid[i]) == k
  {
    if n > 0 {
      RetryKeys(results, valid, n - 1, k);
      var front := RetryList(results, valid, n - 1);
      if Retried(results[n - 1], valid[n - 1]) {
        var more := front + [CountedOnce(valid[n - 1])];
        assert more[..|front|] == front && more[..|front| + 1] == more;
        KeysOfSnoc(more, |front|);
        assert PendingKey(CountedOnce(valid[n - 1])) == PendingKey(valid[n - 1]);
      } else {
        assert RetryList(results, valid, n) == front;
      }
    }
  }

  /** Each of them is queued with one more attempt counted. */
  lemma {:induction false} RetryCounts(results: seq<Result>, valid: seq<Pending>, n: nat, e: Pending)
    requires n <= |results| <= |valid|
    ensures e in RetryList(results, valid, n) <==>
      exists i | 0 <= i < n :: Retried(results[i], valid[i]) && e == valid[i].(attempts := valid[i].attempts + 1)
  {
    if n > 0 {
      RetryCounts(results, valid, n - 1, e);
    }
  }

  /** How many of the first n results are skipped. */
  function Skipped(results: seq<Result>, n: nat): nat
    requires n <= |results|
  {
    if n == 0 then 0 else Skipped(results, n - 1) + if results[n - 1].skipped.Some? then 1 else 0
  }

  /** Every skipped entry is either queued again or given up, and it is given up at its third attempt. */
  lemma {:induction false} SkippedIsRetriedOrGivenUp(results: seq<Result>, valid: seq<Pending>, n: nat)
    requires n <= |results| <= |valid|
    ensures |RetryList(results, valid, n)| + GivenUp(results, valid, n) == Skipped(results, n)
    ensures GivenUp(results, valid, n) > 0 <==>
      exists i | 0 <= i < n :: results[i].skipped.Some? && valid[i].attempts >= 2
  {
    if n > 0 {
      SkippedIsRetriedOrGivenUp(results, valid, n - 1);
    }
  }

  lemma {:induction false} RetryNames(results: seq<Result>, valid: seq<Pending>, n: nat, names: set<Name>)
    requires n <= |results| <= |valid| && forall e | e in valid :: e.config.name in names
    ensures forall e | e in RetryList(results, valid, n) :: e.config.name in names
  {
    if n > 0 {
      RetryNames(results, valid, n - 1, names);
      assert valid[n - 1] in valid;
    }
  }

  lemma FiledFacts(v: View, e: Pending, u: View, names: set<Name>)
    requires Good(v, names) && e.config.name in names && u == Filed(v, e)
    ensures Good(u, names) && u.active == v.active && u.channel == v.channel && u.keys == v.keys + {PendingKey(e)}
  {
    FiledGood(v, e, names);
    FiledKeeps(v, e);
  }

  /** Nothing but the entries and the index differs, and exactly these keys are new on file. */
  ghost predicate FiledMore(v: View, u: View, keys: set<Key>, names: set<Name>) {
    Good(u, names) && u.active == v.active && u.channel == v.channel && u.keys == v.keys + keys
  }

  lemma {:induction false} RequeuedGood(v: View, retry: seq<Pending>, names: set<Name>)
    requires Good(v, names) && forall e | e in retry :: e.config.name in names
    ensures FiledMore(v, Requeued(v, retry), KeysOf(retry), names)
    decreases |retry|
  {
    if retry != [] {
      var u := Filed(v, retry[0]);
      FiledFacts(v, retry[0], u, names);
      RequeuedGood(u, retry[1..], names);
      KeysOfCons(retry);
    }
  }

  lemma ForgottenGood(v: View, before: set<Handle>, saved: seq<Pending>, channel: Option<Chan>, names: set<Name>)
    requires Good(v, names) && UniqueKeys(saved) && NamesOf(saved) <= names
    ensures Good(Forgotten(v, before, saved, channel), names)
    ensures Forgotten(v, before, saved, channel).active.Keys == v.active.Keys * before
  {
    UnboundGood(v, v.active.Keys - before, names);
  }

  // ---------------------------------------------------------------- after the batch

  /** None of the handles the results ask to release is bound. */
  predicate OrphansOutside(results: seq<Result>, bound: set<Handle>) {
    forall i | 0 <= i < |results| && results[i].skipped.Some? && results[i].handle != 0 :: results[i].handle !in bound
  }

  lemma CleanedUpSound(o: Outside, w: World, results: seq<Result>, valid: seq<Pending>, x: Moment)
    requires Behaved(o, w) && Sound(x.s, w.names) && |results| <= |valid|
    requires forall e | e in valid :: e.config.name in w.names
    ensures Sound(CleanedUp(o, results, valid, x).s, w.names)
  {
    var retry := RetryList(results, valid, |results|);
    var y := Released(o.env, Orphans(results, |results|), o.acks, x);
    ReleasedFacts(o.env, Orphans(results, |results|), o.acks, x, w);
    RetryNames(results, valid, |results|, w.names);
    SteadyOthers(o.env, y, w);
    RequeuedGood(Others(o.env, y).s.v, retry, w.names);
    SteadyOthers(o.env, QueuedAgain(o, retry, y), w);
  }

  /** What is given up for good stops counting towards what a healthy session holds. */
  lemma GivenUpLowersBaseline(o: Outside, results: seq<Result>, valid: seq<Pending>, x: Moment)
    requires |results| <= |valid| && GivenUp(results, valid, |results|) > 0
    ensures CleanedUp(o, results, valid, x).s.v.registered <= |valid| - GivenUp(results, valid, |results|)
  {
  }

  lemma OrphansReleasedQuiet(o: Outside, w: World, results: seq<Result>, x: Moment)
    requires Behaved(o, w) && Quiet(o.env) && Sound(x.s, w.names) && OrphansOutside(results, x.s.v.active.Keys)
    ensures Released(o.env, Orphans(results, |results|), o.acks, x).s.v == x.s.v
  {
    var orphans := Orphans(results, |results|);
    forall h | h in orphans ensures h !in x.s.v.active {
      OrphansExactly(results, |results|, h);
    }
    OthersQuiet(o.env, x);
    ReleasedFacts(o.env, orphans, o.acks, x, w);
  }

  lemma QueuedQuiet(o: Outside, w: World, retry: seq<Pending>, x: Moment)
    requires Quiet(o.env) && Good(x.s.v, w.names) && forall e | e in retry :: e.config.name in w.names
    ensures FiledMore(x.s.v, QueuedAgain(o, retry, x).s.v, KeysOf(retry), w.names)
  {
    OthersQuiet(o.env, x);
    RequeuedGood(x.s.v, retry, w.names);
  }

  lemma LoweredQuiet(o: Outside, dropped: nat, size: nat, x: Moment)
    requires Quiet(o.env) && dropped <= size
    ensures
      var u := Lowered(o, dropped, size, x).s.v;
      u.active == x.s.v.active && u.channel == x.s.v.channel && u.keys == x.s.v.keys
  {
    OthersQuiet(o.env, x);
  }

  /** Undisturbed, the clean-up only queues what may be retried. */
  lemma CleanedUpQuiet(o: Outside, w: World, results: seq<Result>, valid: seq<Pending>, x: Moment)
    requires Behaved(o, w) && Quiet(o.env) && Sound(x.s, w.names) && |results| <= |valid|
    requires forall e | e in valid :: e.config.name in w.names
    requires OrphansOutside(results, x.s.v.active.Keys)
    ensures
      var u := CleanedUp(o, results, valid, x).s.v;
      && u.active == x.s.v.active && u.channel == x.s.v.channel
      && u.keys == x.s.v.keys + KeysOf(RetryList(results, valid, |results|))
  {
    var retry := RetryList(results, valid, |results|);
    var y := Released(o.env, Orphans(results, |results|), o.acks, x);
    OrphansReleasedQuiet(o, w, results, x);
    RetryNames(results, valid, |results|, w.names);
    QueuedQuiet(o, w, retry, y);
    LoweredQuiet(o, GivenUp(results, valid, |results|), |valid|, QueuedAgain(o, retry, y));
  }

  lemma RolledBackSteady(o: Outside, w: World, before: set<Handle>, saved: seq<Pending>, ch: Chan, x: Moment)
    requires Behaved(o, w) && Sound(x.s, w.names) && before <= w.first + w.theirs
    requires UniqueKeys(saved) && NamesOf(saved) <= w.names
    ensures Steady(RolledBack(o, before, saved, ch, x).s, w)
  {
    var y := Others(o.env, x);
    SteadyOthers(o.env, x, w);
    ForgottenGood(y.s.v, before, saved, Some(ch), w.names);
    ReleasedFacts(o.env, o.order(Gone(o, before, x)), o.acks, With(y, Forgotten(y.s.v, before, saved, Some(ch))), w);
  }

  /** Undisturbed, a rollback leaves exactly what was bound before, the intent and the channel. */
  lemma RolledBackQuiet(o: Outside, w: World, before: set<Handle>, saved: seq<Pending>, ch: Chan, x: Moment)
    requires Behaved(o, w) && Quiet(o.env) && Sound(x.s, w.names) && UniqueKeys(saved) && NamesOf(saved) <= w.names
    ensures RolledBack(o, before, saved, ch, x).s.v == Forgotten(x.s.v, before, saved, Some(ch))
    ensures Gone(o, before, x) == x.s.v.active.Keys - before
  {
    var y := Others(o.env, x);
    OthersQuiet(o.env, x);
    SteadyOthers(o.env, x, w);
    ForgottenGood(y.s.v, before, saved, Some(ch), w.names);
    var f := With(y, Forgotten(y.s.v, before, saved, Some(ch)));
    OthersQuiet(o.env, f);
    ReleasedFacts(o.env, o.order(Gone(o, before, x)), o.acks, f, w);
  }

  // ---------------------------------------------------------------- the batch of an attempt

  /** The handles the PLC names in the answer to a call. */
  ghost function HeardIn(env: Env, a: Call, x: Moment): set<Handle>
    requires Answered(a.plc)
  {
    if Add(env, a, x).sent == [] then {} else LearnedSet(JobOf(env, a, x).p.reply, |JobOf(env, a, x).p.sent|)
  }

  /** What an undisturbed batch that began with v leaves, when the PLC named these handles. */
  ghost predicate Leaves(v: View, configs: seq<Config>, heard: set<Handle>, out: Outcome, w: World) {
    && Sound(out.x.s, w.names)
    && |out.results| <= |configs|
    && out.x.s.v.keys == v.keys + SuccessKeys(configs, out.results)
    && Extends(v, out.x.s.v, heard)
    && (forall h | h in heard :: h in out.x.s.v.active || h in out.released)
    && OrphansOutside(out.results, out.x.s.v.active.Keys)
  }

  lemma HeardFresh(env: Env, a: Call, w: World, x: Moment)
    requires Fair(env, a, w, x)
    ensures HeardIn(env, a, x) !! w.first && HeardIn(env, a, x) !! w.theirs
  {
    CallStarts(env, a, w, x);
    LearnedFresh(JobOf(env, a, x).p, w);
  }

  lemma LearnedFresh(p: Plan, w: World)
    requires Ready(p, w)
    ensures LearnedSet(p.reply, |p.sent|) !! w.first && LearnedSet(p.reply, |p.sent|) !! w.theirs
  {
  }

  lemma FinalOrphans(p: Plan, c: Batch, bound: set<Handle>)
    requires Fit(p) && Final(p, c, bound)
    ensures OrphansOutside(c.results, bound)
    ensures forall h | h in LearnedSet(p.reply, |p.sent|) :: h in bound || h in c.refused
  {
    forall i | 0 <= i < |c.results| && c.results[i].skipped.Some? && c.results[i].handle != 0
      ensures c.results[i].handle !in bound
    {
      assert i in p.sent;
      var k :| 0 <= k < |p.sent| && p.sent[k] == i;
      assert FinalItem(p, c, bound, k);
    }
    forall h | h in LearnedSet(p.reply, |p.sent|) ensures h in bound || h in c.refused {
      var i :| 0 <= i < |p.sent| && Learned(p.reply, |p.sent|, i) == Some(h);
      assert FinalItem(p, c, bound, i);
    }
  }

  lemma ScreenedOrphans(env: Env, a: Call, w: World, x: Moment)
    requires Fair(env, a, w, x) && Add(env, a, x).sent == []
    ensures OrphansOutside(Add(env, a, x).results, Add(env, a, x).x.s.v.active.Keys)
  {
    var out := Add(env, a, x);
    AddCases(env, a, x);
    forall i | 0 <= i < |out.results| ensures out.results[i].handle == 0 {
      AddSendsExactly(env, a, w, x, i);
    }
  }

  lemma BatchLeaves(env: Env, a: Call, w: World, x: Moment)
    requires Fair(env, a, w, x) && Quiet(env)
    ensures Leaves(x.s.v, a.configs, HeardIn(env, a, x), Add(env, a, x), w)
  {
    AddDecides(env, a, w, x);
    QuietAdd(env, a, w, x);
    var out := Add(env, a, x);
    if out.sent == [] {
      ScreenedOrphans(env, a, w, x);
    } else {
      AddCases(env, a, x);
      FinalOrphans(JobOf(env, a, x).p, Batch(out.results, [], out.released), SettleLook(env, a, x).s.v.active.Keys);
    }
  }

  lemma AttemptFair(o: Outside, w: World, ch: Chan, valid: seq<Pending>, x: Moment)
    requires Behaved(o, w) && Steady(x.s, w) && forall e | e in valid :: e.config.name in w.names
    ensures Fair(o.env, CallOf(o, valid, ch), w, Others(o.env, x))
  {
    SteadyOthers(o.env, x, w);
  }

  lemma AttemptSound(o: Outside, w: World, saved: seq<Pending>, ch: Chan, valid: seq<Pending>, x: Moment)
    requires Behaved(o, w) && Steady(x.s, w) && UniqueKeys(saved) && NamesOf(saved) <= w.names
    requires forall e | e in valid :: e.config.name in w.names
    ensures
      var a := Attempted(o, saved, ch, valid, x);
      Sound(a.x.s, w.names) && (a.err ==> Steady(a.x.s, w))
  {
    AttemptFair(o, w, ch, valid, x);
    AddDecides(o.env, CallOf(o, valid, ch), w, Others(o.env, x));
    var out := BatchOf(o, ch, valid, x);
    CleanedUpSound(o, w, out.results, valid, out.x);
    if out.err {
      SteadyOthers(o.env, x, w);
      RolledBackSteady(o, w, Others(o.env, x).s.v.active.Keys, saved, ch, CleanedUp(o, out.results, valid, out.x));
    }
  }

  /**
   * v with the intent, the index and the channel put back: what a failed attempt leaves, but for the baseline
   * count.
   */
  predicate Undone(v: View, saved: seq<Pending>, ch: Chan, u: View) {
    u == View(v.active, saved, KeysOf(saved), Some(ch), u.registered)
  }

  /** The rollback's part, for any batch that leaves what a batch leaves. */
  lemma RollbackUndoes(o: Outside, w: World, saved: seq<Pending>, ch: Chan, valid: seq<Pending>, v: View,
                       heard: set<Handle>, out: Outcome)
    requires Behaved(o, w) && Quiet(o.env) && UniqueKeys(saved) && NamesOf(saved) <= w.names
    requires forall e | e in valid :: e.config.name in w.names
    requires Leaves(v, Configs(valid), heard, out, w) && heard !! v.active.Keys
    ensures
      var z := CleanedUp(o, out.results, valid, out.x);
      && Undone(v, saved, ch, RolledBack(o, v.active.Keys, saved, ch, z).s.v)
      && forall h | h in heard :: h in out.released || h in o.order(Gone(o, v.active.Keys, z))
  {
    var z := CleanedUp(o, out.results, valid, out.x);
    CleanedUpSound(o, w, out.results, valid, out.x);
    CleanedUpQuiet(o, w, out.results, valid, out.x);
    RolledBackQuiet(o, w, v.active.Keys, saved, ch, z);
    assert z.s.v.active - (z.s.v.active.Keys - v.active.Keys) == v.active;
  }

  /** Undisturbed, an attempt that fails leaves what was bound, and asks the PLC to delete every handle it named. */
  lemma AttemptFails(o: Outside, w: World, saved: seq<Pending>, ch: Chan, valid: seq<Pending>, x: Moment)
    requires Behaved(o, w) && Quiet(o.env) && Steady(x.s, w) && UniqueKeys(saved) && NamesOf(saved) <= w.names
    requires forall e | e in valid :: e.config.name in w.names
    requires Attempted(o, saved, ch, valid, x).err
    ensures
      var a := Attempted(o, saved, ch, valid, x);
      && Undone(x.s.v, saved, ch, a.x.s.v)
      && forall h | h in HeardIn(o.env, CallOf(o, valid, ch), Others(o.env, x)) :: h in a.deletes
  {
    var y := Others(o.env, x);
    OthersQuiet(o.env, x);
    SteadyOthers(o.env, x, w);
    AttemptFair(o, w, ch, valid, x);
    BatchLeaves(o.env, CallOf(o, valid, ch), w, y);
    HeardFresh(o.env, CallOf(o, valid, ch), w, y);
    RollbackUndoes(o, w, saved, ch, valid, y.s.v, HeardIn(o.env, CallOf(o, valid, ch), y), BatchOf(o, ch, valid, x));
  }

  /** Undisturbed, an attempt that does not fail adds its successes and what it queues again. */
  lemma AttemptFiles(o: Outside, w: World, saved: seq<Pending>, ch: Chan, valid: seq<Pending>, x: Moment)
    requires Behaved(o, w) && Quiet(o.env) && Steady(x.s, w) && forall e | e in valid :: e.config.name in w.names
    requires !Attempted(o, saved, ch, valid, x).err
    ensures
      var a := Attempted(o, saved, ch, valid, x);
      var results := BatchOf(o, ch, valid, x).results;
      && a.x.s.v.active == BatchOf(o, ch, valid, x).x.s.v.active
      && a.x.s.v.keys ==
           x.s.v.keys + SuccessKeys(Configs(valid), results) + KeysOf(RetryList(results, valid, |results|))
  {
    var y := Others(o.env, x);
    var out := BatchOf(o, ch, valid, x);
    OthersQuiet(o.env, x);
    AttemptFair(o, w, ch, valid, x);
    BatchLeaves(o.env, CallOf(o, valid, ch), w, y);
    CleanedUpQuiet(o, w, out.results, valid, out.x);
  }

  // ---------------------------------------------------------------- resubscribe

  /** The batch call of a resubscribe, and the moment it is made. */
  function CallIn(o: Outside, x: Moment): Call
    requires Declared(x.s.v)
  {
    CallOf(o, ValidOf(o, x), x.s.v.channel.value)
  }

  function CalledAt(o: Outside, x: Moment): Moment {
    Others(o.env, TrimmedAt(o, x))
  }

  /** What the batch of a resubscribe reports for each entry still there. */
  ghost function ResultsOf(o: Outside, x: Moment): seq<Result>
    requires Answered(o.plc) && Declared(x.s.v)
  {
    Add(o.env, CallIn(o, x), CalledAt(o, x)).results
  }

  lemma ValidFacts(o: Outside, w: World, x: Moment)
    requires Sound(x.s, w.names)
    ensures UniqueKeys(ValidOf(o, x)) && UniqueKeys(x.s.v.pending) && NamesOf(x.s.v.pending) <= w.names
    ensures forall e | e in ValidOf(o, x) :: e.config.name in w.names
  {
    FilteredUnique(FilteredAt(o, x).s.symbols, o.onDemand, x.s.v.pending);
    forall e | e in ValidOf(o, x) ensures e.config.name in w.names {
      assert e.config.name in NamesOf(x.s.v.pending);
    }
  }

  lemma TrimmedSteady(o: Outside, w: World, x: Moment)
    requires Behaved(o, w) && Steady(x.s, w)
    ensures Steady(FilteredAt(o, x).s, w) && Steady(TrimmedAt(o, x).s, w)
  {
    var cleared := With(x, Reset(x.s.v, []));
    assert Steady(cleared.s, w);
    SteadyOthers(o.env, cleared, w);
    SteadyOthers(o.env, FilteredAt(o, x), w);
  }

  /** Entries that are gone stop counting towards what a healthy session holds. */
  lemma GoneLowersBaseline(o: Outside, x: Moment)
    requires |ValidOf(o, x)| < |x.s.v.pending|
    ensures TrimmedAt(o, x).s.v.registered <= |ValidOf(o, x)|
  {
  }

  /** Undisturbed, the attempt begins with nothing on file and everything else as it was. */
  lemma TrimmedQuiet(o: Outside, x: Moment)
    requires Quiet(o.env)
    ensures FilteredAt(o, x).s.v == Reset(x.s.v, [])
    ensures
      var u := TrimmedAt(o, x).s.v;
      u.active == x.s.v.active && u.keys == {} && u.channel == x.s.v.channel
  {
    OthersQuiet(o.env, With(x, Reset(x.s.v, [])));
    OthersQuiet(o.env, FilteredAt(o, x));
  }

  lemma ResubscribeSound(o: Outside, w: World, x: Moment)
    requires Behaved(o, w) && Steady(x.s, w)
    ensures Sound(Resubscribed(o, x).x.s, w.names)
    ensures Resubscribed(o, x).err ==> Steady(Resubscribed(o, x).x.s, w)
  {
    if Declared(x.s.v) {
      ValidFacts(o, w, x);
      TrimmedSteady(o, w, x);
      if ValidOf(o, x) == [] {
        SteadyOthers(o.env, FilteredAt(o, x), w);
      } else {
        AttemptSound(o, w, x.s.v.pending, x.s.v.channel.value, ValidOf(o, x), TrimmedAt(o, x));
      }
    }
  }

  /** The declared intent, the channel and the bound handles are the same; the baseline count may differ. */
  predicate SameSubscriptions(v: View, u: View) {
    u == v.(registered := u.registered)
  }

  /**
   * Undisturbed, a failed resubscribe changes nothing that was declared or bound, and names every handle it heard
   * of.
   */
  lemma FailedResubscribeUndone(o: Outside, w: World, x: Moment)
    requires Behaved(o, w) && Quiet(o.env) && Steady(x.s, w) && Resubscribed(o, x).err
    ensures SameSubscriptions(x.s.v, Resubscribed(o, x).x.s.v)
    ensures Declared(x.s.v)
    ensures forall h | h in HeardIn(o.env, CallIn(o, x), CalledAt(o, x)) :: h in Resubscribed(o, x).deletes
  {
    ValidFacts(o, w, x);
    TrimmedSteady(o, w, x);
    TrimmedQuiet(o, x);
    AttemptFails(o, w, x.s.v.pending, x.s.v.channel.value, ValidOf(o, x), TrimmedAt(o, x));
  }

  /** The entry is on file after an attempt that did not fail: bound, or skipped with attempts left. */
  predicate Stays(r: Result, e: Pending) {
    Success(r) || Retried(r, e)
  }

  predicate OnFileIn(key: Key, p: seq<Pending>) {
    exists i | 0 <= i < |p| :: PendingKey(p[i]) == key
  }

  /** What is on file after such an attempt. */
  ghost predicate FileAfter(valid: seq<Pending>, results: seq<Result>, keys: set<Key>) {
    && |results| == |valid|
    && (forall i | 0 <= i < |valid| :: PendingKey(valid[i]) in keys <==> Stays(results[i], valid[i]))
    && (forall k | k in keys :: OnFileIn(k, valid))
  }

  lemma StaysExactly(valid: seq<Pending>, results: seq<Result>, keys: set<Key>)
    requires UniqueKeys(valid) && |results| == |valid|
    requires keys == SuccessKeys(Configs(valid), results) + KeysOf(RetryList(results, valid, |results|))
    ensures FileAfter(valid, results, keys)
  {
    forall k ensures k in keys <==>
      exists i | 0 <= i < |valid| :: Stays(results[i], valid[i]) && PendingKey(valid[i]) == k
    {
      RetryKeys(results, valid, |results|, k);
      if k in SuccessKeys(Configs(valid), results) {
        var i :| 0 <= i < |results| && Success(results[i]) && k == KeyOf(Configs(valid)[i].name);
        assert Stays(results[i], valid[i]) && PendingKey(valid[i]) == k;
      }
      if i :| 0 <= i < |valid| && Stays(results[i], valid[i]) && PendingKey(valid[i]) == k {
        assert k == KeyOf(Configs(valid)[i].name);
      }
    }
  }

  /** Undisturbed, the batch of a resubscribe looks at its configs exactly when the runtime serves. */
  lemma QuietScreens(o: Outside, x: Moment)
    requires Quiet(o.env) && Declared(x.s.v) && ValidOf(o, x) != []
    ensures Screens(o.env, CallIn(o, x), CalledAt(o, x)) <==> o.running
  {
    TrimmedQuiet(o, x);
    OthersQuiet(o.env, TrimmedAt(o, x));
    OthersQuiet(o.env, CalledAt(o, x));
  }

  /** Undisturbed, a resubscribe fails exactly when it has something to send and the runtime or the call fails it. */
  lemma ResubscribeFailsExactly(o: Outside, x: Moment)
    requires Answered(o.plc) && Quiet(o.env)
    ensures Resubscribed(o, x).err <==>
      && Declared(x.s.v) && ValidOf(o, x) != []
      && (!o.running ||
          (Add(o.env, CallIn(o, x), CalledAt(o, x)).sent != []
           && CallFails(JobOf(o.env, CallIn(o, x), CalledAt(o, x)).p.reply)))
  {
    if Declared(x.s.v) && ValidOf(o, x) != [] {
      QuietScreens(o, x);
      AddCases(o.env, CallIn(o, x), CalledAt(o, x));
    }
  }

  /** Undisturbed, a resubscribe that does not fail leaves on file exactly the entries still there that stay. */
  lemma ResubscribeFiles(o: Outside, w: World, x: Moment)
    requires Behaved(o, w) && Quiet(o.env) && Steady(x.s, w) && Declared(x.s.v) && !Resubscribed(o, x).err
    ensures FileAfter(ValidOf(o, x), if ValidOf(o, x) == [] then [] else ResultsOf(o, x), Resubscribed(o, x).x.s.v.keys)
    ensures ValidOf(o, x) == [] ==> Resubscribed(o, x).x.s.v.channel.None? && Resubscribed(o, x).x.s.v.registered == 0
  {
    ValidFacts(o, w, x);
    TrimmedQuiet(o, x);
    if ValidOf(o, x) == [] {
      OthersQuiet(o.env, FilteredAt(o, x));
    } else {
      TrimmedSteady(o, w, x);
      AllReported(o, w, x);
      AttemptFiles(o, w, x.s.v.pending, x.s.v.channel.value, ValidOf(o, x), TrimmedAt(o, x));
      StaysExactly(ValidOf(o, x), ResultsOf(o, x), Resubscribed(o, x).x.s.v.keys);
    }
  }

  lemma AllReported(o: Outside, w: World, x: Moment)
    requires Behaved(o, w) && Quiet(o.env) && Steady(x.s, w) && Declared(x.s.v) && !Resubscribed(o, x).err
    requires ValidOf(o, x) != []
    ensures |ResultsOf(o, x)| == |ValidOf(o, x)|
  {
    ValidFacts(o, w, x);
    TrimmedSteady(o, w, x);
    QuietScreens(o, x);
    ResubscribeFailsExactly(o, x);
    AttemptFair(o, w, x.s.v.channel.value, ValidOf(o, x), TrimmedAt(o, x));
    AddSendsExactly(o.env, CallIn(o, x), w, CalledAt(o, x), 0);
  }

  /** An entry whose request the PLC answers with an error code is not on file afterwards. */
  lemma RejectedComesOffFile(o: Outside, w: World, x: Moment, i: nat)
    requires Behaved(o, w) && Quiet(o.env) && Steady(x.s, w) && Declared(x.s.v) && !Resubscribed(o, x).err
    requires Errs(o.env, CallIn(o, x), CalledAt(o, x), i)
    ensures
      var idx := JobOf(o.env, CallIn(o, x), CalledAt(o, x)).p.sent[i];
      idx < |ValidOf(o, x)| && PendingKey(ValidOf(o, x)[idx]) !in Resubscribed(o, x).x.s.v.keys
  {
    ValidFacts(o, w, x);
    TrimmedSteady(o, w, x);
    AttemptFair(o, w, x.s.v.channel.value, ValidOf(o, x), TrimmedAt(o, x));
    ErrorIsReported(o.env, CallIn(o, x), w, CalledAt(o, x), i);
    ResubscribeFiles(o, w, x);
    ErrorNotOnFile(ValidOf(o, x), ResultsOf(o, x), Resubscribed(o, x).x.s.v.keys,
                   JobOf(o.env, CallIn(o, x), CalledAt(o, x)).p.sent[i]);
  }

  lemma ErrorNotOnFile(valid: seq<Pending>, results: seq<Result>, keys: set<Key>, idx: nat)
    requires FileAfter(valid, results, keys) && idx < |results|
    requires results[idx].skipped.None? && results[idx].error != 0
    ensures PendingKey(valid[idx]) !in keys
  {
  }
}
