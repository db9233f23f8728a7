/** Which entries an undisturbed re-subscribe leaves on file, with which attempt counts, and which it binds again. */
module ResubscribeEntries {

  import opened Basics
  import opened SymbolNames
  import opened NotificationManager
  import opened NotificationInvariant
  import opened ManagerLaws
  import opened BatchSubscribe
  import opened BatchProofs
  import opened BatchQuiet
  import opened Resubscribe
  import opened ResubscribeProofs

  // ---------------------------------------------------------------- queueing

  /** Queueing files exactly these entries, attempt counts included, over what is under their keys. */
  lemma {:induction false} RequeuedEntries(v: View, retry: seq<Pending>)
    requires OnFile(v) && UniqueKeys(retry)
    ensures forall e :: e in Requeued(v, retry).pending <==>
      e in retry || (e in v.pending && PendingKey(e) !in KeysOf(retry))
    decreases |retry|
  {
    if retry == [] {
      assert KeysOf(retry) == {};
    } else {
      var first, rest := retry[0], retry[1..];
      FiledKeeps(v, first);
      FiledEntries(v, first);
      RequeuedEntries(Filed(v, first), rest);
      KeysOfCons(retry);
      assert forall e :: e in retry <==> e == first || e in rest;
      FirstKeyIsNew(retry);
    }
  }

  lemma FirstKeyIsNew(p: seq<Pending>)
    requires p != [] && UniqueKeys(p)
    ensures PendingKey(p[0]) !in KeysOf(p[1..])
  {
    forall j | 0 <= j < |p[1..]| ensures PendingKey(p[1..][j]) != PendingKey(p[0]) {
      assert p[1..][j] == p[j + 1];
    }
  }

  lemma {:induction false} RetryUnique(results: seq<Result>, valid: seq<Pending>, n: nat)
    requires n <= |results| <= |valid| && UniqueKeys(valid)
    ensures UniqueKeys(RetryList(results, valid, n))
  {
    if n > 0 {
      RetryUnique(results, valid, n - 1);
      var front := RetryList(results, valid, n - 1);
      forall i | 0 <= i < |front| ensures PendingKey(front[i]) != PendingKey(valid[n - 1]) {
        RetryKeys(results, valid, n - 1, PendingKey(front[i]));
      }
    }
  }

  // ---------------------------------------------------------------- the entries after an attempt

  /** The entry valid[i] is on file as e: declared afresh if it was bound, with one more attempt counted if it waits. */
  predicate StaysAs(r: Result, valid: Pending, e: Pending) {
    || (Success(r) && e == Pending(valid.config, 0))
    || (Retried(r, valid) && e == valid.(attempts := valid.attempts + 1))
  }

  ghost predicate SomeStaysAs(results: seq<Result>, valid: seq<Pending>, e: Pending)
    requires |results| <= |valid|
  {
    exists i :: 0 <= i < |results| && StaysAs(results[i], valid[i], e)
  }

  lemma CleanedUpEntries(o: Outside, w: World, results: seq<Result>, valid: seq<Pending>, x: Moment)
    requires Behaved(o, w) && Quiet(o.env) && Sound(x.s, w.names) && |results| <= |valid| && UniqueKeys(valid)
    requires OrphansOutside(results, x.s.v.active.Keys)
    ensures
      var retry := RetryList(results, valid, |results|);
      forall e :: e in CleanedUp(o, results, valid, x).s.v.pending <==>
        e in retry || (e in x.s.v.pending && PendingKey(e) !in KeysOf(retry))
  {
    var retry := RetryList(results, valid, |results|);
    var y := Released(o.env, Orphans(results, |results|), o.acks, x);
    OrphansReleasedQuiet(o, w, results, x);
    RetryUnique(results, valid, |results|);
    OthersQuiet(o.env, y);
    RequeuedEntries(y.s.v, retry);
    if retry == [] {
      assert KeysOf(retry) == {};
    }
    OthersQuiet(o.env, QueuedAgain(o, retry, y));
  }

  /** A success is not queued again, so its entry is not replaced. */
  lemma SuccessNotRetried(results: seq<Result>, valid: seq<Pending>, i: nat)
    requires |results| <= |valid| && UniqueKeys(valid) && i < |results| && Success(results[i])
    ensures PendingKey(valid[i]) !in KeysOf(RetryList(results, valid, |results|))
  {
    RetryKeys(results, valid, |results|, PendingKey(valid[i]));
  }

  lemma EntryStays(results: seq<Result>, valid: seq<Pending>, e: Pending)
    requires |results| <= |valid| && UniqueKeys(valid)
    ensures
      var retry := RetryList(results, valid, |results|);
      SomeStaysAs(results, valid, e) <==>
        e in retry || (SuccessEntry(Configs(valid), results, e) && PendingKey(e) !in KeysOf(retry))
  {
    RetryCounts(results, valid, |results|, e);
    if i :| 0 <= i < |results| && Success(results[i]) && e == Pending(Configs(valid)[i], 0) {
      SuccessNotRetried(results, valid, i);
      assert StaysAs(results[i], valid[i], e);
    }
    if i :| 0 <= i < |results| && StaysAs(results[i], valid[i], e) && Success(results[i]) {
      SuccessNotRetried(results, valid, i);
      assert e == Pending(Configs(valid)[i], 0);
    }
    if i :| 0 <= i < |results| && Retried(results[i], valid[i]) && e == valid[i].(attempts := valid[i].attempts + 1) {
      assert StaysAs(results[i], valid[i], e);
    }
  }

  lemma AttemptEntries(o: Outside, w: World, saved: seq<Pending>, ch: Chan, valid: seq<Pending>, x: Moment)
    requires Behaved(o, w) && Quiet(o.env) && Steady(x.s, w) && UniqueKeys(valid) && x.s.v.pending == []
    requires forall e | e in valid :: e.config.name in w.names
    requires !Attempted(o, saved, ch, valid, x).err
    ensures
      var u := Attempted(o, saved, ch, valid, x).x.s.v;
      var results := BatchOf(o, ch, valid, x).results;
      && (forall e :: e in u.pending <==> SomeStaysAs(results, valid, e))
      && u.channel == (if AnySuccess(results) then Some(ch) else x.s.v.channel)
      && (forall i | 0 <= i < |results| && Success(results[i]) ::
            SuccessBound(u, valid[i].config, results[i], ch))
  {
    var y := Others(o.env, x);
    var out := BatchOf(o, ch, valid, x);
    OthersQuiet(o.env, x);
    AttemptFair(o, w, ch, valid, x);
    BatchLeaves(o.env, CallOf(o, valid, ch), w, y);
    QuietAddFiles(o.env, CallOf(o, valid, ch), w, y);
    CleanedUpQuiet(o, w, out.results, valid, out.x);
    CleanedUpEntries(o, w, out.results, valid, out.x);
    forall e ensures e in CleanedUp(o, out.results, valid, out.x).s.v.pending <==> SomeStaysAs(out.results, valid, e) {
      EntryStays(out.results, valid, e);
    }
  }

  /** Undisturbed, the attempt begins with nothing on file. */
  lemma TrimmedEmpty(o: Outside, x: Moment)
    requires Quiet(o.env)
    ensures TrimmedAt(o, x).s.v.pending == [] && TrimmedAt(o, x).s.v.channel == x.s.v.channel
  {
    OthersQuiet(o.env, With(x, Reset(x.s.v, [])));
    OthersQuiet(o.env, FilteredAt(o, x));
  }

  /**
   * Undisturbed, a resubscribe that does not fail leaves on file exactly: each entry it bound, as declared and with
   * no attempts counted, and each entry it skipped with attempts left, with one more counted. What it bound is bound
   * to its name and to the channel at entry, and that channel stays bound.
   */
  lemma ResubscribeEntriesExactly(o: Outside, w: World, x: Moment)
    requires Behaved(o, w) && Quiet(o.env) && Steady(x.s, w) && Declared(x.s.v) && !Resubscribed(o, x).err
    requires ValidOf(o, x) != []
    ensures
      var u, results := Resubscribed(o, x).x.s.v, ResultsOf(o, x);
      && |results| == |ValidOf(o, x)|
      && (forall e :: e in u.pending <==> SomeStaysAs(results, ValidOf(o, x), e))
      && u.channel == x.s.v.channel
      && (forall i | 0 <= i < |results| && Success(results[i]) ::
            SuccessBound(u, ValidOf(o, x)[i].config, results[i], x.s.v.channel.value))
  {
    ValidFacts(o, w, x);
    TrimmedQuiet(o, x);
    TrimmedEmpty(o, x);
    TrimmedSteady(o, w, x);
    AllReported(o, w, x);
    AttemptEntries(o, w, x.s.v.pending, x.s.v.channel.value, ValidOf(o, x), TrimmedAt(o, x));
  }

  // ---------------------------------------------------------------- what is bound again

  /** The PLC gave the request of config idx a handle. */
  ghost predicate GivenHandle(p: Plan, idx: nat)
    requires Fit(p)
  {
    exists i :: 0 <= i < |p.sent| && p.sent[i] == idx && Learned(p.reply, |p.sent|, i).Some?
  }

  lemma TrimmedStill(o: Outside, x: Moment)
    requires Still(o.env)
    ensures FilteredAt(o, x).s.symbols == x.s.symbols
    ensures CalledAt(o, x).s.symbols == x.s.symbols && CalledAt(o, x).s.v.active == x.s.v.active
  {
    OthersStill(o.env, With(x, Reset(x.s.v, [])));
    OthersStill(o.env, FilteredAt(o, x));
    OthersStill(o.env, TrimmedAt(o, x));
  }

  /** With nothing live, exactly the entries that resolve are sent. */
  lemma AllAreSent(o: Outside, w: World, x: Moment, idx: nat)
    requires Behaved(o, w) && Still(o.env) && Steady(x.s, w) && Declared(x.s.v) && o.running && x.s.v.active == map[]
    requires idx < |ValidOf(o, x)|
    ensures idx in Add(o.env, CallIn(o, x), CalledAt(o, x)).sent <==> o.resolves(idx)
  {
    var a, y := CallIn(o, x), CalledAt(o, x);
    OthersStill(o.env, x);
    TrimmedStill(o, x);
    ValidFacts(o, w, x);
    TrimmedSteady(o, w, x);
    QuietScreens(o, x);
    AttemptFair(o, w, x.s.v.channel.value, ValidOf(o, x), TrimmedAt(o, x));
    AddSendsExactly(o.env, a, w, y, idx);
    OthersStill(o.env, y);
    assert LiveKeys(Others(o.env, y).s.v) == {};
    forall j | 0 <= j < idx ensures KeyOf(a.configs[j].name) != KeyOf(a.configs[idx].name) {
      assert PendingKey(ValidOf(o, x)[j]) != PendingKey(ValidOf(o, x)[idx]);
    }
  }

  /**
   * When nobody else does anything and nothing is bound yet, as after a reconnect or a sweep: an entry still there is
   * bound again exactly when it resolves, the PLC gives it a handle and its symbol is in the cache.
   */
  lemma ResubscribeBindsExactly(o: Outside, w: World, x: Moment, idx: nat)
    requires Behaved(o, w) && Still(o.env) && Steady(x.s, w) && Declared(x.s.v) && x.s.v.active == map[]
    requires !Resubscribed(o, x).err && idx < |ValidOf(o, x)|
    ensures
      var p := JobOf(o.env, CallIn(o, x), CalledAt(o, x)).p;
      && |ResultsOf(o, x)| == |ValidOf(o, x)|
      && (Success(ResultsOf(o, x)[idx]) <==>
            o.resolves(idx) && GivenHandle(p, idx) && PendingKey(ValidOf(o, x)[idx]) in x.s.symbols)
  {
    var a, y := CallIn(o, x), CalledAt(o, x);
    OthersStill(o.env, x);
    ResubscribeFailsExactly(o, x);
    AllReported(o, w, x);
    AllAreSent(o, w, x, idx);
    TrimmedStill(o, x);
    ValidFacts(o, w, x);
    TrimmedSteady(o, w, x);
    AttemptFair(o, w, x.s.v.channel.value, ValidOf(o, x), TrimmedAt(o, x));
    BindsExactly(o.env, a, w, y, idx);
  }

  lemma BindsExactly(env: Env, a: Call, w: World, y: Moment, idx: nat)
    requires Fair(env, a, w, y) && Still(env) && Screens(env, a, y) && idx < |a.configs|
    ensures
      var out, p := Add(env, a, y), JobOf(env, a, y).p;
      && |out.results| == |a.configs|
      && (Success(out.results[idx]) <==>
            idx in out.sent && GivenHandle(p, idx) && KeyOf(a.configs[idx].name) in y.s.symbols)
  {
    var out := Add(env, a, y);
    AddSendsExactly(env, a, w, y, idx);
    AddCases(env, a, y);
    if idx in out.sent {
      var i :| 0 <= i < |out.sent| && out.sent[i] == idx;
      AddSucceedsExactly(env, a, w, y, i);
      GivenAt(JobOf(env, a, y).p, i, idx);
    } else {
      assert !Success(out.results[idx]);
    }
  }

  /** The request of config idx is the one at i, and no other. */
  lemma GivenAt(p: Plan, i: nat, idx: nat)
    requires Fit(p) && i < |p.sent| && p.sent[i] == idx
    ensures GivenHandle(p, idx) <==> Learned(p.reply, |p.sent|, i).Some?
  {
    if k :| 0 <= k < |p.sent| && p.sent[k] == idx && Learned(p.reply, |p.sent|, k).Some? {
      assert k == i;
    }
  }
}
