/**
 * Re-subscribing what the caller declared, after a reconnect or when the heartbeat finds the
 * subscriptions dead. Each method is tied to a function; the laws are in ResubscribeProofs.
 */
module Resubscribe {

  import opened Basics
  import opened SymbolNames
  import opened NotificationManager
  import opened BatchSubscribe

  const MAX_ATTEMPTS: nat := 3

  /**
   * What the PLC and the other goroutines do during one attempt. order is the order in which
   * the handles of a map are met.
   */
  datatype Outside = Outside(
    running: bool,
    resolves: nat -> bool,
    plc: nat -> Reply,
    acks: Handle -> bool,
    onDemand: set<Key>,
    order: set<Handle> -> seq<Handle>,
    env: Env)

  // ---------------------------------------------------------------- the pieces

  predicate StillThere(symbols: map<Key, Name>, onDemand: set<Key>, e: Pending) {
    PendingKey(e) in symbols || PendingKey(e) in onDemand
  }

  /** The entries still there, in order. */
  function Filtered(symbols: map<Key, Name>, onDemand: set<Key>, entries: seq<Pending>): (valid: seq<Pending>)
    ensures |valid| <= |entries|
    ensures forall e :: e in valid <==> e in entries && StillThere(symbols, onDemand, e)
  {
    if entries == [] then []
    else
      var last := entries[|entries| - 1];
      assert entries == entries[..|entries| - 1] + [last];
      Filtered(symbols, onDemand, entries[..|entries| - 1]) + if StillThere(symbols, onDemand, last) then [last] else []
  }

  /** filterValidPending */
  method FilterValidPending(symbols: map<Key, Name>, onDemand: set<Key>, entries: seq<Pending>)
    returns (valid: seq<Pending>)
    ensures valid == Filtered(symbols, onDemand, entries)
  {
    valid := [];
    for i := 0 to |entries|
      invariant valid == Filtered(symbols, onDemand, entries[..i])
    {
      assert entries[..i + 1][..i] == entries[..i];
      if StillThere(symbols, onDemand, entries[i]) {
        valid := valid + [entries[i]];
      }
    }
    assert entries[..|entries|] == entries;
  }

  /** A skipped entry is tried again until its attempts run out. */
  predicate Retried(r: Result, e: Pending) {
    r.skipped.Some? && e.attempts + 1 < MAX_ATTEMPTS
  }

  function CountedOnce(e: Pending): Pending {
    e.(attempts := e.attempts + 1)
  }

  /** The handles to release among the first n results, in order. */
  function Orphans(results: seq<Result>, n: nat): seq<Handle>
    requires n <= |results|
  {
    if n == 0 then []
    else
      var r := results[n - 1];
      Orphans(results, n - 1) + if r.skipped.Some? && r.handle != 0 then [r.handle] else []
  }

  /** The entries to queue again among the first n, in order. */
  function RetryList(results: seq<Result>, valid: seq<Pending>, n: nat): seq<Pending>
    requires n <= |results| <= |valid|
  {
    if n == 0 then []
    else
      RetryList(results, valid, n - 1) +
      if Retried(results[n - 1], valid[n - 1]) then [CountedOnce(valid[n - 1])] else []
  }

  /** How many of the first n are given up for good. */
  function GivenUp(results: seq<Result>, valid: seq<Pending>, n: nat): (k: nat)
    requires n <= |results| <= |valid|
    ensures k <= n
  {
    if n == 0 then 0
    else
      GivenUp(results, valid, n - 1) +
      if results[n - 1].skipped.Some? && !Retried(results[n - 1], valid[n - 1]) then 1 else 0
  }

  /** Sorts the results of an attempt: handles to release, entries to retry, and how many ran out of attempts. */
  method Triage(results: seq<Result>, valid: seq<Pending>)
    returns (orphans: seq<Handle>, retry: seq<Pending>, dropped: nat)
    requires |results| <= |valid|
    ensures orphans == Orphans(results, |results|)
    ensures retry == RetryList(results, valid, |results|)
    ensures dropped == GivenUp(results, valid, |results|)
  {
    orphans, retry, dropped := [], [], 0;
    for i := 0 to |results|
      invariant orphans == Orphans(results, i)
      invariant retry == RetryList(results, valid, i) && dropped == GivenUp(results, valid, i)
    {
      var r := results[i];
      if r.skipped.Some? && r.handle != 0 {
        orphans := orphans + [r.handle];
      }
      if r.skipped.Some? {
        var entry := valid[i].(attempts := valid[i].attempts + 1);
        if entry.attempts >= MAX_ATTEMPTS {
          dropped := dropped + 1;
        } else {
          retry := retry + [entry];
        }
      }
    }
  }

  /** The entries are filed again, in order. */
  function Requeued(v: View, retry: seq<Pending>): View
    decreases |retry|
  {
    if retry == [] then v else Requeued(Filed(v, retry[0]), retry[1..])
  }

  method Requeue(m: Manager, retry: seq<Pending>)
    modifies m
    ensures m.Now() == Requeued(old(m.Now()), retry)
  {
    assert retry[0..] == retry;
    for i := 0 to |retry|
      invariant Requeued(m.Now(), retry[i..]) == Requeued(old(m.Now()), retry)
    {
      assert retry[i..][1..] == retry[i + 1..];
      m.SetPending(retry[i]);
    }
  }

  /** Every handle that is not in before is forgotten, the intent and the channel are put back. */
  function Forgotten(v: View, before: set<Handle>, saved: seq<Pending>, channel: Option<Chan>): View {
    Reset(v.(active := v.active - (v.active.Keys - before)), saved).(channel := channel)
  }

  /** The rollback's section under the manager lock. */
  method Rollback(m: Manager, before: set<Handle>, saved: seq<Pending>, channel: Option<Chan>)
    returns (gone: set<Handle>)
    modifies m
    ensures gone == old(m.active).Keys - before
    ensures m.Now() == Forgotten(old(m.Now()), before, saved, channel)
  {
    gone := m.active.Keys - before;
    m.active := m.active - gone;
    m.ResetConfigs(saved);
    m.channel := channel;
  }

  // ---------------------------------------------------------------- one attempt

  function Configs(valid: seq<Pending>): (configs: seq<Config>)
    ensures |configs| == |valid| && forall i | 0 <= i < |valid| :: configs[i] == valid[i].config
  {
    seq(|valid|, i requires 0 <= i < |valid| => valid[i].config)
  }

  function CallOf(o: Outside, valid: seq<Pending>, ch: Chan): Call {
    Call(Configs(valid), ch, o.running, o.resolves, o.plc, o.acks)
  }

  /** What can be retried is filed again. */
  function QueuedAgain(o: Outside, retry: seq<Pending>, x: Moment): Moment {
    if retry == [] then x
    else
      var y := Others(o.env, x);
      With(y, Requeued(y.s.v, retry))
  }

  /** The baseline is lowered for what is given up. */
  function Lowered(o: Outside, dropped: nat, size: nat, x: Moment): Moment
    requires dropped <= size
  {
    if dropped == 0 then x
    else
      var y := Others(o.env, x);
      With(y, LowerRegisteredTo(y.s.v, size - dropped))
  }

  /**
   * What follows the batch: release leftovers, requeue what may be retried, lower the baseline for what is given
   * up.
   */
  function CleanedUp(o: Outside, results: seq<Result>, valid: seq<Pending>, x: Moment): Moment
    requires |results| <= |valid|
  {
    var y := Released(o.env, Orphans(results, |results|), o.acks, x);
    var z := QueuedAgain(o, RetryList(results, valid, |results|), y);
    Lowered(o, GivenUp(results, valid, |results|), |valid|, z)
  }

  method CleanUp(sess: Session, results: seq<Result>, valid: seq<Pending>, o: Outside)
    requires |results| <= |valid|
    modifies sess, sess.manager
    ensures sess.At() == CleanedUp(o, results, valid, old(sess.At()))
    ensures sess.requested == old(sess.requested) + Orphans(results, |results|)
  {
    var orphans, retry, dropped := Triage(results, valid);
    sess.BestEffortDelete(orphans, o.acks, o.env);
    if retry != [] {
      sess.Interfere(o.env);
      Requeue(sess.manager, retry);
    }
    if dropped > 0 {
      sess.Interfere(o.env);
      if |valid| - dropped < sess.manager.registered {
        sess.manager.registered := |valid| - dropped;
      }
    }
  }

  /** The handles a rollback forgets at moment x, when before were bound before the attempt. */
  function Gone(o: Outside, before: set<Handle>, x: Moment): set<Handle> {
    Others(o.env, x).s.v.active.Keys - before
  }

  function RolledBack(o: Outside, before: set<Handle>, saved: seq<Pending>, ch: Chan, x: Moment): Moment {
    var y := Others(o.env, x);
    Released(o.env, o.order(Gone(o, before, x)), o.acks, With(y, Forgotten(y.s.v, before, saved, Some(ch))))
  }

  /** The rollback, and the delete requests for what it forgot. */
  method RollBack(sess: Session, before: set<Handle>, saved: seq<Pending>, ch: Chan, o: Outside)
    modifies sess, sess.manager
    ensures sess.At() == RolledBack(o, before, saved, ch, old(sess.At()))
    ensures sess.requested == old(sess.requested) + o.order(Gone(o, before, old(sess.At())))
  {
    sess.Interfere(o.env);
    var gone := Rollback(sess.manager, before, saved, Some(ch));
    sess.BestEffortDelete(o.order(gone), o.acks, o.env);
  }

  /** How an attempt ends, and the handles its delete requests name. */
  datatype Attempt = Attempt(err: bool, x: Moment, deletes: seq<Handle>)

  /** The batch of an attempt that begins at x. */
  ghost function BatchOf(o: Outside, ch: Chan, valid: seq<Pending>, x: Moment): (out: Outcome)
    requires Answered(o.plc)
    ensures |out.results| <= |valid|
  {
    Add(o.env, CallOf(o, valid, ch), Others(o.env, x))
  }

  /** The attempt itself; on an error, everything it did is undone. */
  ghost function Attempted(o: Outside, saved: seq<Pending>, ch: Chan, valid: seq<Pending>, x: Moment): Attempt
    requires Answered(o.plc)
  {
    var out := BatchOf(o, ch, valid, x);
    var orphans := Orphans(out.results, |out.results|);
    var z := CleanedUp(o, out.results, valid, out.x);
    var before := Others(o.env, x).s.v.active.Keys;
    if !out.err then Attempt(false, z, out.released + orphans)
    else Attempt(true, RolledBack(o, before, saved, ch, z), out.released + orphans + o.order(Gone(o, before, z)))
  }

  method RegisterOrRollBack(sess: Session, saved: seq<Pending>, ch: Chan, valid: seq<Pending>, o: Outside)
    returns (err: bool)
    requires Answered(o.plc)
    modifies sess, sess.manager
    ensures
      var a := Attempted(o, saved, ch, valid, old(sess.At()));
      err == a.err && sess.At() == a.x && sess.requested == old(sess.requested) + a.deletes
  {
    sess.Interfere(o.env);
    var before := sess.manager.active.Keys;
    var results;
    results, err := sess.AddSymbolNotifications(CallOf(o, valid, ch), o.env);
    CleanUp(sess, results, valid, o);
    ghost var out := BatchOf(o, ch, valid, old(sess.At()));
    ghost var orphans := Orphans(results, |results|);
    Joined(old(sess.requested), out.released, orphans);
    if err {
      ghost var gone := o.order(Gone(o, before, sess.At()));
      Joined(old(sess.requested), out.released + orphans, gone);
      RollBack(sess, before, saved, ch, o);
    }
  }

  lemma Joined(a: seq<Handle>, b: seq<Handle>, c: seq<Handle>)
    ensures a + b + c == a + (b + c)
  {
  }

  // ---------------------------------------------------------------- resubscribe

  /** The moment at which the declared entries are compared with the cache. */
  function FilteredAt(o: Outside, x: Moment): Moment {
    Others(o.env, With(x, Reset(x.s.v, [])))
  }

  /** The declared entries that are still there. */
  function ValidOf(o: Outside, x: Moment): seq<Pending> {
    Filtered(FilteredAt(o, x).s.symbols, o.onDemand, x.s.v.pending)
  }

  /** What is gone from the PLC comes off the baseline. */
  function Trimmed(o: Outside, size: nat, declared: nat, x: Moment): Moment {
    if size < declared then With(Others(o.env, x), LowerRegisteredTo(Others(o.env, x).s.v, size)) else x
  }

  method Trim(sess: Session, size: nat, declared: nat, o: Outside)
    modifies sess`symbols, sess`epoch, sess`ticks, sess.manager
    ensures sess.At() == Trimmed(o, size, declared, old(sess.At()))
  {
    if size < declared {
      sess.Interfere(o.env);
      if size < sess.manager.registered {
        sess.manager.registered := size;
      }
    }
  }

  /** The moment at which the attempt begins. */
  function TrimmedAt(o: Outside, x: Moment): Moment {
    Trimmed(o, |ValidOf(o, x)|, |x.s.v.pending|, FilteredAt(o, x))
  }

  /** Something is declared and a channel is bound. */
  predicate Declared(v: View) {
    v.pending != [] && v.channel.Some?
  }

  /** resubscribeNotificationsLocked */
  ghost function Resubscribed(o: Outside, x: Moment): Attempt
    requires Answered(o.plc)
  {
    if !Declared(x.s.v) then Attempt(false, x, [])
    else if ValidOf(o, x) == [] then
      var y := Others(o.env, FilteredAt(o, x));
      Attempt(false, With(y, y.s.v.(channel := None, registered := 0)), [])
    else Attempted(o, x.s.v.pending, x.s.v.channel.value, ValidOf(o, x), TrimmedAt(o, x))
  }

  method ResubscribeLocked(sess: Session, o: Outside) returns (err: bool)
    requires Answered(o.plc)
    modifies sess, sess.manager
    ensures
      var a := Resubscribed(o, old(sess.At()));
      err == a.err && sess.At() == a.x && sess.requested == old(sess.requested) + a.deletes
  {
    var saved, channel := sess.manager.pending, sess.manager.channel;
    if saved == [] || channel.None? {
      return false;
    }
    sess.manager.ResetConfigs([]);
    sess.Interfere(o.env);
    var valid := FilterValidPending(sess.symbols, o.onDemand, saved);
    if valid == [] {
      sess.Interfere(o.env);
      sess.manager.channel := None;
      sess.manager.registered := 0;
      return false;
    }
    Trim(sess, |valid|, |saved|, o);
    err := RegisterOrRollBack(sess, saved, channel.value, valid, o);
  }

  // ---------------------------------------------------------------- recovery

  datatype Recovery = RecoveryFailed | RecoveryDone | RecoveryDeferred

  /** How a recovery ends, and the handles its delete requests name. */
  datatype Recovered = Recovered(outcome: Recovery, x: Moment, deletes: seq<Handle>)

  /** restoreIntent */
  function Reinstated(v: View, intent: seq<Pending>, channel: Option<Chan>): View {
    var u := Restored(v, intent);
    if u.channel.None? then u.(channel := channel) else u
  }

  method RestoreIntent(m: Manager, intent: seq<Pending>, channel: Option<Chan>)
    modifies m
    ensures m.Now() == Reinstated(old(m.Now()), intent, channel)
  {
    m.RestoreConfigs(intent);
    if m.channel.None? {
      m.channel := channel;
    }
  }

  /** Every handle is unbound, as the recovery's sweep leaves it. */
  function Sweep(x: Moment): Moment {
    With(x, x.s.v.(active := map[]))
  }

  /** The moment at which the swept handles are released. */
  function ReleasedAt(o: Outside, x: Moment): Moment {
    Released(o.env, o.order(x.s.v.active.Keys), o.acks, Sweep(x))
  }

  /** The moment at which the intent is copied. */
  function SnapAt(o: Outside, x: Moment): Moment {
    Others(o.env, ReleasedAt(o, x))
  }

  /** After the attempt a, made at the snapshot s: the intent is put back if the attempt failed or bound nothing. */
  function Ended(o: Outside, s: Moment, a: Attempt): Recovered {
    var y := Others(o.env, a.x);
    if a.err then
      var v := Reinstated(y.s.v, s.s.v.pending, s.s.v.channel);
      Recovered(if !o.running then RecoveryDeferred else RecoveryFailed, With(y, v), a.deletes)
    else
      var z := Others(o.env, y);
      if |y.s.v.active| == 0 && |s.s.v.pending| > 0 then
        Recovered(RecoveryFailed, With(z, Reinstated(z.s.v, s.s.v.pending, s.s.v.channel)), a.deletes)
      else Recovered(RecoveryDone, With(z, RaiseRegistered(z.s.v)), a.deletes)
  }

  /** From the snapshot s on. */
  ghost function Tried(o: Outside, s: Moment): Recovered
    requires Answered(o.plc)
  {
    Ended(o, s, Resubscribed(o, s))
  }

  /** recoverDeadSubscriptions: admitted and serving are the two gates at its start. */
  ghost function Recovering(o: Outside, admitted: bool, serving: bool, x: Moment): Recovered
    requires Answered(o.plc)
  {
    if !admitted then Recovered(RecoveryFailed, x, [])
    else if !serving then Recovered(RecoveryDeferred, x, [])
    else
      var r := Tried(o, SnapAt(o, x));
      r.(deletes := o.order(x.s.v.active.Keys) + r.deletes)
  }

  method TryRecover(sess: Session, o: Outside) returns (outcome: Recovery)
    requires Answered(o.plc)
    modifies sess, sess.manager
    ensures Recovered(outcome, sess.At(), Tried(o, old(sess.At())).deletes) == Tried(o, old(sess.At()))
    ensures sess.requested == old(sess.requested) + Tried(o, old(sess.At())).deletes
  {
    var intent, channel := sess.manager.pending, sess.manager.channel;
    var err := ResubscribeLocked(sess, o);
    sess.Interfere(o.env);
    if err {
      RestoreIntent(sess.manager, intent, channel);
      return if !o.running then RecoveryDeferred else RecoveryFailed;
    }
    var bound := |sess.manager.active|;
    sess.Interfere(o.env);
    if bound == 0 && |intent| > 0 {
      RestoreIntent(sess.manager, intent, channel);
      return RecoveryFailed;
    }
    if |sess.manager.active| > sess.manager.registered {
      sess.manager.registered := |sess.manager.active|;
    }
    return RecoveryDone;
  }

  method RecoverDeadSubscriptions(sess: Session, admitted: bool, serving: bool, o: Outside) returns (outcome: Recovery)
    requires Answered(o.plc)
    modifies sess, sess.manager
    ensures
      var r := Recovering(o, admitted, serving, old(sess.At()));
      outcome == r.outcome && sess.At() == r.x && sess.requested == old(sess.requested) + r.deletes
  {
    if !admitted {
      return RecoveryFailed;
    }
    if !serving {
      return RecoveryDeferred;
    }
    var taken := sess.manager.TakeHandles();
    sess.BestEffortDelete(o.order(taken), o.acks, o.env);
    sess.Interfere(o.env);
    Joined(old(sess.requested), o.order(taken), Tried(o, sess.At()).deletes);
    outcome := TryRecover(sess, o);
  }
}
