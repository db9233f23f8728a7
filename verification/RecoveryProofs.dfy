/** What a recovery of dead subscriptions keeps, and how it ends. */
module RecoveryProofs {

  import opened Basics
  import opened SymbolNames
  import opened NotificationManager
  import opened NotificationInvariant
  import opened BatchSubscribe
  import opened BatchProofs
  import opened Resubscribe
  import opened ResubscribeProofs

  // ---------------------------------------------------------------- one recovery

  /** Every key on file in v is on file in u, in the index and among the entries, and a bound channel stays bound. */
  ghost predicate KeepsIntent(v: View, u: View) {
    && (forall k | k in v.keys :: k in u.keys && OnFileIn(k, u.pending))
    && (v.channel.Some? ==> u.channel.Some?)
  }

  lemma FileIsKept(v: View, u: View)
    requires OnFile(u) && FileKept(v, u)
    ensures KeepsIntent(v, u)
  {
    forall k | k in v.keys ensures OnFileIn(k, u.pending) {
      assert k in KeysOf(u.pending);
    }
  }

  lemma KeepsOn(v: View, u: View, x: View)
    requires KeepsIntent(v, u) && KeepsIntent(u, x)
    ensures KeepsIntent(v, x)
  {
  }

  /** Putting the intent back loses nothing that is on file. */
  lemma ReinstatedFacts(v: View, intent: seq<Pending>, channel: Option<Chan>, names: set<Name>)
    requires Good(v, names) && NamesOf(intent) <= names
    ensures
      var u := Reinstated(v, intent, channel);
      && Good(u, names) && u.active == v.active && u.keys == v.keys + KeysOf(intent)
      && u.channel == if v.channel.None? then channel else v.channel
  {
    RestoredGood(v, intent, names);
    RestoredKeeps(v, intent);
  }

  lemma ReinstatedKeeps(y: Moment, w: World, s: View)
    requires Sound(y.s, w.names) && Good(s, w.names)
    ensures
      var u := With(y, Reinstated(y.s.v, s.pending, s.channel));
      && Sound(u.s, w.names) && u.s.v.active == y.s.v.active && KeepsIntent(s, u.s.v)
  {
    ReinstatedFacts(y.s.v, s.pending, s.channel, w.names);
    FileIsKept(s, Reinstated(y.s.v, s.pending, s.channel));
  }

  /** What the end of a recovery leaves, when its attempt kept the bookkeeping. */
  ghost predicate EndsWell(r: Recovered, s: View, w: World) {
    && Sound(r.x.s, w.names)
    && (!r.outcome.RecoveryDone? ==> KeepsIntent(s, r.x.s.v) && Steady(r.x.s, w))
    && (r.outcome.RecoveryDone? ==> |r.x.s.v.active| <= r.x.s.v.registered)
  }

  lemma EndedWell(o: Outside, w: World, s: Moment, a: Attempt)
    requires Behaved(o, w) && Good(s.s.v, w.names) && Sound(a.x.s, w.names) && (a.err ==> Steady(a.x.s, w))
    ensures EndsWell(Ended(o, s, a), s.s.v, w)
  {
    var y := Others(o.env, a.x);
    var z := Others(o.env, y);
    SteadyOthers(o.env, a.x, w);
    SteadyOthers(o.env, y, w);
    ReinstatedKeeps(y, w, s.s.v);
    ReinstatedKeeps(z, w, s.s.v);
    assert |y.s.v.active| == 0 ==> y.s.v.active.Keys == {};
  }

  /** From the snapshot on, an attempt that is not done leaves the snapshot's intent on file. */
  lemma TriedKeeps(o: Outside, w: World, s: Moment)
    requires Behaved(o, w) && Steady(s.s, w)
    ensures EndsWell(Tried(o, s), s.s.v, w)
  {
    ResubscribeSound(o, w, s);
    EndedWell(o, w, s, Resubscribed(o, s));
  }

  /** Only handles from before are bound when the recovery starts, and none of them is given to others. */
  ghost predicate Entered(s: Shared, w: World) {
    Sound(s, w.names) && s.v.active.Keys <= w.first && w.first !! w.theirs
  }

  /** Releasing the swept handles changes nothing by itself: only the others act on the swept state. */
  lemma SweepReleased(o: Outside, w: World, x: Moment)
    requires Behaved(o, w) && Entered(x.s, w)
    ensures ReleasedAt(o, x) == BookedAt(o.env, o.order(x.s.v.active.Keys), Sweep(x))
    ensures Steady(ReleasedAt(o, x).s, w) && Steady(SnapAt(o, x).s, w)
  {
    var hs := o.order(x.s.v.active.Keys);
    assert Steady(Sweep(x).s, w);
    SteadyOthers(o.env, Sweep(x), w);
    OthersAllowed(o.env, Sweep(x), w.theirs, w.names);
    ReleasedFacts(o.env, hs, o.acks, Sweep(x), w);
    SteadyOthers(o.env, ReleasedAt(o, x), w);
  }

  /**
   * Whatever the others do, a recovery that ends failed or deferred leaves on file what was on file at its
   * snapshot.
   */
  lemma RecoveryKeepsSnapshot(o: Outside, w: World, admitted: bool, serving: bool, x: Moment)
    requires Behaved(o, w) && Entered(x.s, w) && !Recovering(o, admitted, serving, x).outcome.RecoveryDone?
    ensures
      var r := Recovering(o, admitted, serving, x);
      && Steady(r.x.s, w)
      && KeepsIntent(if admitted && serving then SnapAt(o, x).s.v else x.s.v, r.x.s.v)
  {
    FileIsKept(x.s.v, x.s.v);
    if admitted && serving {
      SweepReleased(o, w, x);
      TriedKeeps(o, w, SnapAt(o, x));
    }
  }

  lemma RecoverySound(o: Outside, w: World, admitted: bool, serving: bool, x: Moment)
    requires Behaved(o, w) && Entered(x.s, w)
    ensures Sound(Recovering(o, admitted, serving, x).x.s, w.names)
  {
    if admitted && serving {
      SweepReleased(o, w, x);
      TriedKeeps(o, w, SnapAt(o, x));
    }
  }

  /**
   * Under no assumption on what the others take off file: after a recovery that failed or was deferred,
   * a key on file at entry is missing only if the others took it off at one of two moments, while the
   * swept handles were released or just before the snapshot.
   */
  lemma MissingOnlyIfTakenOff(o: Outside, w: World, admitted: bool, serving: bool, x: Moment, k: Key)
    requires Behaved(o, w) && Entered(x.s, w) && !Recovering(o, admitted, serving, x).outcome.RecoveryDone?
    requires k in x.s.v.keys && k !in Recovering(o, admitted, serving, x).x.s.v.keys
    ensures admitted && serving
    ensures
      || k !in Others(o.env, Sweep(x)).s.v.keys
      || (k in ReleasedAt(o, x).s.v.keys && k !in Others(o.env, ReleasedAt(o, x)).s.v.keys)
  {
    RecoveryKeepsSnapshot(o, w, admitted, serving, x);
    if admitted && serving {
      SweepReleased(o, w, x);
    }
  }

  /** The others take no key off file and do not unbind the channel. */
  ghost predicate NoDeletes(env: Env) {
    forall n, s: Shared :: FileKept(s.v, env(n, s).v)
  }

  lemma OthersKeepFile(env: Env, x: Moment)
    requires NoDeletes(env)
    ensures FileKept(x.s.v, Others(env, x).s.v)
  {
  }

  /** If the others take nothing off file, the whole intent survives. */
  lemma NothingTakenOff(o: Outside, w: World, admitted: bool, serving: bool, x: Moment)
    requires Behaved(o, w) && Entered(x.s, w) && NoDeletes(o.env)
    requires !Recovering(o, admitted, serving, x).outcome.RecoveryDone?
    ensures KeepsIntent(x.s.v, Recovering(o, admitted, serving, x).x.s.v)
  {
    RecoveryKeepsSnapshot(o, w, admitted, serving, x);
    if admitted && serving {
      SweepReleased(o, w, x);
      OthersKeepFile(o.env, Sweep(x));
      OthersKeepFile(o.env, ReleasedAt(o, x));
      assert FileKept(x.s.v, SnapAt(o, x).s.v);
      FileIsKept(x.s.v, SnapAt(o, x).s.v);
      KeepsOn(x.s.v, SnapAt(o, x).s.v, Recovering(o, admitted, serving, x).x.s.v);
    }
  }

  /**
   * Undisturbed, a recovery is done exactly when it is let in, its resubscribe does not fail, and something is
   * bound afterwards or nothing was declared; and deferred exactly when the runtime does not serve.
   */
  lemma RecoveryEndsExactly(o: Outside, w: World, admitted: bool, serving: bool, x: Moment)
    requires Behaved(o, w) && Quiet(o.env) && Entered(x.s, w)
    ensures
      var r := Recovering(o, admitted, serving, x).outcome;
      var s := SnapAt(o, x);
      && s.s.v == Sweep(x).s.v
      && (r.RecoveryDone? <==>
            && admitted && serving && !Resubscribed(o, s).err
            && (Resubscribed(o, s).x.s.v.active != map[] || x.s.v.pending == []))
      && (r.RecoveryDeferred? <==> admitted && (!serving || (!o.running && Resubscribed(o, s).err)))
  {
    SweepReleased(o, w, x);
    OthersQuiet(o.env, Sweep(x));
    OthersQuiet(o.env, ReleasedAt(o, x));
    var a := Resubscribed(o, SnapAt(o, x));
    OthersQuiet(o.env, a.x);
    assert |a.x.s.v.active| == 0 <==> a.x.s.v.active == map[];
  }

  // ---------------------------------------------------------------- recovery after recovery

  /** One recovery and what happens around it. */
  datatype Try = Try(admitted: bool, serving: bool, o: Outside)

  /** The recoveries run one after another until one is done, with the others running after each. */
  ghost function Repeated(tries: seq<Try>, x: Moment): Recovered
    requires forall t | t in tries :: Answered(t.o.plc)
    decreases |tries|
  {
    if tries == [] then Recovered(RecoveryFailed, x, [])
    else
      var r := Recovering(tries[0].o, tries[0].admitted, tries[0].serving, x);
      if r.outcome.RecoveryDone? then r else Repeated(tries[1..], Others(tries[0].o.env, r.x))
  }

  /**
   * Every recovery is behaved, nobody takes anything off file, and each world has seen every handle of the ones
   * before.
   */
  ghost predicate Series(tries: seq<Try>, ws: seq<World>, names: set<Name>) {
    && |ws| == |tries|
    && (forall i | 0 <= i < |tries| :: Behaved(tries[i].o, ws[i]) && NoDeletes(tries[i].o.env))
    && (forall i | 0 <= i < |ws| :: ws[i].first !! ws[i].theirs && ws[i].names == names)
    && (forall i | 0 < i < |ws| :: ws[i - 1].first + ws[i - 1].theirs <= ws[i].first)
  }

  /** One recovery that is not done, and the others after it. */
  lemma OneMoreTry(t: Try, w: World, x: Moment)
    requires Behaved(t.o, w) && NoDeletes(t.o.env) && Entered(x.s, w)
    requires !Recovering(t.o, t.admitted, t.serving, x).outcome.RecoveryDone?
    ensures
      var y := Others(t.o.env, Recovering(t.o, t.admitted, t.serving, x).x);
      Steady(y.s, w) && KeepsIntent(x.s.v, y.s.v)
  {
    var r := Recovering(t.o, t.admitted, t.serving, x).x;
    RecoveryKeepsSnapshot(t.o, w, t.admitted, t.serving, x);
    NothingTakenOff(t.o, w, t.admitted, t.serving, x);
    SteadyOthers(t.o.env, r, w);
    OthersKeepFile(t.o.env, r);
    FileIsKept(r.s.v, Others(t.o.env, r).s.v);
    KeepsOn(x.s.v, r.s.v, Others(t.o.env, r).s.v);
  }

  lemma SeriesAnswered(tries: seq<Try>, ws: seq<World>, names: set<Name>)
    requires Series(tries, ws, names)
    ensures forall t | t in tries :: Answered(t.o.plc)
  {
  }

  lemma SeriesRest(tries: seq<Try>, ws: seq<World>, names: set<Name>)
    requires Series(tries, ws, names) && tries != []
    ensures Series(tries[1..], ws[1..], names)
  {
  }

  /** However often recovery fails or is deferred, with the others running in between, the intent stays on file. */
  lemma {:induction false} RepeatedRecoveryKeepsIntent(tries: seq<Try>, ws: seq<World>, names: set<Name>, x: Moment)
    requires Series(tries, ws, names) && Sound(x.s, names)
    requires |ws| > 0 ==> x.s.v.active.Keys <= ws[0].first
    requires forall t | t in tries :: Answered(t.o.plc)
    requires !Repeated(tries, x).outcome.RecoveryDone?
    ensures KeepsIntent(x.s.v, Repeated(tries, x).x.s.v)
    decreases |tries|
  {
    if tries == [] {
      FileIsKept(x.s.v, x.s.v);
    } else {
      var t := tries[0];
      var y := Others(t.o.env, Recovering(t.o, t.admitted, t.serving, x).x);
      OneMoreTry(t, ws[0], x);
      SeriesRest(tries, ws, names);
      RepeatedRecoveryKeepsIntent(tries[1..], ws[1..], names, y);
      KeepsOn(x.s.v, y.s.v, Repeated(tries[1..], y).x.s.v);
    }
  }

  // ---------------------------------------------------------------- others that take a key off file without a delete

  /** The settle of another batch whose handle the sweep unbound: it takes the batch's config off file. */
  function SettleOf(name: Name): Env {
    (n: nat, s: Shared) => s.(v := Unfiled(s.v, name))
  }

  /** Such a settle is allowed interference, and takes its key off file wherever it is on file. */
  lemma SettleIsNoDelete(name: Name, theirs: set<Handle>, names: set<Name>, x: Moment)
    requires Compatible(names) && name in names && Sound(x.s, names) && KeyOf(name) in x.s.v.keys
    ensures Rely(SettleOf(name), theirs, names) && !NoDeletes(SettleOf(name))
    ensures KeyOf(name) !in Others(SettleOf(name), x).s.v.keys
  {
    forall n, u: Shared ensures Allowed(u, SettleOf(name)(n, u), theirs, names) {
      if Sound(u, names) {
        UnfiledGood(u.v, name, names);
      }
    }
    CompatibleFinds(x.s.v, name, names);
    UnfiledKeepsExactly(x.s.v, name);
    assert !FileKept(x.s.v, SettleOf(name)(x.t, x.s).v);
  }

  /** A recovery that is let in asks the PLC to delete every handle that was bound when it started. */
  lemma RecoveryReleasesOld(o: Outside, w: World, x: Moment, h: Handle)
    requires Behaved(o, w) && h in x.s.v.active
    ensures h in Recovering(o, true, true, x).deletes
  {
    var hs := o.order(x.s.v.active.Keys);
    assert h in hs;
  }
}
