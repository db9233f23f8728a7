/**
 Who acts on a lost transport: the lock-free hand-off between triggerReconnect, Connect
 and Reconnect. Each load, store or compare-and-swap of a shared flag is one event.
 */
module ReconnectOwnership {

  import opened Basics

  /** Where one goroutine stands in triggerReconnect (Trig…) or Reconnect (Rec…). */
  datatype Pc =
    | TrigStart     // about to test isClosed and mark the transport down
    | TrigMarked    // tx.disconnected is set; about to read connecting
    | TrigSpawn     // connecting was false; about to launch a Reconnect
    | RecStart      // about to test isClosed
    | RecGate       // about to compete for reconnectOwner
    | RecOwner      // owns the reconnect
    | RecRelease    // reconnectOwner is false again; about to test isClosed
    | RecAdopt      // was not closed; about to read tx.disconnected
    | Finished

  datatype ConnectPc = NotStarted | InConnect | ConnectRelease | ConnectAdopt | ConnectDone | ConnectFailed

  datatype State = State(
    disconnected: bool,
    connecting: bool,
    owner: bool,
    closed: bool,
    auto: bool,
    connect: ConnectPc,
    threads: seq<Pc>)

  datatype Event =
    | Drop                        // a worker or the heartbeat calls triggerReconnect
    | CallReconnect               // a caller invokes the public Reconnect
    | CallClose
    | TrigMark(t: nat)
    | TrigReadConnecting(t: nat)
    | TrigLaunch(t: nat)
    | RecTestClosed(t: nat)
    | RecCompete(t: nat)
    | OwnerSetFlag(t: nat)        // Reconnect, resetForRetry and handshake redials mark the transport down
    | OwnerDialed(t: nat)         // dialAndStart clears the flag
    | OwnerGiveUp(t: nat)         // giveUpReconnecting closes the session
    | OwnerRelease(t: nat)
    | RecTestClosedAgain(t: nat)
    | RecReadFlag(t: nat)
    | ConnectBegin
    | ConnectSetFlag(down: bool)  // Connect marks the transport down around a redial and up after it
    | ConnectReturn
    | ConnectFail
    | ConnectTestClosed
    | ConnectReadFlag

  function Init(auto: bool): State {
    State(false, false, false, false, auto, NotStarted, [])
  }

  predicate At(s: State, t: nat, pc: Pc) {
    t < |s.threads| && s.threads[t] == pc
  }

  predicate Enabled(s: State, e: Event) {
    match e
    case Drop => true
    case CallReconnect => true
    case CallClose => true
    case TrigMark(t) => At(s, t, TrigStart)
    case TrigReadConnecting(t) => At(s, t, TrigMarked)
    case TrigLaunch(t) => At(s, t, TrigSpawn)
    case RecTestClosed(t) => At(s, t, RecStart)
    case RecCompete(t) => At(s, t, RecGate)
    case OwnerSetFlag(t) => At(s, t, RecOwner)
    case OwnerDialed(t) => At(s, t, RecOwner)
    case OwnerGiveUp(t) => At(s, t, RecOwner)
    case OwnerRelease(t) => At(s, t, RecOwner)
    case RecTestClosedAgain(t) => At(s, t, RecRelease)
    case RecReadFlag(t) => At(s, t, RecAdopt)
    case ConnectBegin => s.connect == NotStarted
    case ConnectSetFlag(_) => s.connect == InConnect
    case ConnectReturn => s.connect == InConnect
    case ConnectFail => s.connect == InConnect
    case ConnectTestClosed => s.connect == ConnectRelease
    case ConnectReadFlag => s.connect == ConnectAdopt
  }

  function Goto(s: State, t: nat, pc: Pc): State
    requires t < |s.threads|
  {
    s.(threads := s.threads[t := pc])
  }

  function Spawn(s: State, pc: Pc): State {
    s.(threads := s.threads + [pc])
  }

  function Step(s: State, e: Event): State
    requires Enabled(s, e)
  {
    match e
    case Drop => Spawn(s, TrigStart)
    case CallReconnect => Spawn(s, RecStart)
    case CallClose => s.(closed := true)
    case TrigMark(t) =>
      if s.closed then Goto(s, t, Finished) else Goto(s.(disconnected := true), t, TrigMarked)
    case TrigReadConnecting(t) => Goto(s, t, if s.connecting then Finished else TrigSpawn)
    case TrigLaunch(t) => if s.auto then Spawn(Goto(s, t, Finished), RecStart) else Goto(s, t, Finished)
    case RecTestClosed(t) => Goto(s, t, if s.closed then Finished else RecGate)
    case RecCompete(t) => if s.owner then Goto(s, t, Finished) else Goto(s.(owner := true), t, RecOwner)
    case OwnerSetFlag(t) => s.(disconnected := true)
    case OwnerDialed(t) => s.(disconnected := false)
    case OwnerGiveUp(t) => s.(closed := true)
    case OwnerRelease(t) => Goto(s.(owner := false), t, RecRelease)
    case RecTestClosedAgain(t) => Goto(s, t, if !s.auto || s.closed then Finished else RecAdopt)
    case RecReadFlag(t) => if s.disconnected then Spawn(Goto(s, t, Finished), RecStart) else Goto(s, t, Finished)
    case ConnectBegin => s.(connect := InConnect, connecting := true)
    case ConnectSetFlag(down) => s.(disconnected := down)
    case ConnectReturn => s.(connect := ConnectRelease, connecting := false)
    case ConnectFail => s.(connect := ConnectFailed, connecting := false)
    case ConnectTestClosed => s.(connect := if s.closed then ConnectDone else ConnectAdopt)
    case ConnectReadFlag =>
      if s.disconnected then Spawn(s.(connect := ConnectDone), TrigStart) else s.(connect := ConnectDone)
  }

  function Exec(s: State, es: seq<Event>): Option<State>
    decreases |es|
  {
    if es == [] then Some(s)
    else if Enabled(s, es[0]) then Exec(Step(s, es[0]), es[1..]) else None
  }

  // ---------------------------------------------------------------- the invariant

  /** Connect is running and has still to read tx.disconnected. */
  predicate ConnectActs(s: State) {
    s.connect == InConnect || s.connect == ConnectRelease || s.connect == ConnectAdopt
  }

  /** The goroutine t is a trigger, a launched Reconnect, the owner or a releasing owner. */
  predicate Acts(s: State, t: nat) {
    t < |s.threads| && s.threads[t] != Finished
  }

  ghost predicate SomeoneActs(s: State) {
    ConnectActs(s) || exists t :: Acts(s, t)
  }

  ghost predicate OneOwner(s: State) {
    && (s.owner <==> exists t :: At(s, t, RecOwner))
    && (forall t, u | At(s, t, RecOwner) && At(s, u, RecOwner) :: t == u)
  }

  ghost predicate Inv(s: State) {
    && OneOwner(s)
    && (s.connecting <==> s.connect == InConnect)
    && (s.auto && s.connect != ConnectFailed && s.disconnected && !s.closed ==> SomeoneActs(s))
  }

  lemma OwnerStep(s: State, e: Event)
    requires OneOwner(s) && Enabled(s, e)
    ensures OneOwner(Step(s, e))
  {
    forall t ensures At(Step(s, e), t, RecOwner) <==> OwnsAfter(s, e, t) {
      OwnerAfter(s, e, t);
    }
    if s.owner && !e.OwnerRelease? {
      var t :| At(s, t, RecOwner);
      assert At(Step(s, e), t, RecOwner);
    }
    if e.RecCompete? && !s.owner {
      assert At(Step(s, e), e.t, RecOwner);
    }
  }

  /** The goroutine owns the reconnect after the step: it did and does not release it, or it won it. */
  predicate OwnsAfter(s: State, e: Event, t: nat) {
    (At(s, t, RecOwner) && e != OwnerRelease(t)) || (e == RecCompete(t) && !s.owner)
  }

  lemma OwnerAfter(s: State, e: Event, t: nat)
    requires Enabled(s, e)
    ensures At(Step(s, e), t, RecOwner) <==> OwnsAfter(s, e, t)
  {
  }

  lemma DutyStep(s: State, e: Event)
    requires Inv(s) && Enabled(s, e)
    requires
      var s' := Step(s, e);
      s'.auto && s'.connect != ConnectFailed && s'.disconnected && !s'.closed
    ensures SomeoneActs(Step(s, e))
  {
    var s' := Step(s, e);
    if e.TrigLaunch? || e.RecReadFlag? || e.ConnectReadFlag? {
      assert Acts(s', |s.threads|);
    } else if e.RecCompete? && s.owner {
      var u :| At(s, u, RecOwner);
      assert Acts(s', u);
    } else if e.TrigReadConnecting? {
      assert s.connecting || Acts(s', e.t);
    } else if e.TrigMark? || e.RecTestClosed? || e.RecCompete? || e.OwnerSetFlag? || e.OwnerRelease? {
      assert Acts(s', e.t);
    } else if e.RecTestClosedAgain? {
      assert Acts(s', e.t);
    } else if t :| Acts(s, t) {
      assert Acts(s', t);
    }
  }

  lemma ConnectingStep(s: State, e: Event)
    requires (s.connecting <==> s.connect == InConnect) && Enabled(s, e)
    ensures Step(s, e).connecting <==> Step(s, e).connect == InConnect
  {
    match e
    case Drop =>
    case CallReconnect =>
    case CallClose =>
    case TrigMark(_) =>
    case TrigReadConnecting(_) =>
    case TrigLaunch(_) =>
    case RecTestClosed(_) =>
    case RecCompete(_) =>
    case OwnerSetFlag(_) =>
    case OwnerDialed(_) =>
    case OwnerGiveUp(_) =>
    case OwnerRelease(_) =>
    case RecTestClosedAgain(_) =>
    case RecReadFlag(_) =>
    case ConnectBegin =>
    case ConnectSetFlag(_) =>
    case ConnectReturn =>
    case ConnectFail =>
    case ConnectTestClosed =>
    case ConnectReadFlag =>
  }

  lemma InvStep(s: State, e: Event)
    requires Inv(s) && Enabled(s, e)
    ensures Inv(Step(s, e))
  {
    OwnerStep(s, e);
    ConnectingStep(s, e);
    var s' := Step(s, e);
    if s'.auto && s'.connect != ConnectFailed && s'.disconnected && !s'.closed {
      DutyStep(s, e);
    }
  }

  lemma {:induction false} InvRun(s: State, es: seq<Event>)
    requires Inv(s) && Exec(s, es).Some?
    ensures Inv(Exec(s, es).value)
    decreases |es|
  {
    if es != [] {
      InvStep(s, es[0]);
      InvRun(Step(s, es[0]), es[1..]);
    }
  }

  /** At every step of every run at most one goroutine owns the reconnect, and the flag says whether one does. */
  lemma AtMostOneOwner(auto: bool, es: seq<Event>)
    requires Exec(Init(auto), es).Some?
    ensures OneOwner(Exec(Init(auto), es).value)
  {
    InvRun(Init(auto), es);
  }

  /**
   With auto-reconnect on and a Connect that has not failed, a transport marked down on a
   session that is not closed always has a goroutine that will still act on it.
   */
  lemma NoDropIsForgotten(es: seq<Event>)
    requires Exec(Init(true), es).Some?
    ensures
      var s := Exec(Init(true), es).value;
      s.connect != ConnectFailed && s.disconnected && !s.closed ==> SomeoneActs(s)
  {
    InvRun(Init(true), es);
    AutoForever(Init(true), es);
  }

  lemma {:induction false} AutoForever(s: State, es: seq<Event>)
    requires Exec(s, es).Some?
    ensures Exec(s, es).value.auto == s.auto
    decreases |es|
  {
    if es != [] {
      AutoForever(Step(s, es[0]), es[1..]);
    }
  }

  /** The transport is marked down on an open session and nobody will act on it. */
  ghost predicate Forgotten(s: State) {
    s.disconnected && !s.closed && !SomeoneActs(s)
  }

  lemma {:induction false} NoFailNoFailed(s: State, es: seq<Event>)
    requires Exec(s, es).Some? && ConnectFail !in es && s.connect != ConnectFailed
    ensures Exec(s, es).value.connect != ConnectFailed
    decreases |es|
  {
    if es != [] {
      assert es[0] in es;
      NoFailNoFailed(Step(s, es[0]), es[1..]);
    }
  }

  /** Over the runs in which Connect does not fail, no drop is ever forgotten if and only if auto-reconnect is on. */
  lemma DropsRememberedExactly(auto: bool)
    ensures auto <==>
      forall es | Exec(Init(auto), es).Some? && ConnectFail !in es :: !Forgotten(Exec(Init(auto), es).value)
  {
    if auto {
      forall es | Exec(Init(auto), es).Some? && ConnectFail !in es ensures !Forgotten(Exec(Init(auto), es).value) {
        NoFailNoFailed(Init(auto), es);
        NoDropIsForgotten(es);
      }
    } else {
      var es := ManualSessionForgetsDrops();
    }
  }

  /** Without auto-reconnect a drop is left to the caller. */
  lemma ManualSessionForgetsDrops() returns (es: seq<Event>)
    ensures Exec(Init(false), es).Some? && ConnectFail !in es && Forgotten(Exec(Init(false), es).value)
  {
    var s1 := Step(Init(false), Drop);
    var s2 := Step(s1, TrigMark(0));
    var s3 := Step(s2, TrigReadConnecting(0));
    var s4 := Step(s3, TrigLaunch(0));
    assert Exec(s4, []) == Some(s4);
    assert Exec(s3, [TrigLaunch(0)]) == Some(s4);
    assert Exec(s2, [TrigReadConnecting(0), TrigLaunch(0)]) == Some(s4);
    assert Exec(s1, [TrigMark(0), TrigReadConnecting(0), TrigLaunch(0)]) == Some(s4);
    es := [Drop, TrigMark(0), TrigReadConnecting(0), TrigLaunch(0)];
    assert Exec(Init(false), es) == Some(s4);
  }

  /** A Connect that fails with the transport down leaves the drop to its caller, who discards or retries. */
  lemma FailedConnectForgetsDrops() returns (es: seq<Event>)
    ensures Exec(Init(true), es).Some? && Forgotten(Exec(Init(true), es).value)
  {
    var s1 := Step(Init(true), ConnectBegin);
    var s2 := Step(s1, ConnectSetFlag(true));
    var s3 := Step(s2, ConnectFail);
    assert Exec(s3, []) == Some(s3);
    assert Exec(s2, [ConnectFail]) == Some(s3);
    assert Exec(s1, [ConnectSetFlag(true), ConnectFail]) == Some(s3);
    es := [ConnectBegin, ConnectSetFlag(true), ConnectFail];
    assert Exec(Init(true), es) == Some(s3);
  }

  // ---------------------------------------------------------------- the duty is discharged

  /** A goroutine other than the owner takes its next step, or Connect finishes. */
  predicate Proceeds(e: Event) {
    match e
    case TrigMark(_) => true
    case TrigReadConnecting(_) => true
    case TrigLaunch(_) => true
    case RecTestClosed(_) => true
    case RecCompete(_) => true
    case RecTestClosedAgain(_) => true
    case RecReadFlag(_) => true
    case ConnectReturn => true
    case ConnectTestClosed => true
    case ConnectReadFlag => true
    case _ => false
  }

  /** How many steps a goroutine, and the ones it launches, can still take before the owner has to act. */
  function Weight(pc: Pc): nat {
    match pc
    case TrigStart => 8
    case TrigMarked => 7
    case TrigSpawn => 6
    case RecRelease => 5
    case RecAdopt => 4
    case RecStart => 3
    case RecGate => 2
    case RecOwner => 1
    case Finished => 0
  }

  function ConnectWeight(pc: ConnectPc): nat {
    match pc
    case InConnect => 11
    case ConnectRelease => 10
    case ConnectAdopt => 9
    case _ => 0
  }

  function Work(threads: seq<Pc>): nat {
    if threads == [] then 0 else Work(threads[..|threads| - 1]) + Weight(threads[|threads| - 1])
  }

  function Left(s: State): nat {
    ConnectWeight(s.connect) + Work(s.threads)
  }

  lemma {:induction false} WorkGoto(threads: seq<Pc>, t: nat, pc: Pc)
    requires t < |threads|
    ensures Work(threads[t := pc]) == Work(threads) - Weight(threads[t]) + Weight(pc)
    decreases |threads|
  {
    var k := |threads| - 1;
    if t < k {
      WorkGoto(threads[..k], t, pc);
      assert threads[t := pc][..k] == threads[..k][t := pc];
    } else {
      assert threads[t := pc][..k] == threads[..k];
    }
  }

  lemma WorkSpawn(threads: seq<Pc>, pc: Pc)
    ensures Work(threads + [pc]) == Work(threads) + Weight(pc)
  {
    assert (threads + [pc])[..|threads|] == threads;
  }

  /** The goroutine an event is about. */
  function Mover(e: Event): Option<nat> {
    match e
    case TrigMark(t) => Some(t)
    case TrigReadConnecting(t) => Some(t)
    case TrigLaunch(t) => Some(t)
    case RecTestClosed(t) => Some(t)
    case RecCompete(t) => Some(t)
    case RecTestClosedAgain(t) => Some(t)
    case RecReadFlag(t) => Some(t)
    case _ => None
  }

  /** Goroutine t moves on to pc, and may launch a Reconnect. */
  predicate MovesTo(s: State, s': State, t: nat, pc: Pc, launches: bool) {
    && t < |s.threads| && s'.connect == s.connect
    && s'.threads == (if launches then s.threads[t := pc] + [RecStart] else s.threads[t := pc])
    && Weight(pc) + (if launches then Weight(RecStart) else 0) < Weight(s.threads[t])
  }

  lemma GoroutineMoves(s: State, e: Event) returns (t: nat, pc: Pc, launches: bool)
    requires Enabled(s, e) && Mover(e).Some?
    ensures MovesTo(s, Step(s, e), t, pc, launches)
  {
    t := Mover(e).value;
    pc, launches := Step(s, e).threads[t], |Step(s, e).threads| > |s.threads|;
  }

  lemma MovedShrinks(s: State, s': State, t: nat, pc: Pc, launches: bool)
    requires MovesTo(s, s', t, pc, launches)
    ensures Left(s') < Left(s)
  {
    WorkGoto(s.threads, t, pc);
    WorkSpawn(s.threads[t := pc], RecStart);
  }

  lemma MoveShrinks(s: State, e: Event)
    requires Enabled(s, e) && Proceeds(e)
    ensures Left(Step(s, e)) < Left(s)
  {
    if Mover(e).Some? {
      var t, pc, launches := GoroutineMoves(s, e);
      MovedShrinks(s, Step(s, e), t, pc, launches);
    } else {
      ConnectShrinks(s, e);
    }
  }

  lemma ConnectShrinks(s: State, e: Event)
    requires Enabled(s, e) && Proceeds(e) && Mover(e).None?
    ensures Left(Step(s, e)) < Left(s)
  {
    match e
    case ConnectReturn =>
    case ConnectTestClosed =>
    case ConnectReadFlag => WorkSpawn(s.threads, TrigStart);
  }

  /** Only the owner, if there is one, has anything left to do. */
  ghost predicate AtRest(s: State) {
    !ConnectActs(s) && forall t | Acts(s, t) :: At(s, t, RecOwner)
  }

  lemma NextMove(s: State) returns (e: Event)
    requires !AtRest(s)
    ensures Enabled(s, e) && Proceeds(e)
  {
    if ConnectActs(s) {
      e := match s.connect
           case InConnect => ConnectReturn
           case ConnectRelease => ConnectTestClosed
           case _ => ConnectReadFlag;
    } else {
      var t: nat :| Acts(s, t) && !At(s, t, RecOwner);
      e := match s.threads[t]
           case TrigStart => TrigMark(t)
           case TrigMarked => TrigReadConnecting(t)
           case TrigSpawn => TrigLaunch(t)
           case RecStart => RecTestClosed(t)
           case RecGate => RecCompete(t)
           case RecRelease => RecTestClosedAgain(t)
           case _ => RecReadFlag(t);
    }
  }

  ghost predicate AllProceed(es: seq<Event>) {
    forall e | e in es :: Proceeds(e)
  }

  /** However the goroutines other than the owner are scheduled, they end after a bounded number of steps. */
  lemma {:induction false} SchedulesEnd(s: State, es: seq<Event>)
    requires AllProceed(es) && Exec(s, es).Some?
    ensures |es| + Left(Exec(s, es).value) <= Left(s)
    decreases |es|
  {
    if es != [] {
      assert es[0] in es;
      MoveShrinks(s, es[0]);
      SchedulesEnd(Step(s, es[0]), es[1..]);
    }
  }

  /** And they can always be run to their end. */
  lemma {:induction false} RunsToRest(s: State) returns (es: seq<Event>)
    ensures AllProceed(es) && Exec(s, es).Some? && AtRest(Exec(s, es).value)
    decreases Left(s)
  {
    if AtRest(s) {
      es := [];
    } else {
      var e := NextMove(s);
      MoveShrinks(s, e);
      var rest := RunsToRest(Step(s, e));
      es := [e] + rest;
      assert es[1..] == rest;
    }
  }

  /**
   * In any run with auto-reconnect on in which Connect does not fail: whenever the goroutines other than the owner
   * have ended, in whatever order, the reconnect is owned, the transport is up or the session is closed.
   */
  lemma DutyDischarged(es: seq<Event>)
    requires Exec(Init(true), es).Some? && ConnectFail !in es && AtRest(Exec(Init(true), es).value)
    ensures
      var s := Exec(Init(true), es).value;
      s.owner || !s.disconnected || s.closed
  {
    InvRun(Init(true), es);
    AutoForever(Init(true), es);
    NoFailNoFailed(Init(true), es);
  }

  // ---------------------------------------------------------------- from the drop to the reconnect

  /** The transport was dialed again: the only events that clear tx.disconnected. */
  predicate Redials(e: Event) {
    e.OwnerDialed? || e == ConnectSetFlag(false)
  }

  /** The event marks the transport down. */
  predicate Marks(s: State, e: Event) {
    (e.TrigMark? && !s.closed) || e.OwnerSetFlag? || e == ConnectSetFlag(true)
  }

  ghost predicate NoRedial(es: seq<Event>) {
    forall e | e in es :: !Redials(e)
  }

  lemma FlagStep(s: State, e: Event)
    requires Enabled(s, e)
    ensures Step(s, e).disconnected == if Marks(s, e) then true else if Redials(e) then false else s.disconnected
    ensures Step(s, e).closed == (s.closed || e.CallClose? || e.OwnerGiveUp?)
  {
  }

  lemma {:induction false} FlagStays(s: State, es: seq<Event>)
    requires Exec(s, es).Some? && NoRedial(es)
    ensures s.disconnected ==> Exec(s, es).value.disconnected
    ensures s.closed ==> Exec(s, es).value.closed
    decreases |es|
  {
    if es != [] {
      assert es[0] in es;
      FlagStep(s, es[0]);
      FlagStays(Step(s, es[0]), es[1..]);
    }
  }

  /** A trigger on an open session records the drop, and the record lasts until the transport is dialed again. */
  lemma DropRecorded(s: State, t: nat, es: seq<Event>)
    requires Enabled(s, TrigMark(t)) && !s.closed
    requires Exec(Step(s, TrigMark(t)), es).Some? && NoRedial(es)
    ensures Exec(Step(s, TrigMark(t)), es).value.disconnected
  {
    FlagStep(s, TrigMark(t));
    FlagStays(Step(s, TrigMark(t)), es);
  }

  /** None of these writes tx.disconnected. */
  ghost predicate NoWrites(es: seq<Event>) {
    forall e | e in es :: !e.TrigMark? && !e.OwnerSetFlag? && !e.OwnerDialed? && !e.ConnectSetFlag?
  }

  lemma {:induction false} FlagUntouched(s: State, es: seq<Event>)
    requires Exec(s, es).Some? && NoWrites(es)
    ensures Exec(s, es).value.disconnected == s.disconnected
    decreases |es|
  {
    if es != [] {
      assert es[0] in es;
      FlagStep(s, es[0]);
      FlagUntouched(Step(s, es[0]), es[1..]);
    }
  }

  /** The flag always says what the last write to it said: down after a drop or a redial under way, up after a dial. */
  lemma FlagIsLastWrite(s: State, e: Event, es: seq<Event>)
    requires Enabled(s, e) && Exec(Step(s, e), es).Some? && NoWrites(es)
    ensures (e.TrigMark? && !s.closed) || e.OwnerSetFlag? || e == ConnectSetFlag(true) ==>
      Exec(Step(s, e), es).value.disconnected
    ensures e.OwnerDialed? || e == ConnectSetFlag(false) ==> !Exec(Step(s, e), es).value.disconnected
  {
    FlagStep(s, e);
    FlagUntouched(Step(s, e), es);
  }

  /** On a closed session a trigger records nothing: the flag stays as it is unless a running redial writes it. */
  lemma {:induction false} ClosedIgnoresDrops(s: State, es: seq<Event>)
    requires Exec(s, es).Some? && s.closed
    requires forall e | e in es :: !e.OwnerSetFlag? && !e.ConnectSetFlag? && !e.OwnerDialed?
    ensures Exec(s, es).value.disconnected == s.disconnected
    decreases |es|
  {
    if es != [] {
      assert es[0] in es;
      FlagStep(s, es[0]);
      ClosedIgnoresDrops(Step(s, es[0]), es[1..]);
    }
  }

  /** The session is closed exactly when someone closed it or the owner gave up. */
  lemma {:induction false} ClosedExactly(s: State, es: seq<Event>)
    requires Exec(s, es).Some?
    ensures Exec(s, es).value.closed <==> s.closed || exists e | e in es :: e.CallClose? || e.OwnerGiveUp?
    decreases |es|
  {
    if es != [] {
      FlagStep(s, es[0]);
      ClosedExactly(Step(s, es[0]), es[1..]);
      assert es[0] in es;
      assert forall e :: e in es <==> e == es[0] || e in es[1..];
    }
  }

  /** The trigger that a drop starts has still to mark the transport, or the drop is on record. */
  ghost predicate Pending(s: State, t: nat) {
    At(s, t, TrigStart) || s.disconnected || s.closed
  }

  lemma {:induction false} PendingStays(s: State, t: nat, es: seq<Event>)
    requires Exec(s, es).Some? && NoRedial(es) && Pending(s, t)
    ensures Pending(Exec(s, es).value, t)
    decreases |es|
  {
    if es != [] {
      assert es[0] in es;
      FlagStep(s, es[0]);
      PendingStays(Step(s, es[0]), t, es[1..]);
    }
  }

  lemma AtRestThere(s: State, t: nat)
    requires AtRest(s)
    ensures At(s, t, RecOwner) || At(s, t, Finished) || t >= |s.threads|
  {
    assert Acts(s, t) ==> At(s, t, RecOwner);
  }

  /** A state at rest of a run that dials nothing and in which Connect has not failed. */
  lemma RestOwned(s: State)
    requires Inv(s) && s.auto && s.connect != ConnectFailed && AtRest(s) && s.disconnected
    ensures s.owner || s.closed
  {
  }

  /**
   * A drop is acted on, whatever happens in between. From any state of any run with auto-reconnect on in which
   * Connect does not fail: after a drop, once the goroutines other than the owner have ended and unless the
   * transport was dialed again since, the reconnect is owned or the session is closed.
   */
  lemma DropIsActedOn(before: seq<Event>, es: seq<Event>)
    requires Exec(Init(true), before).Some? && ConnectFail !in before
    requires
      var s := Step(Exec(Init(true), before).value, Drop);
      Exec(s, es).Some? && AtRest(Exec(s, es).value)
    requires NoRedial(es) && ConnectFail !in es
    ensures
      var s := Exec(Step(Exec(Init(true), before).value, Drop), es).value;
      s.owner || s.closed
  {
    var s0 := Exec(Init(true), before).value;
    InvRun(Init(true), before);
    AutoForever(Init(true), before);
    NoFailNoFailed(Init(true), before);
    InvStep(s0, Drop);
    var s1 := Step(s0, Drop);
    assert At(s1, |s0.threads|, TrigStart);
    PendingStays(s1, |s0.threads|, es);
    InvRun(s1, es);
    AutoForever(s1, es);
    NoFailNoFailed(s1, es);
    var s := Exec(s1, es).value;
    AtRestThere(s, |s0.threads|);
    if s.disconnected {
      RestOwned(s);
    }
  }

  /** The same from the moment a trigger has seen the session open, with the drop on record to the end. */
  lemma MarkIsActedOn(before: seq<Event>, t: nat, es: seq<Event>)
    requires Exec(Init(true), before).Some? && ConnectFail !in before
    requires
      var s := Exec(Init(true), before).value;
      && Enabled(s, TrigMark(t)) && !s.closed
      && Exec(Step(s, TrigMark(t)), es).Some? && AtRest(Exec(Step(s, TrigMark(t)), es).value)
    requires NoRedial(es) && ConnectFail !in es
    ensures
      var s := Exec(Step(Exec(Init(true), before).value, TrigMark(t)), es).value;
      s.disconnected && (s.owner || s.closed)
  {
    var s0 := Exec(Init(true), before).value;
    var s1 := Step(s0, TrigMark(t));
    InvRun(Init(true), before);
    AutoForever(Init(true), before);
    NoFailNoFailed(Init(true), before);
    InvStep(s0, TrigMark(t));
    DropRecorded(s0, t, es);
    InvRun(s1, es);
    AutoForever(s1, es);
    NoFailNoFailed(s1, es);
    RestOwned(Exec(s1, es).value);
  }

  /** The call is on its way to the gate, or the reconnect is owned, or the session is closed. */
  ghost predicate OnItsWay(s: State, t: nat) {
    At(s, t, RecStart) || At(s, t, RecGate) || s.owner || s.closed
  }

  lemma {:induction false} OnItsWayStays(s: State, t: nat, es: seq<Event>)
    requires Exec(s, es).Some? && OnItsWay(s, t) && forall e | e in es :: !e.OwnerRelease?
    ensures OnItsWay(Exec(s, es).value, t)
    decreases |es|
  {
    if es != [] {
      assert es[0] in es;
      OnItsWayStays(Step(s, es[0]), t, es[1..]);
    }
  }

  /** A caller's Reconnect finds an owner or becomes one, unless the session is closed. */
  lemma CallIsServed(s: State, es: seq<Event>)
    requires Exec(Step(s, CallReconnect), es).Some? && AtRest(Exec(Step(s, CallReconnect), es).value)
    requires forall e | e in es :: !e.OwnerRelease?
    ensures
      var s' := Exec(Step(s, CallReconnect), es).value;
      s'.owner || s'.closed
  {
    assert At(Step(s, CallReconnect), |s.threads|, RecStart);
    OnItsWayStays(Step(s, CallReconnect), |s.threads|, es);
    AtRestThere(Exec(Step(s, CallReconnect), es).value, |s.threads|);
  }

  /** Goroutine t has passed the closed test on its way to owning a reconnect. */
  predicate PastTest(s: State, t: nat) {
    At(s, t, RecGate) || At(s, t, RecOwner)
  }

  lemma PastTestStep(s: State, e: Event, t: nat)
    requires Enabled(s, e) && s.closed && !PastTest(s, t)
    ensures !PastTest(Step(s, e), t)
  {
  }

  /** Once the session is closed, only goroutines already past the test can still own a reconnect. */
  lemma {:induction false} NoReconnectAfterClose(s: State, es: seq<Event>, t: nat)
    requires Exec(s, es).Some? && s.closed && !PastTest(s, t)
    ensures !At(Exec(s, es).value, t, RecOwner)
    decreases |es|
  {
    if es != [] {
      FlagStep(s, es[0]);
      PastTestStep(s, es[0], t);
      NoReconnectAfterClose(Step(s, es[0]), es[1..], t);
    }
  }
}
