/** The session state machine: a constant transition table, a current state and a generation counter. */
module SessionFsm {

  datatype SessionState =
    | Constructed
    | Connecting
    | Connected
    | Reloading
    | Disconnected
    | Reconnecting
    | Closed

  /** allowedTransitions; Closed is terminal. */
  function AllowedFrom(s: SessionState): set<SessionState> {
    match s
    case Constructed => {Connecting, Closed}
    case Connecting => {Connected, Reconnecting, Disconnected, Closed}
    case Connected => {Reloading, Disconnected, Reconnecting, Closed}
    case Reloading => {Connected, Disconnected, Closed}
    case Disconnected => {Reconnecting, Connecting, Closed}
    case Reconnecting => {Connected, Reconnecting, Closed}
    case Closed => {}
  }

  datatype View = View(value: SessionState, epoch: nat)

  /** One mutex section: transitionTo, transitionToOnce or bumpEpoch. */
  datatype Op = To(want: SessionState) | Once(want: SessionState) | Bump

  /** The state moves to want along a table edge. */
  predicate Moves(v: View, op: Op) {
    !op.Bump? && op.want != v.value && op.want in AllowedFrom(v.value)
  }

  function Next(v: View, op: Op): View {
    if op.Bump? then v.(epoch := v.epoch + 1)
    else if !Moves(v, op) then v
    else View(op.want, if op.want == Connected then v.epoch + 1 else v.epoch)
  }

  /** The ok result: transitionTo reports re-entry as success, transitionToOnce does not. */
  predicate Ok(v: View, op: Op) {
    match op
    case To(want) => want == v.value || Moves(v, op)
    case Once(_) => Moves(v, op)
    case Bump => true
  }

  class Fsm {
    var value: SessionState
    var epoch: nat

    ghost function Current(): View
      reads this
    {
      View(value, epoch)
    }

    constructor ()
      ensures Current() == View(Constructed, 0)
    {
      value := Constructed;
      epoch := 0;
    }

    method TransitionTo(want: SessionState) returns (from: SessionState, ok: bool)
      modifies this
      ensures from == old(value) && ok == Ok(old(Current()), To(want))
      ensures Current() == Next(old(Current()), To(want))
    {
      from := value;
      if from == want {
        return from, true;
      }
      if want !in AllowedFrom(from) {
        return from, false;
      }
      value := want;
      if want == Connected {
        epoch := epoch + 1;
      }
      return from, true;
    }

    method TransitionToOnce(want: SessionState) returns (from: SessionState, ok: bool)
      modifies this
      ensures from == old(value) && ok == Ok(old(Current()), Once(want))
      ensures Current() == Next(old(Current()), Once(want))
    {
      from := value;
      if from == want {
        return from, false;
      }
      if want !in AllowedFrom(from) {
        return from, false;
      }
      value := want;
      if want == Connected {
        epoch := epoch + 1;
      }
      return from, true;
    }

    method BumpEpoch()
      modifies this
      ensures Current() == Next(old(Current()), Bump)
    {
      epoch := epoch + 1;
    }
  }

  // ---------------------------------------------------------------- runs

  function Run(v: View, ops: seq<Op>): View
    decreases |ops|
  {
    if ops == [] then v else Run(Next(v, ops[0]), ops[1..])
  }

  /** How often, along the run, the session entered Connected from another state or a symbol cache was swapped. */
  function Advances(v: View, ops: seq<Op>): nat
    decreases |ops|
  {
    if ops == [] then 0
    else
      (if ops[0].Bump? || (Moves(v, ops[0]) && ops[0].want == Connected) then 1 else 0)
      + Advances(Next(v, ops[0]), ops[1..])
  }

  /** How often a caller of transitionToOnce(Closed) was told it was the one that closed the session. */
  function ClosingWins(v: View, ops: seq<Op>): nat
    decreases |ops|
  {
    if ops == [] then 0
    else (if ops[0] == Once(Closed) && Ok(v, ops[0]) then 1 else 0) + ClosingWins(Next(v, ops[0]), ops[1..])
  }

  lemma {:induction false} RunAppend(v: View, ops: seq<Op>, more: seq<Op>)
    ensures Run(v, ops + more) == Run(Run(v, ops), more)
    decreases |ops|
  {
    if ops == [] {
      assert ops + more == more;
    } else {
      assert (ops + more)[1..] == ops[1..] + more;
      RunAppend(Next(v, ops[0]), ops[1..], more);
    }
  }

  /** In every run consecutive states are equal or joined by a table edge. */
  lemma MovesOnlyAlongEdges(v: View, ops: seq<Op>, k: nat)
    requires k < |ops|
    ensures
      var before := Run(v, ops[..k]).value;
      var after := Run(v, ops[..k + 1]).value;
      after == before || after in AllowedFrom(before)
  {
    assert ops[..k + 1] == ops[..k] + [ops[k]];
    RunAppend(v, ops[..k], [ops[k]]);
    assert Run(Run(v, ops[..k]), [ops[k]]) == Next(Run(v, ops[..k]), ops[k]);
  }

  /** From which states each state can be entered. */
  predicate EnteredFrom(from: SessionState, want: SessionState) {
    match want
    case Constructed => false
    case Connecting => from == Constructed || from == Disconnected
    case Connected => from == Connecting || from == Reloading || from == Reconnecting
    case Reloading => from == Connected
    case Disconnected => from == Connecting || from == Connected || from == Reloading
    case Reconnecting => from == Connecting || from == Connected || from == Disconnected
    case Closed => from != Closed
  }

  /** A transition changes the state exactly when the wanted state can be entered from the current one. */
  lemma EnteredExactly(v: View, want: SessionState)
    ensures Next(v, To(want)).value == (if EnteredFrom(v.value, want) then want else v.value)
    ensures Ok(v, To(want)) <==> want == v.value || EnteredFrom(v.value, want)
    ensures Ok(v, Once(want)) <==> EnteredFrom(v.value, want)
    ensures Next(v, Once(want)) == Next(v, To(want))
  {
  }

  /** In every run, whenever the state changes, it is to one that can be entered from the one before. */
  lemma RunEntersFrom(v: View, ops: seq<Op>, k: nat)
    requires k < |ops|
    ensures
      var before := Run(v, ops[..k]).value;
      var after := Run(v, ops[..k + 1]).value;
      after == before || EnteredFrom(before, after)
  {
    MovesOnlyAlongEdges(v, ops, k);
  }

  /** A new session is connected only after it has been connecting. */
  lemma {:induction false} ConnectingComesFirst(v: View, ops: seq<Op>) returns (k: nat)
    requires v.value == Constructed && Run(v, ops).value == Connected
    ensures k <= |ops| && Run(v, ops[..k]).value == Connecting
    decreases |ops|
  {
    if Next(v, ops[0]).value == Connecting {
      k := 1;
      assert ops[..1] == [ops[0]] && [ops[0]][1..] == [];
    } else {
      if Next(v, ops[0]).value == Closed {
        ClosedIsFinal(Next(v, ops[0]), ops[1..]);
      }
      k := ConnectingComesFirst(Next(v, ops[0]), ops[1..]);
      assert ops[1..][..k] == ops[..k + 1][1..];
      k := k + 1;
    }
  }

  /** A session that is not closed can always be connected again, and can be closed in one step. */
  lemma AlwaysRecoverable(v: View) returns (ops: seq<Op>)
    requires v.value != Closed
    ensures Run(v, ops).value == Connected && Run(v, [To(Closed)]).value == Closed
  {
    var a := if v.value == Disconnected then Reconnecting else if v.value == Constructed then Connecting else v.value;
    ops := [To(a), To(Connected)];
    var v1 := Next(v, To(a));
    var v2 := Next(v1, To(Connected));
    assert ops[1..] == [To(Connected)] && Run(v2, []) == v2;
    assert Run(v1, [To(Connected)]) == Run(v2, [To(Connected)][1..]);
    assert [To(Closed)][1..] == [];
  }

  lemma {:induction false} ClosedIsFinal(v: View, ops: seq<Op>)
    requires v.value == Closed
    ensures Run(v, ops).value == Closed && ClosingWins(v, ops) == 0
    decreases |ops|
  {
    if ops != [] {
      ClosedIsFinal(Next(v, ops[0]), ops[1..]);
    }
  }

  /**
   * However many callers race to close, at most one is told it closed the session, and then the session stays
   * closed.
   */
  lemma {:induction false} AtMostOneClosingWinner(v: View, ops: seq<Op>)
    ensures ClosingWins(v, ops) <= 1
    ensures ClosingWins(v, ops) == 1 ==> Run(v, ops).value == Closed
    decreases |ops|
  {
    if ops != [] {
      if ops[0] == Once(Closed) && Ok(v, ops[0]) {
        ClosedIsFinal(Next(v, ops[0]), ops[1..]);
      } else {
        AtMostOneClosingWinner(Next(v, ops[0]), ops[1..]);
      }
    }
  }

  /** The epoch rises by exactly one at each entry to Connected and each cache swap, and never falls. */
  lemma {:induction false} EpochCountsAdvances(v: View, ops: seq<Op>)
    ensures Run(v, ops).epoch == v.epoch + Advances(v, ops)
    decreases |ops|
  {
    if ops != [] {
      EpochCountsAdvances(Next(v, ops[0]), ops[1..]);
    }
  }

  /** A check that compares against an earlier epoch notices every swap completed in between. */
  lemma SwapChangesEpoch(v: View, ops: seq<Op>)
    requires Bump in ops
    ensures Run(v, ops).epoch != v.epoch
  {
    EpochCountsAdvances(v, ops);
    SwapAdvances(v, ops);
  }

  lemma {:induction false} SwapAdvances(v: View, ops: seq<Op>)
    requires Bump in ops
    ensures Advances(v, ops) > 0
    decreases |ops|
  {
    if ops[0] != Bump {
      SwapAdvances(Next(v, ops[0]), ops[1..]);
    }
  }
}
