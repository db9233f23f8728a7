/** The sliding-window limiter on automatic symbol reloads (tryRecordReloadAttempt). Times are nanoseconds. */
module ReloadLimiter {

  /** The attempts after cutoff, in order. */
  function After(q: seq<int>, cutoff: int): seq<int> {
    if q == [] then []
    else if q[|q| - 1] > cutoff then After(q[..|q| - 1], cutoff) + [q[|q| - 1]]
    else After(q[..|q| - 1], cutoff)
  }

  lemma AfterNext(q: seq<int>, i: nat, cutoff: int)
    requires i < |q|
    ensures After(q[..i + 1], cutoff) == After(q[..i], cutoff) + if q[i] > cutoff then [q[i]] else []
  {
    assert q[..i + 1][..i] == q[..i];
  }

  class Limiter {
    const window: int
    const maxAttempts: nat
    var attempts: array<int>   // backing array; the recorded attempts are its first used elements
    var used: nat

    ghost predicate Valid()
      reads this
    {
      used <= attempts.Length
    }

    ghost function Recorded(): seq<int>
      reads this, attempts
      requires Valid()
    {
      attempts[..used]
    }

    constructor (window: int, maxAttempts: nat)
      ensures Valid() && Recorded() == [] && this.window == window && this.maxAttempts == maxAttempts
      ensures fresh(attempts)
    {
      this.window, this.maxAttempts := window, maxAttempts;
      attempts := new int[maxAttempts];
      used := 0;
    }

    /** Prunes in place: the write index never overtakes the read index. */
    method Prune(cutoff: int)
      requires Valid()
      modifies this`used, attempts
      ensures Valid() && Recorded() == After(old(Recorded()), cutoff)
    {
      ghost var was := Recorded();
      var kept, i := 0, 0;
      while i < used
        invariant 0 <= kept <= i <= used <= attempts.Length && used == |was|
        invariant attempts[..kept] == After(was[..i], cutoff)
        invariant attempts[i..used] == was[i..]
      {
        AfterNext(was, i, cutoff);
        ghost var front := attempts[..kept];
        assert attempts[i] == was[i] by {
          assert attempts[i..used][0] == was[i..][0];
        }
        ghost var rest := attempts[i + 1..used];
        assert rest == was[i + 1..] by {
          assert attempts[i..used][1..] == rest && was[i..][1..] == was[i + 1..];
        }
        if attempts[i] > cutoff {
          attempts[kept] := attempts[i];
          kept := kept + 1;
          assert attempts[..kept] == front + [was[i]];
        }
        i := i + 1;
        assert attempts[i..used] == rest;
      }
      assert was[..used] == was;
      used := kept;
    }

    method TryRecord(now: int) returns (admitted: bool)
      requires Valid()
      modifies this, attempts
      ensures Valid() && (attempts == old(attempts) || fresh(attempts))
      ensures admitted == (|After(old(Recorded()), now - window)| < maxAttempts)
      ensures Recorded() == After(old(Recorded()), now - window) + if admitted then [now] else []
    {
      Prune(now - window);
      if used >= maxAttempts {
        return false;
      }
      Append(now);
      return true;
    }

    /** append: in place while there is capacity, into a larger copy otherwise. */
    method Append(t: int)
      requires Valid()
      modifies this, attempts
      ensures Valid() && (attempts == old(attempts) || fresh(attempts))
      ensures Recorded() == old(Recorded()) + [t]
    {
      if used == attempts.Length {
        var held := attempts[..used];
        attempts := new int[2 * used + 1](i => if 0 <= i < |held| then held[i] else 0);
        assert attempts[..used] == held;
      }
      attempts[used] := t;
      used := used + 1;
    }
  }

  // ---------------------------------------------------------------- runs

  /** What the limiter holds, and every reload it ever admitted. */
  datatype History = History(recorded: seq<int>, admitted: seq<int>)

  /** One call at time now, as TryRecord leaves it. */
  function Call(window: int, maxAttempts: nat, h: History, now: int): History {
    var kept := After(h.recorded, now - window);
    if |kept| < maxAttempts then History(kept + [now], h.admitted + [now]) else History(kept, h.admitted)
  }

  function Run(window: int, maxAttempts: nat, h: History, clock: seq<int>): History
    decreases |clock|
  {
    if clock == [] then h
    else Run(window, maxAttempts, Call(window, maxAttempts, h, clock[0]), clock[1..])
  }

  predicate NeverBack(clock: seq<int>) {
    forall i, j | 0 <= i < j < |clock| :: clock[i] <= clock[j]
  }

  /** How many of the times lie in [lo, hi). */
  function Within(q: seq<int>, lo: int, hi: int): nat {
    if q == [] then 0
    else Within(q[..|q| - 1], lo, hi) + if lo <= q[|q| - 1] < hi then 1 else 0
  }

  lemma {:induction false} AfterAfter(q: seq<int>, c: int, d: int)
    requires c <= d
    ensures After(After(q, c), d) == After(q, d)
  {
    if q != [] {
      var x := q[|q| - 1];
      AfterAfter(q[..|q| - 1], c, d);
      if x > c {
        var p := After(q[..|q| - 1], c);
        assert (p + [x])[..|p|] == p;
      }
    }
  }

  lemma AfterAppend(q: seq<int>, x: int, c: int)
    requires x > c
    ensures After(q + [x], c) == After(q, c) + [x]
  {
    assert (q + [x])[..|q|] == q;
  }

  lemma {:induction false} WithinKept(q: seq<int>, lo: int, hi: int, cutoff: int)
    requires cutoff < lo
    ensures Within(q, lo, hi) <= |After(q, cutoff)|
  {
    if q != [] { WithinKept(q[..|q| - 1], lo, hi, cutoff); }
  }

  /** Pruning loses nothing a decision could need: what is held is what was admitted after the last cutoff. */
  ghost predicate Recent(h: History, cutoff: int) {
    h.recorded == After(h.admitted, cutoff)
  }

  lemma CallKeeps(window: int, maxAttempts: nat, h: History, cutoff: int, now: int, lo: int)
    requires window > 0 && cutoff <= now - window && Recent(h, cutoff)
    requires Within(h.admitted, lo, lo + window) <= maxAttempts
    ensures Recent(Call(window, maxAttempts, h, now), now - window)
    ensures Within(Call(window, maxAttempts, h, now).admitted, lo, lo + window) <= maxAttempts
  {
    CallRecent(window, maxAttempts, h, cutoff, now);
    PrunedIs(h, cutoff, now - window);
    if |After(h.admitted, now - window)| < maxAttempts {
      RoomForOne(window, maxAttempts, h.admitted, now, lo);
    }
  }

  lemma CallRecent(window: int, maxAttempts: nat, h: History, cutoff: int, now: int)
    requires window > 0 && cutoff <= now - window && Recent(h, cutoff)
    ensures Recent(Call(window, maxAttempts, h, now), now - window)
  {
    PrunedIs(h, cutoff, now - window);
    RecentAdmit(After(h.recorded, now - window), h.admitted, now, now - window);
  }

  lemma RecentAdmit(kept: seq<int>, admitted: seq<int>, now: int, cutoff: int)
    requires now > cutoff && Recent(History(kept, admitted), cutoff)
    ensures Recent(History(kept + [now], admitted + [now]), cutoff)
  {
    AfterAppend(admitted, now, cutoff);
  }

  /** Pruning what is held gives what pruning everything admitted would. */
  lemma PrunedIs(h: History, cutoff: int, later: int)
    requires Recent(h, cutoff) && cutoff <= later
    ensures After(h.recorded, later) == After(h.admitted, later)
  {
    AfterAfter(h.admitted, cutoff, later);
  }

  lemma RoomForOne(window: int, maxAttempts: nat, q: seq<int>, now: int, lo: int)
    requires window > 0 && |After(q, now - window)| < maxAttempts && Within(q, lo, lo + window) <= maxAttempts
    ensures Within(q + [now], lo, lo + window) <= maxAttempts
  {
    WithinSnoc(q, now, lo, lo + window);
    if lo <= now < lo + window {
      WithinKept(q, lo, lo + window, now - window);
    }
  }

  lemma WithinSnoc(q: seq<int>, x: int, lo: int, hi: int)
    ensures Within(q + [x], lo, hi) == Within(q, lo, hi) + if lo <= x < hi then 1 else 0
  {
    assert (q + [x])[..|q|] == q;
  }

  lemma {:induction false} RunKeeps(window: int, maxAttempts: nat, h: History, cutoff: int, clock: seq<int>, lo: int)
    requires window > 0 && NeverBack(clock) && (clock != [] ==> cutoff <= clock[0] - window)
    requires Recent(h, cutoff) && Within(h.admitted, lo, lo + window) <= maxAttempts
    ensures Within(Run(window, maxAttempts, h, clock).admitted, lo, lo + window) <= maxAttempts
    decreases |clock|
  {
    if clock != [] {
      CallKeeps(window, maxAttempts, h, cutoff, clock[0], lo);
      RunKeeps(window, maxAttempts, Call(window, maxAttempts, h, clock[0]), clock[0] - window, clock[1..], lo);
    }
  }

  /**
   * At most maxAttempts reloads are admitted in any interval [lo, lo + window), over every run of a clock that
   * does not go back.
   */
  lemma AtMostMaxPerWindow(window: int, maxAttempts: nat, clock: seq<int>, lo: int)
    requires window > 0 && NeverBack(clock)
    ensures Within(Run(window, maxAttempts, History([], []), clock).admitted, lo, lo + window) <= maxAttempts
  {
    RunKeeps(window, maxAttempts, History([], []), if clock == [] then 0 else clock[0] - window, clock, lo);
  }

  lemma {:induction false} WithinIsAfter(q: seq<int>, window: int, now: int)
    requires NoneAfter(q, now)
    ensures Within(q, now - window + 1, now + 1) == |After(q, now - window)|
  {
    if q != [] { WithinIsAfter(q[..|q| - 1], window, now); }
  }

  predicate NoneAfter(q: seq<int>, now: int) {
    forall i | 0 <= i < |q| :: q[i] <= now
  }

  lemma LaterCalls(clock: seq<int>, now: int)
    requires clock != [] && NeverBack(clock) && NoneAfter(clock, now)
    ensures NeverBack(clock[1..]) && NoneAfter(clock[1..], now)
    ensures clock[0] <= if clock[1..] == [] then now else clock[1..][0]
  {
  }

  /** What is held after a run is what was admitted after some cutoff that is not too recent for now. */
  lemma {:induction false} RunRecent(window: int, maxAttempts: nat, h: History, cutoff: int, clock: seq<int>, now: int)
    returns (c: int)
    requires window > 0 && NeverBack(clock) && NoneAfter(clock, now)
    requires cutoff <= (if clock == [] then now else clock[0]) - window
    requires Recent(h, cutoff) && NoneAfter(h.admitted, now)
    ensures c <= now - window && Recent(Run(window, maxAttempts, h, clock), c)
    ensures NoneAfter(Run(window, maxAttempts, h, clock).admitted, now)
    decreases |clock|
  {
    if clock == [] {
      return cutoff;
    }
    CallRecent(window, maxAttempts, h, cutoff, clock[0]);
    LaterCalls(clock, now);
    c := RunRecent(window, maxAttempts, Call(window, maxAttempts, h, clock[0]), clock[0] - window, clock[1..], now);
  }

  /**
   * And no more is refused than that asks for: a call is admitted exactly when fewer than maxAttempts were
   * admitted in (now - window, now].
   */
  lemma AdmittedExactlyWhenRoom(window: int, maxAttempts: nat, clock: seq<int>, now: int)
    requires window > 0 && NeverBack(clock) && NoneAfter(clock, now)
    ensures
      var h := Run(window, maxAttempts, History([], []), clock);
      Call(window, maxAttempts, h, now).admitted
      == if Within(h.admitted, now - window + 1, now + 1) < maxAttempts then h.admitted + [now] else h.admitted
  {
    var h := Run(window, maxAttempts, History([], []), clock);
    var first := if clock == [] then now else clock[0];
    var c := RunRecent(window, maxAttempts, History([], []), first - window, clock, now);
    PrunedIs(h, c, now - window);
    WithinIsAfter(h.admitted, window, now);
  }
}
