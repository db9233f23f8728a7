/** What every run of the subscribe race keeps, whatever the interleaving. */
module SubscribeRaceProofs {

  import opened Basics
  import opened Bytes
  import opened EarlySamples
  import opened SubscribeRace

  // ---------------------------------------------------------------- ownership

  /** A handle is bound at most once, by the subscribe whose Add created it. */
  ghost predicate Owned(r: Registry) {
    && r.bound <= r.everBound <= r.created
    && r.everBound - r.everUnbound <= r.bound
    && r.owner.Keys <= r.created
    && (forall h | h in r.owner :: r.owner[h] < r.nextToken)
    && (forall tok | tok in r.subs :: tok < r.nextToken && OwnedBy(r, tok))
  }

  ghost predicate OwnedBy(r: Registry, tok: Token)
    requires tok in r.subs
  {
    && (forall h | h in r.subs[tok].uncommitted :: h in r.owner && r.owner[h] == tok && h !in r.everBound)
    && (forall h | h in r.subs[tok].committed :: h in r.owner && r.owner[h] == tok && h in r.everBound)
    && (r.subs[tok].closing ==> r.subs[tok].uncommitted == {})
  }

  ghost function ReplayHandles(p: Replay): set<Handle> {
    match p
    case ToRead(hs) => hs
    case ToTake(hs) => hs
    case _ => {}
  }

  /** A subscriber replays only what it committed, and only handles that were bound get taken. */
  ghost predicate ReplaysOwned(r: Registry, replays: map<Thread, Replay>) {
    && (forall t | t in replays && replays[t] != Idle && t.Subscriber? ::
          t.tok in r.subs && ReplayHandles(replays[t]) <= r.subs[t.tok].committed)
    && (forall t | t in replays && replays[t].ToTake? :: replays[t].hs <= r.everBound)
  }

  /** The closing replay covers every handle its subscribe committed that was never unbound. */
  ghost predicate ClosingCovers(r: Registry, replays: map<Thread, Replay>) {
    forall t | t in replays && t.Subscriber? && t.tok in r.subs && r.subs[t.tok].closing ::
      && (replays[t].ToRead? ==> replays[t].hs == r.subs[t.tok].committed)
      && (replays[t].ToTake? ==> r.subs[t.tok].committed - r.everUnbound <= replays[t].hs)
  }

  /** Steps of other goroutines keep every open subscribe's committed set and every past binding. */
  ghost predicate Grows(r: Registry, r': Registry, except: set<Token>) {
    && r.everBound <= r'.everBound
    && (forall tok | tok in r.subs && tok !in except ::
          tok in r'.subs && r.subs[tok].committed <= r'.subs[tok].committed)
  }

  lemma ReplaysGrow(r: Registry, r': Registry, replays: map<Thread, Replay>, except: set<Token>)
    requires ReplaysOwned(r, replays) && Grows(r, r', except)
    requires forall t | t in replays && t.Subscriber? && t.tok in except :: replays[t] == Idle
    ensures ReplaysOwned(r', replays)
  {
  }

  lemma OwnedBegin(r: Registry)
    requires Owned(r)
    ensures Owned(BeginReg(r)) && Grows(r, BeginReg(r), {})
  {
  }

  lemma OwnedCreate(r: Registry, tok: Token, h: Handle)
    requires Owned(r) && tok in r.subs && !r.subs[tok].closing && h !in r.created
    ensures Owned(CreateReg(r, tok, h)) && Grows(r, CreateReg(r, tok, h), {})
  {
    var r' := CreateReg(r, tok, h);
    forall k | k in r'.subs ensures OwnedBy(r', k) {
      assert OwnedBy(r, k);
    }
  }

  lemma OwnedCommit(r: Registry, tok: Token, h: Handle)
    requires Owned(r) && tok in r.subs && h in r.subs[tok].uncommitted
    ensures Owned(CommitReg(r, tok, h)) && Grows(r, CommitReg(r, tok, h), {})
  {
    var r' := CommitReg(r, tok, h);
    assert OwnedBy(r, tok);
    forall k | k in r'.subs ensures OwnedBy(r', k) {
      assert OwnedBy(r, k);
    }
  }

  lemma OwnedDrop(r: Registry, tok: Token, sub: Sub)
    requires Owned(r) && tok in r.subs
    requires sub.committed == r.subs[tok].committed && sub.uncommitted <= r.subs[tok].uncommitted
    requires sub.closing ==> sub.uncommitted == {}
    ensures Owned(r.(subs := r.subs[tok := sub])) && Grows(r, r.(subs := r.subs[tok := sub]), {})
  {
    var r' := r.(subs := r.subs[tok := sub]);
    forall k | k in r'.subs ensures OwnedBy(r', k) {
      assert OwnedBy(r, k);
    }
  }

  lemma OwnedClose(r: Registry, tok: Token)
    requires Owned(r)
    ensures Owned(r.(subs := r.subs - {tok})) && Grows(r, r.(subs := r.subs - {tok}), {tok})
  {
    var r' := r.(subs := r.subs - {tok});
    forall k | k in r'.subs ensures OwnedBy(r', k) {
      assert OwnedBy(r, k);
    }
  }

  lemma OwnedUnbind(r: Registry, hs: set<Handle>)
    requires Owned(r)
    ensures Owned(UnbindReg(r, hs)) && Grows(r, UnbindReg(r, hs), {})
  {
    var r' := UnbindReg(r, hs);
    forall k | k in r'.subs ensures OwnedBy(r', k) {
      assert OwnedBy(r, k);
    }
  }

  lemma OwnedStep(s: State, e: Event)
    requires Owned(s.reg) && Enabled(s, e)
    ensures Owned(Step(s, e).reg)
    ensures Grows(s.reg, Step(s, e).reg, if e.Close? then {e.tok} else {})
  {
    match e {
      case Begin => OwnedBegin(s.reg);
      case PlcCreate(tok, h) => OwnedCreate(s.reg, tok, h);
      case Commit(tok, h) => OwnedCommit(s.reg, tok, h);
      case Refuse(tok, h) => OwnedDrop(s.reg, tok, RefuseReg(s.reg, tok, h).subs[tok]);
      case StartClose(tok) => OwnedDrop(s.reg, tok, ClosingReg(s.reg, tok).subs[tok]);
      case Close(tok) => OwnedClose(s.reg, tok);
      case Unbind(hs) => OwnedUnbind(s.reg, hs);
      case _ => assert Step(s, e).reg == s.reg;
    }
  }

  lemma ReplaysStep(s: State, e: Event)
    requires Owned(s.reg) && ReplaysOwned(s.reg, s.replays) && Enabled(s, e)
    ensures ReplaysOwned(Step(s, e).reg, Step(s, e).replays)
  {
    OwnedStep(s, e);
    ReplaysGrow(s.reg, Step(s, e).reg, s.replays, if e.Close? then {e.tok} else {});
  }

  lemma CommittedBound(r: Registry, tok: Token)
    requires Owned(r) && tok in r.subs
    ensures r.subs[tok].committed - r.everUnbound <= r.bound
  {
    assert OwnedBy(r, tok);
  }

  lemma CoversStep(s: State, e: Event)
    requires Owned(s.reg) && ReplaysOwned(s.reg, s.replays) && ClosingCovers(s.reg, s.replays) && Enabled(s, e)
    ensures ClosingCovers(Step(s, e).reg, Step(s, e).replays)
  {
    if e.ReadBound? && e.t.Subscriber? && e.t.tok in s.reg.subs {
      CommittedBound(s.reg, e.t.tok);
    }
  }

  // ---------------------------------------------------------------- where each sample is

  ghost predicate Known(m: Samples, id: nat, h: Handle) {
    id < |m.arrivals| && m.arrivals[id].h == h
  }

  ghost predicate NoRepeats(q: seq<nat>) {
    forall i, j | 0 <= i < j < |q| :: q[i] != q[j]
  }

  ghost predicate InBuffer(m: Samples, h: Handle, id: nat) {
    h in m.early.samples && m.early.samples[h].id == id
  }

  /** A sample on its shard is nowhere else. */
  ghost predicate HeldOnly(m: Samples, i: nat)
    requires i in m.workers && m.workers[i] != Free
  {
    var id := m.workers[i].id;
    && id < |m.arrivals|
    && ShardOf(m.arrivals[id].h) == i
    && id !in m.flight && id !in m.redispatched
    && !InBuffer(m, m.arrivals[id].h, id)
  }

  /** Every sample is in at most one place, and is redispatched at most once. */
  ghost predicate Placed(m: Samples) {
    && (forall h | h in m.lastParked :: Known(m, m.lastParked[h], h))
    && (forall h | h in m.early.samples :: h in m.lastParked && m.lastParked[h] == m.early.samples[h].id)
    && (forall h | h in m.early.samples ::
          m.early.samples[h].id !in m.flight && m.early.samples[h].id !in m.redispatched)
    && (forall id | id in m.flight :: id < |m.arrivals| && (m.flight[id].found <==> id in m.redispatched))
    && (forall id | id in m.redispatched :: id < |m.arrivals|)
    && NoRepeats(m.redispatched)
    && (forall i | i in m.workers && m.workers[i] != Free :: HeldOnly(m, i))
  }

  lemma PlacedArrive(m: Samples, a: Arrival, isBound: bool)
    requires Placed(m) && WorkerOf(m, ShardOf(a.h)) == Free
    ensures Placed(ArriveMem(m, a, isBound))
  {
    var m' := ArriveMem(m, a, isBound);
    forall i | i in m'.workers && m'.workers[i] != Free ensures HeldOnly(m', i) {
      if i != ShardOf(a.h) { assert HeldOnly(m, i); }
    }
  }

  lemma PlacedFree(m: Samples, i: nat)
    requires Placed(m)
    ensures Placed(FreeMem(m, i))
  {
    var m' := FreeMem(m, i);
    forall k | k in m'.workers && m'.workers[k] != Free ensures HeldOnly(m', k) {
      assert HeldOnly(m, k);
    }
  }

  lemma PlacedParking(m: Samples, i: nat)
    requires Placed(m) && Holds(m, i)
    ensures Placed(ParkingMem(m, i))
  {
    var m' := ParkingMem(m, i);
    assert HeldOnly(m, i);
    forall k | k in m'.workers && m'.workers[k] != Free ensures HeldOnly(m', k) {
      assert HeldOnly(m, k);
    }
  }

  lemma PlacedPark(m: Samples, i: nat)
    requires Placed(m) && Holds(m, i)
    ensures Placed(ParkMem(m, i))
  {
    var m' := ParkMem(m, i);
    assert HeldOnly(m, i);
    forall k | k in m'.workers && m'.workers[k] != Free ensures HeldOnly(m', k) {
      assert HeldOnly(m, k);
    }
  }

  lemma PlacedTake(m: Samples, t: Thread, hs: set<Handle>)
    requires Placed(m)
    ensures Placed(TakeMem(m, t, hs))
  {
    var m' := TakeMem(m, t, hs);
    forall k | k in m'.workers && m'.workers[k] != Free ensures HeldOnly(m', k) {
      assert HeldOnly(m, k);
    }
    forall h | h in m'.early.samples ensures m'.early.samples[h].id !in m'.flight {
      assert m.lastParked[h] == m.early.samples[h].id;
    }
  }

  lemma PlacedRedispatch(m: Samples, id: nat, isBound: bool)
    requires Placed(m) && Flying(m, id, false)
    ensures Placed(RedispatchMem(m, id, isBound))
  {
    var m' := RedispatchMem(m, id, isBound);
    assert id !in m.redispatched;
    assert forall k :: k in m'.redispatched <==> k in m.redispatched || k == id;
    forall k | k in m'.workers && m'.workers[k] != Free ensures HeldOnly(m', k) {
      assert HeldOnly(m, k);
    }
  }

  lemma PlacedLand(m: Samples, id: nat)
    requires Placed(m)
    ensures Placed(LandMem(m, id))
  {
    var m' := LandMem(m, id);
    forall k | k in m'.workers && m'.workers[k] != Free ensures HeldOnly(m', k) {
      assert HeldOnly(m, k);
    }
  }

  lemma PlacedDiscard(m: Samples)
    requires Placed(m)
    ensures Placed(m.(early := Empty))
  {
    var m' := m.(early := Empty);
    forall k | k in m'.workers && m'.workers[k] != Free ensures HeldOnly(m', k) {
      assert HeldOnly(m, k);
    }
  }

  lemma PlacedStep(s: State, e: Event)
    requires Placed(s.mem) && Enabled(s, e)
    ensures Placed(Step(s, e).mem)
  {
    match e {
      case Close(tok) => PlacedDiscard(s.mem);
      case Arrive(a) => PlacedArrive(s.mem, a, a.h in s.reg.bound);
      case DropMissed(i) => PlacedFree(s.mem, i);
      case JudgeOrphan(i, _) => PlacedFree(s.mem, i);
      case AcceptLive(i) => PlacedFree(s.mem, i);
      case WindowOpen(i) => PlacedParking(s.mem, i);
      case Park(i) => PlacedPark(s.mem, i); PlacedFree(s.mem, i);
      case Take(t) => PlacedTake(s.mem, t, ReplayOf(s, t).hs);
      case Redispatch(id, _) => PlacedRedispatch(s.mem, id, s.mem.arrivals[id].h in s.reg.bound);
      case AcceptReplay(id) => PlacedLand(s.mem, id);
      case _ => assert Step(s, e).mem == s.mem;
    }
  }

  // ---------------------------------------------------------------- no parked sample is lost

  ghost predicate Taken(m: Samples, id: nat) {
    id in m.flight || id in m.redispatched
  }

  ghost predicate InHand(m: Samples, h: Handle, id: nat) {
    InBuffer(m, h, id) || Taken(m, id)
  }

  ghost predicate ArrivedCreated(s: State) {
    forall k | 0 <= k < |s.mem.arrivals| :: s.mem.arrivals[k].h in s.reg.created
  }

  /** While the subscribe that created h is open, the latest sample parked for h is in hand. */
  ghost predicate Kept(s: State) {
    forall h | h in s.mem.lastParked && h in s.reg.owner && s.reg.owner[h] in s.reg.subs ::
      InHand(s.mem, h, s.mem.lastParked[h])
  }

  lemma TakenStays(s: State, e: Event, id: nat)
    requires Placed(s.mem) && Enabled(s, e) && Taken(s.mem, id)
    ensures Taken(Step(s, e).mem, id)
  {
    match e {
      case AcceptReplay(k) => assert s.mem.flight[k].found;
      case Redispatch(k, _) => assert k in Step(s, e).mem.redispatched by {
        assert Step(s, e).mem.redispatched[|s.mem.redispatched|] == k;
      }
      case _ =>
    }
  }

  ghost predicate Discards(s: State, e: Event) {
    e.Close? && s.reg.subs - {e.tok} == map[]
  }

  lemma InHandStays(s: State, e: Event, h: Handle, id: nat)
    requires Placed(s.mem) && Enabled(s, e) && InHand(s.mem, h, id)
    requires !Discards(s, e)
    requires e.Park? ==> HeldArrival(s.mem, e.i).h != h
    ensures InHand(Step(s, e).mem, h, id)
  {
    if Taken(s.mem, id) {
      TakenStays(s, e, id);
    } else if e.Take? && h in ReplayOf(s, e.t).hs {
      assert id in Step(s, e).mem.flight;
    }
  }

  lemma ParkKept(s: State, i: nat)
    requires Placed(s.mem) && Enabled(s, Park(i)) && Kept(s)
    ensures Kept(Step(s, Park(i)))
  {
    var s' := Step(s, Park(i));
    forall h | h in s'.mem.lastParked && h in s'.reg.owner && s'.reg.owner[h] in s'.reg.subs
      ensures InHand(s'.mem, h, s'.mem.lastParked[h])
    {
      if h != HeldArrival(s.mem, i).h { InHandStays(s, Park(i), h, s.mem.lastParked[h]); }
    }
  }

  lemma KeptStep(s: State, e: Event)
    requires Owned(s.reg) && ArrivedCreated(s) && Placed(s.mem) && Enabled(s, e) && Kept(s)
    ensures Kept(Step(s, e))
  {
    if e.Park? {
      ParkKept(s, e.i);
    } else {
      OtherKept(s, e);
    }
  }

  lemma LastParkedStays(s: State, e: Event)
    requires Enabled(s, e) && !e.Park?
    ensures Step(s, e).mem.lastParked == s.mem.lastParked
  {
  }

  /** A token open after a step, for a handle created before it, was open before the step. */
  lemma OpenBefore(s: State, e: Event, h: Handle)
    requires Owned(s.reg) && Enabled(s, e) && h in s.reg.created
    requires h in Step(s, e).reg.owner && Step(s, e).reg.owner[h] in Step(s, e).reg.subs
    ensures h in s.reg.owner && s.reg.owner[h] in s.reg.subs && !Discards(s, e)
  {
  }

  lemma OtherKept(s: State, e: Event)
    requires Owned(s.reg) && ArrivedCreated(s) && Placed(s.mem) && Enabled(s, e) && Kept(s) && !e.Park?
    ensures Kept(Step(s, e))
  {
    LastParkedStays(s, e);
    var s' := Step(s, e);
    forall h | h in s'.mem.lastParked && h in s'.reg.owner && s'.reg.owner[h] in s'.reg.subs
      ensures InHand(s'.mem, h, s'.mem.lastParked[h])
    {
      assert Known(s.mem, s.mem.lastParked[h], h);
      OpenBefore(s, e, h);
      InHandStays(s, e, h, s.mem.lastParked[h]);
    }
  }

  lemma ArrivedStep(s: State, e: Event)
    requires ArrivedCreated(s) && Enabled(s, e)
    ensures ArrivedCreated(Step(s, e))
  {
  }

  // ---------------------------------------------------------------- replays of bound handles

  /** Only handles that were bound get replayed, and a replay misses only a handle unbound since. */
  ghost predicate ReplayedBound(s: State) {
    && (forall id | id in s.mem.flight :: id < |s.mem.arrivals| && s.mem.arrivals[id].h in s.reg.everBound)
    && (forall id | id in s.mem.missedOnReplay :: id < |s.mem.arrivals| && s.mem.arrivals[id].h in s.reg.everUnbound)
  }

  lemma HistoryGrows(s: State, e: Event)
    requires Enabled(s, e)
    ensures s.mem.arrivals <= Step(s, e).mem.arrivals
    ensures s.reg.everBound <= Step(s, e).reg.everBound && s.reg.everUnbound <= Step(s, e).reg.everUnbound
  {
  }

  lemma FlightGrows(s: State, e: Event, id: nat)
    requires Placed(s.mem) && ReplaysOwned(s.reg, s.replays) && Enabled(s, e)
    requires id in Step(s, e).mem.flight && id !in s.mem.flight
    ensures id < |s.mem.arrivals| && s.mem.arrivals[id].h in s.reg.everBound
  {
    assert e.Take?;
    var h :| h in ReplayOf(s, e.t).hs && h in s.mem.early.samples && s.mem.early.samples[h].id == id;
    assert Known(s.mem, s.mem.lastParked[h], h);
  }

  lemma ReplayedStep(s: State, e: Event)
    requires Owned(s.reg) && ReplaysOwned(s.reg, s.replays) && Placed(s.mem) && ReplayedBound(s) && Enabled(s, e)
    ensures ReplayedBound(Step(s, e))
  {
    HistoryGrows(s, e);
    var s' := Step(s, e);
    forall id | id in s'.mem.flight
      ensures id < |s'.mem.arrivals| && s'.mem.arrivals[id].h in s'.reg.everBound
    {
      if id !in s.mem.flight { FlightGrows(s, e, id); }
    }
  }

  // ---------------------------------------------------------------- delivery order

  ghost predicate Sorted(q: seq<nat>) {
    forall i, j | 0 <= i < j < |q| :: q[i] <= q[j]
  }

  /** The stamps of h never go back in arrival order. */
  ghost predicate InOrder(arrivals: seq<Arrival>, h: Handle) {
    forall i, j | 0 <= i < j < |arrivals| && arrivals[i].h == h && arrivals[j].h == h ::
      arrivals[i].stamp <= arrivals[j].stamp
  }

  /** A live sample being delivered is the newest of its handle. */
  ghost predicate LiveNewest(m: Samples) {
    forall i | i in m.workers && m.workers[i].Found? ::
      forall k | 0 <= k < |m.arrivals| && ShardOf(m.arrivals[k].h) == i :: k <= m.workers[i].id
  }

  ghost predicate Arrived(m: Samples, h: Handle, stamp: nat) {
    exists k :: 0 <= k < |m.arrivals| && m.arrivals[k].h == h && m.arrivals[k].stamp == stamp
  }

  ghost predicate OrderedAt(m: Samples, o: Order, h: Handle) {
    var q := Accepted(o, h);
    && (q == [] ==> LastStamp(o, h) == 0)
    && (q != [] ==> LastStamp(o, h) == q[|q| - 1] && Arrived(m, h, q[|q| - 1]))
    && (InOrder(m.arrivals, h) ==> Sorted(q))
  }

  ghost predicate Ordered(m: Samples, o: Order) {
    LiveNewest(m) && forall h: Handle :: OrderedAt(m, o, h)
  }

  lemma LiveNewestStep(s: State, e: Event)
    requires Placed(s.mem) && LiveNewest(s.mem) && Enabled(s, e)
    ensures LiveNewest(Step(s, e).mem)
  {
  }

  lemma OrderedFrame(m: Samples, m': Samples, o: Order, h: Handle)
    requires OrderedAt(m, o, h) && m.arrivals <= m'.arrivals
    ensures OrderedAt(m', o, h)
  {
    if InOrder(m'.arrivals, h) {
      forall i, j | 0 <= i < j < |m.arrivals| && m.arrivals[i].h == h && m.arrivals[j].h == h
        ensures m.arrivals[i].stamp <= m.arrivals[j].stamp
      {
        assert m'.arrivals[i] == m.arrivals[i] && m'.arrivals[j] == m.arrivals[j];
      }
    }
    var q := Accepted(o, h);
    if q != [] {
      var k :| 0 <= k < |m.arrivals| && m.arrivals[k].h == h && m.arrivals[k].stamp == q[|q| - 1];
      assert m'.arrivals[k] == m.arrivals[k];
    }
  }

  /** Accepting a stamp that is not older than the last one accepted keeps the order. */
  lemma OrderedAccept(m: Samples, o: Order, h: Handle, stamp: nat, k: Handle)
    requires OrderedAt(m, o, k) && Arrived(m, h, stamp)
    requires InOrder(m.arrivals, h) ==> LastStamp(o, h) <= stamp
    ensures OrderedAt(m, AcceptOrd(o, h, stamp), k)
  {
    var q := Accepted(o, h);
    if k == h {
      assert (q + [stamp])[|q|] == stamp;
    }
  }

  lemma LiveNotOlder(s: State, i: nat)
    requires Placed(s.mem) && Ordered(s.mem, s.ord) && Enabled(s, AcceptLive(i))
    ensures
      var a := HeldArrival(s.mem, i);
      Arrived(s.mem, a.h, a.stamp) && (InOrder(s.mem.arrivals, a.h) ==> LastStamp(s.ord, a.h) <= a.stamp)
  {
    var a := HeldArrival(s.mem, i);
    assert HeldOnly(s.mem, i) && OrderedAt(s.mem, s.ord, a.h);
    var q := Accepted(s.ord, a.h);
    if q != [] {
      var k :| 0 <= k < |s.mem.arrivals| && s.mem.arrivals[k].h == a.h && s.mem.arrivals[k].stamp == q[|q| - 1];
      assert k <= WorkerOf(s.mem, i).id;
    }
  }

  lemma OrderedStep(s: State, e: Event)
    requires Placed(s.mem) && Ordered(s.mem, s.ord) && Enabled(s, e)
    ensures Ordered(Step(s, e).mem, Step(s, e).ord)
  {
    LiveNewestStep(s, e);
    HistoryGrows(s, e);
    var s' := Step(s, e);
    if e.AcceptLive? { LiveNotOlder(s, e.i); }
    forall h: Handle ensures OrderedAt(s'.mem, s'.ord, h) {
      assert OrderedAt(s.mem, s.ord, h);
      if e.AcceptLive? {
        OrderedAccept(s.mem, s.ord, HeldArrival(s.mem, e.i).h, HeldArrival(s.mem, e.i).stamp, h);
        OrderedFrame(s.mem, s'.mem, s'.ord, h);
      } else if e.AcceptReplay? {
        var a := s.mem.arrivals[e.id];
        if a.stamp >= LastStamp(s.ord, a.h) { OrderedAccept(s.mem, s.ord, a.h, a.stamp, h); }
        OrderedFrame(s.mem, s'.mem, s'.ord, h);
      } else {
        OrderedFrame(s.mem, s'.mem, s.ord, h);
      }
    }
  }

  // ---------------------------------------------------------------- delivery

  /** Something at least as new as this was delivered for h. */
  ghost predicate Delivered(o: Order, h: Handle, stamp: nat) {
    exists k :: 0 <= k < |Accepted(o, h)| && Accepted(o, h)[k] >= stamp
  }

  /** A replayed sample that was dispatched to a bound handle and has landed was delivered, or something newer was. */
  ghost predicate Landed(m: Samples, o: Order) {
    forall id | id in m.redispatched && id !in m.missedOnReplay && id !in m.flight ::
      id < |m.arrivals| && Delivered(o, m.arrivals[id].h, m.arrivals[id].stamp)
  }

  lemma AcceptedGrows(s: State, e: Event, h: Handle)
    requires Enabled(s, e)
    ensures Accepted(s.ord, h) <= Accepted(Step(s, e).ord, h)
  {
  }

  lemma DeliveredStays(s: State, e: Event, h: Handle, stamp: nat)
    requires Enabled(s, e) && Delivered(s.ord, h, stamp)
    ensures Delivered(Step(s, e).ord, h, stamp)
  {
    AcceptedGrows(s, e, h);
    var k :| 0 <= k < |Accepted(s.ord, h)| && Accepted(s.ord, h)[k] >= stamp;
    assert Accepted(Step(s, e).ord, h)[k] >= stamp;
  }

  lemma AcceptDelivers(o: Order, h: Handle, stamp: nat)
    ensures Accepted(AcceptOrd(o, h, stamp), h) == Accepted(o, h) + [stamp]
    ensures Delivered(AcceptOrd(o, h, stamp), h, stamp)
  {
    assert Accepted(AcceptOrd(o, h, stamp), h)[|Accepted(o, h)|] == stamp;
  }

  /** A replayed sample reaches the consumer unless something newer already has. */
  lemma ReplayDelivers(s: State, id: nat)
    requires Ordered(s.mem, s.ord) && Enabled(s, AcceptReplay(id))
    ensures Delivered(Step(s, AcceptReplay(id)).ord, s.mem.arrivals[id].h, s.mem.arrivals[id].stamp)
  {
    var a := s.mem.arrivals[id];
    assert OrderedAt(s.mem, s.ord, a.h);
    if a.stamp >= LastStamp(s.ord, a.h) {
      AcceptDelivers(s.ord, a.h, a.stamp);
    } else {
      var q := Accepted(s.ord, a.h);
      assert q[|q| - 1] >= a.stamp;
    }
  }

  /** Only a dispatch puts a sample among the dispatched ones. */
  lemma NewlyLanded(s: State, e: Event, id: nat)
    requires Enabled(s, e)
    requires id in Step(s, e).mem.redispatched && id !in Step(s, e).mem.missedOnReplay && id !in Step(s, e).mem.flight
    ensures e == AcceptReplay(id) || (id in s.mem.redispatched && id !in s.mem.missedOnReplay && id !in s.mem.flight)
  {
  }

  lemma LandedStep(s: State, e: Event)
    requires Placed(s.mem) && Ordered(s.mem, s.ord) && Landed(s.mem, s.ord) && Enabled(s, e)
    ensures Landed(Step(s, e).mem, Step(s, e).ord)
  {
    var s' := Step(s, e);
    HistoryGrows(s, e);
    forall id | id in s'.mem.redispatched && id !in s'.mem.missedOnReplay && id !in s'.mem.flight
      ensures id < |s'.mem.arrivals| && Delivered(s'.ord, s'.mem.arrivals[id].h, s'.mem.arrivals[id].stamp)
    {
      NewlyLanded(s, e, id);
      if e == AcceptReplay(id) {
        ReplayDelivers(s, id);
      } else {
        DeliveredStays(s, e, s.mem.arrivals[id].h, s.mem.arrivals[id].stamp);
      }
    }
  }

  // ---------------------------------------------------------------- orphan deletes

  /** h can never be bound again: the PLC does not reuse it and no subscribe still has to commit it. */
  ghost predicate Spent(r: Registry, h: Handle) {
    h in r.created && forall tok | tok in r.subs :: h !in r.subs[tok].uncommitted
  }

  /** The sample was judged orphan while no subscribe was open, or on a replay. */
  ghost predicate JudgedSafely(j: Job) {
    j.openAtJudge == {} || j.onReplay
  }

  ghost predicate JobSafe(r: Registry, j: Job) {
    && j.h in r.created
    && (JudgedSafely(j) ==>
          && Spent(r, j.h)
          && (j.stage == SawUnbound || j.stage == SawNoneOpen ==> j.h !in r.bound)
          && (j.stage.Sent? ==> !j.stage.whileBound))
  }

  ghost predicate JobsSafe(s: State) {
    forall k | 0 <= k < |s.jobs| :: JobSafe(s.reg, s.jobs[k])
  }

  lemma SpentStays(s: State, e: Event, h: Handle)
    requires Enabled(s, e) && Spent(s.reg, h)
    ensures Spent(Step(s, e).reg, h)
    ensures h !in s.reg.bound ==> h !in Step(s, e).reg.bound
  {
  }

  lemma JudgeSpent(s: State, e: Event)
    requires Owned(s.reg) && ArrivedCreated(s) && ReplayedBound(s) && Enabled(s, e)
    requires (e.JudgeOrphan? && s.reg.subs == map[]) || e.Redispatch?
    ensures Spent(s.reg, if e.JudgeOrphan? then HeldArrival(s.mem, e.i).h else s.mem.arrivals[e.id].h)
  {
    if e.Redispatch? {
      forall tok | tok in s.reg.subs ensures s.mem.arrivals[e.id].h !in s.reg.subs[tok].uncommitted {
        assert OwnedBy(s.reg, tok);
      }
    }
  }

  lemma JobsStep(s: State, e: Event)
    requires Owned(s.reg) && ArrivedCreated(s) && ReplayedBound(s) && JobsSafe(s) && Enabled(s, e)
    ensures JobsSafe(Step(s, e))
  {
    var s' := Step(s, e);
    forall k | 0 <= k < |s'.jobs| ensures JobSafe(s'.reg, s'.jobs[k]) {
      if k < |s.jobs| {
        assert JobSafe(s.reg, s.jobs[k]);
        if JudgedSafely(s.jobs[k]) { SpentStays(s, e, s.jobs[k].h); }
      } else if JudgedSafely(s'.jobs[k]) {
        assert s.reg.subs.Keys == {} ==> s.reg.subs == map[];
        JudgeSpent(s, e);
        assert s'.reg == s.reg;
      }
    }
  }

  // ---------------------------------------------------------------- every run

  ghost predicate Inv(s: State) {
    && Owned(s.reg) && ReplaysOwned(s.reg, s.replays) && ClosingCovers(s.reg, s.replays) && ArrivedCreated(s)
    && Placed(s.mem) && Kept(s) && ReplayedBound(s)
    && Ordered(s.mem, s.ord) && Landed(s.mem, s.ord) && JobsSafe(s) && Bounded(s.mem.early)
  }

  lemma BoundedStep(s: State, e: Event)
    requires Bounded(s.mem.early) && Enabled(s, e)
    ensures Bounded(Step(s, e).mem.early)
  {
    match e {
      case Park(i) =>
        if Fits(s.mem, i) {
          var a := HeldArrival(s.mem, i);
          InsertBounded(s.mem.early, a.h, Sample(WorkerOf(s.mem, i).id, a.content));
        }
      case Take(t) => RemoveBounded(s.mem.early, ReplayOf(s, t).hs);
      case _ =>
    }
  }

  lemma InvStep(s: State, e: Event)
    requires Inv(s) && Enabled(s, e)
    ensures Inv(Step(s, e))
  {
    OwnedStep(s, e);
    ReplaysStep(s, e);
    CoversStep(s, e);
    ArrivedStep(s, e);
    PlacedStep(s, e);
    KeptStep(s, e);
    ReplayedStep(s, e);
    OrderedStep(s, e);
    LandedStep(s, e);
    JobsStep(s, e);
    BoundedStep(s, e);
  }

  lemma {:induction false} InvRun(s: State, es: seq<Event>)
    requires Inv(s) && Exec(s, es).Some?
    ensures Inv(Exec(s, es).value)
    decreases |es|
  {
    if es != [] {
      InvStep(s, es[0]);
      InvRun(Step(s, es[0]), es[1..]);
    }
  }

  lemma Reachable(foreign: set<Handle>, es: seq<Event>)
    requires Exec(Init(foreign), es).Some?
    ensures Inv(Exec(Init(foreign), es).value)
  {
    InvRun(Init(foreign), es);
  }

  // ---------------------------------------------------------------- the theorems

  ghost function Times(q: seq<nat>, id: nat): nat {
    multiset(q)[id]
  }

  lemma {:induction false} TimesAtMostOnce(q: seq<nat>, id: nat)
    requires NoRepeats(q)
    ensures Times(q, id) == if id in q then 1 else 0
  {
    if q != [] {
      var front := q[..|q| - 1];
      assert q == front + [q[|q| - 1]];
      TimesAtMostOnce(front, id);
    }
  }

  /**
   * While the subscribe that created h is open, no close and no replay of another subscribe loses the latest
   * sample parked for h.
   */
  lemma ParkedSampleKept(foreign: set<Handle>, es: seq<Event>, h: Handle)
    requires Exec(Init(foreign), es).Some?
    ensures
      var s := Exec(Init(foreign), es).value;
      h in s.mem.lastParked && h in s.reg.owner && s.reg.owner[h] in s.reg.subs ==>
        InHand(s.mem, h, s.mem.lastParked[h])
  {
    Reachable(foreign, es);
  }

  lemma {:induction false} TakenForever(s: State, es: seq<Event>, id: nat)
    requires Inv(s) && Exec(s, es).Some? && Taken(s.mem, id)
    ensures Taken(Exec(s, es).value.mem, id)
    decreases |es|
  {
    if es != [] {
      TakenStays(s, es[0], id);
      InvStep(s, es[0]);
      TakenForever(Step(s, es[0]), es[1..], id);
    }
  }

  lemma {:induction false} ArrivalsForever(s: State, es: seq<Event>)
    requires Exec(s, es).Some?
    ensures s.mem.arrivals <= Exec(s, es).value.mem.arrivals
    decreases |es|
  {
    if es != [] {
      HistoryGrows(s, es[0]);
      ArrivalsForever(Step(s, es[0]), es[1..]);
    }
  }

  /**
   When a subscribe takes its closing replay, the latest sample parked for a handle it
   committed and that is still bound is, from then on, either waiting in exactly one
   goroutine to be dispatched or was dispatched exactly once in the whole run; and as long
   as the handle stays bound that dispatch finds it bound, and once it is over the consumer
   has that sample or a newer one of the handle.
   */
  lemma ClosingReplayDeliversOnce(foreign: set<Handle>, es: seq<Event>, tok: Token, h: Handle, later: seq<Event>)
    requires Exec(Init(foreign), es).Some?
    requires
      var s := Exec(Init(foreign), es).value;
      && tok in s.reg.subs && s.reg.subs[tok].closing && h in s.reg.subs[tok].committed
      && h !in s.reg.everUnbound && h in s.mem.lastParked
      && Enabled(s, Take(Subscriber(tok))) && Exec(Step(s, Take(Subscriber(tok))), later).Some?
    ensures
      var s := Exec(Init(foreign), es).value;
      var id := s.mem.lastParked[h];
      var s' := Exec(Step(s, Take(Subscriber(tok))), later).value;
      && (if id in s'.mem.flight && !s'.mem.flight[id].found
          then Times(s'.mem.redispatched, id) == 0
          else Times(s'.mem.redispatched, id) == 1)
      && (id !in s'.mem.flight ==> Times(s'.mem.redispatched, id) == 1)
      && (h !in s'.reg.everUnbound ==> id !in s'.mem.missedOnReplay)
      && id < |s.mem.arrivals|
      && (h !in s'.reg.everUnbound && id !in s'.mem.flight ==> Delivered(s'.ord, h, s.mem.arrivals[id].stamp))
  {
    var s := Exec(Init(foreign), es).value;
    var id := s.mem.lastParked[h];
    Reachable(foreign, es);
    var e := Take(Subscriber(tok));
    TakeTakes(s, tok, h);
    InvStep(s, e);
    TakenForever(Step(s, e), later, id);
    InvRun(Step(s, e), later);
    ArrivalsForever(Step(s, e), later);
    var s' := Exec(Step(s, e), later).value;
    TimesAtMostOnce(s'.mem.redispatched, id);
    assert Known(s.mem, id, h);
    assert s'.mem.arrivals[id] == s.mem.arrivals[id];
  }

  lemma TakeTakes(s: State, tok: Token, h: Handle)
    requires Inv(s) && Enabled(s, Take(Subscriber(tok)))
    requires tok in s.reg.subs && s.reg.subs[tok].closing && h in s.reg.subs[tok].committed
    requires h !in s.reg.everUnbound && h in s.mem.lastParked
    ensures Taken(Step(s, Take(Subscriber(tok))).mem, s.mem.lastParked[h])
  {
    assert h in ReplayOf(s, Subscriber(tok)).hs;
    assert OwnedBy(s.reg, tok);
    assert InHand(s.mem, h, s.mem.lastParked[h]);
  }

  /** In every run, a dispatched replay that has landed has reached the consumer unless something newer already had. */
  lemma ReplaysReachConsumer(foreign: set<Handle>, es: seq<Event>, id: nat)
    requires Exec(Init(foreign), es).Some?
    requires
      var m := Exec(Init(foreign), es).value.mem;
      id in m.redispatched && id !in m.missedOnReplay && id !in m.flight
    ensures
      var s := Exec(Init(foreign), es).value;
      id < |s.mem.arrivals| && Delivered(s.ord, s.mem.arrivals[id].h, s.mem.arrivals[id].stamp)
  {
    Reachable(foreign, es);
  }

  /** A live sample is always delivered: it is the last thing its handle's consumer got. */
  lemma LiveDelivers(s: State, i: nat)
    requires Enabled(s, AcceptLive(i))
    ensures
      var a := HeldArrival(s.mem, i);
      Accepted(Step(s, AcceptLive(i)).ord, a.h) == Accepted(s.ord, a.h) + [a.stamp]
  {
    AcceptDelivers(s.ord, HeldArrival(s.mem, i).h, HeldArrival(s.mem, i).stamp);
  }

  /** The shard still holds the sample it found bound, or the consumer has it. */
  ghost predicate LiveOrDelivered(s: State, a: Arrival, id: nat) {
    || (WorkerOf(s.mem, ShardOf(a.h)) == Found(id) && id < |s.mem.arrivals| && s.mem.arrivals[id] == a)
    || a.stamp in Accepted(s.ord, a.h)
  }

  lemma LiveStep(s: State, e: Event, a: Arrival, id: nat)
    requires Enabled(s, e) && LiveOrDelivered(s, a, id)
    ensures LiveOrDelivered(Step(s, e), a, id)
  {
    AcceptedGrows(s, e, a.h);
    if a.stamp in Accepted(s.ord, a.h) {
      var k :| 0 <= k < |Accepted(s.ord, a.h)| && Accepted(s.ord, a.h)[k] == a.stamp;
      assert Accepted(Step(s, e).ord, a.h)[k] == a.stamp;
    } else if e == AcceptLive(ShardOf(a.h)) {
      AcceptDelivers(s.ord, a.h, a.stamp);
    }
  }

  lemma {:induction false} LiveForever(s: State, es: seq<Event>, a: Arrival, id: nat)
    requires Exec(s, es).Some? && LiveOrDelivered(s, a, id)
    ensures LiveOrDelivered(Exec(s, es).value, a, id)
    decreases |es|
  {
    if es != [] {
      LiveStep(s, es[0], a, id);
      LiveForever(Step(s, es[0]), es[1..], a, id);
    }
  }

  /** A sample that arrives for a bound handle is on its shard until the consumer has exactly that sample. */
  lemma BoundArrivalDelivered(s: State, a: Arrival, es: seq<Event>)
    requires Enabled(s, Arrive(a)) && a.h in s.reg.bound && Exec(Step(s, Arrive(a)), es).Some?
    ensures LiveOrDelivered(Exec(Step(s, Arrive(a)), es).value, a, |s.mem.arrivals|)
  {
    LiveForever(Step(s, Arrive(a)), es, a, |s.mem.arrivals|);
  }

  // ---------------------------------------------------------------- from arrival to the buffer

  /** A sample that arrives for an unbound handle is held by its shard until that shard decides about it. */
  lemma {:induction false} MissedIsHeld(s: State, i: nat, id: nat, es: seq<Event>)
    requires Exec(s, es).Some? && (WorkerOf(s.mem, i) == Missed(id) || WorkerOf(s.mem, i) == Parking(id))
    requires forall e | e in es :: !(e.DropMissed? && e.i == i) && !(e.JudgeOrphan? && e.i == i) && e != Park(i)
    ensures
      var w := WorkerOf(Exec(s, es).value.mem, i);
      w == Parking(id) || (w == Missed(id) && WorkerOf(s.mem, i) == Missed(id) && WindowOpen(i) !in es)
    decreases |es|
  {
    if es != [] {
      assert es[0] in es;
      HeldStep(s, i, id, es[0]);
      MissedIsHeld(Step(s, es[0]), i, id, es[1..]);
    }
  }

  lemma HeldStep(s: State, i: nat, id: nat, e: Event)
    requires Enabled(s, e) && (WorkerOf(s.mem, i) == Missed(id) || WorkerOf(s.mem, i) == Parking(id))
    requires !(e.DropMissed? && e.i == i) && !(e.JudgeOrphan? && e.i == i) && e != Park(i)
    ensures WorkerOf(Step(s, e).mem, i) == if e == WindowOpen(i) then Parking(id) else WorkerOf(s.mem, i)
  {
  }

  /** A sample for which there is room is parked as the latest of its handle, and its shard looks again at once. */
  lemma ParkParks(s: State, i: nat)
    requires Enabled(s, Park(i)) && Fits(s.mem, i)
    ensures
      var s', id, h := Step(s, Park(i)), WorkerOf(s.mem, i).id, HeldArrival(s.mem, i).h;
      && InBuffer(s'.mem, h, id) && h in s'.mem.lastParked && s'.mem.lastParked[h] == id
      && ReplayOf(s', Shard(i)) == ToRead({h})
  {
  }

  /** The shard of h is about to look again for a sample it has just parked. */
  predicate LooksAgain(s: State, h: Handle) {
    ReplayOf(s, Shard(ShardOf(h))) == ToRead({h}) || ReplayOf(s, Shard(ShardOf(h))) == ToTake({h})
  }

  /** A sample parked for a bound handle is taken out again, unless its subscribe is over or the handle is unbound. */
  ghost predicate LatePark(s: State, h: Handle, id: nat, tok: Token) {
    || Taken(s.mem, id) || tok !in s.reg.subs || h in s.reg.everUnbound
    || (InBuffer(s.mem, h, id) && h in s.reg.bound && WorkerOf(s.mem, ShardOf(h)) == Free && LooksAgain(s, h))
  }

  lemma LooksStep(s: State, e: Event, h: Handle)
    requires Enabled(s, e) && LooksAgain(s, h) && h in s.reg.bound && WorkerOf(s.mem, ShardOf(h)) == Free
    ensures WorkerOf(Step(s, e).mem, ShardOf(h)) == Free
    ensures LooksAgain(Step(s, e), h) || e == Take(Shard(ShardOf(h)))
  {
    assert {h} * s.reg.bound == {h};
  }

  lemma BoundOrUnbound(s: State, e: Event, h: Handle)
    requires Enabled(s, e) && h in s.reg.bound
    ensures h in Step(s, e).reg.bound || h in Step(s, e).reg.everUnbound
  {
  }

  lemma TokenGone(s: State, e: Event, tok: Token)
    requires Enabled(s, e) && tok < s.reg.nextToken
    ensures tok < Step(s, e).reg.nextToken && (tok !in s.reg.subs ==> tok !in Step(s, e).reg.subs)
  {
  }

  /** The shard's own second look takes the sample, if nobody else has. */
  lemma LookTakes(s: State, h: Handle, id: nat)
    requires Enabled(s, Take(Shard(ShardOf(h)))) && LooksAgain(s, h) && InBuffer(s.mem, h, id)
    ensures Taken(Step(s, Take(Shard(ShardOf(h)))).mem, id)
  {
    assert h in ReplayOf(s, Shard(ShardOf(h))).hs;
  }

  lemma ParkElsewhere(s: State, i: nat, h: Handle)
    requires Placed(s.mem) && Enabled(s, Park(i)) && WorkerOf(s.mem, ShardOf(h)) == Free
    ensures HeldArrival(s.mem, i).h != h
  {
    assert HeldOnly(s.mem, i);
  }

  lemma LateParkStep(s: State, e: Event, h: Handle, id: nat, tok: Token)
    requires Placed(s.mem) && Enabled(s, e) && tok < s.reg.nextToken && LatePark(s, h, id, tok)
    ensures LatePark(Step(s, e), h, id, tok) && tok < Step(s, e).reg.nextToken
  {
    TokenGone(s, e, tok);
    HistoryGrows(s, e);
    if Taken(s.mem, id) {
      TakenStays(s, e, id);
    } else if tok in s.reg.subs && h !in s.reg.everUnbound {
      WaitingStep(s, e, h, id, tok);
    }
  }

  lemma WaitingStep(s: State, e: Event, h: Handle, id: nat, tok: Token)
    requires Placed(s.mem) && Enabled(s, e) && tok in s.reg.subs && InBuffer(s.mem, h, id) && h in s.reg.bound
    requires WorkerOf(s.mem, ShardOf(h)) == Free && LooksAgain(s, h)
    ensures LatePark(Step(s, e), h, id, tok)
  {
    LooksStep(s, e, h);
    BoundOrUnbound(s, e, h);
    if e == Take(Shard(ShardOf(h))) {
      LookTakes(s, h, id);
    } else if Discards(s, e) {
      assert Step(s, e).reg.subs == map[];
    } else {
      if e.Park? {
        ParkElsewhere(s, e.i, h);
      }
      InHandStays(s, e, h, id);
    }
  }

  lemma {:induction false} LateParkForever(s: State, es: seq<Event>, h: Handle, id: nat, tok: Token)
    requires Inv(s) && Exec(s, es).Some? && tok < s.reg.nextToken && LatePark(s, h, id, tok)
    ensures LatePark(Exec(s, es).value, h, id, tok)
    decreases |es|
  {
    if es != [] {
      LateParkStep(s, es[0], h, id, tok);
      InvStep(s, es[0]);
      LateParkForever(Step(s, es[0]), es[1..], h, id, tok);
    }
  }

  /**
   * A sample that missed its handle and is parked only after the handle was bound is not lost either: while the
   * subscribe that created the handle is open and the handle stays bound, the shard's own second look takes it, and
   * once that is over the consumer has it or something newer.
   */
  lemma LateParkDelivered(foreign: set<Handle>, es: seq<Event>, i: nat, later: seq<Event>)
    requires Exec(Init(foreign), es).Some?
    requires
      var s := Exec(Init(foreign), es).value;
      && Enabled(s, Park(i)) && Fits(s.mem, i) && HeldArrival(s.mem, i).h in s.reg.bound
      && HeldArrival(s.mem, i).h in s.reg.owner && Exec(Step(s, Park(i)), later).Some?
    ensures
      var s := Exec(Init(foreign), es).value;
      var id, a := WorkerOf(s.mem, i).id, HeldArrival(s.mem, i);
      var s' := Exec(Step(s, Park(i)), later).value;
      s.reg.owner[a.h] in s'.reg.subs && a.h !in s'.reg.everUnbound && !LooksAgain(s', a.h) && id !in s'.mem.flight ==>
        Delivered(s'.ord, a.h, a.stamp)
  {
    var s := Exec(Init(foreign), es).value;
    var id, a := WorkerOf(s.mem, i).id, HeldArrival(s.mem, i);
    Reachable(foreign, es);
    ParkParks(s, i);
    assert HeldOnly(s.mem, i);
    var s1 := Step(s, Park(i));
    InvStep(s, Park(i));
    LateParkForever(s1, later, a.h, id, s.reg.owner[a.h]);
    InvRun(s1, later);
    ArrivalsForever(s1, later);
    var s' := Exec(s1, later).value;
    assert s'.mem.arrivals[id] == a;
  }

  /** If the stamps of h never go back in arrival order, the stamps accepted on h never go back. */
  lemma AcceptedStampsInOrder(foreign: set<Handle>, es: seq<Event>, h: Handle)
    requires Exec(Init(foreign), es).Some?
    ensures
      var s := Exec(Init(foreign), es).value;
      InOrder(s.mem.arrivals, h) ==> Sorted(Accepted(s.ord, h))
  {
    Reachable(foreign, es);
    assert OrderedAt(Exec(Init(foreign), es).value.mem, Exec(Init(foreign), es).value.ord, h);
  }

  /** An orphan delete judged with no subscribe open, or on a replay, is never sent for a bound handle. */
  lemma OrphanDeleteSparesBound(foreign: set<Handle>, es: seq<Event>, j: nat)
    requires Exec(Init(foreign), es).Some?
    requires j < |Exec(Init(foreign), es).value.jobs|
    ensures
      var job := Exec(Init(foreign), es).value.jobs[j];
      JudgedSafely(job) && job.stage.Sent? ==> !job.stage.whileBound
  {
    Reachable(foreign, es);
    assert JobSafe(Exec(Init(foreign), es).value.reg, Exec(Init(foreign), es).value.jobs[j]);
  }

  /** In every reachable state the byte count is the content parked, at most 8 MiB over at most 4096 handles. */
  lemma EarlyBufferBounded(foreign: set<Handle>, es: seq<Event>)
    requires Exec(Init(foreign), es).Some?
    ensures Bounded(Exec(Init(foreign), es).value.mem.early)
  {
    Reachable(foreign, es);
  }
}
