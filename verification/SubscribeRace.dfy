/**
 The race between a PLC that streams a handle from the moment it creates it, the
 subscribing goroutines that bind the handle later, the dispatch shards, caller deletes
 and sweeps, and the orphan reaper.

 Every critical section is one event and any interleaving of enabled events is a run.
 Clock-dependent answers (has the race window expired, is the tail still open, is the
 throttle closed) are free choices between events. The PLC never reuses a handle id and
 sends no sample for a handle it has not created. Fields marked "history" record what
 happened and steer nothing.
 */
module SubscribeRace {

  import opened Basics
  import opened Bytes
  import opened EarlySamples

  type Token = nat

  const SHARDS: nat := 8

  function ShardOf(h: Handle): nat { h % SHARDS }

  // ---------------------------------------------------------------- subscriptions

  /** One subscribe between beginSubscribe and the close of its token. */
  datatype Sub = Sub(uncommitted: set<Handle>, committed: set<Handle>, closing: bool)

  /** Handles on the PLC and in activeNotifications, and the subscribes in flight. */
  datatype Registry = Registry(
    created: set<Handle>,
    bound: set<Handle>,
    subs: map<Token, Sub>,
    nextToken: Token,
    // history
    owner: map<Handle, Token>,
    everBound: set<Handle>,
    everUnbound: set<Handle>)

  function BeginReg(r: Registry): Registry {
    r.(subs := r.subs[r.nextToken := Sub({}, {}, false)], nextToken := r.nextToken + 1)
  }

  function CreateReg(r: Registry, tok: Token, h: Handle): Registry
    requires tok in r.subs
  {
    r.(created := r.created + {h}, owner := r.owner[h := tok],
       subs := r.subs[tok := r.subs[tok].(uncommitted := r.subs[tok].uncommitted + {h})])
  }

  function CommitReg(r: Registry, tok: Token, h: Handle): Registry
    requires tok in r.subs
  {
    var sub := r.subs[tok];
    r.(bound := r.bound + {h}, everBound := r.everBound + {h},
       subs := r.subs[tok := sub.(uncommitted := sub.uncommitted - {h}, committed := sub.committed + {h})])
  }

  function RefuseReg(r: Registry, tok: Token, h: Handle): Registry
    requires tok in r.subs
  {
    r.(subs := r.subs[tok := r.subs[tok].(uncommitted := r.subs[tok].uncommitted - {h})])
  }

  function ClosingReg(r: Registry, tok: Token): Registry
    requires tok in r.subs
  {
    r.(subs := r.subs[tok := r.subs[tok].(uncommitted := {}, closing := true)])
  }

  function UnbindReg(r: Registry, hs: set<Handle>): Registry {
    r.(bound := r.bound - hs, everUnbound := r.everUnbound + (r.bound * hs))
  }

  // ---------------------------------------------------------------- samples

  /** Goroutines that can run replayEarlySamples. */
  datatype Thread = Shard(i: nat) | Subscriber(tok: Token)

  /** Progress of replayEarlySamples: read which handles are bound, take their samples, dispatch them. */
  datatype Replay = Idle | ToRead(hs: set<Handle>) | ToTake(hs: set<Handle>) | Dispatching

  /** Where the live dispatch of a sample stands on its shard. */
  datatype Worker = Free | Missed(id: nat) | Found(id: nat) | Parking(id: nat)

  datatype Arrival = Arrival(h: Handle, stamp: nat, content: seq<byte>)

  /** A sample taken out of the buffer; found once its redispatch has seen the handle bound. */
  datatype Flight = Flight(thread: Thread, found: bool)

  /** Where each arrived sample is; its id is its index in arrivals. */
  datatype Samples = Samples(
    arrivals: seq<Arrival>,
    workers: map<nat, Worker>,
    early: Buffer,
    flight: map<nat, Flight>,
    // history
    lastParked: map<Handle, nat>,
    redispatched: seq<nat>,
    missedOnReplay: set<nat>)

  function WorkerOf(m: Samples, i: nat): Worker {
    if i in m.workers then m.workers[i] else Free
  }

  predicate Holds(m: Samples, i: nat) {
    WorkerOf(m, i) != Free && WorkerOf(m, i).id < |m.arrivals|
  }

  function ArriveMem(m: Samples, a: Arrival, isBound: bool): Samples {
    var id := |m.arrivals|;
    m.(arrivals := m.arrivals + [a],
       workers := m.workers[ShardOf(a.h) := if isBound then Found(id) else Missed(id)])
  }

  function FreeMem(m: Samples, i: nat): Samples {
    m.(workers := m.workers[i := Free])
  }

  function ParkingMem(m: Samples, i: nat): Samples
    requires Holds(m, i)
  {
    m.(workers := m.workers[i := Parking(WorkerOf(m, i).id)])
  }

  function HeldArrival(m: Samples, i: nat): Arrival
    requires Holds(m, i)
  {
    m.arrivals[WorkerOf(m, i).id]
  }

  predicate Fits(m: Samples, i: nat)
    requires Holds(m, i)
  {
    !Full(m.early, HeldArrival(m, i).h, HeldArrival(m, i).content)
  }

  /** bufferEarlySample when there is room: the newest sample of a handle replaces the older one. */
  function ParkMem(m: Samples, i: nat): Samples
    requires Holds(m, i)
  {
    var a := HeldArrival(m, i);
    var id := WorkerOf(m, i).id;
    m.(workers := m.workers[i := Free],
       early := Insert(m.early, a.h, Sample(id, a.content)),
       lastParked := m.lastParked[a.h := id])
  }

  /** The earlyMu section of replayEarlySamples: what is parked for hs leaves the buffer. */
  ghost function TakeMem(m: Samples, t: Thread, hs: set<Handle>): Samples {
    var got := set h | h in hs && h in m.early.samples :: m.early.samples[h].id;
    m.(early := Remove(m.early, hs), flight := m.flight + (map id | id in got :: Flight(t, false)))
  }

  /** The lookup of a replayed sample. */
  function RedispatchMem(m: Samples, id: nat, isBound: bool): Samples
    requires id in m.flight
  {
    if isBound then
      m.(flight := m.flight[id := m.flight[id].(found := true)], redispatched := m.redispatched + [id])
    else
      m.(flight := m.flight - {id}, redispatched := m.redispatched + [id], missedOnReplay := m.missedOnReplay + {id})
  }

  function LandMem(m: Samples, id: nat): Samples {
    m.(flight := m.flight - {id})
  }

  // ---------------------------------------------------------------- delivery order

  /** handleOrder: the stamp of the newest sample delivered per handle, and (history) all stamps accepted. */
  datatype Order = Order(lastStamp: map<Handle, nat>, accepted: map<Handle, seq<nat>>)

  function LastStamp(o: Order, h: Handle): nat {
    if h in o.lastStamp then o.lastStamp[h] else 0
  }

  function Accepted(o: Order, h: Handle): seq<nat> {
    if h in o.accepted then o.accepted[h] else []
  }

  function AcceptOrd(o: Order, h: Handle, stamp: nat): Order {
    Order(o.lastStamp[h := stamp], o.accepted[h := Accepted(o, h) + [stamp]])
  }

  /** A replayed sample older than one already delivered is dropped. */
  function ReplayOrd(o: Order, h: Handle, stamp: nat): Order {
    if stamp < LastStamp(o, h) then o else AcceptOrd(o, h, stamp)
  }

  // ---------------------------------------------------------------- orphan reaper

  datatype Stage = Scheduled | SawUnbound | SawNoneOpen | Sent(whileBound: bool) | Aborted

  /** A scheduled orphan delete, with (history) the subscribes open when the sample was judged. */
  datatype Job = Job(h: Handle, openAtJudge: set<Token>, onReplay: bool, stage: Stage)

  // ---------------------------------------------------------------- the machine

  datatype State = State(reg: Registry, mem: Samples, replays: map<Thread, Replay>, ord: Order, jobs: seq<Job>)

  datatype Event =
    | Begin
    | PlcCreate(tok: Token, h: Handle)
    | Commit(tok: Token, h: Handle)
    | Refuse(tok: Token, h: Handle)
    | StartReplay(tok: Token, hs: set<Handle>)
    | StartClose(tok: Token)
    | Close(tok: Token)
    | Unbind(hs: set<Handle>)
    | Arrive(a: Arrival)
    | DropMissed(i: nat)
    | JudgeOrphan(i: nat, schedule: bool)
    | WindowOpen(i: nat)
    | Park(i: nat)
    | AcceptLive(i: nat)
    | ReadBound(t: Thread)
    | Take(t: Thread)
    | Redispatch(id: nat, schedule: bool)
    | AcceptReplay(id: nat)
    | EndReplay(t: Thread)
    | CheckBound(j: nat)
    | CheckOpen(j: nat)
    | Send(j: nat)

  function Init(foreign: set<Handle>): State {
    State(Registry(foreign, {}, map[], 0, map[], {}, {}),
          Samples([], map[], Empty, map[], map[], [], {}),
          map[], Order(map[], map[]), [])
  }

  function ReplayOf(s: State, t: Thread): Replay {
    if t in s.replays then s.replays[t] else Idle
  }

  /** The subscribe tok is open and its goroutine is not inside a replay. */
  predicate Quiet(s: State, tok: Token) {
    tok in s.reg.subs && ReplayOf(s, Subscriber(tok)) == Idle
  }

  predicate Adding(s: State, tok: Token) {
    Quiet(s, tok) && !s.reg.subs[tok].closing
  }

  predicate Flying(m: Samples, id: nat, found: bool) {
    id in m.flight && m.flight[id].found == found && id < |m.arrivals|
  }

  ghost predicate HasFlight(m: Samples, t: Thread) {
    exists id :: id in m.flight && m.flight[id].thread == t
  }

  predicate AtStage(s: State, j: nat, g: Stage) {
    j < |s.jobs| && s.jobs[j].stage == g
  }

  ghost predicate Enabled(s: State, e: Event) {
    match e
    case Begin => true
    case PlcCreate(tok, h) => Adding(s, tok) && h !in s.reg.created
    case Commit(tok, h) => Adding(s, tok) && h in s.reg.subs[tok].uncommitted
    case Refuse(tok, h) => Adding(s, tok) && h in s.reg.subs[tok].uncommitted
    case StartReplay(tok, hs) => Adding(s, tok) && hs <= s.reg.subs[tok].committed
    case StartClose(tok) => Adding(s, tok)
    case Close(tok) => Quiet(s, tok) && s.reg.subs[tok].closing
    case Unbind(hs) => true
    case Arrive(a) =>
      a.h in s.reg.created && WorkerOf(s.mem, ShardOf(a.h)) == Free && ReplayOf(s, Shard(ShardOf(a.h))) == Idle
    case DropMissed(i) => Holds(s.mem, i) && WorkerOf(s.mem, i).Missed?
    case JudgeOrphan(i, _) => Holds(s.mem, i) && WorkerOf(s.mem, i).Missed?
    case WindowOpen(i) => Holds(s.mem, i) && WorkerOf(s.mem, i).Missed?
    case Park(i) => Holds(s.mem, i) && WorkerOf(s.mem, i).Parking?
    case AcceptLive(i) => Holds(s.mem, i) && WorkerOf(s.mem, i).Found?
    case ReadBound(t) => ReplayOf(s, t).ToRead?
    case Take(t) => ReplayOf(s, t).ToTake?
    case Redispatch(id, _) => Flying(s.mem, id, false)
    case AcceptReplay(id) => Flying(s.mem, id, true)
    case EndReplay(t) => ReplayOf(s, t) == Dispatching && !HasFlight(s.mem, t)
    case CheckBound(j) => AtStage(s, j, Scheduled)
    case CheckOpen(j) => AtStage(s, j, SawUnbound)
    case Send(j) => AtStage(s, j, SawNoneOpen)
  }

  function Judged(s: State, h: Handle, onReplay: bool, schedule: bool): seq<Job> {
    if schedule then s.jobs + [Job(h, s.reg.subs.Keys, onReplay, Scheduled)] else s.jobs
  }

  function WithStage(s: State, j: nat, g: Stage): State
    requires j < |s.jobs|
  {
    s.(jobs := s.jobs[j := s.jobs[j].(stage := g)])
  }

  ghost function Step(s: State, e: Event): State
    requires Enabled(s, e)
  {
    match e
    case Begin => s.(reg := BeginReg(s.reg))
    case PlcCreate(tok, h) => s.(reg := CreateReg(s.reg, tok, h))
    case Commit(tok, h) => s.(reg := CommitReg(s.reg, tok, h))
    case Refuse(tok, h) => s.(reg := RefuseReg(s.reg, tok, h))
    case StartReplay(tok, hs) => s.(replays := s.replays[Subscriber(tok) := ToRead(hs)])
    case StartClose(tok) =>
      s.(reg := ClosingReg(s.reg, tok),
         replays := s.replays[Subscriber(tok) := ToRead(s.reg.subs[tok].committed)])
    case Close(tok) =>
      var r := s.reg.(subs := s.reg.subs - {tok});
      s.(reg := r, mem := if r.subs == map[] then s.mem.(early := Empty) else s.mem)
    case Unbind(hs) => s.(reg := UnbindReg(s.reg, hs))
    case Arrive(a) => s.(mem := ArriveMem(s.mem, a, a.h in s.reg.bound))
    case DropMissed(i) => s.(mem := FreeMem(s.mem, i))
    case JudgeOrphan(i, schedule) =>
      s.(mem := FreeMem(s.mem, i), jobs := Judged(s, HeldArrival(s.mem, i).h, false, schedule))
    case WindowOpen(i) => s.(mem := ParkingMem(s.mem, i))
    case Park(i) =>
      if Fits(s.mem, i)
      then s.(mem := ParkMem(s.mem, i), replays := s.replays[Shard(i) := ToRead({HeldArrival(s.mem, i).h})])
      else s.(mem := FreeMem(s.mem, i))
    case AcceptLive(i) =>
      var a := HeldArrival(s.mem, i);
      s.(mem := FreeMem(s.mem, i), ord := AcceptOrd(s.ord, a.h, a.stamp))
    case ReadBound(t) => s.(replays := s.replays[t := ToTake(ReplayOf(s, t).hs * s.reg.bound)])
    case Take(t) =>
      s.(mem := TakeMem(s.mem, t, ReplayOf(s, t).hs), replays := s.replays[t := Dispatching])
    case Redispatch(id, schedule) =>
      var h := s.mem.arrivals[id].h;
      s.(mem := RedispatchMem(s.mem, id, h in s.reg.bound),
         jobs := Judged(s, h, true, schedule && h !in s.reg.bound))
    case AcceptReplay(id) =>
      var a := s.mem.arrivals[id];
      s.(mem := LandMem(s.mem, id), ord := ReplayOrd(s.ord, a.h, a.stamp))
    case EndReplay(t) => s.(replays := s.replays[t := Idle])
    case CheckBound(j) => WithStage(s, j, if s.jobs[j].h in s.reg.bound then Aborted else SawUnbound)
    case CheckOpen(j) => WithStage(s, j, if s.reg.subs != map[] then Aborted else SawNoneOpen)
    case Send(j) => WithStage(s, j, Sent(s.jobs[j].h in s.reg.bound))
  }

  /** The state after running the events in order, or None when one of them was not enabled. */
  ghost function Exec(s: State, es: seq<Event>): Option<State>
    decreases |es|
  {
    if es == [] then Some(s)
    else if Enabled(s, es[0]) then Exec(Step(s, es[0]), es[1..]) else None
  }
}
