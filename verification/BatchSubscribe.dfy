/**
 * AddSymbolNotifications: a batch subscribe against a PLC that may refuse the sum command
 * or fail half way, with other goroutines free to run wherever no lock is held.
 *
 * Each method is tied to a function of the state at entry and of what the others do. The laws
 * of those functions are in BatchProofs.
 */
module BatchSubscribe {

  import opened Basics
  import opened SymbolNames
  import opened NotificationManager

  // ---------------------------------------------------------------- the shared state

  /** What the batch shares with the rest of the session: the manager, the symbol cache by key, the epoch. */
  datatype Shared = Shared(v: View, symbols: map<Key, Name>, epoch: nat)

  /** What the other goroutines do at the n-th point where no lock is held. */
  type Env = (nat, Shared) -> Shared

  /** The shared state after t points where no lock was held. */
  datatype Moment = Moment(s: Shared, t: nat)

  /** No lock is held: the others run. */
  function Others(env: Env, x: Moment): Moment {
    Moment(env(x.t, x.s), x.t + 1)
  }

  /** The manager is changed under its lock. */
  function With(x: Moment, v: View): Moment {
    x.(s := x.s.(v := v))
  }

  // ---------------------------------------------------------------- the PLC

  datatype Item = Item(error: nat, handle: Handle)

  datatype Added = Handle(h: Handle) | Rejected(code: nat) | LinkDown

  /** How the batch is answered: no client to send it, no answer, item by item in one reply, or one Add at a time. */
  datatype Reply = NoClient | SumFails | SumReply(items: seq<Item>) | OneByOne(outs: seq<Added>)

  predicate Answers(reply: Reply, n: nat) {
    match reply
    case NoClient => true
    case SumFails => true
    case SumReply(items) => |items| == n
    case OneByOne(outs) => |outs| == n && forall i | 0 <= i < n :: outs[i].Rejected? ==> outs[i].code != 0
  }

  /** The reply reaches the requests one by one. */
  predicate Itemized(reply: Reply) {
    reply.SumReply? || reply.OneByOne?
  }

  predicate LinkUp(outs: seq<Added>, i: nat)
    requires i <= |outs|
  {
    forall j | 0 <= j < i :: !outs[j].LinkDown?
  }

  /** The call itself fails, whatever the items say. */
  predicate CallFails(reply: Reply) {
    match reply
    case NoClient => true
    case SumFails => true
    case SumReply(_) => false
    case OneByOne(outs) => !LinkUp(outs, |outs|)
  }

  // ---------------------------------------------------------------- results

  datatype Why = DuplicateSymbol | Unresolved | Refused(why: Refusal) | NoHandle | Transport

  /** One SumNotificationResult: zero values until something is reported. */
  datatype Result = Result(error: nat, handle: Handle, skipped: Option<Why>)

  const BLANK: Result := Result(0, 0, None)

  function Skip(why: Why): Result {
    BLANK.(skipped := Some(why))
  }

  predicate Success(r: Result) {
    r.skipped.None? && r.error == 0 && r.handle != 0
  }

  /** What sumAddDeviceNotificationFunc hands onItem for request i. */
  function ItemResult(reply: Reply, n: nat, i: nat): Result
    requires Answers(reply, n) && i < n && Itemized(reply)
  {
    match reply
    case SumReply(items) => Result(items[i].error, items[i].handle, None)
    case OneByOne(outs) =>
      if !LinkUp(outs, i + 1) then Skip(Transport)
      else if outs[i].Handle? then Result(0, outs[i].h, None)
      else Result(outs[i].code, 0, None)
  }

  /** The batch's own variables: what is reported, which entries were committed, which handles are to be released. */
  datatype Batch = Batch(results: seq<Result>, committed: seq<nat>, refused: seq<Handle>)

  predicate Indices(xs: seq<nat>, size: nat) {
    forall j | 0 <= j < |xs| :: xs[j] < size
  }

  predicate Increasing(sent: seq<nat>, size: nat) {
    (forall i | 0 <= i < |sent| :: sent[i] < size) && (forall i, j | 0 <= i < j < |sent| :: sent[i] < sent[j])
  }

  function Reject(b: Batch, idx: nat, r: Result): Batch
    requires idx < |b.results|
  {
    b.(results := b.results[idx := r])
  }

  function Keep(b: Batch, idx: nat, h: Handle): Batch
    requires idx < |b.results|
  {
    b.(results := b.results[idx := Result(0, h, None)], committed := b.committed + [idx])
  }

  function Drop(b: Batch, idx: nat, h: Handle, why: Refusal): Batch
    requires idx < |b.results|
  {
    var r := b.results[idx].(skipped := Some(Refused(why)), handle := h);
    b.(results := b.results[idx := r], refused := b.refused + [h])
  }

  // ---------------------------------------------------------------- before anything is sent

  /** The batch while its configs are looked at: what is reported, what will be sent, the keys met so far. */
  datatype Screening = Screening(results: seq<Result>, sent: seq<nat>, met: set<Key>, x: Moment)

  function ScreenOne(env: Env, configs: seq<Config>, live: set<Key>, resolves: nat -> bool, i: nat, q: Screening)
    : (r: Screening)
    requires i < |configs| == |q.results| && Increasing(q.sent, i)
    ensures |r.results| == |configs| && Increasing(r.sent, i + 1)
  {
    var key := KeyOf(configs[i].name);
    if key in live || key in q.met then q.(results := q.results[i := Skip(DuplicateSymbol)])
    else
      var looked := q.(met := q.met + {key}, x := Others(env, q.x));
      if resolves(i) then looked.(sent := q.sent + [i]) else looked.(results := q.results[i := Skip(Unresolved)])
  }

  /** The configs from i on. */
  function Screen(env: Env, configs: seq<Config>, live: set<Key>, resolves: nat -> bool, i: nat, q: Screening)
    : (r: Screening)
    requires i <= |configs| == |q.results| && Increasing(q.sent, i)
    ensures |r.results| == |configs| && Increasing(r.sent, |configs|)
    decreases |configs| - i
  {
    if i == |configs| then q
    else Screen(env, configs, live, resolves, i + 1, ScreenOne(env, configs, live, resolves, i, q))
  }

  function FirstLook(configs: seq<Config>, x: Moment): Screening {
    Screening(seq(|configs|, _ => BLANK), [], {}, x)
  }

  predicate WrongChannel(v: View, ch: Chan) {
    v.channel.Some? && v.channel.value != ch
  }

  // ---------------------------------------------------------------- one request after another

  /** sent gives each request its index among the configs. */
  datatype Plan = Plan(configs: seq<Config>, sent: seq<nat>, reply: Reply, ch: Chan)

  predicate Fit(p: Plan) {
    Increasing(p.sent, |p.configs|) && Answers(p.reply, |p.sent|)
  }

  predicate Shaped(p: Plan, b: Batch) {
    |b.results| == |p.configs| && Indices(b.committed, |p.configs|)
  }

  /** A batch under way among the others, in the epoch it began in. */
  datatype Job = Job(env: Env, p: Plan, begin: nat)

  /** How far a batch has come. */
  datatype Progress = Progress(b: Batch, x: Moment)

  datatype Verdict = Verdict(refusal: Option<Refusal>, x: Moment)

  /** commitNotification: the name is read at x, and the others run before the checks under the manager lock. */
  function Committed(j: Job, cfg: Config, h: Handle, x: Moment): Verdict {
    var key := KeyOf(cfg.name);
    var full := if key in x.s.symbols then Some(x.s.symbols[key]) else None;
    var y := Others(j.env, x);
    var r := CommitCheck(y.s.v, cfg, j.p.ch, full.Some?, y.s.epoch == j.begin);
    Verdict(r, if r.Some? then y else With(y, Bind(y.s.v, cfg, full.value, h, j.p.ch)))
  }

  /** The handle of request n is bound, or set aside for release. */
  function BindAfter(j: Job, n: nat, h: Handle, g: Progress): (k: Progress)
    requires Fit(j.p) && Shaped(j.p, g.b) && n < |j.p.sent|
    ensures Shaped(j.p, k.b)
  {
    var idx := j.p.sent[n];
    var c := Committed(j, j.p.configs[idx], h, g.x);
    if c.refusal.Some? then Progress(Drop(g.b, idx, h, c.refusal.value), c.x)
    else Progress(Keep(g.b, idx, h), Others(j.env, c.x))
  }

  /** onItem for request n. */
  function ItemAfter(j: Job, n: nat, g: Progress): (k: Progress)
    requires Fit(j.p) && Shaped(j.p, g.b) && n < |j.p.sent| && Itemized(j.p.reply)
    ensures Shaped(j.p, k.b)
  {
    var idx := j.p.sent[n];
    var r := ItemResult(j.p.reply, |j.p.sent|, n);
    var y := Others(j.env, g.x);
    if r.skipped.Some? || r.error != 0 then Progress(Reject(g.b, idx, r), y)
    else if r.handle == 0 then Progress(Reject(g.b, idx, g.b.results[idx].(skipped := Some(NoHandle))), y)
    else BindAfter(j, n, r.handle, g.(x := y))
  }

  /** The first n requests, from g. */
  function ItemsDone(j: Job, g: Progress, n: nat): (k: Progress)
    requires Fit(j.p) && Shaped(j.p, g.b) && n <= |j.p.sent| && Itemized(j.p.reply)
    ensures Shaped(j.p, k.b)
  {
    if n == 0 then g else ItemAfter(j, n - 1, ItemsDone(j, g, n - 1))
  }

  /** Where a batch stands after each number of requests. */
  type Path = nat -> Progress

  ghost predicate Follows(path: Path, j: Job, g: Progress) {
    && Fit(j.p) && Shaped(j.p, g.b) && Itemized(j.p.reply)
    && forall n: nat {:trigger ItemsDone(j, g, n)} | n <= |j.p.sent| :: path(n) == ItemsDone(j, g, n)
  }

  /** The first n requests an aborted batch never reported are marked as transport failures. */
  function Marked(p: Plan, results: seq<Result>, n: nat): (marked: seq<Result>)
    requires Fit(p) && |results| == |p.configs| && n <= |p.sent|
    ensures |marked| == |results|
  {
    if n == 0 then results
    else
      var front := Marked(p, results, n - 1);
      var r := front[p.sent[n - 1]];
      if r.skipped.None? && r.handle == 0 && r.error == 0 then front[p.sent[n - 1] := r.(skipped := Some(Transport))]
      else front
  }

  /** The batch up to the moment its settle step begins. */
  function Reported(j: Job, g: Progress): (k: Progress)
    requires Fit(j.p) && Shaped(j.p, g.b)
    ensures Shaped(j.p, k.b)
  {
    var k := if Itemized(j.p.reply) then ItemsDone(j, g, |j.p.sent|) else g;
    if CallFails(j.p.reply) && !j.p.reply.NoClient?
    then k.(b := k.b.(results := Marked(j.p, k.b.results, |j.p.sent|))) else k
  }

  // ---------------------------------------------------------------- settling

  /** Which of the first k committed entries are not bound. */
  function Unbound(b: Batch, bound: set<Handle>, k: nat): (stranded: seq<nat>)
    requires k <= |b.committed| && Indices(b.committed, |b.results|)
    ensures Indices(stranded, |b.results|)
  {
    if k == 0 then []
    else if b.results[b.committed[k - 1]].handle in bound then Unbound(b, bound, k - 1)
    else Unbound(b, bound, k - 1) + [b.committed[k - 1]]
  }

  /** Takes the configs of these entries off file. */
  function UnfileAll(v: View, configs: seq<Config>, entries: seq<nat>): View
    requires Indices(entries, |configs|)
    decreases |entries|
  {
    if entries == [] then v else UnfileAll(Unfiled(v, configs[entries[0]].name), configs, entries[1..])
  }

  function Amended(r: Result): Result {
    Result(0, r.handle, Some(Refused(Stranded)))
  }

  function AmendAll(results: seq<Result>, entries: seq<nat>, n: nat): (amended: seq<Result>)
    requires Indices(entries, |results|) && n <= |entries|
    ensures |amended| == |results|
  {
    if n == 0 then results
    else
      var front := AmendAll(results, entries, n - 1);
      front[entries[n - 1] := Amended(front[entries[n - 1]])]
  }

  /** The handles of the first k committed entries that carry one and are skipped. */
  function Leftover(results: seq<Result>, committed: seq<nat>, k: nat): seq<Handle>
    requires Indices(committed, |results|) && k <= |committed|
  {
    if k == 0 then []
    else
      var r := results[committed[k - 1]];
      Leftover(results, committed, k - 1) + if r.skipped.Some? && r.handle != 0 then [r.handle] else []
  }

  /** The amended batch, once it is known what is bound. */
  function AmendedBatch(b: Batch, bound: set<Handle>): Batch
    requires Indices(b.committed, |b.results|)
  {
    var stranded := Unbound(b, bound, |b.committed|);
    var results := AmendAll(b.results, stranded, |stranded|);
    b.(results := results, refused := b.refused + Leftover(results, b.committed, |b.committed|))
  }

  /** Of the first n handles, the ones whose deletion the PLC confirms. */
  function Confirmed(hs: seq<Handle>, acks: Handle -> bool, n: nat): seq<Handle>
    requires n <= |hs|
  {
    if n == 0 then [] else Confirmed(hs, acks, n - 1) + if acks(hs[n - 1]) then [hs[n - 1]] else []
  }

  /** bestEffortDeleteNotifications: the others run before the PLC's answers are booked. */
  function Released(env: Env, hs: seq<Handle>, acks: Handle -> bool, x: Moment): Moment {
    if hs == [] then x
    else
      var y := Others(env, x);
      With(y, Flush(y.s.v, Confirmed(hs, acks, |hs|), false))
  }

  /** The view settle leaves when it has looked at the bound handles. */
  function SettledView(p: Plan, b: Batch, v: View): View
    requires Fit(p) && Shaped(p, b)
  {
    var stranded := Unbound(b, v.active.Keys, |b.committed|);
    UnfileAll(v, p.configs, stranded)
  }

  /** settle */
  function Settled(j: Job, acks: Handle -> bool, g: Progress): (k: Progress)
    requires Fit(j.p) && Shaped(j.p, g.b)
    ensures |k.b.results| == |j.p.configs|
  {
    var y := Others(j.env, g.x);
    var c := AmendedBatch(g.b, y.s.v.active.Keys);
    Progress(c, Released(j.env, c.refused, acks, With(y, SettledView(j.p, g.b, y.s.v))))
  }

  // ---------------------------------------------------------------- the whole call

  /** One call of AddSymbolNotifications: its arguments, and what the PLC answers a batch of each size. */
  datatype Call = Call(
    configs: seq<Config>,
    ch: Chan,
    running: bool,
    resolves: nat -> bool,
    plc: nat -> Reply,
    acks: Handle -> bool)

  ghost predicate Answered(plc: nat -> Reply) {
    forall n :: Answers(plc(n), n)
  }

  /** released are the handles it asked the PLC to delete; sent is empty when nothing was sent. */
  datatype Outcome = Outcome(results: seq<Result>, err: bool, sent: seq<nat>, released: seq<Handle>, x: Moment)

  /** The configs as the checks before the batch leave them, when the channel is right. */
  function Screened(env: Env, a: Call, x: Moment): (q: Screening)
    ensures |q.results| == |a.configs| && Increasing(q.sent, |a.configs|)
  {
    var y := Others(env, x);
    Screen(env, a.configs, LiveKeys(y.s.v), a.resolves, 0, FirstLook(a.configs, y))
  }

  /** The batch that is sent. */
  ghost function JobOf(env: Env, a: Call, x: Moment): (j: Job)
    requires Answered(a.plc)
    ensures Fit(j.p) && j.env == env && j.p.configs == a.configs && j.p.sent == Screened(env, a, x).sent
  {
    var q := Screened(env, a, x);
    Job(env, Plan(a.configs, q.sent, a.plc(|q.sent|), a.ch), q.x.s.epoch)
  }

  ghost function StartOf(env: Env, a: Call, x: Moment): (g: Progress)
    requires Answered(a.plc)
    ensures Shaped(JobOf(env, a, x).p, g.b)
  {
    var q := Screened(env, a, x);
    Progress(Batch(q.results, [], []), q.x)
  }

  /** AddSymbolNotifications */
  ghost function Add(env: Env, a: Call, x: Moment): (out: Outcome)
    requires Answered(a.plc)
    ensures out.results == [] || |out.results| == |a.configs|
  {
    if !a.running then Outcome([], true, [], [], x)
    else if a.configs == [] then Outcome([], false, [], [], x)
    else if WrongChannel(Others(env, x).s.v, a.ch) then Outcome([], true, [], [], Others(env, x))
    else
      var q := Screened(env, a, x);
      if q.sent == [] then Outcome(q.results, false, [], [], q.x)
      else
        var j := JobOf(env, a, x);
        var k := Settled(j, a.acks, Reported(j, StartOf(env, a, x)));
        Outcome(k.b.results, CallFails(j.p.reply), q.sent, k.b.refused, k.x)
  }

  // ---------------------------------------------------------------- the object

  class Session {
    const manager: Manager
    var symbols: map<Key, Name>
    var epoch: nat
    /** How many points without a lock have gone by. */
    var ticks: nat
    /** Every handle named in a delete request so far. */
    var requested: seq<Handle>

    constructor (m: Manager, symbols: map<Key, Name>)
      ensures manager == m && At() == Moment(Shared(m.Now(), symbols, 0), 0) && requested == []
    {
      manager, this.symbols, epoch, ticks, requested := m, symbols, 0, 0, [];
    }

    function At(): Moment
      reads this, manager
    {
      Moment(Shared(manager.Now(), symbols, epoch), ticks)
    }

    /** No lock is held: the others run. */
    method Interfere(env: Env)
      modifies this`symbols, this`epoch, this`ticks, manager
      ensures At() == Others(env, old(At()))
    {
      var s := env(ticks, Shared(manager.Now(), symbols, epoch));
      ticks, symbols, epoch := ticks + 1, s.symbols, s.epoch;
      manager.active, manager.pending, manager.configsByKey := s.v.active, s.v.pending, s.v.keys;
      manager.channel, manager.registered := s.v.channel, s.v.registered;
    }

    /** commitNotification */
    method CommitNotification(j: Job, cfg: Config, h: Handle) returns (r: Option<Refusal>)
      modifies this`symbols, this`epoch, this`ticks, manager
      ensures Verdict(r, At()) == Committed(j, cfg, h, old(At()))
    {
      var key := KeyOf(cfg.name);
      var fullName := if key in symbols then Some(symbols[key]) else None;
      Interfere(j.env);
      r := manager.Commit(cfg, fullName, h, j.p.ch, epoch == j.begin);
    }

    /** onItem: reports request n, binding its handle or setting it aside for release. */
    method OnItem(j: Job, b: Batch, n: nat, r: Result) returns (c: Batch)
      requires Fit(j.p) && Shaped(j.p, b) && n < |j.p.sent|
      requires Itemized(j.p.reply) && r == ItemResult(j.p.reply, |j.p.sent|, n)
      modifies this`symbols, this`epoch, this`ticks, manager
      ensures Progress(c, At()) == ItemAfter(j, n, Progress(b, old(At())))
    {
      Interfere(j.env);
      var idx := j.p.sent[n];
      if r.skipped.Some? || r.error != 0 {
        return b.(results := b.results[idx := r]);
      }
      if r.handle == 0 {
        return b.(results := b.results[idx := b.results[idx].(skipped := Some(NoHandle))]);
      }
      var refusal := CommitNotification(j, j.p.configs[idx], r.handle);
      if refusal.Some? {
        return Drop(b, idx, r.handle, refusal.value);
      }
      c := Keep(b, idx, r.handle);
      Interfere(j.env);
    }

    /** sumAddDeviceNotificationFunc */
    method SumAdd(j: Job, b: Batch) returns (c: Batch, err: bool)
      requires Fit(j.p) && Shaped(j.p, b) && !j.p.reply.NoClient?
      modifies this`symbols, this`epoch, this`ticks, manager
      ensures err == CallFails(j.p.reply) && Shaped(j.p, c)
      ensures Progress(c, At()) ==
        if Itemized(j.p.reply) then ItemsDone(j, Progress(b, old(At())), |j.p.sent|) else Progress(b, old(At()))
    {
      if j.p.reply.SumFails? {
        return b, true;
      }
      ghost var g := Progress(b, At());
      ghost var path: Path := (n: nat) => if n <= |j.p.sent| then ItemsDone(j, g, n) else g;
      if j.p.reply.SumReply? {
        c := Deliver(j, b, 0, g, path);
        err := false;
      } else {
        c, err := AddOneByOne(j, b, j.p.reply.outs, g, path);
      }
    }

    /** sumAddNotificationFallback: one Add at a time, each reported before the next is sent. */
    method AddOneByOne(j: Job, b: Batch, outs: seq<Added>, ghost g: Progress, ghost path: Path)
      returns (c: Batch, err: bool)
      requires Follows(path, j, g) && path(0) == Progress(b, At()) && |outs| == |j.p.sent|
      modifies this`symbols, this`epoch, this`ticks, manager
      ensures err <==> !LinkUp(outs, |outs|)
      ensures path(|outs|) == Progress(c, At())
    {
      c := b;
      for i := 0 to |outs|
        invariant path(i) == Progress(c, At()) && LinkUp(outs, i)
      {
        if outs[i].LinkDown? {
          c := Deliver(j, c, i, g, path);
          return c, true;
        }
        c := NextItem(j, c, i, g, path);
      }
      err := false;
    }

    /** onItem for every request from first on. */
    method Deliver(j: Job, b: Batch, first: nat, ghost g: Progress, ghost path: Path) returns (c: Batch)
      requires Follows(path, j, g) && first <= |j.p.sent| && path(first) == Progress(b, At())
      modifies this`symbols, this`epoch, this`ticks, manager
      ensures path(|j.p.sent|) == Progress(c, At())
    {
      c := b;
      for i := first to |j.p.sent|
        invariant path(i) == Progress(c, At())
      {
        c := NextItem(j, c, i, g, path);
      }
    }

    /** The next answer reaches onItem. */
    method NextItem(j: Job, b: Batch, n: nat, ghost g: Progress, ghost path: Path) returns (c: Batch)
      requires Follows(path, j, g) && n < |j.p.sent| && path(n) == Progress(b, At())
      modifies this`symbols, this`epoch, this`ticks, manager
      ensures path(n + 1) == Progress(c, At())
    {
      assert path(n) == ItemsDone(j, g, n);
      c := OnItem(j, b, n, ItemResult(j.p.reply, |j.p.sent|, n));
      assert path(n + 1) == ItemsDone(j, g, n + 1);
    }

    /** Requests an aborted batch never reported are marked as transport failures. */
    method MarkUnreported(p: Plan, b: Batch) returns (c: Batch)
      requires Fit(p) && Shaped(p, b)
      ensures c == b.(results := Marked(p, b.results, |p.sent|))
    {
      c := b;
      for i := 0 to |p.sent|
        invariant c == b.(results := Marked(p, b.results, i))
      {
        var r := c.results[p.sent[i]];
        if r.skipped.None? && r.handle == 0 && r.error == 0 {
          c := c.(results := c.results[p.sent[i] := r.(skipped := Some(Transport))]);
        }
      }
    }

    /** Under the manager lock: which committed entries are no longer bound; their configs come off file. */
    method FindStranded(p: Plan, b: Batch) returns (stranded: seq<nat>)
      requires Fit(p) && Shaped(p, b)
      modifies manager
      ensures stranded == Unbound(b, old(manager.active.Keys), |b.committed|)
      ensures manager.Now() == SettledView(p, b, old(manager.Now()))
    {
      stranded := [];
      ghost var v := manager.Now();
      for k := 0 to |b.committed|
        invariant manager.active == v.active && stranded == Unbound(b, v.active.Keys, k)
        invariant manager.Now() == UnfileAll(v, p.configs, stranded)
      {
        var idx := b.committed[k];
        if b.results[idx].handle !in manager.active {
          UnfileSnoc(v, p.configs, stranded, idx);
          stranded := stranded + [idx];
          manager.RemoveNotificationConfig(p.configs[idx].name);
        }
      }
    }

    /** bestEffortDeleteNotifications */
    method BestEffortDelete(hs: seq<Handle>, acks: Handle -> bool, env: Env)
      modifies this, manager
      ensures requested == old(requested) + hs
      ensures At() == Released(env, hs, acks, old(At()))
    {
      if hs == [] {
        return;
      }
      requested := requested + hs;
      Interfere(env);
      var confirmed := [];
      for i := 0 to |hs|
        invariant confirmed == Confirmed(hs, acks, i)
      {
        if acks(hs[i]) {
          confirmed := confirmed + [hs[i]];
        }
      }
      manager.FinishSumDelete(confirmed, false);
    }

    /** settle: amend what was swept, then ask the PLC to delete every handle nothing here owns. */
    method Settle(j: Job, b: Batch, acks: Handle -> bool) returns (c: Batch)
      requires Fit(j.p) && Shaped(j.p, b)
      modifies this, manager
      ensures Progress(c, At()) == Settled(j, acks, Progress(b, old(At())))
      ensures requested == old(requested) + c.refused
    {
      Interfere(j.env);
      ghost var bound := manager.active.Keys;
      var stranded := FindStranded(j.p, b);
      c := AmendBatch(b, stranded, bound);
      BestEffortDelete(c.refused, acks, j.env);
    }

    /** The checks and lookups before anything is sent. */
    method Preflight(a: Call, env: Env) returns (mismatch: bool, results: seq<Result>, sent: seq<nat>)
      modifies this`symbols, this`epoch, this`ticks, manager
      ensures mismatch == WrongChannel(Others(env, old(At())).s.v, a.ch)
      ensures mismatch ==> At() == Others(env, old(At()))
      ensures !mismatch ==>
        var q := Screened(env, a, old(At()));
        results == q.results && sent == q.sent && At() == q.x
    {
      Interfere(env);
      if manager.channel.Some? && manager.channel.value != a.ch {
        return true, [], [];
      }
      var existing := manager.LiveNotificationNames();
      results, sent := LookAtAll(a, env, existing);
      mismatch := false;
    }

    /** The configs one after another. */
    method LookAtAll(a: Call, env: Env, existing: set<Key>) returns (results: seq<Result>, sent: seq<nat>)
      modifies this`symbols, this`epoch, this`ticks, manager
      ensures
        var q := Screen(env, a.configs, existing, a.resolves, 0, FirstLook(a.configs, old(At())));
        results == q.results && sent == q.sent && At() == q.x
    {
      ghost var whole := Screen(env, a.configs, existing, a.resolves, 0, FirstLook(a.configs, At()));
      results, sent := seq(|a.configs|, _ => BLANK), [];
      var batchSeen: set<Key> := {};
      for i := 0 to |a.configs|
        invariant |results| == |a.configs| && Increasing(sent, i)
        invariant Screen(env, a.configs, existing, a.resolves, i, Screening(results, sent, batchSeen, At())) == whole
      {
        results, sent, batchSeen := LookAt(a, env, existing, i, results, sent, batchSeen);
      }
    }

    /** One config: skipped as a duplicate, skipped as unresolved, or sent. */
    method LookAt(a: Call, env: Env, existing: set<Key>, i: nat, r: seq<Result>, s: seq<nat>, seen: set<Key>)
      returns (results: seq<Result>, sent: seq<nat>, batchSeen: set<Key>)
      requires i < |a.configs| == |r| && Increasing(s, i)
      modifies this`symbols, this`epoch, this`ticks, manager
      ensures Screening(results, sent, batchSeen, At()) ==
        ScreenOne(env, a.configs, existing, a.resolves, i, Screening(r, s, seen, old(At())))
    {
      results, sent, batchSeen := r, s, seen;
      var key := KeyOf(a.configs[i].name);
      if key in existing || key in seen {
        results := r[i := Skip(DuplicateSymbol)];
        return;
      }
      batchSeen := seen + {key};
      Interfere(env);
      if !a.resolves(i) {
        results := r[i := Skip(Unresolved)];
        return;
      }
      sent := s + [i];
    }

    /** AddSymbolNotifications */
    method AddSymbolNotifications(a: Call, env: Env) returns (results: seq<Result>, err: bool)
      requires Answered(a.plc)
      modifies this, manager
      ensures
        var out := Add(env, a, old(At()));
        results == out.results && err == out.err && At() == out.x && requested == old(requested) + out.released
    {
      if !a.running {
        return [], true;
      }
      if a.configs == [] {
        return [], false;
      }
      var mismatch, sent;
      mismatch, results, sent := Preflight(a, env);
      if mismatch {
        return [], true;
      }
      if sent == [] {
        return results, false;
      }
      var j := Job(env, Plan(a.configs, sent, a.plc(|sent|), a.ch), epoch);
      var b := Batch(results, [], []);
      if j.p.reply.NoClient? {
        b := Settle(j, b, a.acks);
        return b.results, true;
      }
      b, err := SumAdd(j, b);
      if err {
        b := MarkUnreported(j.p, b);
      }
      b := Settle(j, b, a.acks);
      results := b.results;
    }
  }

  lemma {:induction false} UnfileSnoc(v: View, configs: seq<Config>, entries: seq<nat>, idx: nat)
    requires Indices(entries, |configs|) && idx < |configs|
    ensures Indices(entries + [idx], |configs|)
    ensures UnfileAll(v, configs, entries + [idx]) == Unfiled(UnfileAll(v, configs, entries), configs[idx].name)
    decreases |entries|
  {
    if entries == [] {
      assert (entries + [idx])[1..] == [];
    } else {
      UnfileSnoc(Unfiled(v, configs[entries[0]].name), configs, entries[1..], idx);
      assert (entries + [idx])[1..] == entries[1..] + [idx];
    }
  }

  /** The batch's own part of settling. */
  method AmendBatch(b: Batch, stranded: seq<nat>, ghost bound: set<Handle>) returns (c: Batch)
    requires Indices(b.committed, |b.results|) && stranded == Unbound(b, bound, |b.committed|)
    ensures c == AmendedBatch(b, bound)
  {
    var results := b.results;
    for k := 0 to |stranded|
      invariant results == AmendAll(b.results, stranded, k)
    {
      results := results[stranded[k] := Amended(results[stranded[k]])];
    }
    var refused := b.refused;
    for k := 0 to |b.committed|
      invariant refused == b.refused + Leftover(results, b.committed, k)
    {
      var r := results[b.committed[k]];
      if r.skipped.Some? && r.handle != 0 {
        refused := refused + [r.handle];
      }
    }
    c := b.(results := results, refused := refused);
  }
}
