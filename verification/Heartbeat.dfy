/** The silence detector behind the notification heartbeat (heartbeatAllowedTicks, recoveryStreak, heartbeatWatch). */
module Heartbeat {

  import opened Basics

  // ---------------------------------------------------------------- the backoff window

  const MAX_BACKOFF_NS: int := 30_000_000_000
  const MAX_SHIFT: nat := 6
  const TWO57: int := 0x200_0000_0000_0000
  const TWO63: int := 0x8000_0000_0000_0000
  const TWO64: int := 0x1_0000_0000_0000_0000

  /** The 64-bit signed integer with the same low-order bits. */
  function Wrap64(x: int): int {
    (x + TWO63) % TWO64 - TWO63
  }

  function Pow2(n: nat): nat {
    if n == 0 then 1 else 2 * Pow2(n - 1)
  }

  function Shift(failures: nat): nat {
    if failures <= MAX_SHIFT then failures else MAX_SHIFT
  }

  /** heartbeatAllowedTicks, with the shift wrapping as Go's does. */
  function AllowedTicks(base: int, failures: nat, cycle: int): int {
    if failures == 0 || base <= 0 || cycle <= 0 then base
    else Min(Wrap64(base * Pow2(Shift(failures))), Max(MAX_BACKOFF_NS / cycle, base))
  }

  lemma {:induction false} Pow2Grows(m: nat, n: nat)
    requires m <= n
    ensures 1 <= Pow2(m) <= Pow2(n)
    decreases n
  {
    if m < n { Pow2Grows(m, n - 1); } else if m > 0 { Pow2Grows(m - 1, n - 1); }
  }

  lemma ScaledGrows(base: int, m: nat, n: nat)
    requires base > 0 && m <= n
    ensures base <= base * Pow2(m) <= base * Pow2(n)
  {
    Pow2Grows(m, n);
    Scale(base, 1, Pow2(m));
    Scale(base, Pow2(m), Pow2(n));
  }

  lemma Scale(base: int, a: int, b: int)
    requires base > 0 && a <= b
    ensures base * a <= base * b
  {
  }

  lemma PowSix()
    ensures Pow2(6) == 64
  {
    assert Pow2(3) == 2 * Pow2(2) && Pow2(2) == 4;
    assert Pow2(6) == 2 * Pow2(5) && Pow2(5) == 2 * Pow2(4) && Pow2(4) == 2 * Pow2(3);
  }

  lemma ShiftFits(base: int, failures: nat)
    requires 0 < base < TWO57
    ensures Wrap64(base * Pow2(Shift(failures))) == base * Pow2(Shift(failures))
  {
    PowSix();
    ScaledGrows(base, Shift(failures), MAX_SHIFT);
  }

  /** The window doubles with each failure, at most six times, up to thirty seconds of ticks or a longer base. */
  lemma WindowExactly(base: int, failures: nat, cycle: int)
    requires 0 < base < TWO57 && cycle > 0
    ensures AllowedTicks(base, 0, cycle) == base
    ensures failures > 0 ==>
      AllowedTicks(base, failures, cycle) ==
        Min(base * Pow2(Min(failures, 6)), Max(30_000_000_000 / cycle, base))
    ensures Pow2(0) == 1 && Pow2(failures + 1) == 2 * Pow2(failures)
  {
    ShiftFits(base, failures);
  }

  /** The window never falls below base and never exceeds max(base, 30 s / cycle). */
  lemma WindowBounds(base: int, failures: nat, cycle: int)
    requires 0 < base < TWO57 && cycle > 0
    ensures base <= AllowedTicks(base, failures, cycle) <= Max(base, MAX_BACKOFF_NS / cycle)
  {
    ShiftFits(base, failures);
    ScaledGrows(base, 0, Shift(failures));
  }

  /** The window never shrinks as failures grow. */
  lemma WindowMonotone(base: int, f: nat, g: nat, cycle: int)
    requires 0 < base < TWO57 && cycle > 0 && f <= g
    ensures AllowedTicks(base, f, cycle) <= AllowedTicks(base, g, cycle)
  {
    ShiftFits(base, f);
    ShiftFits(base, g);
    ScaledGrows(base, Shift(f), Shift(g));
    WindowBounds(base, g, cycle);
  }

  /** A base this large makes some doubling leave the 64-bit range, and the window turns negative. */
  lemma {:induction false} SomeShiftOverflows(base: int, n: nat) returns (f: nat)
    requires base * Pow2(n) >= TWO63 && 0 < base < TWO63
    ensures 0 < f <= n && Wrap64(base * Pow2(f)) < 0
  {
    assert Pow2(0) == 1;
    if base * Pow2(n - 1) >= TWO63 {
      f := SomeShiftOverflows(base, n - 1);
    } else {
      f := n;
      assert base * Pow2(n) == 2 * (base * Pow2(n - 1));
    }
  }

  /** Exactly the bases below 2^57 keep every window at least as long as the base, for any failure count. */
  lemma WindowKeepsBaseExactly(base: int, cycle: int)
    requires 0 < base < TWO63 && cycle > 0
    ensures (forall f: nat :: AllowedTicks(base, f, cycle) >= base) <==> base < TWO57
  {
    if base < TWO57 {
      forall f: nat ensures AllowedTicks(base, f, cycle) >= base {
        WindowBounds(base, f, cycle);
      }
    } else {
      PowSix();
      var f := SomeShiftOverflows(base, MAX_SHIFT);
      assert AllowedTicks(base, f, cycle) < base;
    }
  }

  // ---------------------------------------------------------------- the watcher

  datatype Mode = Immediate | Confirm | Observe

  datatype Outcome = RecoveryFailed | RecoveryDone | RecoveryDeferred

  /** base: beats that may be missed; cycle: the ticker period. */
  datatype Config = Config(base: int, cycle: int, mode: Mode)

  const FRAMELESS_BEFORE_RECONNECT: int := 2

  function StableTicks(c: Config): int { 2 * c.base }

  /** Everything one tick reads: counters, session state, and how a recovery ends if one runs. */
  datatype Input = Input(
    gen: nat,
    beatsAtGen: nat,
    connected: bool,
    transportUp: bool,
    active: nat,
    wanted: nat,
    registered: int,
    beats: nat,
    beatRegistered: bool,
    outcome: Outcome,
    frames: nat)

  datatype Watch = Watch(
    lastGen: nat,
    lastBeats: nat,
    quietTicks: nat,
    gapTicks: nat,
    failures: nat,
    healthy: nat,
    silentWindows: nat,
    framesAtWindow: nat,
    frameless: nat,
    stopped: bool)

  function Start(gen: nat): Watch {
    Watch(gen, 0, 0, 0, 0, 0, 0, 0, 0, false)
  }

  /** The tick reaches the detector: Connected, transport up, and something to protect. */
  predicate Processed(i: Input) {
    i.connected && i.transportUp && !(i.wanted == 0 && i.active == 0)
  }

  predicate Gap(i: Input) {
    i.registered > i.active
  }

  predicate Beat(w: Watch, i: Input) {
    i.beats != w.lastBeats
  }

  /** A new connected generation restarts the detector and the backoff. */
  function Renewed(w: Watch, i: Input): Watch {
    if i.gen == w.lastGen then w
    else w.(lastGen := i.gen, lastBeats := i.beatsAtGen, quietTicks := 0, failures := 0, healthy := 0)
  }

  function Attempt(w: Watch): Watch {
    w.(failures := w.failures + 1, healthy := 0)
  }

  function Escalate(w: Watch, i: Input): Watch {
    if i.frames != w.framesAtWindow then w.(framesAtWindow := i.frames, frameless := 0)
    else w.(frameless := w.frameless + 1, stopped := w.frameless + 1 >= FRAMELESS_BEFORE_RECONNECT)
  }

  function Window(c: Config, w: Watch): int {
    AllowedTicks(c.base, w.failures, c.cycle)
  }

  function CountGap(w: Watch, i: Input): Watch {
    w.(gapTicks := if Gap(i) then w.gapTicks + 1 else 0)
  }

  /** Subscriptions are missing although the beat arrives, for long enough. */
  predicate GapFires(c: Config, w: Watch, i: Input) {
    Gap(i) && Beat(w, i) && w.gapTicks + 1 >= Window(c, w)
  }

  function GapRecovery(w: Watch, i: Input): Watch {
    var w' := w.(gapTicks := 0, lastBeats := i.beats, quietTicks := 0);
    if i.outcome.RecoveryDeferred? then w' else Attempt(w')
  }

  function Beaten(c: Config, w: Watch, i: Input): Watch {
    var w' := w.(lastBeats := i.beats, quietTicks := 0, silentWindows := 0);
    if Gap(i) then w'.(healthy := 0)
    else w'.(healthy := w.healthy + 1, failures := if w.healthy + 1 >= StableTicks(c) then 0 else w.failures)
  }

  function Recover(w: Watch, i: Input): Watch {
    match i.outcome
    case RecoveryDone => Attempt(w)
    case RecoveryDeferred => w
    case RecoveryFailed => Escalate(Attempt(w), i)
  }

  /** A silent window has passed. */
  function Silent(c: Config, w: Watch, i: Input): Watch {
    if !i.beatRegistered then Escalate(Attempt(w), i)
    else match c.mode
         case Immediate => Recover(w.(silentWindows := 0), i)
         case Observe => Attempt(w)
         case Confirm =>
           if w.silentWindows + 1 < 2 then w.(silentWindows := w.silentWindows + 1)
           else Recover(w.(silentWindows := 0), i)
  }

  /** Detector state w (after Renewed) sees a processed tick without a beat that completes its window. */
  predicate SilenceFires(c: Config, w: Watch, i: Input) {
    !Beat(w, i) && w.quietTicks + 1 >= Window(c, w)
  }

  function Detect(c: Config, w: Watch, i: Input): Watch {
    if GapFires(c, w, i) then GapRecovery(w, i)
    else if Beat(w, i) then Beaten(c, CountGap(w, i), i)
    else if SilenceFires(c, w, i) then Silent(c, CountGap(w, i).(quietTicks := 0, healthy := 0), i)
    else CountGap(w, i).(quietTicks := w.quietTicks + 1, healthy := 0)
  }

  function Tick(c: Config, w: Watch, i: Input): Watch {
    if Processed(i) then Detect(c, Renewed(w, i), i) else Renewed(w, i)
  }

  /** The watcher goroutine's local state, updated tick by tick. */
  class Watcher {
    const config: Config
    var w: Watch

    constructor (config: Config, gen: nat)
      ensures this.config == config && w == Start(gen)
    {
      this.config := config;
      w := Start(gen);
    }

    method OnTick(i: Input)
      modifies this
      ensures w == Tick(config, old(w), i)
    {
      if i.gen != w.lastGen {
        w := w.(lastGen := i.gen, lastBeats := i.beatsAtGen, quietTicks := 0, failures := 0, healthy := 0);
      }
      if !i.connected || !i.transportUp {
        return;
      }
      if i.wanted == 0 && i.active == 0 {
        return;
      }
      var beatArrived := i.beats != w.lastBeats;
      var before := w;
      w := w.(gapTicks := w.gapTicks + 1);
      if i.registered > i.active {
        if beatArrived {
          if w.gapTicks >= AllowedTicks(config.base, w.failures, config.cycle) {
            w := w.(gapTicks := 0);
            if i.outcome != RecoveryDeferred {
              w := Attempt(w);
            }
            w := w.(lastBeats := i.beats, quietTicks := 0);
            return;
          }
        }
      } else {
        w := w.(gapTicks := 0);
      }
      assert w == CountGap(before, i);
      if beatArrived {
        w := w.(lastBeats := i.beats, quietTicks := 0, silentWindows := 0);
        if i.registered <= i.active {
          w := w.(healthy := w.healthy + 1);
          if w.healthy >= 2 * config.base {
            w := w.(failures := 0);
          }
        } else {
          w := w.(healthy := 0);
        }
        return;
      }
      w := w.(quietTicks := w.quietTicks + 1, healthy := 0);
      if w.quietTicks < AllowedTicks(config.base, w.failures, config.cycle) {
        return;
      }
      OnSilence(i);
    }

    method OnSilence(i: Input)
      modifies this
      ensures w == Silent(config, old(w).(quietTicks := 0), i)
    {
      w := w.(quietTicks := 0);
      if !i.beatRegistered {
        w := Escalate(Attempt(w), i);
        return;
      }
      match config.mode {
        case Confirm =>
          w := w.(silentWindows := w.silentWindows + 1);
          if w.silentWindows < 2 {
            return;
          }
          w := w.(silentWindows := 0);
        case Observe =>
          w := Attempt(w);
          return;
        case Immediate =>
          w := w.(silentWindows := 0);
      }
      w := Recover(w, i);
    }
  }

  // ---------------------------------------------------------------- traces

  /** The detector after the ticks, until it stops to hand over to a reconnect. */
  function Run(c: Config, w: Watch, ticks: seq<Input>): Watch
    decreases |ticks|
  {
    if ticks == [] then w
    else
      var p := Run(c, w, ticks[..|ticks| - 1]);
      if p.stopped then p else Tick(c, p, ticks[|ticks| - 1])
  }

  function CountProcessed(ticks: seq<Input>): nat {
    if ticks == [] then 0
    else CountProcessed(ticks[..|ticks| - 1]) + if Processed(ticks[|ticks| - 1]) then 1 else 0
  }

  /** At tick k of the trace a silent window ends and is acted on. */
  predicate FiresAt(c: Config, gen: nat, ticks: seq<Input>, k: nat)
    requires k < |ticks|
  {
    var w := Run(c, Start(gen), ticks[..k]);
    !w.stopped && Processed(ticks[k]) && SilenceFires(c, Renewed(w, ticks[k]), ticks[k])
  }

  lemma QuietTick(c: Config, w: Watch, i: Input)
    ensures Tick(c, w, i).quietTicks <= w.quietTicks + if Processed(i) then 1 else 0
    ensures Processed(i) && SilenceFires(c, Renewed(w, i), i) ==> Tick(c, w, i).quietTicks == 0
  {
  }

  lemma QuietStep(c: Config, gen: nat, ticks: seq<Input>, k: nat)
    requires k < |ticks|
    ensures
      Run(c, Start(gen), ticks[..k + 1]).quietTicks
      <= Run(c, Start(gen), ticks[..k]).quietTicks + if Processed(ticks[k]) then 1 else 0
    ensures FiresAt(c, gen, ticks, k) ==> Run(c, Start(gen), ticks[..k + 1]).quietTicks == 0
  {
    assert ticks[..k + 1][..k] == ticks[..k];
    QuietTick(c, Run(c, Start(gen), ticks[..k]), ticks[k]);
  }

  lemma CountSnoc(ticks: seq<Input>, lo: nat, k: nat)
    requires lo <= k < |ticks|
    ensures CountProcessed(ticks[lo..k + 1]) == CountProcessed(ticks[lo..k]) + if Processed(ticks[k]) then 1 else 0
  {
    assert ticks[lo..k + 1][..k - lo] == ticks[lo..k];
  }

  /** A counter that starts at 0 and rises by at most one per processed tick is bounded by their number. */
  lemma {:induction false} CounterBound(q: seq<nat>, ticks: seq<Input>, lo: nat, k: nat)
    requires |q| == |ticks| + 1 && lo <= k <= |ticks| && q[lo] == 0
    requires forall j | 0 <= j < |ticks| :: q[j + 1] <= q[j] + if Processed(ticks[j]) then 1 else 0
    ensures q[k] <= CountProcessed(ticks[lo..k])
    decreases k
  {
    if lo < k {
      CounterBound(q, ticks, lo, k - 1);
      CountSnoc(ticks, lo, k - 1);
      assert q[k - 1 + 1] <= q[k - 1] + if Processed(ticks[k - 1]) then 1 else 0;
    }
  }

  ghost function QuietAt(c: Config, gen: nat, ticks: seq<Input>, k: nat): nat
    requires k <= |ticks|
  {
    Run(c, Start(gen), ticks[..k]).quietTicks
  }

  lemma QuietBound(c: Config, gen: nat, ticks: seq<Input>, a: nat, b: nat)
    requires a < b <= |ticks| && FiresAt(c, gen, ticks, a)
    ensures QuietAt(c, gen, ticks, b) <= CountProcessed(ticks[a + 1..b])
  {
    var q := seq(|ticks| + 1, k requires 0 <= k <= |ticks| => QuietAt(c, gen, ticks, k));
    forall j | 0 <= j < |ticks| ensures q[j + 1] <= q[j] + if Processed(ticks[j]) then 1 else 0 {
      QuietStep(c, gen, ticks, j);
    }
    QuietStep(c, gen, ticks, a);
    CounterBound(q, ticks, a + 1, b);
  }

  /** In every trace, silence-triggered attempts are at least the then-valid window of processed ticks apart. */
  lemma SilenceAttemptsApart(c: Config, gen: nat, ticks: seq<Input>, a: nat, b: nat)
    requires a < b < |ticks| && FiresAt(c, gen, ticks, a) && FiresAt(c, gen, ticks, b)
    ensures
      CountProcessed(ticks[a + 1..b + 1]) >=
        AllowedTicks(c.base, Renewed(Run(c, Start(gen), ticks[..b]), ticks[b]).failures, c.cycle)
  {
    QuietBound(c, gen, ticks, a, b);
    CountSnoc(ticks, a + 1, b);
  }

  /** How many processed ticks in a row, up to the end of the trace, had a beat and no gap. */
  function HealthyStreak(c: Config, w: Watch, ticks: seq<Input>): nat
    decreases |ticks|
  {
    if ticks == [] then 0
    else
      var front := ticks[..|ticks| - 1];
      var i := ticks[|ticks| - 1];
      var p := Run(c, w, front);
      if p.stopped || !Processed(i) then HealthyStreak(c, w, front)
      else if Beat(Renewed(p, i), i) && !Gap(i) then HealthyStreak(c, w, front) + 1
      else 0
  }

  /** While a gap is being counted no tick is credited as healthy. */
  predicate GapUnhealthy(w: Watch) {
    w.gapTicks > 0 ==> w.healthy == 0
  }

  lemma GapTick(c: Config, w: Watch, i: Input)
    requires 2 <= c.base < TWO57 && c.cycle > 0 && GapUnhealthy(w)
    ensures GapUnhealthy(Tick(c, w, i))
    ensures
      Tick(c, w, i).healthy <=
        if !Processed(i) then w.healthy
        else if Beat(Renewed(w, i), i) && !Gap(i) then w.healthy + 1
        else 0
  {
    WindowBounds(c.base, Renewed(w, i).failures, c.cycle);
  }

  lemma {:induction false} HealthyIsStreak(c: Config, gen: nat, ticks: seq<Input>)
    requires 2 <= c.base < TWO57 && c.cycle > 0
    ensures GapUnhealthy(Run(c, Start(gen), ticks))
    ensures Run(c, Start(gen), ticks).healthy <= HealthyStreak(c, Start(gen), ticks)
    decreases |ticks|
  {
    if ticks != [] {
      var front := ticks[..|ticks| - 1];
      HealthyIsStreak(c, gen, front);
      var p := Run(c, Start(gen), front);
      if !p.stopped { GapTick(c, p, ticks[|ticks| - 1]); }
    }
  }

  lemma ClearsOnlyWhenStable(c: Config, w: Watch, i: Input)
    requires Renewed(w, i).failures > 0 && Tick(c, w, i).failures == 0
    ensures Tick(c, w, i).healthy >= StableTicks(c)
  {
  }

  /**
   In every trace the failure count clears only on a new connected generation, or when the
   last 2 * base processed ticks in a row had a beat and no gap.
   */
  lemma FailuresClearOnlyWhenStable(c: Config, gen: nat, ticks: seq<Input>, i: Input)
    requires 2 <= c.base < TWO57 && c.cycle > 0
    requires
      var w := Run(c, Start(gen), ticks);
      w.failures > 0 && Run(c, Start(gen), ticks + [i]).failures == 0
    ensures
      || i.gen != Run(c, Start(gen), ticks).lastGen
      || HealthyStreak(c, Start(gen), ticks + [i]) >= StableTicks(c)
  {
    assert (ticks + [i])[..|ticks|] == ticks;
    var w := Run(c, Start(gen), ticks);
    if i.gen == w.lastGen {
      ClearsOnlyWhenStable(c, w, i);
      HealthyIsStreak(c, gen, ticks + [i]);
    }
  }
}
