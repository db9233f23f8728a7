/** What the silence detector counts and when it acts, over whole traces of ticks. */
module HeartbeatProofs {

  import opened Basics
  import opened Heartbeat

  // ---------------------------------------------------------------- counters

  /** How often f holds in [lo, hi). */
  function CountTrue(f: nat -> bool, lo: nat, hi: nat): nat {
    if hi <= lo then 0 else CountTrue(f, lo, hi - 1) + if f(hi - 1) then 1 else 0
  }

  /** A counter that may be cleared before the tick is counted, and again after it. */
  function Counted(q: nat, before: bool, inc: bool, after: bool): nat {
    if after then 0 else (if before then 0 else q) + (if inc then 1 else 0)
  }

  /** q counts inc over n ticks, cleared by before and after. */
  ghost predicate Counts(q: nat -> nat, before: nat -> bool, inc: nat -> bool, after: nat -> bool, n: nat) {
    q(0) == 0 && forall j: nat | j < n :: q(j + 1) == Counted(q(j), before(j), inc(j), after(j))
  }

  /** r is where a counter that is read before tick k was last cleared. */
  ghost predicate ClearedAt(before: nat -> bool, after: nat -> bool, r: nat, k: nat) {
    && r <= k
    && (r == 0 || after(r - 1) || (r < k && before(r)))
    && (forall j: nat | r <= j < k :: !after(j))
    && (forall j: nat | r < j < k :: !before(j))
  }

  /** The value of such a counter is the number of ticks counted since it was last cleared. */
  lemma {:induction false} CountSince(q: nat -> nat, before: nat -> bool, inc: nat -> bool, after: nat -> bool,
                                      n: nat, k: nat) returns (r: nat)
    requires Counts(q, before, inc, after, n) && k <= n
    ensures ClearedAt(before, after, r, k) && q(k) == CountTrue(inc, r, k)
    decreases k
  {
    if k == 0 {
      r := 0;
    } else {
      assert q(k - 1 + 1) == Counted(q(k - 1), before(k - 1), inc(k - 1), after(k - 1));
      if after(k - 1) {
        r := k;
      } else if before(k - 1) {
        r := k - 1;
      } else {
        r := CountSince(q, before, inc, after, n, k - 1);
      }
    }
  }

  // ---------------------------------------------------------------- the trace, from its inputs

  /** The detector before tick k. */
  function At(c: Config, gen: nat, ticks: seq<Input>, k: nat): Watch
    requires k <= |ticks|
  {
    Run(c, Start(gen), ticks[..k])
  }

  /** The detector has not handed over to a reconnect before tick k. */
  predicate Live(c: Config, gen: nat, ticks: seq<Input>, k: nat)
    requires k <= |ticks|
  {
    !At(c, gen, ticks, k).stopped
  }

  /** The connected generation at tick k is not the one of the tick before, or of the start. */
  predicate NewGen(gen: nat, ticks: seq<Input>, k: nat)
    requires k < |ticks|
  {
    ticks[k].gen != if k == 0 then gen else ticks[k - 1].gen
  }

  /** The beat count seen when tick k comes: at the last processed tick, or when its generation began. */
  function Seen(gen: nat, ticks: seq<Input>, k: nat): nat
    requires k <= |ticks|
    decreases k, 0
  {
    if k == 0 then 0
    else if Processed(ticks[k - 1]) then ticks[k - 1].beats
    else SeenAt(gen, ticks, k - 1)
  }

  function SeenAt(gen: nat, ticks: seq<Input>, k: nat): nat
    requires k < |ticks|
    decreases k, 1
  {
    if NewGen(gen, ticks, k) then ticks[k].beatsAtGen else Seen(gen, ticks, k)
  }

  /** A processed tick that sees a beat. */
  predicate BeatAt(gen: nat, ticks: seq<Input>, k: nat)
    requires k < |ticks|
  {
    Processed(ticks[k]) && ticks[k].beats != SeenAt(gen, ticks, k)
  }

  lemma NextTick(c: Config, gen: nat, ticks: seq<Input>, k: nat)
    requires k < |ticks|
    ensures At(c, gen, ticks, k + 1) ==
      if Live(c, gen, ticks, k) then Tick(c, At(c, gen, ticks, k), ticks[k]) else At(c, gen, ticks, k)
  {
    assert ticks[..k + 1][..k] == ticks[..k];
  }

  lemma LiveBefore(c: Config, gen: nat, ticks: seq<Input>, j: nat, k: nat)
    requires j <= k <= |ticks| && Live(c, gen, ticks, k)
    ensures Live(c, gen, ticks, j)
    decreases k
  {
    if j < k {
      NextTick(c, gen, ticks, k - 1);
      LiveBefore(c, gen, ticks, j, k - 1);
    }
  }

  lemma TickSees(c: Config, w: Watch, i: Input)
    ensures Tick(c, w, i).lastGen == i.gen
    ensures Tick(c, w, i).lastBeats ==
      if Processed(i) then i.beats else if i.gen != w.lastGen then i.beatsAtGen else w.lastBeats
  {
  }

  /** The detector compares with exactly the generation and the beat count the inputs say. */
  lemma {:induction false} RemembersInputs(c: Config, gen: nat, ticks: seq<Input>, k: nat)
    requires k <= |ticks| && Live(c, gen, ticks, k)
    ensures At(c, gen, ticks, k).lastGen == (if k == 0 then gen else ticks[k - 1].gen)
    ensures At(c, gen, ticks, k).lastBeats == Seen(gen, ticks, k)
  {
    if k > 0 {
      NextTick(c, gen, ticks, k - 1);
      RemembersInputs(c, gen, ticks, k - 1);
      TickSees(c, At(c, gen, ticks, k - 1), ticks[k - 1]);
    }
  }

  /** The detector as tick k finds it, after a new generation has been taken in. */
  function Ready(c: Config, gen: nat, ticks: seq<Input>, k: nat): Watch
    requires k < |ticks|
  {
    Renewed(At(c, gen, ticks, k), ticks[k])
  }

  lemma SeesBeat(c: Config, gen: nat, ticks: seq<Input>, k: nat)
    requires k < |ticks| && Live(c, gen, ticks, k)
    ensures NewGen(gen, ticks, k) <==> ticks[k].gen != At(c, gen, ticks, k).lastGen
    ensures Processed(ticks[k]) ==> (Beat(Ready(c, gen, ticks, k), ticks[k]) <==> BeatAt(gen, ticks, k))
  {
    RemembersInputs(c, gen, ticks, k);
  }

  /**
   * A tick is ignored exactly when the session is not connected, its transport is gone, or the caller has asked for
   * nothing: then only a new generation is taken in, and otherwise the beat count is.
   */
  lemma IgnoredExactly(c: Config, w: Watch, i: Input)
    ensures !i.connected || !i.transportUp || (i.wanted == 0 && i.active == 0) ==>
      Tick(c, w, i) == Renewed(w, i) && (i.gen == w.lastGen ==> Tick(c, w, i) == w)
    ensures i.connected && i.transportUp && (i.wanted > 0 || i.active > 0) ==> Tick(c, w, i).lastBeats == i.beats
  {
  }

  // ---------------------------------------------------------------- what happens at a tick

  /** Subscriptions are found missing, with the beat arriving, and are recovered. */
  predicate GapFiresAt(c: Config, gen: nat, ticks: seq<Input>, k: nat)
    requires k < |ticks|
  {
    Live(c, gen, ticks, k) && Processed(ticks[k]) && GapFires(c, Ready(c, gen, ticks, k), ticks[k])
  }

  /** How many silent windows with a beat registered have ended since the last beat that was not spent on a gap. */
  function SilentSince(c: Config, gen: nat, ticks: seq<Input>, k: nat): nat
    requires k <= |ticks|
  {
    if k == 0 then 0
    else if BeatAt(gen, ticks, k - 1) && !GapFiresAt(c, gen, ticks, k - 1) then 0
    else
      SilentSince(c, gen, ticks, k - 1) +
      if FiresAt(c, gen, ticks, k - 1) && ticks[k - 1].beatRegistered then 1 else 0
  }

  /** The silent window that ends at tick k leads to a recovery: at once, or as the second of two in a row. */
  predicate RecoversAt(c: Config, gen: nat, ticks: seq<Input>, k: nat)
    requires k < |ticks|
  {
    && FiresAt(c, gen, ticks, k) && ticks[k].beatRegistered
    && (c.mode == Immediate || (c.mode == Confirm && SilentSince(c, gen, ticks, k) % 2 == 1))
  }

  /** An attempt: a recovery that was not deferred, a window only observed, or a window without a beat registered. */
  predicate AttemptAt(c: Config, gen: nat, ticks: seq<Input>, k: nat)
    requires k < |ticks|
  {
    || (GapFiresAt(c, gen, ticks, k) && ticks[k].outcome != RecoveryDeferred)
    || (RecoversAt(c, gen, ticks, k) && ticks[k].outcome != RecoveryDeferred)
    || (FiresAt(c, gen, ticks, k) && (c.mode == Observe || !ticks[k].beatRegistered))
  }

  /** Delivery has been healthy for long enough to forget the failures. */
  predicate StableAt(c: Config, gen: nat, ticks: seq<Input>, k: nat)
    requires k < |ticks|
  {
    && Live(c, gen, ticks, k) && BeatAt(gen, ticks, k) && !Gap(ticks[k])
    && Ready(c, gen, ticks, k).healthy + 1 >= StableTicks(c)
  }

  lemma SilentTick(c: Config, w: Watch, i: Input)
    requires w.silentWindows < 2
    ensures
      var w0, w1 := Renewed(w, i), Tick(c, w, i);
      w1.silentWindows ==
        if !Processed(i) || GapFires(c, w0, i) then w.silentWindows
        else if Beat(w0, i) then 0
        else if !SilenceFires(c, w0, i) || !i.beatRegistered || c.mode == Observe then w.silentWindows
        else if c.mode == Immediate then 0
        else 1 - w.silentWindows
  {
  }

  /** In confirming mode the detector remembers exactly whether an unconfirmed window is pending. */
  lemma {:induction false} SilentParity(c: Config, gen: nat, ticks: seq<Input>, k: nat)
    requires k <= |ticks|
    ensures At(c, gen, ticks, k).silentWindows < 2
    ensures c.mode == Confirm && Live(c, gen, ticks, k) ==>
      At(c, gen, ticks, k).silentWindows == SilentSince(c, gen, ticks, k) % 2
  {
    if k > 0 {
      SilentParity(c, gen, ticks, k - 1);
      ParityStep(c, gen, ticks, k - 1);
    }
  }

  lemma ParityStep(c: Config, gen: nat, ticks: seq<Input>, k: nat)
    requires k < |ticks| && At(c, gen, ticks, k).silentWindows < 2
    requires c.mode == Confirm && Live(c, gen, ticks, k) ==>
      At(c, gen, ticks, k).silentWindows == SilentSince(c, gen, ticks, k) % 2
    ensures At(c, gen, ticks, k + 1).silentWindows < 2
    ensures c.mode == Confirm && Live(c, gen, ticks, k + 1) ==>
      At(c, gen, ticks, k + 1).silentWindows == SilentSince(c, gen, ticks, k + 1) % 2
  {
    NextTick(c, gen, ticks, k);
    if Live(c, gen, ticks, k) {
      ParityTick(c, gen, ticks, k, At(c, gen, ticks, k));
    }
  }

  lemma ParityTick(c: Config, gen: nat, ticks: seq<Input>, k: nat, w: Watch)
    requires k < |ticks| && Live(c, gen, ticks, k) && w == At(c, gen, ticks, k) && w.silentWindows < 2
    ensures Tick(c, w, ticks[k]).silentWindows < 2
    ensures c.mode == Confirm && w.silentWindows == SilentSince(c, gen, ticks, k) % 2 ==>
      Tick(c, w, ticks[k]).silentWindows == SilentSince(c, gen, ticks, k + 1) % 2
  {
    SilentTick(c, w, ticks[k]);
    SeesBeat(c, gen, ticks, k);
  }

  /** The detector's own view of an attempt at a processed tick. */
  predicate Attempts(c: Config, w: Watch, i: Input) {
    if GapFires(c, w, i) then !i.outcome.RecoveryDeferred?
    else
      && SilenceFires(c, w, i)
      && (!i.beatRegistered || c.mode == Observe
          || ((c.mode == Immediate || w.silentWindows == 1) && !i.outcome.RecoveryDeferred?))
  }

  lemma FailureTick(c: Config, w: Watch, i: Input)
    requires w.silentWindows < 2
    ensures
      var w0 := Renewed(w, i);
      Tick(c, w, i).failures ==
        Counted(w.failures, i.gen != w.lastGen, Processed(i) && Attempts(c, w0, i),
                Processed(i) && Beat(w0, i) && !Gap(i) && w0.healthy + 1 >= StableTicks(c))
  {
  }

  lemma AttemptIs(c: Config, gen: nat, ticks: seq<Input>, k: nat)
    requires k < |ticks| && Live(c, gen, ticks, k)
    ensures AttemptAt(c, gen, ticks, k) <==> Processed(ticks[k]) && Attempts(c, Ready(c, gen, ticks, k), ticks[k])
  {
    SilentParity(c, gen, ticks, k);
    SeesBeat(c, gen, ticks, k);
  }

  /** The trace takes in a new generation at tick k. */
  predicate Renews(c: Config, gen: nat, ticks: seq<Input>, k: nat)
    requires k < |ticks|
  {
    Live(c, gen, ticks, k) && NewGen(gen, ticks, k)
  }

  /** Where each of these happens in the trace. */
  type Marks = nat -> bool

  ghost function RenewsIn(c: Config, gen: nat, ticks: seq<Input>): Marks {
    (k: nat) => k < |ticks| && Renews(c, gen, ticks, k)
  }

  ghost function AttemptsIn(c: Config, gen: nat, ticks: seq<Input>): Marks {
    (k: nat) => k < |ticks| && AttemptAt(c, gen, ticks, k)
  }

  ghost function StableIn(c: Config, gen: nat, ticks: seq<Input>): Marks {
    (k: nat) => k < |ticks| && StableAt(c, gen, ticks, k)
  }

  // ---------------------------------------------------------------- the failure count

  lemma FailureStep(c: Config, gen: nat, ticks: seq<Input>, k: nat)
    requires k < |ticks|
    ensures At(c, gen, ticks, k + 1).failures ==
      Counted(At(c, gen, ticks, k).failures, Renews(c, gen, ticks, k), AttemptAt(c, gen, ticks, k),
              StableAt(c, gen, ticks, k))
  {
    NextTick(c, gen, ticks, k);
    if Live(c, gen, ticks, k) {
      SilentParity(c, gen, ticks, k);
      FailureTick(c, At(c, gen, ticks, k), ticks[k]);
      AttemptIs(c, gen, ticks, k);
      SeesBeat(c, gen, ticks, k);
    }
  }

  ghost function FailureTrace(c: Config, gen: nat, ticks: seq<Input>): nat -> nat {
    (k: nat) => if k <= |ticks| then At(c, gen, ticks, k).failures else 0
  }

  lemma FailuresAreCounted(c: Config, gen: nat, ticks: seq<Input>)
    ensures Counts(FailureTrace(c, gen, ticks), RenewsIn(c, gen, ticks), AttemptsIn(c, gen, ticks),
                   StableIn(c, gen, ticks), |ticks|)
  {
    forall j: nat | j < |ticks|
      ensures FailureTrace(c, gen, ticks)(j + 1) ==
        Counted(FailureTrace(c, gen, ticks)(j), RenewsIn(c, gen, ticks)(j), AttemptsIn(c, gen, ticks)(j),
                StableIn(c, gen, ticks)(j))
    {
      FailureStep(c, gen, ticks, j);
    }
  }

  /**
   * In every trace the failure count is exactly the number of attempts since it was last cleared: at the start, by a
   * new generation, or by a healthy stretch.
   */
  lemma FailuresCountAttempts(c: Config, gen: nat, ticks: seq<Input>, k: nat) returns (r: nat)
    requires k <= |ticks|
    ensures ClearedAt(RenewsIn(c, gen, ticks), StableIn(c, gen, ticks), r, k)
    ensures At(c, gen, ticks, k).failures == CountTrue(AttemptsIn(c, gen, ticks), r, k)
  {
    FailuresAreCounted(c, gen, ticks);
    r := CountSince(FailureTrace(c, gen, ticks), RenewsIn(c, gen, ticks), AttemptsIn(c, gen, ticks),
                    StableIn(c, gen, ticks), |ticks|, k);
  }

  // ---------------------------------------------------------------- silence

  /** A tick that ends the count of quiet ticks: it sees a beat or completes a silent window. */
  predicate EndsQuiet(c: Config, gen: nat, ticks: seq<Input>, k: nat)
    requires k < |ticks|
  {
    (Live(c, gen, ticks, k) && BeatAt(gen, ticks, k)) || FiresAt(c, gen, ticks, k)
  }

  ghost function QuietEndsIn(c: Config, gen: nat, ticks: seq<Input>): Marks {
    (k: nat) => k < |ticks| && EndsQuiet(c, gen, ticks, k)
  }

  ghost function ProcessedIn(c: Config, gen: nat, ticks: seq<Input>): Marks {
    (k: nat) => k < |ticks| && Live(c, gen, ticks, k) && Processed(ticks[k])
  }

  ghost function QuietTrace(c: Config, gen: nat, ticks: seq<Input>): nat -> nat {
    (k: nat) => if k <= |ticks| then At(c, gen, ticks, k).quietTicks else 0
  }

  lemma QuietTickIs(c: Config, w: Watch, i: Input)
    ensures Tick(c, w, i).quietTicks ==
      Counted(w.quietTicks, i.gen != w.lastGen, Processed(i),
              Processed(i) && (Beat(Renewed(w, i), i) || SilenceFires(c, Renewed(w, i), i)))
  {
  }

  lemma QuietIsCounted(c: Config, gen: nat, ticks: seq<Input>)
    ensures Counts(QuietTrace(c, gen, ticks), RenewsIn(c, gen, ticks), ProcessedIn(c, gen, ticks),
                   QuietEndsIn(c, gen, ticks), |ticks|)
  {
    forall j: nat | j < |ticks|
      ensures QuietTrace(c, gen, ticks)(j + 1) ==
        Counted(QuietTrace(c, gen, ticks)(j), RenewsIn(c, gen, ticks)(j), ProcessedIn(c, gen, ticks)(j),
                QuietEndsIn(c, gen, ticks)(j))
    {
      NextTick(c, gen, ticks, j);
      if Live(c, gen, ticks, j) {
        QuietTickIs(c, At(c, gen, ticks, j), ticks[j]);
        SeesBeat(c, gen, ticks, j);
      }
    }
  }

  /**
   * A silent window ends at tick k exactly when the tick is processed, sees no beat, and with it the processed ticks
   * since the last beat, window or generation reach the window that the attempts since the last clear allow.
   */
  lemma FiresExactly(c: Config, gen: nat, ticks: seq<Input>, k: nat) returns (q: nat, r: nat)
    requires k < |ticks| && Live(c, gen, ticks, k) && !NewGen(gen, ticks, k)
    ensures ClearedAt(RenewsIn(c, gen, ticks), QuietEndsIn(c, gen, ticks), q, k)
    ensures ClearedAt(RenewsIn(c, gen, ticks), StableIn(c, gen, ticks), r, k)
    ensures FiresAt(c, gen, ticks, k) <==>
      && Processed(ticks[k]) && !BeatAt(gen, ticks, k)
      && CountTrue(ProcessedIn(c, gen, ticks), q, k) + 1 >=
           AllowedTicks(c.base, CountTrue(AttemptsIn(c, gen, ticks), r, k), c.cycle)
  {
    QuietIsCounted(c, gen, ticks);
    q := CountSince(QuietTrace(c, gen, ticks), RenewsIn(c, gen, ticks), ProcessedIn(c, gen, ticks),
                    QuietEndsIn(c, gen, ticks), |ticks|, k);
    r := FailuresCountAttempts(c, gen, ticks, k);
    SeesBeat(c, gen, ticks, k);
  }

  // ---------------------------------------------------------------- backing off

  /** These ticks come one after another, each is counted, and nothing is cleared from the first to the last. */
  ghost predicate InARow(before: Marks, inc: Marks, after: Marks, ts: seq<nat>) {
    && (forall i | 0 <= i < |ts| - 1 :: ts[i] < ts[i + 1])
    && (forall i | 0 <= i < |ts| :: inc(ts[i]))
    && (|ts| > 0 ==> forall j: nat | ts[0] <= j <= ts[|ts| - 1] :: !before(j) && !after(j))
  }

  lemma {:induction false} OnlyGrows(q: nat -> nat, before: Marks, inc: Marks, after: Marks, n: nat, lo: nat, hi: nat)
    requires Counts(q, before, inc, after, n) && lo <= hi <= n
    requires forall j: nat | lo <= j < hi :: !before(j) && !after(j)
    ensures q(lo) <= q(hi)
    decreases hi
  {
    if lo < hi {
      OnlyGrows(q, before, inc, after, n, lo, hi - 1);
      assert q(hi - 1 + 1) == Counted(q(hi - 1), before(hi - 1), inc(hi - 1), after(hi - 1));
    }
  }

  lemma {:induction false} RowCounts(q: nat -> nat, before: Marks, inc: Marks, after: Marks, n: nat, ts: seq<nat>)
    requires Counts(q, before, inc, after, n) && InARow(before, inc, after, ts) && ts != [] && ts[|ts| - 1] < n
    ensures q(ts[|ts| - 1]) + 1 >= |ts| && ts[0] <= ts[|ts| - 1]
    decreases |ts|
  {
    if |ts| > 1 {
      var front := ts[..|ts| - 1];
      var a, b := ts[|ts| - 2], ts[|ts| - 1];
      assert front[|front| - 1] == a && ts[|ts| - 2] < ts[|ts| - 2 + 1];
      RowCounts(q, before, inc, after, n, front);
      assert q(a + 1) == Counted(q(a), before(a), inc(a), after(a));
      OnlyGrows(q, before, inc, after, n, a + 1, b);
    }
  }

  /**
   * When silent windows keep failing, the one after n of them comes no sooner than the window n failures allow:
   * the attempts back off.
   */
  lemma WindowsBackOff(c: Config, gen: nat, ticks: seq<Input>, ts: seq<nat>, a: nat, b: nat)
    requires InARow(RenewsIn(c, gen, ticks), AttemptsIn(c, gen, ticks), StableIn(c, gen, ticks), ts + [a, b])
    requires a < b < |ticks| && FiresAt(c, gen, ticks, a) && FiresAt(c, gen, ticks, b)
    requires 0 < c.base < TWO57 && c.cycle > 0
    ensures CountProcessed(ticks[a + 1..b + 1]) >= AllowedTicks(c.base, |ts| + 1, c.cycle)
  {
    var f := FailuresInRow(c, gen, ticks, ts + [a, b]);
    ApartByFailures(c, gen, ticks, a, b, f);
    WindowMonotone(c.base, |ts| + 1, f, c.cycle);
  }

  lemma FailuresInRow(c: Config, gen: nat, ticks: seq<Input>, ts: seq<nat>) returns (f: nat)
    requires InARow(RenewsIn(c, gen, ticks), AttemptsIn(c, gen, ticks), StableIn(c, gen, ticks), ts) && ts != []
    requires ts[|ts| - 1] < |ticks|
    ensures f == At(c, gen, ticks, ts[|ts| - 1]).failures >= |ts| - 1 && !Renews(c, gen, ticks, ts[|ts| - 1])
  {
    var before, inc, after := RenewsIn(c, gen, ticks), AttemptsIn(c, gen, ticks), StableIn(c, gen, ticks);
    FailuresAreCounted(c, gen, ticks);
    RowCounts(FailureTrace(c, gen, ticks), before, inc, after, |ticks|, ts);
    f := FailureTrace(c, gen, ticks)(ts[|ts| - 1]);
    assert !before(ts[|ts| - 1]);
  }

  lemma ApartByFailures(c: Config, gen: nat, ticks: seq<Input>, a: nat, b: nat, f: nat)
    requires a < b < |ticks| && FiresAt(c, gen, ticks, a) && FiresAt(c, gen, ticks, b) && !Renews(c, gen, ticks, b)
    requires f == At(c, gen, ticks, b).failures
    ensures CountProcessed(ticks[a + 1..b + 1]) >= AllowedTicks(c.base, f, c.cycle)
  {
    SilenceAttemptsApart(c, gen, ticks, a, b);
    SeesBeat(c, gen, ticks, b);
  }

  // ---------------------------------------------------------------- silence is noticed

  /** From processed tick a up to tick b the beat count and the generation stand still. */
  predicate Frozen(ticks: seq<Input>, a: nat, b: nat)
    requires a < b <= |ticks|
  {
    && Processed(ticks[a])
    && forall j | a <= j < b :: ticks[j].gen == ticks[a].gen && ticks[j].beats == ticks[a].beats
  }

  /** What a running detector knows in such a stretch, as long as no window ends in it. */
  ghost predicate Waiting(c: Config, gen: nat, ticks: seq<Input>, a: nat, k: nat)
    requires a < k <= |ticks|
  {
    var w, w0 := At(c, gen, ticks, k), At(c, gen, ticks, a + 1);
    && w.lastGen == ticks[a].gen && w.lastBeats == ticks[a].beats && w.failures == w0.failures
    && w.quietTicks >= CountProcessed(ticks[a + 1..k])
  }

  lemma QuietTickWaits(c: Config, w: Watch, i: Input)
    requires i.gen == w.lastGen && i.beats == w.lastBeats && !(Processed(i) && SilenceFires(c, w, i))
    ensures
      var u := Tick(c, w, i);
      && u.lastGen == w.lastGen && u.lastBeats == w.lastBeats && u.failures == w.failures
      && u.quietTicks == w.quietTicks + if Processed(i) then 1 else 0
  {
  }

  lemma WaitingStart(c: Config, gen: nat, ticks: seq<Input>, a: nat)
    requires a < |ticks| && Processed(ticks[a]) && Live(c, gen, ticks, a + 1)
    ensures Waiting(c, gen, ticks, a, a + 1)
  {
    LiveBefore(c, gen, ticks, a, a + 1);
    NextTick(c, gen, ticks, a);
    TickSees(c, At(c, gen, ticks, a), ticks[a]);
  }

  lemma WaitingNext(c: Config, gen: nat, ticks: seq<Input>, a: nat, k: nat)
    requires a < k < |ticks| && Waiting(c, gen, ticks, a, k) && Live(c, gen, ticks, k) && !FiresAt(c, gen, ticks, k)
    requires ticks[k].gen == ticks[a].gen && ticks[k].beats == ticks[a].beats
    ensures Waiting(c, gen, ticks, a, k + 1)
  {
    NextTick(c, gen, ticks, k);
    QuietTickWaits(c, At(c, gen, ticks, k), ticks[k]);
    CountSnoc(ticks, a + 1, k);
  }

  lemma {:induction false} WaitingOn(c: Config, gen: nat, ticks: seq<Input>, a: nat, k: nat)
    requires a < k <= |ticks| && Frozen(ticks, a, k) && Live(c, gen, ticks, k)
    requires forall j | a < j < k :: !FiresAt(c, gen, ticks, j)
    ensures Waiting(c, gen, ticks, a, k)
    decreases k
  {
    if k == a + 1 {
      WaitingStart(c, gen, ticks, a);
    } else {
      LiveBefore(c, gen, ticks, k - 1, k);
      WaitingOn(c, gen, ticks, a, k - 1);
      WaitingNext(c, gen, ticks, a, k - 1);
    }
  }

  /** The first tick at which the processed ticks after a reach n. */
  lemma {:induction false} ReachesCount(ticks: seq<Input>, a: nat, b: nat, n: nat) returns (k: nat)
    requires a < b <= |ticks| && 0 < n <= CountProcessed(ticks[a + 1..b])
    ensures a < k < b && Processed(ticks[k]) && CountProcessed(ticks[a + 1..k]) + 1 == n
    decreases b
  {
    assert b > a + 1;
    CountSnoc(ticks, a + 1, b - 1);
    if CountProcessed(ticks[a + 1..b - 1]) >= n {
      k := ReachesCount(ticks, a, b - 1, n);
    } else {
      k := b - 1;
    }
  }

  /** As many processed ticks without a beat as the window allows always end in an action, unless one came before. */
  lemma SilenceAlwaysFires(c: Config, gen: nat, ticks: seq<Input>, a: nat, b: nat) returns (k: nat)
    requires a < b <= |ticks| && Frozen(ticks, a, b) && Live(c, gen, ticks, b)
    requires 0 < AllowedTicks(c.base, At(c, gen, ticks, a + 1).failures, c.cycle) <= CountProcessed(ticks[a + 1..b])
    ensures a < k < b && FiresAt(c, gen, ticks, k)
  {
    k := ReachesCount(ticks, a, b, AllowedTicks(c.base, At(c, gen, ticks, a + 1).failures, c.cycle));
    LiveBefore(c, gen, ticks, k, b);
    if j :| a < j < k && FiresAt(c, gen, ticks, j) {
      k := j;
    } else {
      WaitingOn(c, gen, ticks, a, k);
    }
  }

  // ---------------------------------------------------------------- gaps

  /** A tick that ends the count of gap ticks: nothing is missing, or what is missing is recovered. */
  predicate EndsGap(c: Config, gen: nat, ticks: seq<Input>, k: nat)
    requires k < |ticks|
  {
    (Live(c, gen, ticks, k) && Processed(ticks[k]) && !Gap(ticks[k])) || GapFiresAt(c, gen, ticks, k)
  }

  ghost function GapEndsIn(c: Config, gen: nat, ticks: seq<Input>): Marks {
    (k: nat) => k < |ticks| && EndsGap(c, gen, ticks, k)
  }

  ghost function GapTrace(c: Config, gen: nat, ticks: seq<Input>): nat -> nat {
    (k: nat) => if k <= |ticks| then At(c, gen, ticks, k).gapTicks else 0
  }

  ghost function Never(): Marks {
    (k: nat) => false
  }

  lemma GapTickIs(c: Config, w: Watch, i: Input)
    ensures Tick(c, w, i).gapTicks ==
      Counted(w.gapTicks, false, Processed(i), Processed(i) && (!Gap(i) || GapFires(c, Renewed(w, i), i)))
  {
  }

  lemma GapIsCounted(c: Config, gen: nat, ticks: seq<Input>)
    ensures Counts(GapTrace(c, gen, ticks), Never(), ProcessedIn(c, gen, ticks), GapEndsIn(c, gen, ticks), |ticks|)
  {
    forall j: nat | j < |ticks|
      ensures GapTrace(c, gen, ticks)(j + 1) ==
        Counted(GapTrace(c, gen, ticks)(j), Never()(j), ProcessedIn(c, gen, ticks)(j), GapEndsIn(c, gen, ticks)(j))
    {
      NextTick(c, gen, ticks, j);
      if Live(c, gen, ticks, j) {
        GapTickIs(c, At(c, gen, ticks, j), ticks[j]);
      }
    }
  }

  /**
   * Missing subscriptions are recovered at tick k exactly when the tick is processed, still finds some missing, sees a
   * beat, and with it the processed ticks since nothing was missing or the last such recovery reach the window.
   */
  lemma GapFiresExactly(c: Config, gen: nat, ticks: seq<Input>, k: nat) returns (g: nat, r: nat)
    requires k < |ticks| && Live(c, gen, ticks, k) && !NewGen(gen, ticks, k)
    ensures ClearedAt(Never(), GapEndsIn(c, gen, ticks), g, k)
    ensures ClearedAt(RenewsIn(c, gen, ticks), StableIn(c, gen, ticks), r, k)
    ensures GapFiresAt(c, gen, ticks, k) <==>
      && Processed(ticks[k]) && Gap(ticks[k]) && BeatAt(gen, ticks, k)
      && CountTrue(ProcessedIn(c, gen, ticks), g, k) + 1 >=
           AllowedTicks(c.base, CountTrue(AttemptsIn(c, gen, ticks), r, k), c.cycle)
  {
    GapIsCounted(c, gen, ticks);
    g := CountSince(GapTrace(c, gen, ticks), Never(), ProcessedIn(c, gen, ticks), GapEndsIn(c, gen, ticks), |ticks|, k);
    r := FailuresCountAttempts(c, gen, ticks, k);
    SeesBeat(c, gen, ticks, k);
  }

  // ---------------------------------------------------------------- health

  /** A processed tick with a beat and nothing missing. */
  predicate HealthyAt(c: Config, gen: nat, ticks: seq<Input>, k: nat)
    requires k < |ticks|
  {
    Live(c, gen, ticks, k) && BeatAt(gen, ticks, k) && !Gap(ticks[k])
  }

  ghost function HealthyIn(c: Config, gen: nat, ticks: seq<Input>): Marks {
    (k: nat) => k < |ticks| && HealthyAt(c, gen, ticks, k)
  }

  /** A processed tick that is not. */
  ghost function UnhealthyIn(c: Config, gen: nat, ticks: seq<Input>): Marks {
    (k: nat) => k < |ticks| && Live(c, gen, ticks, k) && Processed(ticks[k]) && !HealthyAt(c, gen, ticks, k)
  }

  ghost function HealthTrace(c: Config, gen: nat, ticks: seq<Input>): nat -> nat {
    (k: nat) => if k <= |ticks| then At(c, gen, ticks, k).healthy else 0
  }

  lemma HealthTickIs(c: Config, w: Watch, i: Input)
    requires 2 <= c.base < TWO57 && c.cycle > 0 && GapUnhealthy(w)
    ensures
      var fine := Processed(i) && Beat(Renewed(w, i), i) && !Gap(i);
      Tick(c, w, i).healthy == Counted(w.healthy, i.gen != w.lastGen, fine, Processed(i) && !fine)
  {
    WindowBounds(c.base, Renewed(w, i).failures, c.cycle);
  }

  lemma HealthIsCounted(c: Config, gen: nat, ticks: seq<Input>)
    requires 2 <= c.base < TWO57 && c.cycle > 0
    ensures Counts(HealthTrace(c, gen, ticks), RenewsIn(c, gen, ticks), HealthyIn(c, gen, ticks),
                   UnhealthyIn(c, gen, ticks), |ticks|)
  {
    forall j: nat | j < |ticks|
      ensures HealthTrace(c, gen, ticks)(j + 1) ==
        Counted(HealthTrace(c, gen, ticks)(j), RenewsIn(c, gen, ticks)(j), HealthyIn(c, gen, ticks)(j),
                UnhealthyIn(c, gen, ticks)(j))
    {
      NextTick(c, gen, ticks, j);
      HealthyIsStreak(c, gen, ticks[..j]);
      if Live(c, gen, ticks, j) {
        HealthTickIs(c, At(c, gen, ticks, j), ticks[j]);
        SeesBeat(c, gen, ticks, j);
      }
    }
  }

  /**
   * The failures are forgotten at tick k exactly when it is healthy and ends a row of 2 * base healthy ticks since
   * the last processed tick that was not, or the last generation.
   */
  lemma StableExactly(c: Config, gen: nat, ticks: seq<Input>, k: nat) returns (r: nat)
    requires k < |ticks| && Live(c, gen, ticks, k) && !NewGen(gen, ticks, k)
    requires 2 <= c.base < TWO57 && c.cycle > 0
    ensures ClearedAt(RenewsIn(c, gen, ticks), UnhealthyIn(c, gen, ticks), r, k)
    ensures StableAt(c, gen, ticks, k) <==>
      HealthyAt(c, gen, ticks, k) && CountTrue(HealthyIn(c, gen, ticks), r, k) + 1 >= 2 * c.base
  {
    HealthIsCounted(c, gen, ticks);
    r := CountSince(HealthTrace(c, gen, ticks), RenewsIn(c, gen, ticks), HealthyIn(c, gen, ticks),
                    UnhealthyIn(c, gen, ticks), |ticks|, k);
    SeesBeat(c, gen, ticks, k);
  }

  // ---------------------------------------------------------------- giving the transport up

  /** A silent window that could not be helped: no beat is registered, or the recovery failed. */
  predicate EscalatesAt(c: Config, gen: nat, ticks: seq<Input>, k: nat)
    requires k < |ticks|
  {
    || (FiresAt(c, gen, ticks, k) && !ticks[k].beatRegistered)
    || (RecoversAt(c, gen, ticks, k) && ticks[k].outcome == RecoveryFailed)
  }

  /** The frame count at the last such window before tick k, or zero. */
  function FramesThen(c: Config, gen: nat, ticks: seq<Input>, k: nat): nat
    requires k <= |ticks|
  {
    if k == 0 then 0
    else if EscalatesAt(c, gen, ticks, k - 1) then ticks[k - 1].frames
    else FramesThen(c, gen, ticks, k - 1)
  }

  /** Such a window, and no frame has arrived since the one before. */
  predicate FramelessAt(c: Config, gen: nat, ticks: seq<Input>, k: nat)
    requires k < |ticks|
  {
    EscalatesAt(c, gen, ticks, k) && ticks[k].frames == FramesThen(c, gen, ticks, k)
  }

  /** The last such window before tick k was frameless too. */
  predicate FramelessBefore(c: Config, gen: nat, ticks: seq<Input>, k: nat)
    requires k <= |ticks|
  {
    k > 0 && (if EscalatesAt(c, gen, ticks, k - 1) then FramelessAt(c, gen, ticks, k - 1)
              else FramelessBefore(c, gen, ticks, k - 1))
  }

  /** The detector's own view of such a window. */
  predicate Escalates(c: Config, w: Watch, i: Input) {
    && !GapFires(c, w, i) && SilenceFires(c, w, i)
    && (!i.beatRegistered
        || ((c.mode == Immediate || (c.mode == Confirm && w.silentWindows == 1)) && i.outcome.RecoveryFailed?))
  }

  lemma EscalateTick(c: Config, w: Watch, i: Input)
    requires w.silentWindows < 2 && !w.stopped && w.frameless < 2
    ensures
      var up := Processed(i) && Escalates(c, Renewed(w, i), i);
      var same := i.frames == w.framesAtWindow;
      var u := Tick(c, w, i);
      && u.framesAtWindow == (if up then i.frames else w.framesAtWindow)
      && u.frameless == (if !up then w.frameless else if same then w.frameless + 1 else 0)
      && u.stopped == (up && same && w.frameless == 1)
  {
  }

  lemma EscalateIs(c: Config, gen: nat, ticks: seq<Input>, k: nat)
    requires k < |ticks| && Live(c, gen, ticks, k)
    ensures EscalatesAt(c, gen, ticks, k) <==> Processed(ticks[k]) && Escalates(c, Ready(c, gen, ticks, k), ticks[k])
  {
    SilentParity(c, gen, ticks, k);
    SeesBeat(c, gen, ticks, k);
  }

  lemma {:induction false} FramesRemembered(c: Config, gen: nat, ticks: seq<Input>, k: nat)
    requires k <= |ticks| && Live(c, gen, ticks, k)
    ensures At(c, gen, ticks, k).framesAtWindow == FramesThen(c, gen, ticks, k)
    ensures At(c, gen, ticks, k).frameless == if FramelessBefore(c, gen, ticks, k) then 1 else 0
  {
    if k > 0 {
      LiveBefore(c, gen, ticks, k - 1, k);
      FramesRemembered(c, gen, ticks, k - 1);
      SilentParity(c, gen, ticks, k - 1);
      NextTick(c, gen, ticks, k - 1);
      EscalateIs(c, gen, ticks, k - 1);
      EscalateTick(c, At(c, gen, ticks, k - 1), ticks[k - 1]);
    }
  }

  /**
   * The detector hands over to a reconnect at tick k exactly when a second silent window in a row could not be helped
   * and no frame has arrived since the one before it, as at that one.
   */
  lemma HandsOverExactly(c: Config, gen: nat, ticks: seq<Input>, k: nat)
    requires k < |ticks| && Live(c, gen, ticks, k)
    ensures !Live(c, gen, ticks, k + 1) <==> FramelessAt(c, gen, ticks, k) && FramelessBefore(c, gen, ticks, k)
  {
    FramesRemembered(c, gen, ticks, k);
    SilentParity(c, gen, ticks, k);
    NextTick(c, gen, ticks, k);
    EscalateIs(c, gen, ticks, k);
    EscalateTick(c, At(c, gen, ticks, k), ticks[k]);
  }
}
