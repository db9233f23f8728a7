/**
 When exactly a scheduled orphan delete can hit a live subscription: just when some open
 subscribe has still to commit the handle it was scheduled for.
 */
module OrphanReaper {

  import opened Basics
  import opened EarlySamples
  import opened SubscribeRace
  import opened SubscribeRaceProofs

  /** es runs from s to s'. */
  ghost predicate Leads(s: State, es: seq<Event>, s': State) {
    Exec(s, es) == Some(s')
  }

  lemma {:induction false} LeadsOn(s: State, es: seq<Event>, m: State, fs: seq<Event>, s': State)
    requires Leads(s, es, m) && Leads(m, fs, s')
    ensures Leads(s, es + fs, s')
    decreases |es|
  {
    if es == [] {
      assert es + fs == fs;
    } else {
      assert (es + fs)[0] == es[0] && (es + fs)[1..] == es[1..] + fs;
      LeadsOn(Step(s, es[0]), es[1..], m, fs, s');
    }
  }

  ghost predicate Reached(s: State) {
    exists foreign, run :: Exec(Init(foreign), run) == Some(s)
  }

  /** A run can be extended by one enabled event. */
  lemma Extend(s: State, es: seq<Event>, m: State, e: Event)
    requires Leads(s, es, m) && Reached(m) && Enabled(m, e)
    ensures Leads(s, es + [e], Step(m, e)) && Reached(Step(m, e))
  {
    assert [e][1..] == [] && Exec(Step(m, e), []) == Some(Step(m, e));
    LeadsOn(s, es, m, [e], Step(m, e));
    var foreign, run :| Exec(Init(foreign), run) == Some(m);
    LeadsOn(Init(foreign), run, m, [e], Step(m, e));
  }

  lemma ReachedInv(s: State)
    requires Reached(s)
    ensures Inv(s)
  {
    var foreign, run :| Exec(Init(foreign), run) == Some(s);
    Reachable(foreign, run);
  }

  lemma FlightKnown(s: State, id: nat)
    requires Reached(s) && id in s.mem.flight
    ensures id < |s.mem.arrivals|
  {
    ReachedInv(s);
  }

  lemma UncommittedOpen(s: State, tok: Token, h: Handle)
    requires Reached(s) && tok in s.reg.subs && h in s.reg.subs[tok].uncommitted
    ensures h !in s.reg.bound && !s.reg.subs[tok].closing
  {
    ReachedInv(s);
    assert OwnedBy(s.reg, tok);
  }

  /** Same subscriptions and same jobs: only samples and replay progress moved. */
  ghost predicate SameRegJobs(s: State, s': State) {
    s'.reg == s.reg && s'.jobs == s.jobs
  }

  ghost function FlightsOf(m: Samples, t: Thread): set<nat> {
    set id | id in m.flight && m.flight[id].thread == t
  }

  /** A goroutine can dispatch one of its taken samples to the end. */
  lemma LandOne(s: State, id: nat) returns (es: seq<Event>, s': State)
    requires Reached(s) && id in s.mem.flight
    ensures Leads(s, es, s') && Reached(s') && SameRegJobs(s, s') && s'.replays == s.replays
    ensures s'.mem.flight == s.mem.flight - {id}
  {
    FlightKnown(s, id);
    if s.mem.flight[id].found {
      s' := LandFound(s, id);
      return [AcceptReplay(id)], s';
    }
    var e := Redispatch(id, false);
    assert Exec(s, []) == Some(s);
    Extend(s, [], s, e);
    es, s' := [e], Step(s, e);
    if id in s'.mem.flight {
      var m := s';
      s' := LandFound(m, id);
      LeadsOn(s, es, m, [AcceptReplay(id)], s');
      es := es + [AcceptReplay(id)];
    }
  }

  lemma LandFound(s: State, id: nat) returns (s': State)
    requires Reached(s) && id in s.mem.flight && s.mem.flight[id].found
    ensures Leads(s, [AcceptReplay(id)], s') && Reached(s') && SameRegJobs(s, s') && s'.replays == s.replays
    ensures s'.mem.flight == s.mem.flight - {id}
  {
    FlightKnown(s, id);
    assert Exec(s, []) == Some(s);
    Extend(s, [], s, AcceptReplay(id));
    assert [] + [AcceptReplay(id)] == [AcceptReplay(id)];
    s' := Step(s, AcceptReplay(id));
  }

  lemma LandAll(s: State, t: Thread) returns (es: seq<Event>, s': State)
    requires Reached(s)
    ensures Leads(s, es, s') && Reached(s') && SameRegJobs(s, s') && s'.replays == s.replays
    ensures !HasFlight(s'.mem, t)
    decreases |FlightsOf(s.mem, t)|
  {
    if !HasFlight(s.mem, t) {
      return [], s;
    }
    var id :| id in s.mem.flight && s.mem.flight[id].thread == t;
    var es0, m := LandOne(s, id);
    assert FlightsOf(m.mem, t) == FlightsOf(s.mem, t) - {id};
    var es1, s1 := LandAll(m, t);
    LeadsOn(s, es0, m, es1, s1);
    return es0 + es1, s1;
  }

  /** A goroutine inside a replay can finish it without touching subscriptions or jobs. */
  lemma FinishReplay(s: State, t: Thread) returns (es: seq<Event>, s': State)
    requires Reached(s)
    ensures Leads(s, es, s') && Reached(s') && SameRegJobs(s, s') && ReplayOf(s', t) == Idle
  {
    es, s' := [], s;
    if ReplayOf(s', t).ToRead? {
      Extend(s, es, s', ReadBound(t));
      es, s' := es + [ReadBound(t)], Step(s', ReadBound(t));
    }
    if ReplayOf(s', t).ToTake? {
      Extend(s, es, s', Take(t));
      es, s' := es + [Take(t)], Step(s', Take(t));
    }
    if ReplayOf(s', t) == Dispatching {
      var es0, m := LandAll(s', t);
      LeadsOn(s, es, s', es0, m);
      Extend(s, es + es0, m, EndReplay(t));
      es, s' := es + es0 + [EndReplay(t)], Step(m, EndReplay(t));
    }
  }

  /** Same bindings and same jobs, the subscribe tok gone. */
  ghost predicate Closed(s: State, tok: Token, s': State) {
    s'.reg.bound == s.reg.bound && s'.jobs == s.jobs && s'.reg.subs == s.reg.subs - {tok}
  }

  lemma CloseOne(s: State, tok: Token) returns (es: seq<Event>, s': State)
    requires Reached(s) && tok in s.reg.subs
    ensures Leads(s, es, s') && Reached(s') && Closed(s, tok, s')
  {
    es, s' := FinishReplay(s, Subscriber(tok));
    if !s'.reg.subs[tok].closing {
      Extend(s, es, s', StartClose(tok));
      es, s' := es + [StartClose(tok)], Step(s', StartClose(tok));
      var es0, m := FinishReplay(s', Subscriber(tok));
      LeadsOn(s, es, s', es0, m);
      es, s' := es + es0, m;
    }
    Extend(s, es, s', Close(tok));
    es, s' := es + [Close(tok)], Step(s', Close(tok));
    assert s'.reg.subs == s.reg.subs - {tok};
  }

  lemma CloseAll(s: State) returns (es: seq<Event>, s': State)
    requires Reached(s)
    ensures Leads(s, es, s') && Reached(s')
    ensures s'.reg.bound == s.reg.bound && s'.jobs == s.jobs && s'.reg.subs == map[]
    decreases |s.reg.subs|
  {
    if s.reg.subs == map[] {
      return [], s;
    }
    var tok :| tok in s.reg.subs;
    var es0, m := CloseOne(s, tok);
    var es1, s1 := CloseAll(m);
    LeadsOn(s, es0, m, es1, s1);
    return es0 + es1, s1;
  }

  /** The subscribe tok commits h after the reaper has looked for it. */
  lemma CommitBehind(s: State, tok: Token, h: Handle, j: nat) returns (es: seq<Event>, s': State)
    requires Reached(s) && tok in s.reg.subs && h in s.reg.subs[tok].uncommitted
    requires AtStage(s, j, Scheduled) && s.jobs[j].h == h
    ensures Leads(s, es, s') && Reached(s') && h in s'.reg.bound && AtStage(s', j, SawUnbound) && s'.jobs[j].h == h
  {
    UncommittedOpen(s, tok, h);
    es, s' := FinishReplay(s, Subscriber(tok));
    Extend(s, es, s', CheckBound(j));
    es, s' := es + [CheckBound(j)], Step(s', CheckBound(j));
    Extend(s, es, s', Commit(tok, h));
    es, s' := es + [Commit(tok, h)], Step(s', Commit(tok, h));
  }

  lemma FireAfterClose(s: State, j: nat) returns (es: seq<Event>, s': State)
    requires Reached(s) && AtStage(s, j, SawUnbound) && s.jobs[j].h in s.reg.bound
    ensures Leads(s, es, s') && AtStage(s', j, Sent(true))
  {
    es, s' := CloseAll(s);
    Extend(s, es, s', CheckOpen(j));
    es, s' := es + [CheckOpen(j)], Step(s', CheckOpen(j));
    Extend(s, es, s', Send(j));
    es, s' := es + [Send(j)], Step(s', Send(j));
  }

  /** A job whose handle is spent never fires at a bound handle. */
  ghost predicate Harmless(r: Registry, j: Job) {
    && Spent(r, j.h)
    && (j.stage == SawUnbound || j.stage == SawNoneOpen ==> j.h !in r.bound)
    && j.stage != Sent(true)
  }

  lemma HarmlessStep(s: State, e: Event, j: nat)
    requires Enabled(s, e) && j < |s.jobs| && Harmless(s.reg, s.jobs[j])
    ensures j < |Step(s, e).jobs| && Harmless(Step(s, e).reg, Step(s, e).jobs[j])
  {
    SpentStays(s, e, s.jobs[j].h);
  }

  lemma {:induction false} HarmlessForever(s: State, es: seq<Event>, j: nat)
    requires Exec(s, es).Some? && j < |s.jobs| && Harmless(s.reg, s.jobs[j])
    ensures !AtStage(Exec(s, es).value, j, Sent(true))
    decreases |es|
  {
    if es != [] {
      HarmlessStep(s, es[0], j);
      HarmlessForever(Step(s, es[0]), es[1..], j);
    }
  }

  ghost predicate CanHitBound(s: State, j: nat) {
    exists es :: Exec(s, es).Some? && AtStage(Exec(s, es).value, j, Sent(true))
  }

  /**
   In every reachable state, a scheduled orphan delete can still be sent for a bound handle
   if and only if an open subscribe has that handle yet to commit.
   */
  lemma OrphanDeleteExactly(foreign: set<Handle>, run: seq<Event>, j: nat)
    requires Exec(Init(foreign), run).Some?
    requires AtStage(Exec(Init(foreign), run).value, j, Scheduled)
    ensures
      var s := Exec(Init(foreign), run).value;
      CanHitBound(s, j) <==> exists tok :: tok in s.reg.subs && s.jobs[j].h in s.reg.subs[tok].uncommitted
  {
    Reachable(foreign, run);
    var s := Exec(Init(foreign), run).value;
    var h := s.jobs[j].h;
    if tok :| tok in s.reg.subs && h in s.reg.subs[tok].uncommitted {
      var es0, m := CommitBehind(s, tok, h, j);
      var es1, s1 := FireAfterClose(m, j);
      LeadsOn(s, es0, m, es1, s1);
      assert Exec(s, es0 + es1).Some?;
    } else {
      assert JobSafe(s.reg, s.jobs[j]);
      forall es | Exec(s, es).Some? ensures !AtStage(Exec(s, es).value, j, Sent(true)) {
        HarmlessForever(s, es, j);
      }
    }
  }

  /**
   * A subscribe has begun, the PLC has created handle 1 for it, and a first sample was judged orphan before the
   * commit.
   */
  const TOO_EARLY: seq<Event> := [Begin, PlcCreate(0, 1), Arrive(Arrival(1, 0, [])), JudgeOrphan(1, true)]

  lemma TooEarlyRuns() returns (s: State)
    ensures Leads(Init({}), TOO_EARLY, s)
    ensures AtStage(s, 0, Scheduled) && s.jobs[0].h == 1 && 0 in s.reg.subs && 1 in s.reg.subs[0].uncommitted
  {
    var a := Step(Init({}), TOO_EARLY[0]);
    assert a.reg.subs == map[0 := Sub({}, {}, false)];
    var b := Step(a, TOO_EARLY[1]);
    var c := Step(b, TOO_EARLY[2]);
    assert ShardOf(1) == 1 && Holds(c.mem, 1) && HeldArrival(c.mem, 1).h == 1;
    s := Step(c, TOO_EARLY[3]);
    assert Exec(s, []) == Some(s);
    assert Exec(c, [TOO_EARLY[3]]) == Exec(s, []);
    assert Exec(b, [TOO_EARLY[2], TOO_EARLY[3]]) == Exec(c, [TOO_EARLY[3]]);
    assert Exec(a, [TOO_EARLY[1], TOO_EARLY[2], TOO_EARLY[3]]) == Exec(b, [TOO_EARLY[2], TOO_EARLY[3]]);
    assert TOO_EARLY[1..] == [TOO_EARLY[1], TOO_EARLY[2], TOO_EARLY[3]];
  }

  /** The failing side is not empty: some run ends with the orphan delete sent for a handle that is bound. */
  lemma OrphanDeleteCanHitBound() returns (run: seq<Event>)
    ensures Exec(Init({}), run).Some? && AtStage(Exec(Init({}), run).value, 0, Sent(true))
  {
    var s := TooEarlyRuns();
    OrphanDeleteExactly({}, TOO_EARLY, 0);
    assert CanHitBound(s, 0);
    var es :| Exec(s, es).Some? && AtStage(Exec(s, es).value, 0, Sent(true));
    LeadsOn(Init({}), TOO_EARLY, s, es, Exec(s, es).value);
    run := TOO_EARLY + es;
  }
}
