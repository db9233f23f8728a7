/** What becomes of handles, parked samples and orphan deletes over whole runs of the subscribe race. */
module SubscribeRaceFates {

  import opened Basics
  import opened Bytes
  import opened EarlySamples
  import opened SubscribeRace
  import opened SubscribeRaceProofs

  // ---------------------------------------------------------------- handles

  /** A handle that was unbound is not bound. */
  ghost predicate UnboundApart(r: Registry) {
    r.everUnbound <= r.everBound && r.everUnbound !! r.bound
  }

  lemma ApartStep(s: State, e: Event)
    requires Owned(s.reg) && UnboundApart(s.reg) && Enabled(s, e)
    ensures UnboundApart(Step(s, e).reg)
  {
    if e.Commit? {
      assert OwnedBy(s.reg, e.tok);
    }
  }

  lemma {:induction false} ApartRun(s: State, es: seq<Event>)
    requires Inv(s) && UnboundApart(s.reg) && Exec(s, es).Some?
    ensures UnboundApart(Exec(s, es).value.reg)
    decreases |es|
  {
    if es != [] {
      ApartStep(s, es[0]);
      InvStep(s, es[0]);
      ApartRun(Step(s, es[0]), es[1..]);
    }
  }

  lemma {:induction false} UnboundGrows(s: State, es: seq<Event>)
    requires Exec(s, es).Some?
    ensures s.reg.everUnbound <= Exec(s, es).value.reg.everUnbound
    decreases |es|
  {
    if es != [] {
      HistoryGrows(s, es[0]);
      UnboundGrows(Step(s, es[0]), es[1..]);
    }
  }

  lemma ReachableApart(foreign: set<Handle>, es: seq<Event>)
    requires Exec(Init(foreign), es).Some?
    ensures Inv(Exec(Init(foreign), es).value) && UnboundApart(Exec(Init(foreign), es).value.reg)
  {
    Reachable(foreign, es);
    ApartRun(Init(foreign), es);
  }

  lemma NeverBoundAgain(s: State, es: seq<Event>, h: Handle)
    requires Inv(s) && UnboundApart(s.reg) && Exec(s, es).Some? && h in s.reg.everUnbound
    ensures h !in Exec(s, es).value.reg.bound
  {
    ApartRun(s, es);
    UnboundGrows(s, es);
  }

  /** A delete or a sweep unbinds exactly the handles it names, and none of them is ever bound again. */
  lemma UnboundForGood(foreign: set<Handle>, es: seq<Event>, hs: set<Handle>, h: Handle, later: seq<Event>)
    requires Exec(Init(foreign), es).Some?
    requires Exec(Step(Exec(Init(foreign), es).value, Unbind(hs)), later).Some?
    ensures
      var s := Exec(Init(foreign), es).value;
      && (h in Step(s, Unbind(hs)).reg.bound <==> h in s.reg.bound && h !in hs)
      && (h in s.reg.bound && h in hs ==> h !in Exec(Step(s, Unbind(hs)), later).value.reg.bound)
  {
    var s := Exec(Init(foreign), es).value;
    ReachableApart(foreign, es);
    ApartStep(s, Unbind(hs));
    InvStep(s, Unbind(hs));
    if h in s.reg.bound && h in hs {
      NeverBoundAgain(Step(s, Unbind(hs)), later, h);
    }
  }

  lemma {:induction false} SpentForever(s: State, es: seq<Event>, h: Handle)
    requires Exec(s, es).Some? && Spent(s.reg, h) && h !in s.reg.bound
    ensures h !in Exec(s, es).value.reg.bound
    decreases |es|
  {
    if es != [] {
      SpentStays(s, es[0], h);
      SpentForever(Step(s, es[0]), es[1..], h);
    }
  }

  /** A handle whose commit was refused is never bound. */
  lemma RefusedNeverBound(foreign: set<Handle>, es: seq<Event>, tok: Token, h: Handle, later: seq<Event>)
    requires Exec(Init(foreign), es).Some? && Enabled(Exec(Init(foreign), es).value, Refuse(tok, h))
    requires Exec(Step(Exec(Init(foreign), es).value, Refuse(tok, h)), later).Some?
    ensures h !in Exec(Step(Exec(Init(foreign), es).value, Refuse(tok, h)), later).value.reg.bound
  {
    var s := Exec(Init(foreign), es).value;
    var s1 := Step(s, Refuse(tok, h));
    Reachable(foreign, es);
    assert OwnedBy(s.reg, tok);
    forall k | k in s1.reg.subs ensures h !in s1.reg.subs[k].uncommitted {
      assert OwnedBy(s.reg, k);
    }
    SpentForever(s1, later, h);
  }

  /** A committed handle is bound until a delete or a sweep names it. */
  lemma {:induction false} BoundUntilUnbound(s: State, es: seq<Event>, h: Handle)
    requires Exec(s, es).Some? && h in s.reg.bound && forall e | e in es :: e.Unbind? ==> h !in e.hs
    ensures h in Exec(s, es).value.reg.bound
    decreases |es|
  {
    if es != [] {
      assert es[0] in es;
      StaysBound(s, es[0], h);
      BoundUntilUnbound(Step(s, es[0]), es[1..], h);
    }
  }

  lemma StaysBound(s: State, e: Event, h: Handle)
    requires Enabled(s, e) && h in s.reg.bound && (e.Unbind? ==> h !in e.hs)
    ensures h in Step(s, e).reg.bound
  {
  }

  lemma CommitBinds(s: State, tok: Token, h: Handle, es: seq<Event>)
    requires Enabled(s, Commit(tok, h)) && Exec(Step(s, Commit(tok, h)), es).Some?
    requires forall e | e in es :: e.Unbind? ==> h !in e.hs
    ensures h in Exec(Step(s, Commit(tok, h)), es).value.reg.bound
  {
    BoundUntilUnbound(Step(s, Commit(tok, h)), es, h);
  }

  // ---------------------------------------------------------------- the buffer

  lemma NoNewSample(s: State, e: Event)
    requires Enabled(s, e) && !e.Park? && s.mem.early == Empty
    ensures Step(s, e).mem.early == Empty
  {
    if e.Take? {
      var hs := ReplayOf(s, e.t).hs;
      assert Under(Empty.samples, hs) == map[] && Empty.samples - hs == map[];
    }
  }

  lemma {:induction false} EmptyUntilParked(s: State, es: seq<Event>)
    requires Exec(s, es).Some? && s.mem.early == Empty && forall e | e in es :: !e.Park?
    ensures Exec(s, es).value.mem.early == Empty
    decreases |es|
  {
    if es != [] {
      assert es[0] in es;
      NoNewSample(s, es[0]);
      EmptyUntilParked(Step(s, es[0]), es[1..]);
    }
  }

  /** The close of the last open subscribe discards what is parked, so nothing older is ever replayed after it. */
  lemma LastCloseDiscards(s: State, tok: Token, es: seq<Event>)
    requires Enabled(s, Close(tok)) && Exec(Step(s, Close(tok)), es).Some? && forall e | e in es :: !e.Park?
    ensures s.reg.subs.Keys == {tok} ==> Exec(Step(s, Close(tok)), es).value.mem.early == Empty
    ensures s.reg.subs.Keys != {tok} ==> Step(s, Close(tok)).mem == s.mem
  {
    if s.reg.subs.Keys == {tok} {
      assert s.reg.subs - {tok} == map[];
      EmptyUntilParked(Step(s, Close(tok)), es);
    } else {
      var other :| other in s.reg.subs && other != tok;
      assert other in s.reg.subs - {tok};
    }
  }

  // ---------------------------------------------------------------- orphan deletes

  /** The state after the first k events. */
  ghost function After(s: State, es: seq<Event>, k: nat): State
    requires Exec(s, es).Some? && k <= |es|
    decreases k
  {
    if k == 0 then s else After(Step(s, es[0]), es[1..], k - 1)
  }

  lemma StageMoves(s: State, e: Event, j: nat)
    requires Enabled(s, e) && j < |s.jobs|
    ensures j < |Step(s, e).jobs| && Step(s, e).jobs[j].h == s.jobs[j].h
    ensures Step(s, e).jobs[j].stage == s.jobs[j].stage || e == CheckBound(j) || e == CheckOpen(j) || e == Send(j)
  {
  }

  /** A scheduled delete that is sent found its handle unbound at its first check. */
  lemma {:induction false} SentAfterUnbound(s: State, es: seq<Event>, j: nat) returns (k: nat)
    requires Exec(s, es).Some? && AtStage(s, j, Scheduled)
    requires j < |Exec(s, es).value.jobs| && Exec(s, es).value.jobs[j].stage.Sent?
    ensures k <= |es| && s.jobs[j].h !in After(s, es, k).reg.bound
    decreases |es|
  {
    StageMoves(s, es[0], j);
    if es[0] == CheckBound(j) && s.jobs[j].h !in s.reg.bound {
      k := 0;
    } else {
      if es[0] == CheckBound(j) {
        AbortedStays(Step(s, es[0]), es[1..], j);
      }
      k := SentAfterUnbound(Step(s, es[0]), es[1..], j);
      k := k + 1;
    }
  }

  /** And found no subscribe open at its second. */
  lemma {:induction false} SentAfterNoneOpen(s: State, es: seq<Event>, j: nat) returns (k: nat)
    requires Exec(s, es).Some? && (AtStage(s, j, Scheduled) || AtStage(s, j, SawUnbound))
    requires j < |Exec(s, es).value.jobs| && Exec(s, es).value.jobs[j].stage.Sent?
    ensures k <= |es| && After(s, es, k).reg.subs == map[]
    decreases |es|
  {
    StageMoves(s, es[0], j);
    if es[0] == CheckOpen(j) && s.reg.subs == map[] {
      k := 0;
    } else {
      if Step(s, es[0]).jobs[j].stage.Aborted? {
        AbortedStays(Step(s, es[0]), es[1..], j);
      }
      k := SentAfterNoneOpen(Step(s, es[0]), es[1..], j);
      k := k + 1;
    }
  }

  lemma {:induction false} AbortedStays(s: State, es: seq<Event>, j: nat)
    requires Exec(s, es).Some? && AtStage(s, j, Aborted)
    ensures AtStage(Exec(s, es).value, j, Aborted)
    decreases |es|
  {
    if es != [] {
      StageMoves(s, es[0], j);
      AbortedStays(Step(s, es[0]), es[1..], j);
    }
  }
}
