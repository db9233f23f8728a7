/**
 * getSymbol run by any number of resolvers at once: which entry each returns,
 * and where every symbol handle obtained from the PLC ends up.
 * A step is one critical section under the cache lock or one request to the PLC.
 */
module SymbolHandles {

  import opened Basics

  type Key = string
  type EntryId = nat
  type Handle = nat
  type Tid = nat

  datatype Result = Returned(entry: EntryId) | Error

  datatype Phase =
    | Found(entry: EntryId)
    | Holding(entry: EntryId, handle: Handle)
    | Missing
    | Resolved(handle: Handle)
    | Releasing(handle: Handle, outcome: Result)
    | Finished(result: Result)

  datatype Resolver = Resolver(key: Key, phase: Phase)

  /**
   * handles gives every entry ever created its Handle field, zero when unset;
   * forgotten collects the handles a reload overwrote with zero.
   */
  datatype State = State(
    cache: map<Key, EntryId>,
    handles: map<EntryId, Handle>,
    resolvers: map<Tid, Resolver>,
    acquired: set<Handle>,
    released: multiset<Handle>,
    forgotten: set<Handle>)

  datatype Event =
    | Look(t: Tid, key: Key)
    | Acquire(t: Tid, handle: Handle)
    | AcquireFails(t: Tid)
    | Recheck(t: Tid)
    | Insert(t: Tid, novel: EntryId)
    | Release(t: Tid)
    | Reload(cache: map<Key, EntryId>, zeroes: bool)

  predicate Waiting(p: Phase) {
    p.Found? || p.Missing?
  }

  predicate In(s: State, t: Tid) {
    t in s.resolvers
  }

  /** The PLC hands out a handle it has not handed out before, and never zero; a reload installs new entries only. */
  predicate Enabled(s: State, e: Event) {
    match e
    case Look(t, _) => !In(s, t)
    case Acquire(t, h) => In(s, t) && Waiting(s.resolvers[t].phase) && h != 0 && h !in s.acquired
    case AcquireFails(t) => In(s, t) && Waiting(s.resolvers[t].phase)
    case Recheck(t) => In(s, t) && s.resolvers[t].phase.Holding? && s.resolvers[t].phase.entry in s.handles
    case Insert(t, novel) => In(s, t) && s.resolvers[t].phase.Resolved? && novel !in s.handles
    case Release(t) => In(s, t) && s.resolvers[t].phase.Releasing?
    case Reload(c, _) => c.Values !! s.handles.Keys && forall k, j | k in c && j in c && c[k] == c[j] :: k == j
  }

  function Put(s: State, t: Tid, p: Phase): State
    requires In(s, t)
  {
    s.(resolvers := s.resolvers[t := s.resolvers[t].(phase := p)])
  }

  function Step(s: State, e: Event): State
    requires Enabled(s, e)
  {
    match e
    case Look(t, key) =>
      var p :=
        if key !in s.cache then Missing
        else if s.cache[key] in s.handles && s.handles[s.cache[key]] != 0 then Finished(Returned(s.cache[key]))
        else Found(s.cache[key]);
      s.(resolvers := s.resolvers[t := Resolver(key, p)])
    case Acquire(t, h) =>
      var p := s.resolvers[t].phase;
      Put(s, t, if p.Found? then Holding(p.entry, h) else Resolved(h)).(acquired := s.acquired + {h})
    case AcquireFails(t) => Put(s, t, Finished(Error))
    case Recheck(t) =>
      var r := s.resolvers[t];
      var entry, h := r.phase.entry, r.phase.handle;
      if r.key !in s.cache || s.cache[r.key] != entry then Put(s, t, Releasing(h, Error))
      else if s.handles[entry] != 0 then Put(s, t, Releasing(h, Returned(entry)))
      else Put(s, t, Finished(Returned(entry))).(handles := s.handles[entry := h])
    case Insert(t, novel) =>
      var r := s.resolvers[t];
      if r.key in s.cache then Put(s, t, Releasing(r.phase.handle, Returned(s.cache[r.key])))
      else
        Put(s, t, Finished(Returned(novel))).(
          handles := s.handles[novel := r.phase.handle],
          cache := s.cache[r.key := novel])
    case Release(t) =>
      var p := s.resolvers[t].phase;
      Put(s, t, Finished(p.outcome)).(released := s.released + multiset{p.handle})
    case Reload(c, zeroes) =>
      var former := if zeroes then s.cache.Values else {};
      s.(
        cache := c,
        handles := (map e | e in s.handles.Keys + c.Values ::
          if e in s.handles && e !in former then s.handles[e] else 0),
        forgotten := s.forgotten + (set e | e in s.handles && e in former && s.handles[e] != 0 :: s.handles[e]))
  }

  function Exec(s: State, es: seq<Event>): Option<State>
    decreases |es|
  {
    if es == [] then Some(s)
    else if !Enabled(s, es[0]) then None
    else Exec(Step(s, es[0]), es[1..])
  }

  // ---------------------------------------------------------------- where a handle is

  datatype Place = InResolver(t: Tid) | InEntry(entry: EntryId) | Given | Forgotten

  predicate Has(p: Phase, h: Handle) {
    match p
    case Holding(_, g) => g == h
    case Resolved(g) => g == h
    case Releasing(g, _) => g == h
    case _ => false
  }

  /** The handle is at this one place and nowhere else; Given means its release was requested, once. */
  ghost predicate Located(s: State, h: Handle, p: Place) {
    && HeldBy(s, h, p)
    && StoredIn(s, h, p)
    && s.released[h] == (if p.Given? then 1 else 0)
    && (h in s.forgotten <==> p.Forgotten?)
  }

  ghost predicate HeldBy(s: State, h: Handle, p: Place) {
    && (forall t | t in s.resolvers :: Has(s.resolvers[t].phase, h) <==> p == InResolver(t))
    && (p.InResolver? ==> p.t in s.resolvers)
  }

  ghost predicate StoredIn(s: State, h: Handle, p: Place) {
    && (forall e | e in s.handles :: s.handles[e] == h <==> p == InEntry(e))
    && (p.InEntry? ==> p.entry in s.handles)
  }

  ghost predicate Unseen(s: State, h: Handle) {
    && (forall t | t in s.resolvers :: !Has(s.resolvers[t].phase, h))
    && (forall e | e in s.handles :: s.handles[e] != h)
    && s.released[h] == 0
    && h !in s.forgotten
  }

  ghost predicate Known(s: State) {
    && (forall k | k in s.cache :: s.cache[k] in s.handles)
    && (forall t | t in s.resolvers && s.resolvers[t].phase.Found? :: s.resolvers[t].phase.entry in s.handles)
    && (forall t | t in s.resolvers && s.resolvers[t].phase.Holding? :: s.resolvers[t].phase.entry in s.handles)
  }

  ghost predicate Inv(s: State) {
    && Known(s)
    && (forall h | h in s.acquired :: exists p :: Located(s, h, p))
    && (forall h | h !in s.acquired && h != 0 :: Unseen(s, h))
    && 0 !in s.acquired
  }

  /** Where a handle is after a step, given where it was. */
  ghost function Moved(s: State, e: Event, h: Handle, p: Place): Place
    requires Enabled(s, e)
  {
    match e
    case Recheck(t) =>
      var r := s.resolvers[t];
      if p == InResolver(t) && r.key in s.cache && s.cache[r.key] == r.phase.entry && s.handles[r.phase.entry] == 0
      then InEntry(r.phase.entry) else p
    case Insert(t, novel) => if p == InResolver(t) && s.resolvers[t].key !in s.cache then InEntry(novel) else p
    case Release(t) => if p == InResolver(t) then Given else p
    case Reload(_, zeroes) => if p.InEntry? && zeroes && p.entry in s.cache.Values then Forgotten else p
    case _ => p
  }

  lemma LocatedStep(s: State, e: Event, h: Handle, p: Place)
    requires Enabled(s, e) && Inv(s) && h in s.acquired && Located(s, h, p)
    ensures Located(Step(s, e), h, Moved(s, e, h, p))
  {
    HeldStep(s, e, h, p);
    StoredStep(s, e, h, p);
    ForgottenStep(s, e, h, p);
  }

  lemma ForgottenStep(s: State, e: Event, h: Handle, p: Place)
    requires Enabled(s, e) && Located(s, h, p) && h != 0
    ensures h in Step(s, e).forgotten <==> Moved(s, e, h, p).Forgotten?
  {
    if e.Reload? && p.InEntry? {
      assert s.handles[p.entry] == h;
    }
  }

  lemma HeldStep(s: State, e: Event, h: Handle, p: Place)
    requires Enabled(s, e) && HeldBy(s, h, p) && h in s.acquired
    ensures HeldBy(Step(s, e), h, Moved(s, e, h, p))
  {
    forall t | t in Step(s, e).resolvers
      ensures Has(Step(s, e).resolvers[t].phase, h) <==> Moved(s, e, h, p) == InResolver(t)
    {
      HeldOne(s, e, h, p, t);
    }
  }

  /** One resolver after the step. */
  lemma HeldOne(s: State, e: Event, h: Handle, p: Place, t: Tid)
    requires Enabled(s, e) && HeldBy(s, h, p) && h in s.acquired && t in Step(s, e).resolvers
    ensures Has(Step(s, e).resolvers[t].phase, h) <==> Moved(s, e, h, p) == InResolver(t)
  {
    assert t in s.resolvers ==> (Has(s.resolvers[t].phase, h) <==> p == InResolver(t));
  }

  lemma StoredStep(s: State, e: Event, h: Handle, p: Place)
    requires Enabled(s, e) && StoredIn(s, h, p) && HeldBy(s, h, p) && h != 0
    ensures StoredIn(Step(s, e), h, Moved(s, e, h, p))
  {
  }

  lemma UnseenStep(s: State, e: Event, h: Handle)
    requires Enabled(s, e) && Inv(s) && h != 0 && h !in Step(s, e).acquired
    ensures Unseen(Step(s, e), h)
  {
    assert Unseen(s, h);
  }

  lemma AcquiredStep(s: State, t: Tid, h: Handle)
    requires Enabled(s, Acquire(t, h)) && Inv(s)
    ensures Located(Step(s, Acquire(t, h)), h, InResolver(t))
  {
    assert Unseen(s, h);
  }

  lemma InvStep(s: State, e: Event)
    requires Enabled(s, e) && Inv(s)
    ensures Inv(Step(s, e))
  {
    KnownStep(s, e);
    PlacedStep(s, e);
    forall h | h !in Step(s, e).acquired && h != 0 ensures Unseen(Step(s, e), h) {
      UnseenStep(s, e, h);
    }
  }

  lemma KnownStep(s: State, e: Event)
    requires Enabled(s, e) && Known(s)
    ensures Known(Step(s, e))
  {
  }

  lemma PlacedStep(s: State, e: Event)
    requires Enabled(s, e) && Inv(s)
    ensures forall h | h in Step(s, e).acquired :: exists p :: Located(Step(s, e), h, p)
  {
    forall h | h in Step(s, e).acquired ensures exists p :: Located(Step(s, e), h, p) {
      if h in s.acquired {
        var p :| Located(s, h, p);
        LocatedStep(s, e, h, p);
      } else {
        AcquiredStep(s, e.t, h);
      }
    }
  }

  lemma {:induction false} InvRun(s: State, es: seq<Event>)
    requires Inv(s) && Exec(s, es).Some?
    ensures Inv(Exec(s, es).value)
    decreases |es|
  {
    if es != [] {
      InvStep(s, es[0]);
      InvRun(Step(s, es[0]), es[1..]);
    }
  }

  /** A freshly loaded table: entries without handles, nobody resolving. */
  predicate Initial(s: State) {
    && (forall k | k in s.cache :: s.cache[k] in s.handles)
    && (forall e | e in s.handles :: s.handles[e] == 0)
    && s.resolvers == map[] && s.acquired == {} && s.released == multiset{} && s.forgotten == {}
  }

  /**
   * In every run, reloads included, each acquired handle is in one resolver's hands, in one entry, released once,
   * or overwritten by a reload.
   */
  lemma EveryHandleAccounted(s: State, es: seq<Event>, h: Handle) returns (p: Place)
    requires Initial(s) && Exec(s, es).Some? && h in Exec(s, es).value.acquired
    ensures Located(Exec(s, es).value, h, p)
    ensures forall q | Located(Exec(s, es).value, h, q) :: q == p
  {
    InvRun(s, es);
    var n := Exec(s, es).value;
    p :| Located(n, h, p);
    forall q | Located(n, h, q) ensures q == p {
      OnePlace(n, h, p, q);
    }
  }

  lemma OnePlace(s: State, h: Handle, p: Place, q: Place)
    requires Located(s, h, p) && Located(s, h, q)
    ensures p == q
  {
  }

  // ---------------------------------------------------------------- between reloads

  predicate NoReload(es: seq<Event>) {
    forall i | 0 <= i < |es| :: !es[i].Reload?
  }

  /** A resolver of the current cache generation: whatever entry it has is the one the cache has for its key. */
  predicate Current(s: State, t: Tid)
    requires In(s, t)
  {
    var r := s.resolvers[t];
    match r.phase
    case Found(e) => r.key in s.cache && s.cache[r.key] == e
    case Holding(e, _) => r.key in s.cache && s.cache[r.key] == e
    case Releasing(_, Returned(e)) => r.key in s.cache && s.cache[r.key] == e
    case Finished(Returned(e)) => r.key in s.cache && s.cache[r.key] == e
    case Releasing(_, Error) => true
    case Finished(Error) => true
    case Missing => true
    case Resolved(_) => true
  }

  lemma CacheGrows(s: State, e: Event)
    requires Enabled(s, e) && !e.Reload?
    ensures forall k | k in s.cache :: k in Step(s, e).cache && Step(s, e).cache[k] == s.cache[k]
  {
  }

  lemma CurrentElsewhere(s: State, e: Event, t: Tid)
    requires Enabled(s, e) && !e.Reload? && e.t != t && In(s, t) && Current(s, t)
    ensures In(Step(s, e), t) && Current(Step(s, e), t)
  {
    CacheGrows(s, e);
    assert Step(s, e).resolvers[t] == s.resolvers[t];
  }

  lemma CurrentStep(s: State, e: Event, t: Tid)
    requires Enabled(s, e) && !e.Reload?
    requires In(s, t) ==> Current(s, t)
    ensures In(Step(s, e), t) ==> Current(Step(s, e), t)
  {
    if e.t != t && In(s, t) {
      CurrentElsewhere(s, e, t);
    }
  }

  lemma {:induction false} CurrentRun(s: State, es: seq<Event>, t: Tid)
    requires NoReload(es) && Exec(s, es).Some?
    requires In(s, t) ==> Current(s, t)
    ensures In(Exec(s, es).value, t) ==> Current(Exec(s, es).value, t)
    decreases |es|
  {
    if es != [] {
      CurrentStep(s, es[0], t);
      CurrentRun(Step(s, es[0]), es[1..], t);
    }
  }

  /** Resolvers of one name that start after the last reload all return the same entry, from any state. */
  lemma ResolversAgree(s: State, es: seq<Event>, t: Tid, u: Tid)
    requires NoReload(es) && Exec(s, es).Some? && !In(s, t) && !In(s, u)
    requires
      var n := Exec(s, es).value;
      && In(n, t) && In(n, u) && n.resolvers[t].key == n.resolvers[u].key
      && n.resolvers[t].phase.Finished? && n.resolvers[t].phase.result.Returned?
      && n.resolvers[u].phase.Finished? && n.resolvers[u].phase.result.Returned?
    ensures
      var n := Exec(s, es).value;
      n.resolvers[t].phase.result == n.resolvers[u].phase.result
  {
    CurrentRun(s, es, t);
    CurrentRun(s, es, u);
  }

  // ---------------------------------------------------------------- what a reload loses

  ghost predicate Stored(s: State, h: Handle) {
    exists e :: e in s.handles && s.handles[e] == h
  }

  /** No name reaches the handle any more, and nobody will release it. */
  ghost predicate Lost(s: State, h: Handle) {
    h in s.forgotten || exists e :: StrandedIn(s, h, e)
  }

  predicate StrandedIn(s: State, h: Handle, e: EntryId) {
    e in s.handles && s.handles[e] == h && e !in s.cache.Values
  }

  /** Along the run, some reload found the handle stored in an entry. */
  ghost predicate ReloadedWhileStored(s: State, es: seq<Event>, h: Handle)
    requires Exec(s, es).Some?
    decreases |es|
  {
    es != [] && ((es[0].Reload? && Stored(s, h)) || ReloadedWhileStored(Step(s, es[0]), es[1..], h))
  }

  /** A stranded entry stays stranded until the end. */
  lemma LostStays(s: State, e: Event, h: Handle)
    requires Enabled(s, e) && Inv(s) && h != 0 && Lost(s, h)
    ensures Lost(Step(s, e), h)
  {
    if h !in s.forgotten {
      var i :| StrandedIn(s, h, i);
      CacheValues(s, e, i);
      assert StrandedIn(Step(s, e), h, i);
    }
  }

  /** Only an entry that did not exist before can come into the cache. */
  lemma CacheValues(s: State, e: Event, i: EntryId)
    requires Enabled(s, e) && i in s.handles && i !in s.cache.Values
    ensures i !in Step(s, e).cache.Values
  {
  }

  lemma ReloadLoses(s: State, e: Event, h: Handle)
    requires Enabled(s, e) && e.Reload? && h != 0 && Stored(s, h)
    ensures Lost(Step(s, e), h)
  {
    var i :| i in s.handles && s.handles[i] == h;
    if !(e.zeroes && i in s.cache.Values) {
      assert StrandedIn(Step(s, e), h, i);
    }
  }

  /** What any other step stores is stored in a cached entry, so only a reload loses a handle. */
  lemma NoOtherLoses(s: State, e: Event, h: Handle)
    requires Enabled(s, e) && !e.Reload? && h != 0 && !Lost(s, h)
    ensures !Lost(Step(s, e), h)
  {
    forall i ensures !StrandedIn(Step(s, e), h, i) {
      if i in Step(s, e).handles && Step(s, e).handles[i] == h {
        StoredIsCached(s, e, h, i);
        assert !StrandedIn(s, h, i);
      }
    }
  }

  lemma ReloadSpares(s: State, e: Event, h: Handle)
    requires Enabled(s, e) && e.Reload? && h != 0 && !Lost(s, h) && !Stored(s, h)
    ensures !Lost(Step(s, e), h)
  {
  }

  lemma StoredIsCached(s: State, e: Event, h: Handle, i: EntryId)
    requires Enabled(s, e) && !e.Reload? && h != 0 && i in Step(s, e).handles && Step(s, e).handles[i] == h
    ensures (i in s.handles && s.handles[i] == h) || i in Step(s, e).cache.Values
    ensures i in s.cache.Values ==> i in Step(s, e).cache.Values
  {
    var n := Step(s, e);
    if i in s.cache.Values {
      var k :| k in s.cache && s.cache[k] == i;
      CacheGrows(s, e);
      assert k in n.cache;
    }
    if e.Insert? && !(i in s.handles && s.handles[i] == h) {
      assert n.cache[s.resolvers[e.t].key] == i;
    }
    if e.Recheck? && !(i in s.handles && s.handles[i] == h) {
      assert n.cache == s.cache && n.cache[s.resolvers[e.t].key] == i;
    }
  }

  /**
   * From any state the invariant allows, resolvers in flight included: a handle is lost exactly when it was, or a
   * reload found it stored.
   */
  lemma {:induction false} LostExactly(s: State, es: seq<Event>, h: Handle)
    requires Inv(s) && Exec(s, es).Some? && h != 0
    ensures Lost(Exec(s, es).value, h) <==> Lost(s, h) || ReloadedWhileStored(s, es, h)
    decreases |es|
  {
    if es != [] {
      var e := es[0];
      InvStep(s, e);
      LostExactly(Step(s, e), es[1..], h);
      if Lost(s, h) {
        LostStays(s, e, h);
      } else if e.Reload? && Stored(s, h) {
        ReloadLoses(s, e, h);
      } else if e.Reload? {
        ReloadSpares(s, e, h);
      } else {
        NoOtherLoses(s, e, h);
      }
    }
  }

  predicate AllFinished(s: State) {
    forall t | t in s.resolvers :: s.resolvers[t].phase.Finished?
  }

  /** The handle is the Handle of the entry cached under k, and of no other entry. */
  ghost predicate CachedOnce(s: State, h: Handle, k: Key) {
    && k in s.cache && s.cache[k] in s.handles
    && (forall e | e in s.handles :: s.handles[e] == h <==> e == s.cache[k])
  }

  ghost predicate ReleasedOnce(s: State, h: Handle) {
    s.released[h] == 1 && !Stored(s, h)
  }

  lemma Settled(s: State, h: Handle, p: Place)
    requires Located(s, h, p) && AllFinished(s) && !Lost(s, h)
    ensures
      || (ReleasedOnce(s, h) && forall k :: !CachedOnce(s, h, k))
      || (s.released[h] == 0 && exists k :: CachedOnce(s, h, k))
  {
    if p.InEntry? {
      assert s.handles[p.entry] == h;
      assert !StrandedIn(s, h, p.entry);
      var k :| k in s.cache && s.cache[k] == p.entry;
      assert CachedOnce(s, h, k);
    }
  }

  /**
   Once every resolver is done: a handle that no reload found stored, and that was not lost before, is the
   Handle of exactly one cached entry or was released exactly once; every other handle is lost.
   */
  lemma NoOtherHandleLost(s: State, es: seq<Event>, h: Handle)
    requires Inv(s) && Exec(s, es).Some? && AllFinished(Exec(s, es).value) && h in Exec(s, es).value.acquired
    ensures
      var n := Exec(s, es).value;
      if Lost(s, h) || ReloadedWhileStored(s, es, h) then Lost(n, h)
      else
        || (ReleasedOnce(n, h) && forall k :: !CachedOnce(n, h, k))
        || (n.released[h] == 0 && exists k :: CachedOnce(n, h, k))
  {
    var n := Exec(s, es).value;
    InvRun(s, es);
    LostExactly(s, es, h);
    if !Lost(n, h) {
      var p :| Located(n, h, p);
      Settled(n, h, p);
    }
  }

  lemma {:induction false} NoReloadLosesNothing(s: State, es: seq<Event>, h: Handle)
    requires Exec(s, es).Some? && NoReload(es)
    ensures !ReloadedWhileStored(s, es, h)
    decreases |es|
  {
    if es != [] {
      NoReloadLosesNothing(Step(s, es[0]), es[1..], h);
    }
  }

  /** Between two reloads, from any reachable state, no handle acquired meanwhile is lost. */
  lemma NoHandleLost(s: State, es: seq<Event>, h: Handle)
    requires Inv(s) && NoReload(es) && Exec(s, es).Some? && AllFinished(Exec(s, es).value)
    requires h in Exec(s, es).value.acquired && !Lost(s, h)
    ensures
      var n := Exec(s, es).value;
      || (ReleasedOnce(n, h) && forall k :: !CachedOnce(n, h, k))
      || (n.released[h] == 0 && exists k :: CachedOnce(n, h, k))
  {
    NoReloadLosesNothing(s, es, h);
    NoOtherHandleLost(s, es, h);
  }

  /**
   * Both ways of losing a handle occur: a reload that leaves the old table as it is strands it, one that zeroes it
   * forgets it.
   */
  lemma ReloadLosesHandle(zeroes: bool)
    ensures
      var s := State(map["x" := 1], map[1 := 0], map[], {}, multiset{}, {});
      var es := [Look(0, "x"), Acquire(0, 7), Recheck(0), Reload(map[], zeroes)];
      && Initial(s) && Exec(s, es).Some?
      && AllFinished(Exec(s, es).value) && 7 in Exec(s, es).value.acquired && Lost(Exec(s, es).value, 7)
  {
    var s := State(map["x" := 1], map[1 := 0], map[], {}, multiset{}, {});
    var a := Step(s, Look(0, "x"));
    assert a.resolvers[0].phase == Found(1);
    var b := Step(a, Acquire(0, 7));
    assert b.resolvers[0].phase == Holding(1, 7);
    var c := Step(b, Recheck(0));
    assert c.handles[1] == 7;
    var e := Reload(map[], zeroes);
    ReloadLoses(c, e, 7);
    assert Exec(Step(c, e), []) == Some(Step(c, e));
    assert Exec(c, [e]) == Some(Step(c, e));
    assert Exec(b, [Recheck(0), e]) == Exec(c, [e]);
    assert Exec(a, [Acquire(0, 7), Recheck(0), e]) == Exec(b, [Recheck(0), e]);
    assert Exec(s, [Look(0, "x"), Acquire(0, 7), Recheck(0), e]) == Exec(a, [Acquire(0, 7), Recheck(0), e]);
  }

  // ---------------------------------------------------------------- what a resolver returns

  /** Nobody holds the handle zero, which stands for none. */
  predicate HeldNonzero(s: State) {
    forall t | t in s.resolvers :: !Has(s.resolvers[t].phase, 0)
  }

  /** Since it looked, with no reload since: resolver t has what it needs, and what it returns has a handle. */
  ghost predicate OnTrack(s: State, t: Tid, mayFail: bool)
    requires In(s, t)
  {
    var r := s.resolvers[t];
    match r.phase
    case Found(e) => r.key in s.cache && s.cache[r.key] == e
    case Holding(e, _) => r.key in s.cache && s.cache[r.key] == e
    case Missing => r.key in s.cache ==> HasHandle(s, s.cache[r.key])
    case Resolved(_) => r.key in s.cache ==> HasHandle(s, s.cache[r.key])
    case Releasing(_, Returned(e)) => HasHandle(s, e)
    case Finished(Returned(e)) => HasHandle(s, e)
    case Releasing(_, Error) => mayFail
    case Finished(Error) => mayFail
  }

  predicate HasHandle(s: State, e: EntryId) {
    e in s.handles && s.handles[e] != 0
  }

  lemma NonzeroStep(s: State, e: Event)
    requires Enabled(s, e) && HeldNonzero(s)
    ensures HeldNonzero(Step(s, e))
  {
    forall t | t in Step(s, e).resolvers ensures !Has(Step(s, e).resolvers[t].phase, 0) {
      assert t in s.resolvers ==> !Has(s.resolvers[t].phase, 0);
    }
  }

  lemma HandleStays(s: State, e: Event, i: EntryId)
    requires Enabled(s, e) && !e.Reload? && HeldNonzero(s) && HasHandle(s, i)
    ensures HasHandle(Step(s, e), i)
  {
    if e.Recheck? {
      assert !Has(s.resolvers[e.t].phase, 0);
    }
  }

  /** What another resolver puts under a name comes with a handle. */
  lemma NewEntryHasHandle(s: State, e: Event, k: Key)
    requires Enabled(s, e) && !e.Reload? && HeldNonzero(s) && k !in s.cache && k in Step(s, e).cache
    ensures HasHandle(Step(s, e), Step(s, e).cache[k])
  {
    assert !Has(s.resolvers[e.t].phase, 0);
  }

  lemma OnTrackElsewhere(s: State, e: Event, t: Tid, mayFail: bool)
    requires Enabled(s, e) && !e.Reload? && HeldNonzero(s) && In(s, t) && OnTrack(s, t, mayFail) && e.t != t
    ensures In(Step(s, e), t) && OnTrack(Step(s, e), t, mayFail)
  {
    var r := s.resolvers[t];
    assert Step(s, e).resolvers[t] == r;
    CacheGrows(s, e);
    if r.key in s.cache {
      if HasHandle(s, s.cache[r.key]) {
        HandleStays(s, e, s.cache[r.key]);
      }
    } else if r.key in Step(s, e).cache {
      NewEntryHasHandle(s, e, r.key);
    }
    if r.phase.Releasing? && r.phase.outcome.Returned? {
      HandleStays(s, e, r.phase.outcome.entry);
    }
    if r.phase.Finished? && r.phase.result.Returned? {
      HandleStays(s, e, r.phase.result.entry);
    }
  }

  lemma OnTrackOwn(s: State, e: Event, t: Tid, mayFail: bool)
    requires Enabled(s, e) && !e.Reload? && HeldNonzero(s) && In(s, t) && OnTrack(s, t, mayFail) && e.t == t
    requires e.AcquireFails? ==> mayFail
    ensures In(Step(s, e), t) && OnTrack(Step(s, e), t, mayFail)
  {
    assert !Has(s.resolvers[t].phase, 0);
  }

  lemma {:induction false} OnTrackRun(s: State, es: seq<Event>, t: Tid, mayFail: bool)
    requires NoReload(es) && Exec(s, es).Some? && HeldNonzero(s) && In(s, t) && OnTrack(s, t, mayFail)
    requires AcquireFails(t) in es ==> mayFail
    ensures In(Exec(s, es).value, t) && OnTrack(Exec(s, es).value, t, mayFail)
    decreases |es|
  {
    if es != [] {
      NonzeroStep(s, es[0]);
      if es[0].t == t {
        OnTrackOwn(s, es[0], t, mayFail);
      } else {
        OnTrackElsewhere(s, es[0], t, mayFail);
      }
      OnTrackRun(Step(s, es[0]), es[1..], t, mayFail);
    }
  }

  lemma {:induction false} NonzeroRun(s: State, es: seq<Event>)
    requires Exec(s, es).Some? && HeldNonzero(s)
    ensures HeldNonzero(Exec(s, es).value)
    decreases |es|
  {
    if es != [] {
      NonzeroStep(s, es[0]);
      NonzeroRun(Step(s, es[0]), es[1..]);
    }
  }

  /**
   * With no reload between its look and its end, a resolver returns an error only if its request to the PLC failed,
   * and otherwise an entry with a handle.
   */
  lemma ReturnsEntryWithHandle(init: State, before: seq<Event>, t: Tid, key: Key, es: seq<Event>)
    requires Initial(init) && Exec(init, before).Some? && Enabled(Exec(init, before).value, Look(t, key))
    requires
      var s := Step(Exec(init, before).value, Look(t, key));
      NoReload(es) && Exec(s, es).Some? && Exec(s, es).value.resolvers.Keys >= {t}
    requires
      var n := Exec(Step(Exec(init, before).value, Look(t, key)), es).value;
      n.resolvers[t].phase.Finished?
    ensures
      var n := Exec(Step(Exec(init, before).value, Look(t, key)), es).value;
      match n.resolvers[t].phase.result
      case Returned(e) => HasHandle(n, e)
      case Error => AcquireFails(t) in es
  {
    var s0 := Exec(init, before).value;
    var s := Step(s0, Look(t, key));
    NonzeroRun(init, before);
    NonzeroStep(s0, Look(t, key));
    OnTrackRun(s, es, t, AcquireFails(t) in es);
  }

  /** The entry resolver t has decided to return, if it has. */
  function Decided(s: State, t: Tid): Option<EntryId> {
    if t !in s.resolvers then None
    else
      match s.resolvers[t].phase
      case Releasing(_, Returned(e)) => Some(e)
      case Finished(Returned(e)) => Some(e)
      case _ => None
  }

  /** The on-demand path finds its name taken by an entry that has no handle. */
  predicate FindsBareEntry(s: State, e: Event) {
    && e.Insert? && e.t in s.resolvers && s.resolvers[e.t].key in s.cache
    && !HasHandle(s, s.cache[s.resolvers[e.t].key])
  }

  /** A resolver decides to return an entry without a handle exactly when its insert finds the name taken by one. */
  lemma ReturnsBareExactly(s: State, e: Event, t: Tid)
    requires Enabled(s, e) && Inv(s) && HeldNonzero(s) && Decided(s, t).None? && Decided(Step(s, e), t).Some?
    ensures !HasHandle(Step(s, e), Decided(Step(s, e), t).value) <==> FindsBareEntry(s, e)
  {
    assert e.t == t;
    assert t in s.resolvers ==> !Has(s.resolvers[t].phase, 0);
  }

  /** A reload in between can make a resolver return an entry that has no handle. */
  lemma ReloadReturnsBareEntry()
    ensures
      var s := State(map[], map[], map[], {}, multiset{}, {});
      var es := [Look(0, "x"), Acquire(0, 7), Reload(map["x" := 1], false), Insert(0, 2), Release(0)];
      && Initial(s) && Exec(s, es).Some?
      && 0 in Exec(s, es).value.resolvers && Exec(s, es).value.resolvers[0].phase == Finished(Returned(1))
      && !HasHandle(Exec(s, es).value, 1)
  {
    var s := State(map[], map[], map[], {}, multiset{}, {});
    var a := Step(s, Look(0, "x"));
    assert a.resolvers[0].phase == Missing;
    var b := Step(a, Acquire(0, 7));
    assert b.resolvers[0].phase == Resolved(7);
    var r := Reload(map["x" := 1], false);
    assert r.cache.Values == {1} && Enabled(b, r);
    var c := Step(b, r);
    assert 1 in c.handles && c.handles[1] == 0 && 2 !in c.handles;
    var d := Step(c, Insert(0, 2));
    assert d.resolvers[0].phase == Releasing(7, Returned(1));
    var e := Step(d, Release(0));
    assert Exec(e, []) == Some(e);
    assert Exec(d, [Release(0)]) == Some(e);
    assert Exec(c, [Insert(0, 2), Release(0)]) == Some(e);
    assert Exec(b, [r, Insert(0, 2), Release(0)]) == Some(e);
    assert Exec(a, [Acquire(0, 7), r, Insert(0, 2), Release(0)]) == Some(e);
  }
}
