/** What the manager's operations do to the entries on file, to the channel and to the baseline count. */
module ManagerLaws {

  import opened Basics
  import opened SymbolNames
  import opened NotificationManager
  import opened NotificationInvariant

  // ---------------------------------------------------------------- entries

  /** q holds e, and of p exactly what is under other keys. */
  ghost predicate FiledAs(p: seq<Pending>, q: seq<Pending>, e: Pending) {
    forall x :: x in q <==> x == e || (x in p && PendingKey(x) != PendingKey(e))
  }

  /** Filing an entry puts exactly that entry on file under its key and leaves every other entry. */
  lemma FiledEntries(v: View, e: Pending)
    requires OnFile(v)
    ensures FiledAs(v.pending, Filed(v, e).pending, e)
  {
    var key := PendingKey(e);
    var i := Find(v.pending, key);
    var q := Filed(v, e).pending;
    FindIsIn(v.pending, key);
    forall x ensures x in q <==> x == e || (x in v.pending && PendingKey(x) != key) {
      if key in v.keys {
        ReplacedAt(v.pending, i, e, x);
      }
    }
  }

  lemma ReplacedAt(p: seq<Pending>, i: nat, e: Pending, x: Pending)
    requires i < |p| && UniqueKeys(p) && PendingKey(p[i]) == PendingKey(e)
    ensures x in p[i := e] <==> x == e || (x in p && PendingKey(x) != PendingKey(e))
  {
    var q := p[i := e];
    assert q[i] == e;
    if j :| 0 <= j < |p| && p[j] == x && PendingKey(x) != PendingKey(e) {
      assert q[j] == x;
    }
    if j :| 0 <= j < |q| && q[j] == x && j != i {
      assert p[j] == x;
    }
  }

  /** Taking a name off file removes exactly the entry under its key, when the search finds that one. */
  lemma UnfiledEntries(v: View, name: Name)
    requires OnFile(v) && FoldFindsKey(v, name)
    ensures forall x :: x in Unfiled(v, name).pending <==> x in v.pending && PendingKey(x) != KeyOf(name)
  {
    forall x ensures x in Unfiled(v, name).pending <==> x in v.pending && PendingKey(x) != KeyOf(name) {
      if KeyOf(name) in v.keys {
        RemovedAt(v.pending, FindFold(v.pending, name), x);
      }
    }
  }

  lemma RemovedAt(p: seq<Pending>, i: nat, x: Pending)
    requires i < |p| && UniqueKeys(p)
    ensures x in Without(p, i) <==> x in p && PendingKey(x) != PendingKey(p[i])
  {
    var q := Without(p, i);
    if j :| 0 <= j < |p| && p[j] == x && j != i {
      assert q[if j < i then j else j - 1] == x;
    }
    if j :| 0 <= j < |q| && q[j] == x {
      assert p[if j < i then j else j + 1] == x;
    }
  }

  /** Merging a snapshot leaves every entry on file as it is, and adds exactly the entries of keys that are not. */
  lemma {:induction false} RestoredEntries(v: View, snapshot: seq<Pending>)
    requires OnFile(v) && UniqueKeys(snapshot)
    ensures forall x ::
      x in Restored(v, snapshot).pending <==> x in v.pending || (x in snapshot && PendingKey(x) !in v.keys)
    decreases |snapshot|
  {
    if snapshot != [] {
      var e, rest := snapshot[0], snapshot[1..];
      assert forall x :: x in snapshot <==> x == e || x in rest;
      forall x | x in rest ensures PendingKey(x) != PendingKey(e) {
        var j :| 0 <= j < |rest| && rest[j] == x;
        assert snapshot[j + 1] == x;
      }
      if PendingKey(e) in v.keys {
        RestoredEntries(v, rest);
      } else {
        FiledKeeps(v, e);
        FiledEntries(v, e);
        NotOnFile(v, PendingKey(e));
        RestoredEntries(Filed(v, e), rest);
      }
    }
  }

  lemma NotOnFile(v: View, key: Key)
    requires OnFile(v) && key !in v.keys
    ensures forall x | x in v.pending :: PendingKey(x) != key
  {
    forall x | x in v.pending ensures PendingKey(x) != key {
      var i :| 0 <= i < |v.pending| && v.pending[i] == x;
      assert PendingKey(x) in KeysOf(v.pending);
    }
  }

  // ---------------------------------------------------------------- commits and deletes

  /** A commit binds exactly this handle, to this name and channel, and files exactly this config. */
  lemma BindExactly(v: View, cfg: Config, full: Name, h: Handle, ch: Chan)
    requires OnFile(v)
    ensures
      var u := Bind(v, cfg, full, h, ch);
      && u.active == v.active[h := Bound(full, ch)] && u.channel == Some(ch)
      && u.registered == Max(v.registered, |u.active|)
      && FiledAs(v.pending, u.pending, Pending(cfg, 0))
  {
    FiledEntries(RaiseRegistered(v.(active := v.active[h := Bound(full, ch)])), Pending(cfg, 0));
  }

  /**
   * A caller's delete unbinds exactly its handle, takes exactly its config off file, lowers the baseline to what is
   * still bound, and releases the channel exactly when the handle was the session's own and the last one.
   */
  lemma DeleteExactly(v: View, h: Handle, name: Option<Name>)
    requires OnFile(v) && (name.Some? ==> FoldFindsKey(v, name.value))
    ensures
      var u := DeleteOne(v, h, name);
      && u.active == v.active - {h} && u.registered == |u.active|
      && (u.channel != v.channel ==> u.channel == None)
      && (v.channel.Some? ==> (u.channel.None? <==> name.Some? && u.active == map[]))
      && forall x :: x in u.pending <==> x in v.pending && (name.Some? ==> PendingKey(x) != KeyOf(name.value))
  {
    if name.Some? {
      UnfiledEntries(v, name.value);
    }
  }

  /** The key of some handle of hs that is bound. */
  ghost predicate FlushedKey(v: View, hs: seq<Handle>, k: Key) {
    exists h :: h in hs && h in v.active && KeyOf(v.active[h].fullName) == k
  }

  lemma FlushOneEntries(v: View, h: Handle, user: bool, names: set<Name>)
    requires Good(v, names) && Compatible(names)
    ensures OffFile(v, FlushOne(v, h, user), [h])
  {
    if h in v.active {
      CompatibleFinds(v, v.active[h].fullName, names);
      UnfiledEntries(v, v.active[h].fullName);
    }
    forall x ensures FlushedKey(v, [h], PendingKey(x)) <==>
      h in v.active && KeyOf(v.active[h].fullName) == PendingKey(x)
    {
      if h in v.active && KeyOf(v.active[h].fullName) == PendingKey(x) {
        assert h in [h];
      }
    }
  }

  lemma FlushedKeyCons(v: View, hs: seq<Handle>, u: View, k: Key)
    requires hs != [] && u.active == v.active - {hs[0]}
    ensures FlushedKey(v, hs, k) <==> FlushedKey(v, [hs[0]], k) || FlushedKey(u, hs[1..], k)
  {
    if h :| h in hs && h in v.active && KeyOf(v.active[h].fullName) == k {
      if h == hs[0] {
        assert h in [hs[0]];
      } else {
        assert h in hs[1..] && h in u.active;
      }
    }
    if h :| h in hs[1..] && h in u.active && KeyOf(u.active[h].fullName) == k {
      assert h in hs && h in v.active;
    }
  }

  /** Exactly the entries of the flushed handles have come off file. */
  ghost predicate OffFile(v: View, u: View, hs: seq<Handle>) {
    forall x :: x in u.pending <==> x in v.pending && !FlushedKey(v, hs, PendingKey(x))
  }

  lemma OffFileCons(v: View, u: View, t: View, hs: seq<Handle>)
    requires hs != [] && u.active == v.active - {hs[0]} && OffFile(v, u, [hs[0]]) && OffFile(u, t, hs[1..])
    ensures OffFile(v, t, hs)
  {
    forall x ensures x in t.pending <==> x in v.pending && !FlushedKey(v, hs, PendingKey(x)) {
      FlushedKeyCons(v, hs, u, PendingKey(x));
    }
  }

  /** A batch delete takes off file exactly the configs of the confirmed handles that were bound. */
  lemma {:induction false} FlushAllEntries(v: View, hs: seq<Handle>, user: bool, names: set<Name>)
    requires Good(v, names) && Compatible(names)
    ensures OffFile(v, FlushAll(v, hs, user), hs)
    decreases |hs|
  {
    if hs != [] {
      var u := FlushOne(v, hs[0], user);
      FlushOneGood(v, hs[0], user, names);
      FlushOneEntries(v, hs[0], user, names);
      FlushOneActive(v, hs[0], user, u);
      FlushAllEntries(u, hs[1..], user, names);
      OffFileCons(v, u, FlushAll(v, hs, user), hs);
    }
  }

  /** Exactly the handles of hs are bound no longer. */
  ghost predicate Freed(v: View, u: View, hs: seq<Handle>) {
    forall h :: (h in u.active <==> h in v.active && h !in hs) && (h in u.active ==> u.active[h] == v.active[h])
  }

  lemma FlushOneActive(v: View, h: Handle, user: bool, u: View)
    requires u == FlushOne(v, h, user)
    ensures u.active == v.active - {h} && u.channel == v.channel
    ensures u.registered == if user then |u.active| else v.registered
  {
  }

  lemma FreedCons(v: View, u: View, t: View, hs: seq<Handle>)
    requires hs != [] && u.active == v.active - {hs[0]} && Freed(u, t, hs[1..])
    ensures Freed(v, t, hs)
  {
    assert forall h :: h in hs <==> h == hs[0] || h in hs[1..];
  }

  lemma {:induction false} FlushAllRest(v: View, hs: seq<Handle>, user: bool)
    ensures Freed(v, FlushAll(v, hs, user), hs) && FlushAll(v, hs, user).channel == v.channel
    ensures FlushAll(v, hs, user).registered ==
      if user && hs != [] then |FlushAll(v, hs, user).active| else v.registered
    decreases |hs|
  {
    if hs != [] {
      var u := FlushOne(v, hs[0], user);
      FlushOneActive(v, hs[0], user, u);
      FlushAllRest(u, hs[1..], user);
      FreedCons(v, u, FlushAll(v, hs, user), hs);
      if hs[1..] == [] {
        assert FlushAll(u, hs[1..], user) == u;
      }
    }
  }

  /**
   * A batch delete unbinds exactly the confirmed handles and takes exactly their configs off file. Asked for by the
   * caller it also lowers the baseline to what is still bound, and releases the channel when nothing is.
   */
  lemma FlushExactly(v: View, hs: seq<Handle>, user: bool, names: set<Name>)
    requires Good(v, names) && Compatible(names)
    ensures
      var u := Flush(v, hs, user);
      && Freed(v, u, hs) && OffFile(v, u, hs)
      && u.registered == (if user && hs != [] then |u.active| else v.registered)
      && u.channel == (if user && u.active == map[] then None else v.channel)
  {
    FlushAllEntries(v, hs, user, names);
    FlushAllRest(v, hs, user);
  }

  // ---------------------------------------------------------------- one channel

  /** Every bound handle delivers to the manager's channel. */
  ghost predicate OneChannel(v: View) {
    forall h | h in v.active :: v.channel == Some(v.active[h].ch)
  }

  /** The channel is set to something else under handles that are bound. */
  predicate Rechannels(s: State, op: Op) {
    op.SetChannel? && s.v.active != map[] && op.channel != s.v.channel
  }

  lemma {:induction false} FlushOneChannel(v: View, hs: seq<Handle>, user: bool)
    requires OneChannel(v)
    ensures OneChannel(FlushAll(v, hs, user))
    decreases |hs|
  {
    if hs != [] {
      FlushOneChannel(FlushOne(v, hs[0], user), hs[1..], user);
    }
  }

  lemma {:induction false} RestoredChannel(v: View, p: seq<Pending>)
    ensures Restored(v, p).active == v.active && Restored(v, p).channel == v.channel
    ensures Restored(v, p).registered == v.registered
    decreases |p|
  {
    if p != [] {
      RestoredChannel(v, p[1..]);
      RestoredChannel(Filed(v, p[0]), p[1..]);
    }
  }

  lemma CommitOneChannel(s: State, op: Op)
    requires Enabled(s, op) && OneChannel(s.v) && op.Commit?
    ensures OneChannel(Step(s, op).v)
  {
  }

  /** An operation keeps all bound handles on one channel if and only if it does not set another under them. */
  lemma OneChannelStep(s: State, op: Op)
    requires Enabled(s, op) && OneChannel(s.v)
    ensures OneChannel(Step(s, op).v) <==> !Rechannels(s, op)
  {
    match op
    case Commit(_, _, _, _, _) => CommitOneChannel(s, op);
    case Delete(_, _) =>
    case SumDelete(hs, user) => FlushOneChannel(s.v, hs, user);
    case Take =>
    case Requeue(_) =>
    case Amend(_) =>
    case Save =>
    case Reinstate(_) =>
    case Merge(p) => RestoredChannel(s.v, p);
    case Unbind(_) =>
    case SetChannel(ch) =>
      if Rechannels(s, op) {
        var h :| h in s.v.active;
        assert h in Step(s, op).v.active;
      }
    case Lower(_) =>
  }

  ghost predicate NeverRechannels(s: State, ops: seq<Op>)
    requires Exec(s, ops).Some?
    decreases |ops|
  {
    ops == [] || (!Rechannels(s, ops[0]) && NeverRechannels(Step(s, ops[0]), ops[1..]))
  }

  /** Over every run in which nobody does that, all subscriptions deliver to the one channel the manager holds. */
  lemma {:induction false} OneChannelRun(s: State, ops: seq<Op>)
    requires OneChannel(s.v) && Exec(s, ops).Some? && NeverRechannels(s, ops)
    ensures OneChannel(Exec(s, ops).value.v)
    decreases |ops|
  {
    if ops != [] {
      OneChannelStep(s, ops[0]);
      OneChannelRun(Step(s, ops[0]), ops[1..]);
    }
  }

  // ---------------------------------------------------------------- the baseline

  /** The baseline counts at least what is bound, so a shortfall is visible as a gap. */
  predicate Covers(v: View) {
    |v.active| <= v.registered
  }

  /** The baseline is lowered below what is bound. */
  predicate Undercuts(s: State, op: Op) {
    op.Lower? && op.n < |s.v.active|
  }

  lemma FewerBound(m: map<Handle, Bound>, hs: set<Handle>)
    ensures |m - hs| <= |m|
  {
    var less := m - hs;
    assert less.Keys <= m.Keys;
    SubsetSize(less.Keys, m.Keys);
    assert |less| == |less.Keys| && |m| == |m.Keys|;
  }

  lemma {:induction false} SubsetSize(a: set<Handle>, b: set<Handle>)
    requires a <= b
    ensures |a| <= |b|
    decreases |a|
  {
    if a != {} {
      var h :| h in a;
      SubsetSize(a - {h}, b - {h});
    }
  }

  lemma {:induction false} FlushCovers(v: View, hs: seq<Handle>, user: bool)
    requires Covers(v)
    ensures Covers(FlushAll(v, hs, user))
    decreases |hs|
  {
    if hs != [] {
      FewerBound(v.active, {hs[0]});
      FlushCovers(FlushOne(v, hs[0], user), hs[1..], user);
    }
  }

  /** An operation keeps the baseline at or above what is bound if and only if it does not lower it below that. */
  lemma CoversStep(s: State, op: Op)
    requires Enabled(s, op) && Covers(s.v)
    ensures Covers(Step(s, op).v) <==> !Undercuts(s, op)
  {
    match op
    case Commit(_, _, _, _, _) =>
    case Delete(_, _) =>
    case SumDelete(hs, user) => FlushCovers(s.v, hs, user);
    case Take =>
    case Requeue(_) =>
    case Amend(_) =>
    case Save =>
    case Reinstate(_) =>
    case Merge(p) => RestoredChannel(s.v, p);
    case Unbind(hs) => FewerBound(s.v.active, hs);
    case SetChannel(_) =>
    case Lower(_) =>
  }

  ghost predicate NeverUndercuts(s: State, ops: seq<Op>)
    requires Exec(s, ops).Some?
    decreases |ops|
  {
    ops == [] || (!Undercuts(s, ops[0]) && NeverUndercuts(Step(s, ops[0]), ops[1..]))
  }

  lemma {:induction false} CoversRun(s: State, ops: seq<Op>)
    requires Covers(s.v) && Exec(s, ops).Some? && NeverUndercuts(s, ops)
    ensures Covers(Exec(s, ops).value.v)
    decreases |ops|
  {
    if ops != [] {
      CoversStep(s, ops[0]);
      CoversRun(Step(s, ops[0]), ops[1..]);
    }
  }

  /** Both hold in every state a fresh manager reaches that way. */
  lemma FreshManagerHolds(ops: seq<Op>)
    requires Exec(EMPTY, ops).Some? && NeverRechannels(EMPTY, ops) && NeverUndercuts(EMPTY, ops)
    ensures OneChannel(Exec(EMPTY, ops).value.v) && Covers(Exec(EMPTY, ops).value.v)
  {
    OneChannelRun(EMPTY, ops);
    CoversRun(EMPTY, ops);
  }
}
