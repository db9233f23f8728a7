/** What every operation of the notification manager keeps, over every run. */
module NotificationInvariant {

  import opened Basics
  import opened SymbolNames
  import opened NotificationManager

  /** One entry per key, and the index is exactly the keys on file. */
  ghost predicate OnFile(v: View) {
    UniqueKeys(v.pending) && v.keys == KeysOf(v.pending)
  }

  ghost predicate OneHandlePerKey(active: map<Handle, Bound>) {
    forall g, h | g in active && h in active && KeyOf(active[g].fullName) == KeyOf(active[h].fullName) :: g == h
  }

  function NamesOf(p: seq<Pending>): set<Name> {
    set i | 0 <= i < |p| :: p[i].config.name
  }

  // ---------------------------------------------------------------- filing

  lemma FindIsIn(p: seq<Pending>, key: Key)
    ensures key in KeysOf(p) <==> Find(p, key) < |p|
  {
    if Find(p, key) < |p| {
      assert PendingKey(p[Find(p, key)]) in KeysOf(p);
    }
  }

  lemma FiledKeeps(v: View, e: Pending)
    requires OnFile(v)
    ensures OnFile(Filed(v, e))
    ensures Filed(v, e).keys == v.keys + {PendingKey(e)}
  {
    var key := PendingKey(e);
    FindIsIn(v.pending, key);
    var w := Filed(v, e);
    if key in v.keys {
      var i := Find(v.pending, key);
      SameKeySet(v.pending, w.pending);
    } else {
      assert w.pending[..|v.pending|] == v.pending && w.pending[..|w.pending|] == w.pending;
      KeysOfSnoc(w.pending, |v.pending|);
      forall i | 0 <= i < |v.pending| ensures PendingKey(v.pending[i]) != key {
        assert PendingKey(v.pending[i]) in KeysOf(v.pending);
      }
    }
  }

  lemma SameKeySet(p: seq<Pending>, q: seq<Pending>)
    requires |p| == |q| && forall i | 0 <= i < |p| :: PendingKey(p[i]) == PendingKey(q[i])
    ensures KeysOf(p) == KeysOf(q)
  {
    assert forall i | 0 <= i < |p| :: PendingKey(p[i]) in KeysOf(q) && PendingKey(q[i]) in KeysOf(p);
  }

  lemma {:induction false} RestoredKeeps(v: View, snapshot: seq<Pending>)
    requires OnFile(v)
    ensures OnFile(Restored(v, snapshot))
    ensures Restored(v, snapshot).keys == v.keys + KeysOf(snapshot)
    ensures Restored(v, snapshot).active == v.active && Restored(v, snapshot).channel == v.channel
    decreases |snapshot|
  {
    if snapshot == [] {
    } else {
      KeysOfCons(snapshot);
      if PendingKey(snapshot[0]) in v.keys {
        RestoredKeeps(v, snapshot[1..]);
      } else {
        FiledKeeps(v, snapshot[0]);
        RestoredKeeps(Filed(v, snapshot[0]), snapshot[1..]);
      }
    }
  }

  lemma KeysOfCons(p: seq<Pending>)
    requires p != []
    ensures KeysOf(p) == {PendingKey(p[0])} + KeysOf(p[1..])
  {
    forall k | k in KeysOf(p) ensures k in {PendingKey(p[0])} + KeysOf(p[1..]) {
      var j :| 0 <= j < |p| && k == PendingKey(p[j]);
      if j > 0 {
        assert p[1..][j - 1] == p[j];
      }
    }
    forall k | k in KeysOf(p[1..]) ensures k in KeysOf(p) {
      var j :| 0 <= j < |p[1..]| && k == PendingKey(p[1..][j]);
      assert p[j + 1] == p[1..][j];
    }
  }

  // ---------------------------------------------------------------- unfiling

  function Without(p: seq<Pending>, i: nat): seq<Pending>
    requires i < |p|
  {
    p[..i] + p[i + 1..]
  }

  lemma WithoutKeys(p: seq<Pending>, i: nat)
    requires i < |p| && UniqueKeys(p)
    ensures UniqueKeys(Without(p, i))
    ensures KeysOf(Without(p, i)) == KeysOf(p) - {PendingKey(p[i])}
  {
    var q := Without(p, i);
    assert forall j | 0 <= j < |q| :: q[j] == if j < i then p[j] else p[j + 1];
    forall k | k in KeysOf(q) ensures k in KeysOf(p) - {PendingKey(p[i])} {
      var j :| 0 <= j < |q| && k == PendingKey(q[j]);
      var m := if j < i then j else j + 1;
      assert q[j] == p[m];
    }
    forall k | k in KeysOf(p) - {PendingKey(p[i])} ensures k in KeysOf(q) {
      var m :| 0 <= m < |p| && k == PendingKey(p[m]);
      var j := if m < i then m else m - 1;
      assert q[j] == p[m];
    }
  }

  /** The entry removed for a name is the one filed under its key. */
  predicate FoldFindsKey(v: View, name: Name) {
    var i := FindFold(v.pending, name);
    KeyOf(name) in v.keys ==> i < |v.pending| && PendingKey(v.pending[i]) == KeyOf(name)
  }

  /** Removing a name keeps the index right exactly when the first entry that folds with it is the one under its key. */
  lemma UnfiledKeepsExactly(v: View, name: Name)
    requires OnFile(v)
    ensures OnFile(Unfiled(v, name)) <==> FoldFindsKey(v, name)
    ensures FoldFindsKey(v, name) ==> Unfiled(v, name).keys == v.keys - {KeyOf(name)}
  {
    var key := KeyOf(name);
    if key in v.keys {
      var i := FindFold(v.pending, name);
      if i < |v.pending| {
        WithoutKeys(v.pending, i);
      }
    }
  }

  lemma CompatibleFinds(v: View, name: Name, names: set<Name>)
    requires OnFile(v) && Compatible(names) && name in names && NamesOf(v.pending) <= names
    ensures FoldFindsKey(v, name)
  {
    if KeyOf(name) in v.keys {
      var j :| 0 <= j < |v.pending| && PendingKey(v.pending[j]) == KeyOf(name);
      assert v.pending[j].config.name in NamesOf(v.pending);
      var i := FindFold(v.pending, name);
      assert v.pending[i].config.name in NamesOf(v.pending);
    }
  }

  /** Two names that fold together under different keys: deleting the second removes the first one's entry. */
  lemma LongSBreaksIndex()
    ensures
      var a, b := Config([LONG_S], 0), Config("s", 0);
      var v := View(map[], [Pending(a, 0), Pending(b, 0)], {[LONG_S], "s"}, None, 0);
      OnFile(v) && !OnFile(Unfiled(v, "s"))
  {
    var a, b := Config([LONG_S], 0), Config("s", 0);
    var v := View(map[], [Pending(a, 0), Pending(b, 0)], {[LONG_S], "s"}, None, 0);
    NonAsciiIncompatible();
    assert KeyOf([LONG_S]) == [LONG_S] && KeyOf("s") == "s";
    assert PendingKey(v.pending[0]) == [LONG_S] && PendingKey(v.pending[1]) == "s";
    assert KeysOf(v.pending) == {[LONG_S], "s"} by {
      assert PendingKey(v.pending[0]) in KeysOf(v.pending) && PendingKey(v.pending[1]) in KeysOf(v.pending);
    }
    assert FindFold(v.pending, "s") == 0;
    UnfiledKeepsExactly(v, "s");
  }

  /** Two names under one key that do not fold together: deleting the one takes the key and leaves the other's entry. */
  lemma DottedIBreaksIndex()
    ensures
      var v := View(map[], [Pending(Config([DOTTED_I], 0), 0)], {"i"}, None, 0);
      OnFile(v) && !OnFile(Unfiled(v, "i"))
  {
    var v := View(map[], [Pending(Config([DOTTED_I], 0), 0)], {"i"}, None, 0);
    NonAsciiIncompatible();
    assert KeyOf("i") == "i";
    assert PendingKey(v.pending[0]) == "i";
    assert KeysOf(v.pending) == {"i"} by {
      assert PendingKey(v.pending[0]) in KeysOf(v.pending);
    }
    UnfiledKeepsExactly(v, "i");
  }

  // ---------------------------------------------------------------- runs

  /** The manager, and every snapshot of its pending entries a resubscribe or a recovery has taken. */
  datatype State = State(v: View, saved: set<seq<Pending>>)

  datatype Op =
    | Commit(cfg: Config, fullName: Option<Name>, h: Handle, ch: Chan, currentEpoch: bool)
    | Delete(h: Handle, name: Option<Name>)
    | SumDelete(hs: seq<Handle>, user: bool)
    | Take
    | Requeue(entry: Pending)
    | Amend(stranded: Name)
    | Save
    | Reinstate(p: seq<Pending>)
    | Merge(p: seq<Pending>)
    | Unbind(gone: set<Handle>)
    | SetChannel(channel: Option<Chan>)
    | Lower(n: nat)

  /** The symbol cache files an entry under its own name's key; only a snapshot is ever put back. */
  predicate Enabled(s: State, op: Op) {
    match op
    case Commit(cfg, full, _, _, _) => full.Some? ==> KeyOf(full.value) == KeyOf(cfg.name)
    case Reinstate(p) => p == [] || p in s.saved
    case Merge(p) => p in s.saved
    case _ => true
  }

  function Step(s: State, op: Op): State
    requires Enabled(s, op)
  {
    match op
    case Commit(cfg, full, h, ch, currentEpoch) =>
      if CommitCheck(s.v, cfg, ch, full.Some?, currentEpoch).Some? then s
      else s.(v := Bind(s.v, cfg, full.value, h, ch))
    case Delete(h, name) => s.(v := DeleteOne(s.v, h, name))
    case SumDelete(hs, user) => s.(v := Flush(s.v, hs, user))
    case Take => s.(v := s.v.(active := map[]))
    case Requeue(p) => s.(v := Filed(s.v, p))
    case Amend(name) => s.(v := Unfiled(s.v, name))
    case Save => s.(saved := s.saved + {s.v.pending})
    case Reinstate(p) => s.(v := Reset(s.v, p))
    case Merge(p) => s.(v := Restored(s.v, p))
    case Unbind(hs) => s.(v := s.v.(active := s.v.active - hs))
    case SetChannel(ch) => s.(v := s.v.(channel := ch))
    case Lower(n) => s.(v := LowerRegisteredTo(s.v, n))
  }

  function Exec(s: State, ops: seq<Op>): Option<State>
    decreases |ops|
  {
    if ops == [] then Some(s)
    else if !Enabled(s, ops[0]) then None
    else Exec(Step(s, ops[0]), ops[1..])
  }

  /** The symbol names an operation brings in. */
  function OpNames(op: Op): set<Name> {
    match op
    case Commit(cfg, full, _, _, _) => {cfg.name} + (if full.Some? then {full.value} else {})
    case Delete(_, name) => if name.Some? then {name.value} else {}
    case Requeue(p) => {p.config.name}
    case Amend(name) => {name}
    case _ => {}
  }

  ghost predicate Known(v: View, names: set<Name>) {
    NamesOf(v.pending) <= names && forall h | h in v.active :: v.active[h].fullName in names
  }

  ghost predicate Good(v: View, names: set<Name>) {
    OnFile(v) && OneHandlePerKey(v.active) && Known(v, names)
  }

  ghost predicate Inv(s: State, names: set<Name>) {
    && Good(s.v, names)
    && forall p | p in s.saved :: UniqueKeys(p) && NamesOf(p) <= names
  }

  lemma FiledGood(v: View, e: Pending, names: set<Name>)
    requires Good(v, names) && e.config.name in names
    ensures Good(Filed(v, e), names)
  {
    FiledKeeps(v, e);
    var w := Filed(v, e);
    forall n | n in NamesOf(w.pending) ensures n in names {
      var i :| 0 <= i < |w.pending| && n == w.pending[i].config.name;
      if i < |v.pending| {
        assert v.pending[i].config.name in NamesOf(v.pending);
      }
    }
  }

  lemma UnfiledGood(v: View, name: Name, names: set<Name>)
    requires Good(v, names) && Compatible(names) && name in names
    ensures Good(Unfiled(v, name), names)
    ensures Unfiled(v, name).active == v.active
  {
    CompatibleFinds(v, name, names);
    UnfiledKeepsExactly(v, name);
    if FindFold(v.pending, name) < |v.pending| {
      WithoutNames(v.pending, FindFold(v.pending, name));
    }
  }

  lemma WithoutNames(p: seq<Pending>, i: nat)
    requires i < |p|
    ensures NamesOf(Without(p, i)) <= NamesOf(p)
  {
    var q := Without(p, i);
    forall n | n in NamesOf(q) ensures n in NamesOf(p) {
      var j :| 0 <= j < |q| && n == q[j].config.name;
      assert q[j] == p[if j < i then j else j + 1];
    }
  }

  lemma UnboundGood(v: View, hs: set<Handle>, names: set<Name>)
    requires Good(v, names)
    ensures Good(v.(active := v.active - hs), names)
  {
  }

  lemma BindGood(v: View, cfg: Config, full: Name, h: Handle, ch: Chan, names: set<Name>)
    requires Good(v, names) && cfg.name in names && full in names
    requires KeyOf(full) == KeyOf(cfg.name) && !HasLive(v, cfg.name)
    ensures Good(Bind(v, cfg, full, h, ch), names)
  {
    var bound := RaiseRegistered(v.(active := v.active[h := Bound(full, ch)]));
    forall f, g | f in bound.active && g in bound.active &&
      KeyOf(bound.active[f].fullName) == KeyOf(bound.active[g].fullName) ensures f == g
    {
      assert f != h ==> f in v.active && v.active[f] == bound.active[f];
      assert g != h ==> g in v.active && v.active[g] == bound.active[g];
    }
    FiledGood(bound, Pending(cfg, 0), names);
  }

  lemma DeleteGood(v: View, h: Handle, name: Option<Name>, names: set<Name>)
    requires Good(v, names) && Compatible(names) && (name.Some? ==> name.value in names)
    ensures Good(DeleteOne(v, h, name), names)
  {
    if name.Some? {
      UnfiledGood(v, name.value, names);
      UnboundGood(Unfiled(v, name.value), {h}, names);
    } else {
      UnboundGood(v, {h}, names);
    }
  }

  lemma FlushOneGood(v: View, h: Handle, user: bool, names: set<Name>)
    requires Good(v, names) && Compatible(names)
    ensures Good(FlushOne(v, h, user), names)
  {
    if h in v.active {
      UnfiledGood(v, v.active[h].fullName, names);
      UnboundGood(Unfiled(v, v.active[h].fullName), {h}, names);
    } else {
      UnboundGood(v, {h}, names);
    }
  }

  lemma {:induction false} FlushAllGood(v: View, hs: seq<Handle>, user: bool, names: set<Name>)
    requires Good(v, names) && Compatible(names)
    ensures Good(FlushAll(v, hs, user), names)
    decreases |hs|
  {
    if hs != [] {
      FlushOneGood(v, hs[0], user, names);
      FlushAllGood(FlushOne(v, hs[0], user), hs[1..], user, names);
    }
  }

  lemma {:induction false} RestoredGood(v: View, p: seq<Pending>, names: set<Name>)
    requires Good(v, names) && NamesOf(p) <= names
    ensures Good(Restored(v, p), names)
    decreases |p|
  {
    if p != [] {
      assert p[0].config.name in NamesOf(p);
      assert NamesOf(p[1..]) <= names by {
        forall n | n in NamesOf(p[1..]) ensures n in names {
          var i :| 0 <= i < |p[1..]| && n == p[1..][i].config.name;
          assert p[i + 1].config.name in NamesOf(p);
        }
      }
      if PendingKey(p[0]) in v.keys {
        RestoredGood(v, p[1..], names);
      } else {
        FiledGood(v, p[0], names);
        RestoredGood(Filed(v, p[0]), p[1..], names);
      }
    }
  }

  lemma InvStep(s: State, op: Op, names: set<Name>)
    requires Enabled(s, op) && Inv(s, names) && Compatible(names) && OpNames(op) <= names
    ensures Inv(Step(s, op), names)
  {
    GoodStep(s, op, names);
  }

  lemma CommitGood(s: State, op: Op, names: set<Name>)
    requires Enabled(s, op) && Inv(s, names) && OpNames(op) <= names && op.Commit?
    ensures Good(Step(s, op).v, names)
  {
    if CommitCheck(s.v, op.cfg, op.ch, op.fullName.Some?, op.currentEpoch).None? {
      BindGood(s.v, op.cfg, op.fullName.value, op.h, op.ch, names);
    }
  }

  lemma GoodStep(s: State, op: Op, names: set<Name>)
    requires Enabled(s, op) && Inv(s, names) && Compatible(names) && OpNames(op) <= names
    ensures Good(Step(s, op).v, names)
  {
    match op
    case Commit(_, _, _, _, _) => CommitGood(s, op, names);
    case Delete(h, name) => DeleteGood(s.v, h, name, names);
    case SumDelete(hs, user) => FlushAllGood(s.v, hs, user, names);
    case Take =>
    case Requeue(p) => FiledGood(s.v, p, names);
    case Amend(name) => UnfiledGood(s.v, name, names);
    case Save =>
    case Reinstate(p) =>
    case Merge(p) => RestoredGood(s.v, p, names);
    case Unbind(hs) => UnboundGood(s.v, hs, names);
    case SetChannel(_) =>
    case Lower(_) =>
  }

  ghost predicate RunNames(ops: seq<Op>, names: set<Name>) {
    forall i | 0 <= i < |ops| :: OpNames(ops[i]) <= names
  }

  lemma {:induction false} InvRun(s: State, ops: seq<Op>, names: set<Name>)
    requires Inv(s, names) && Compatible(names) && RunNames(ops, names) && Exec(s, ops).Some?
    ensures Inv(Exec(s, ops).value, names)
    decreases |ops|
  {
    if ops != [] {
      InvStep(s, ops[0], names);
      InvRun(Step(s, ops[0]), ops[1..], names);
    }
  }

  const EMPTY: State := State(View(map[], [], {}, None, 0), {})

  /** In every state a fresh manager reaches: one entry per key, an index equal to those keys, one handle per key. */
  lemma BookkeepingHolds(ops: seq<Op>, names: set<Name>)
    requires Compatible(names) && RunNames(ops, names) && Exec(EMPTY, ops).Some?
    ensures
      var v := Exec(EMPTY, ops).value.v;
      UniqueKeys(v.pending) && v.keys == KeysOf(v.pending) && OneHandlePerKey(v.active)
  {
    InvRun(EMPTY, ops, names);
  }

  // ---------------------------------------------------------------- what takes a key off file

  /** Every key on file stays on file, and a bound channel stays bound. */
  predicate FileKept(v: View, u: View) {
    v.keys <= u.keys && (v.channel.Some? ==> u.channel.Some?)
  }

  /** The operations that never take a key off file or unbind the channel. */
  predicate KeepsFile(op: Op) {
    match op
    case Commit(_, _, _, _, _) => true
    case Delete(_, name) => name.None?
    case SumDelete(hs, user) => hs == [] && !user
    case Take => true
    case Requeue(_) => true
    case Amend(_) => false
    case Save => true
    case Reinstate(_) => false
    case Merge(_) => true
    case Unbind(_) => true
    case SetChannel(ch) => ch.Some?
    case Lower(_) => true
  }

  lemma KeepsFileStep(s: State, op: Op)
    requires OnFile(s.v) && Enabled(s, op) && KeepsFile(op)
    ensures FileKept(s.v, Step(s, op).v)
  {
    if op.Commit? {
      var bound := Bound(if op.fullName.Some? then op.fullName.value else "", op.ch);
      FiledKeeps(RaiseRegistered(s.v.(active := s.v.active[op.h := bound])),
                 Pending(op.cfg, 0));
    } else if op.Requeue? {
      FiledKeeps(s.v, op.entry);
    } else if op.Merge? {
      RestoredKeeps(s.v, op.p);
    }
  }

  /** One entry on file, and the handles bound for it. */
  function Single(name: Name, active: map<Handle, Bound>, channel: Option<Chan>): View {
    View(active, [Pending(Config(name, 0), 0)], {KeyOf(name)}, channel, 0)
  }

  lemma SingleOnFile(name: Name, active: map<Handle, Bound>, channel: Option<Chan>)
    ensures OnFile(Single(name, active, channel))
    ensures Unfiled(Single(name, active, channel), name).keys == {}
  {
    var v := Single(name, active, channel);
    assert PendingKey(v.pending[0]) in KeysOf(v.pending);
    assert FindFold(v.pending, name) == 0;
  }

  lemma {:induction false} FlushShrinks(v: View, hs: seq<Handle>, user: bool)
    ensures FlushAll(v, hs, user).keys <= v.keys
    decreases |hs|
  {
    if hs != [] {
      FlushShrinks(FlushOne(v, hs[0], user), hs[1..], user);
    }
  }

  lemma {:induction false} LongName(p: seq<Pending>) returns (name: Name)
    ensures forall i | 0 <= i < |p| :: |p[i].config.name| < |name|
  {
    if p == [] {
      name := "x";
    } else {
      name := LongName(p[1..]);
      name := name + p[0].config.name + "x";
      forall i | 0 <= i < |p| ensures |p[i].config.name| < |name| {
        if i > 0 {
          assert p[i] == p[1..][i - 1];
        }
      }
    }
  }

  lemma DeleteLoses(op: Op, name: Name) returns (s: State)
    requires op == Amend(name) || (op.Delete? && op.name == Some(name))
    ensures OnFile(s.v) && Enabled(s, op) && !FileKept(s.v, Step(s, op).v)
  {
    s := State(Single(name, map[], None), {});
    SingleOnFile(name, map[], None);
    assert KeyOf(name) in s.v.keys && Step(s, op).v.keys == {};
  }

  lemma SumDeleteLoses(hs: seq<Handle>, user: bool) returns (s: State)
    requires hs != []
    ensures OnFile(s.v) && !FileKept(s.v, Step(s, SumDelete(hs, user)).v)
  {
    var name := "x";
    var active := map[hs[0] := Bound(name, 0)];
    s := State(Single(name, active, None), {});
    SingleOnFile(name, active, None);
    var w := FlushOne(s.v, hs[0], user);
    assert w.keys == {};
    FlushShrinks(w, hs[1..], user);
    assert KeyOf(name) in s.v.keys;
  }

  lemma ReinstateLoses(p: seq<Pending>) returns (s: State)
    ensures OnFile(s.v) && Enabled(s, Reinstate(p)) && !FileKept(s.v, Step(s, Reinstate(p)).v)
  {
    var name := LongName(p);
    s := State(Single(name, map[], None), {p});
    SingleOnFile(name, map[], None);
    forall i | 0 <= i < |p| ensures PendingKey(p[i]) != KeyOf(name) {
      assert |PendingKey(p[i])| == |p[i].config.name|;
    }
    assert KeyOf(name) in s.v.keys && KeyOf(name) !in KeysOf(p);
  }

  /** A state in which the operation takes a key off file or unbinds the channel. */
  lemma FileLosing(op: Op) returns (s: State)
    requires !KeepsFile(op)
    ensures OnFile(s.v) && Enabled(s, op) && !FileKept(s.v, Step(s, op).v)
  {
    if op.Delete? {
      s := DeleteLoses(op, op.name.value);
    } else if op.Amend? {
      s := DeleteLoses(op, op.stranded);
    } else if op.Reinstate? {
      s := ReinstateLoses(op.p);
    } else if op.SumDelete? && op.hs != [] {
      s := SumDeleteLoses(op.hs, op.user);
    } else {
      s := State(View(map[], [], {}, Some(0), 0), {});
    }
  }

  /** Exactly these operations keep every key on file and the channel bound, in every state. */
  lemma KeepsFileExactly(op: Op)
    ensures (forall s: State | OnFile(s.v) && Enabled(s, op) :: FileKept(s.v, Step(s, op).v)) <==> KeepsFile(op)
  {
    if KeepsFile(op) {
      forall s: State | OnFile(s.v) && Enabled(s, op) ensures FileKept(s.v, Step(s, op).v) {
        KeepsFileStep(s, op);
      }
    } else {
      var s := FileLosing(op);
    }
  }

  /** A recovery whose sweep unbound another batch's handle, and that batch settling before the snapshot. */
  function SettledMeanwhile(s: State, name: Name): seq<Op> {
    var p := Unfiled(s.v, name).pending;
    [Take, Amend(name), Save, Reinstate([]), Reinstate(p), Merge(p)]
  }

  /**
   * No delete takes part, and yet the batch's key, on file at entry, is off file after the failed recovery; every
   * other key is kept.
   */
  lemma SettleDuringRecovery(s: State, name: Name, names: set<Name>)
    requires Inv(s, names) && Compatible(names) && name in names && KeyOf(name) in s.v.keys
    ensures Exec(s, SettledMeanwhile(s, name)).Some?
    ensures Exec(s, SettledMeanwhile(s, name)).value.v.keys == s.v.keys - {KeyOf(name)}
  {
    var p := Unfiled(s.v, name).pending;
    var ops := SettledMeanwhile(s, name);
    var a := Step(s, Take);
    var b := Step(a, Amend(name));
    SettleStep(s, name, names);
    FailedRecovery(b, p);
    assert ops[1..][1..] == [Save, Reinstate([]), Reinstate(p), Merge(p)];
    assert Exec(a, ops[1..]) == Exec(b, ops[1..][1..]);
  }

  /** Snapshot, clear, roll back, merge: the entries are the ones at the snapshot. */
  lemma FailedRecovery(b: State, p: seq<Pending>)
    requires b.v.pending == p && UniqueKeys(p)
    ensures Exec(b, [Save, Reinstate([]), Reinstate(p), Merge(p)]).Some?
    ensures Exec(b, [Save, Reinstate([]), Reinstate(p), Merge(p)]).value.v.keys == KeysOf(p)
  {
    var c := Step(b, Save);
    var d := Step(c, Reinstate([]));
    var e := Step(d, Reinstate(p));
    RestoredKeeps(e.v, p);
    var f := Step(e, Merge(p));
    assert Exec(f, []) == Some(f);
    assert Exec(e, [Merge(p)]) == Some(f);
    assert Exec(d, [Reinstate(p), Merge(p)]) == Some(f);
    assert Exec(c, [Reinstate([]), Reinstate(p), Merge(p)]) == Some(f);
  }

  lemma SettleStep(s: State, name: Name, names: set<Name>)
    requires Inv(s, names) && Compatible(names) && name in names && KeyOf(name) in s.v.keys
    ensures
      var u := Unfiled(s.v.(active := map[]), name);
      u.pending == Unfiled(s.v, name).pending && UniqueKeys(u.pending) && KeysOf(u.pending) == s.v.keys - {KeyOf(name)}
  {
    var v := s.v.(active := map[]);
    CompatibleFinds(v, name, names);
    UnfiledKeepsExactly(v, name);
  }
}
