/** The notification manager's bookkeeping: bound handles, the caller's intent, and its key index. */
module NotificationManager {

  import opened Basics
  import opened SymbolNames

  type Handle = nat
  type Chan = nat

  datatype Config = Config(name: Name, params: nat)

  datatype Pending = Pending(config: Config, attempts: nat)

  datatype Bound = Bound(fullName: Name, ch: Chan)

  /** What the manager's fields hold. */
  datatype View = View(
    active: map<Handle, Bound>,
    pending: seq<Pending>,
    keys: set<Key>,
    channel: Option<Chan>,
    registered: nat)

  // ---------------------------------------------------------------- specification

  function PendingKey(p: Pending): Key {
    KeyOf(p.config.name)
  }

  function KeysOf(p: seq<Pending>): set<Key> {
    set i | 0 <= i < |p| :: PendingKey(p[i])
  }

  predicate UniqueKeys(p: seq<Pending>) {
    forall i, j | 0 <= i < j < |p| :: PendingKey(p[i]) != PendingKey(p[j])
  }

  /** The first entry under a key, or the length. */
  function Find(p: seq<Pending>, key: Key): (i: nat)
    ensures i <= |p| && (i < |p| ==> PendingKey(p[i]) == key)
    ensures forall j | 0 <= j < i :: PendingKey(p[j]) != key
  {
    if p == [] || PendingKey(p[0]) == key then 0 else 1 + Find(p[1..], key)
  }

  /** The first entry whose name folds with this one, or the length. */
  function FindFold(p: seq<Pending>, name: Name): (i: nat)
    ensures i <= |p| && (i < |p| ==> EqualFold(p[i].config.name, name))
    ensures forall j | 0 <= j < i :: !EqualFold(p[j].config.name, name)
  {
    if p == [] || EqualFold(p[0].config.name, name) then 0 else 1 + FindFold(p[1..], name)
  }

  function Filed(v: View, e: Pending): View {
    var key := PendingKey(e);
    var i := Find(v.pending, key);
    if key in v.keys && i < |v.pending| then v.(pending := v.pending[i := e])
    else v.(pending := v.pending + [e], keys := v.keys + {key})
  }

  function Unfiled(v: View, name: Name): View {
    var key := KeyOf(name);
    var i := FindFold(v.pending, name);
    if key !in v.keys then v
    else if i < |v.pending| then v.(keys := v.keys - {key}, pending := v.pending[..i] + v.pending[i + 1..])
    else v.(keys := v.keys - {key})
  }

  function Reset(v: View, p: seq<Pending>): View {
    v.(pending := p, keys := KeysOf(p))
  }

  function Restored(v: View, snapshot: seq<Pending>): View
    decreases |snapshot|
  {
    if snapshot == [] then v
    else if PendingKey(snapshot[0]) in v.keys then Restored(v, snapshot[1..])
    else Restored(Filed(v, snapshot[0]), snapshot[1..])
  }

  predicate HasLive(v: View, name: Name) {
    exists h | h in v.active :: KeyOf(v.active[h].fullName) == KeyOf(name)
  }

  function RaiseRegistered(v: View): View {
    if |v.active| > v.registered then v.(registered := |v.active|) else v
  }

  function LowerRegisteredTo(v: View, n: nat): View {
    if n < v.registered then v.(registered := n) else v
  }

  /** Why a commit under the manager lock is refused. */
  datatype Refusal = Stranded | Vanished | ChannelMismatch | Duplicate

  /** The checks made under the manager lock, in order. */
  function CommitCheck(v: View, cfg: Config, ch: Chan, present: bool, currentEpoch: bool): Option<Refusal> {
    if !currentEpoch then Some(Stranded)
    else if !present then Some(Vanished)
    else if v.channel.Some? && v.channel.value != ch then Some(ChannelMismatch)
    else if HasLive(v, cfg.name) then Some(Duplicate)
    else None
  }

  function Bind(v: View, cfg: Config, fullName: Name, h: Handle, ch: Chan): View {
    var bound := RaiseRegistered(v.(active := v.active[h := Bound(fullName, ch)]));
    Filed(bound, Pending(cfg, 0)).(channel := Some(ch))
  }

  /** The closing section of a caller's delete: the name was looked up before the request went out. */
  function DeleteOne(v: View, h: Handle, name: Option<Name>): View {
    var w := if name.Some? then Unfiled(v, name.value) else v;
    var x := w.(active := w.active - {h}, registered := |w.active - {h}|);
    if name.Some? && x.active == map[] then x.(channel := None) else x
  }

  /** One handle of a batch delete the PLC confirmed. */
  function FlushOne(v: View, h: Handle, user: bool): View {
    var w := if h in v.active then Unfiled(v, v.active[h].fullName) else v;
    var x := w.(active := w.active - {h});
    if user then x.(registered := |x.active|) else x
  }

  function FlushAll(v: View, hs: seq<Handle>, user: bool): View
    decreases |hs|
  {
    if hs == [] then v else FlushAll(FlushOne(v, hs[0], user), hs[1..], user)
  }

  function Flush(v: View, hs: seq<Handle>, user: bool): View {
    var w := FlushAll(v, hs, user);
    if user && w.active == map[] then w.(channel := None) else w
  }

  lemma FlushNext(v: View, hs: seq<Handle>, i: nat, user: bool)
    requires i < |hs|
    ensures FlushAll(v, hs[i..], user) == FlushAll(FlushOne(v, hs[i], user), hs[i + 1..], user)
  {
    assert hs[i..][1..] == hs[i + 1..];
  }

  // ---------------------------------------------------------------- the object

  class Manager {
    var active: map<Handle, Bound>
    var pending: seq<Pending>
    var configsByKey: set<Key>
    var channel: Option<Chan>
    var registered: nat

    constructor ()
      ensures Now() == View(map[], [], {}, None, 0)
    {
      active, pending, configsByKey, channel, registered := map[], [], {}, None, 0;
    }

    function Now(): View
      reads this
    {
      View(active, pending, configsByKey, channel, registered)
    }

    method SetPending(p: Pending)
      modifies this
      ensures Now() == Filed(old(Now()), p)
    {
      var key := PendingKey(p);
      if key in configsByKey {
        var i := 0;
        while i < |pending|
          invariant i <= Find(pending, key)
          invariant Now() == old(Now())
        {
          if PendingKey(pending[i]) == key {
            pending := pending[i := p];
            return;
          }
          i := i + 1;
        }
      }
      pending := pending + [p];
      configsByKey := configsByKey + {key};
    }

    method RemoveNotificationConfig(name: Name)
      modifies this
      ensures Now() == Unfiled(old(Now()), name)
    {
      var key := KeyOf(name);
      if key !in configsByKey {
        return;
      }
      configsByKey := configsByKey - {key};
      var i := 0;
      while i < |pending|
        invariant i <= FindFold(pending, name)
        invariant Now() == old(Now()).(keys := configsByKey)
        invariant configsByKey == old(configsByKey) - {key}
      {
        if EqualFold(pending[i].config.name, name) {
          pending := pending[..i] + pending[i + 1..];
          return;
        }
        i := i + 1;
      }
    }

    method ResetConfigs(p: seq<Pending>)
      modifies this
      ensures Now() == Reset(old(Now()), p)
    {
      pending := p;
      configsByKey := {};
      for i := 0 to |p|
        invariant configsByKey == KeysOf(p[..i])
        invariant Now() == old(Now()).(pending := p, keys := configsByKey)
      {
        KeysOfSnoc(p, i);
        configsByKey := configsByKey + {PendingKey(p[i])};
      }
      assert p[..|p|] == p;
    }

    method RestoreConfigs(snapshot: seq<Pending>)
      modifies this
      ensures Now() == Restored(old(Now()), snapshot)
    {
      var i := 0;
      assert snapshot[0..] == snapshot;
      while i < |snapshot|
        invariant 0 <= i <= |snapshot|
        invariant Restored(Now(), snapshot[i..]) == Restored(old(Now()), snapshot)
      {
        assert snapshot[i..][1..] == snapshot[i + 1..];
        if PendingKey(snapshot[i]) !in configsByKey {
          SetPending(snapshot[i]);
        }
        i := i + 1;
      }
    }

    method HasLiveNotification(name: Name) returns (live: bool)
      ensures live == HasLive(Now(), name)
    {
      var todo := active.Keys;
      while todo != {}
        invariant todo <= active.Keys
        invariant forall h | h in active && h !in todo :: KeyOf(active[h].fullName) != KeyOf(name)
        decreases |todo|
      {
        var h :| h in todo;
        if KeyOf(active[h].fullName) == KeyOf(name) {
          return true;
        }
        todo := todo - {h};
      }
      return false;
    }

    method LiveNotificationNames() returns (live: set<Key>)
      ensures live == LiveKeys(Now())
    {
      live := {};
      var todo := active.Keys;
      while todo != {}
        invariant todo <= active.Keys
        invariant live == set h | h in active && h !in todo :: KeyOf(active[h].fullName)
        decreases |todo|
      {
        var h :| h in todo;
        todo := todo - {h};
        live := live + {KeyOf(active[h].fullName)};
      }
    }

    /** The commit's section under the manager lock. */
    method Commit(cfg: Config, fullName: Option<Name>, h: Handle, ch: Chan, currentEpoch: bool)
      returns (r: Option<Refusal>)
      modifies this
      ensures r == CommitCheck(old(Now()), cfg, ch, fullName.Some?, currentEpoch)
      ensures Now() == if r.Some? then old(Now()) else Bind(old(Now()), cfg, fullName.value, h, ch)
    {
      if !currentEpoch {
        return Some(Stranded);
      }
      if fullName.None? {
        return Some(Vanished);
      }
      if channel.Some? && channel.value != ch {
        return Some(ChannelMismatch);
      }
      var live := HasLiveNotification(cfg.name);
      if live {
        return Some(Duplicate);
      }
      active := active[h := Bound(fullName.value, ch)];
      if |active| > registered {
        registered := |active|;
      }
      SetPending(Pending(cfg, 0));
      channel := Some(ch);
      return None;
    }

    /** The closing section of DeleteDeviceNotification. */
    method FinishDelete(h: Handle, name: Option<Name>)
      modifies this
      ensures Now() == DeleteOne(old(Now()), h, name)
    {
      if name.Some? {
        RemoveNotificationConfig(name.value);
      }
      active := active - {h};
      registered := |active|;
      if name.Some? && active == map[] {
        channel := None;
      }
    }

    /** The closing section of sumDeleteDeviceNotification, over the handles the PLC confirmed. */
    method FinishSumDelete(hs: seq<Handle>, user: bool)
      modifies this
      ensures Now() == Flush(old(Now()), hs, user)
    {
      ghost var all := FlushAll(Now(), hs, user);
      assert hs[0..] == hs;
      for i := 0 to |hs|
        invariant FlushAll(Now(), hs[i..], user) == all
      {
        FlushNext(Now(), hs, i, user);
        DropHandle(hs[i], user);
      }
      if user && active == map[] {
        channel := None;
      }
    }

    /** One confirmed handle: its config comes off file if it was bound. */
    method DropHandle(h: Handle, user: bool)
      modifies this
      ensures Now() == FlushOne(old(Now()), h, user)
    {
      if h in active {
        RemoveNotificationConfig(active[h].fullName);
      }
      active := active - {h};
      if user {
        registered := |active|;
      }
    }

    /** takeNotificationHandles: empties the bound handles and returns them. */
    method TakeHandles() returns (taken: set<Handle>)
      modifies this
      ensures taken == old(active).Keys && Now() == old(Now()).(active := map[])
    {
      taken := active.Keys;
      active := map[];
    }
  }

  function LiveKeys(v: View): set<Key> {
    set h | h in v.active :: KeyOf(v.active[h].fullName)
  }

  lemma KeysOfSnoc(p: seq<Pending>, i: nat)
    requires i < |p|
    ensures KeysOf(p[..i + 1]) == KeysOf(p[..i]) + {PendingKey(p[i])}
  {
    forall k | k in KeysOf(p[..i + 1]) ensures k in KeysOf(p[..i]) + {PendingKey(p[i])} {
      var j :| 0 <= j < i + 1 && k == PendingKey(p[..i + 1][j]);
      if j < i {
        assert p[..i][j] == p[j];
      }
    }
    forall k | k in KeysOf(p[..i]) ensures k in KeysOf(p[..i + 1]) {
      var j :| 0 <= j < i && k == PendingKey(p[..i][j]);
      assert p[..i + 1][j] == p[j];
    }
    assert p[..i + 1][i] == p[i];
  }
}
