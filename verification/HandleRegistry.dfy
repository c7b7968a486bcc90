/** The registry's nine maps, updated in place, refine the one keyed table of the protocol. */
module HandleRegistry {
  import opened Status
  import opened Protocol

  function KeysOf(table: map<Key, nat>, k: Kind): set<Key> {
    set key | key in table && key.kind == k
  }

  /** A map from handles has as many entries as the table has keys of its kind. */
  lemma {:induction false} KindSize(table: map<Key, nat>, k: Kind, m: map<nat, nat>)
    requires forall h :: h in m <==> Key(k, h) in table
    ensures |KeysOf(table, k)| == |m|
    decreases |m|
  {
    if m == map[] { assert KeysOf(table, k) == {}; }
    else {
      var h :| h in m;
      var rest := m - {h};
      assert rest.Keys == m.Keys - {h} && |rest.Keys| == |m.Keys| - 1;
      KindSize(table - {Key(k, h)}, k, rest);
      assert KeysOf(table, k) == KeysOf(table - {Key(k, h)}, k) + {Key(k, h)};
    }
  }

  /** A numbering of the kinds in which the one uncounted kind comes last. */
  function Place(k: Kind): nat {
    match k
    case Scan => 0 case Installer => 1 case Purge => 2 case Uninstall => 3 case Picked => 4
    case Simulator => 5 case Orphan => 6 case EmptyTrash => 7 case Runtime => 8
  }

  function KeysBelow(table: map<Key, nat>, place: Kind -> nat, n: nat): set<Key> {
    set key | key in table && place(key.kind) < n
  }

  ghost predicate Alone(place: Kind -> nat, k: Kind) {
    forall j :: place(j) == place(k) ==> j == k
  }

  lemma PlaceInjective()
    ensures forall k :: Alone(Place, k)
  {
  }

  lemma OneMoreKind(table: map<Key, nat>, place: Kind -> nat, k: Kind)
    requires Alone(place, k)
    ensures |KeysBelow(table, place, place(k) + 1)| == |KeysBelow(table, place, place(k))| + |KeysOf(table, k)|
  {
    var n := place(k);
    assert KeysBelow(table, place, n + 1) == KeysBelow(table, place, n) + KeysOf(table, k);
    assert KeysBelow(table, place, n) !! KeysOf(table, k);
  }

  lemma FirstFour(table: map<Key, nat>)
    ensures |KeysOf(table, Scan)| + |KeysOf(table, Installer)| + |KeysOf(table, Purge)| + |KeysOf(table, Uninstall)|
         == |KeysBelow(table, Place, 4)|
  {
    PlaceInjective();
    assert KeysBelow(table, Place, 0) == {};
    OneMoreKind(table, Place, Scan);
    OneMoreKind(table, Place, Installer);
    OneMoreKind(table, Place, Purge);
    OneMoreKind(table, Place, Uninstall);
  }

  lemma NextFour(table: map<Key, nat>)
    ensures |KeysOf(table, Picked)| + |KeysOf(table, Simulator)| + |KeysOf(table, Orphan)| + |KeysOf(table, EmptyTrash)|
         == |KeysBelow(table, Place, 8)| - |KeysBelow(table, Place, 4)|
  {
    PlaceInjective();
    OneMoreKind(table, Place, Picked);
    OneMoreKind(table, Place, Simulator);
    OneMoreKind(table, Place, Orphan);
    OneMoreKind(table, Place, EmptyTrash);
  }

  /** The counted keys fall into eight classes, one for each map that is added up. */
  lemma CountedClasses(table: map<Key, nat>)
    ensures |KeysOf(table, Scan)| + |KeysOf(table, Installer)| + |KeysOf(table, Purge)| + |KeysOf(table, Uninstall)|
          + |KeysOf(table, Picked)| + |KeysOf(table, Simulator)| + |KeysOf(table, Orphan)| + |KeysOf(table, EmptyTrash)|
         == |CountedKeys(table)|
  {
    FirstFour(table);
    NextFour(table);
    assert KeysBelow(table, Place, 8) == CountedKeys(table);
  }

  class Registry {
    ghost var table: map<Key, nat>   // the nine maps as one
    var nextHandle: nat
    var emptyTrash: map<nat, nat>
    var picked: map<nat, nat>
    var jobs: map<nat, nat>
    var installers: map<nat, nat>
    var purges: map<nat, nat>
    var uninstalls: map<nat, nat>
    var runtimes: map<nat, nat>
    var simulators: map<nat, nat>
    var orphans: map<nat, nat>

    constructor ()
      ensures Valid() && nextHandle == 1 && table == map[]
    {
      table, nextHandle := map[], 1;
      emptyTrash, picked, jobs, installers, purges := map[], map[], map[], map[], map[];
      uninstalls, runtimes, simulators, orphans := map[], map[], map[], map[];
    }

    function Slots(k: Kind): map<nat, nat>
      reads `jobs, `installers, `purges, `uninstalls, `picked, `simulators, `orphans, `emptyTrash, `runtimes
    {
      match k
      case Scan => jobs
      case Installer => installers
      case Purge => purges
      case Uninstall => uninstalls
      case Picked => picked
      case Simulator => simulators
      case Orphan => orphans
      case EmptyTrash => emptyTrash
      case Runtime => runtimes
    }

    ghost predicate Valid()
      reads `table, `jobs, `installers, `purges, `uninstalls, `picked, `simulators, `orphans, `emptyTrash, `runtimes
    {
      forall k, h :: (Key(k, h) in table <==> h in Slots(k)) && (h in Slots(k) ==> table[Key(k, h)] == Slots(k)[h])
    }

    function Held(): nat
      reads this
    {
      |jobs| + |installers| + |purges| + |uninstalls| + |picked| + |simulators| + |orphans| + |emptyTrash|
    }

    lemma Size(k: Kind)
      requires Valid()
      ensures |KeysOf(table, k)| == |Slots(k)|
    {
      KindSize(table, k, Slots(k));
    }

    /** The eight lengths that `allocate_handle` adds are the counted part of the table. */
    lemma CountedSize()
      requires Valid()
      ensures Held() == |CountedKeys(table)|
    {
      Size(Scan); Size(Installer); Size(Purge); Size(Uninstall);
      Size(Picked); Size(Simulator); Size(Orphan); Size(EmptyTrash);
      CountedClasses(table);
    }

    method AllocateHandle() returns (r: Result<nat>)
      requires Valid()
      modifies this`nextHandle
      ensures Valid() && r == Allocate(old(nextHandle), |CountedKeys(table)|)
      ensures nextHandle == if r.Ok? then old(nextHandle) + 1 else old(nextHandle)
    {
      CountedSize();
      if Held() >= MAX_TASKS {
        return Err(LIMIT_EXCEEDED);
      }
      var handle := nextHandle;
      var following := CheckedAdd(handle, 1);
      if following.None? { return Err(LIMIT_EXCEEDED); }
      nextHandle := following.value;
      return Ok(handle);
    }

    /** Assigns one of the nine fields. */
    method Store(k: Kind, m: map<nat, nat>)
      modifies this
      ensures nextHandle == old(nextHandle) && table == old(table)
      ensures Slots(k) == m && forall j :: j != k ==> Slots(j) == old(Slots(j))
    {
      match k {
        case Scan => jobs := m;
        case Installer => installers := m;
        case Purge => purges := m;
        case Uninstall => uninstalls := m;
        case Picked => picked := m;
        case Simulator => simulators := m;
        case Orphan => orphans := m;
        case EmptyTrash => emptyTrash := m;
        case Runtime => runtimes := m;
      }
    }

    method Put(k: Kind, handle: nat, slot: nat)
      requires Valid()
      modifies this
      ensures Valid() && nextHandle == old(nextHandle)
      ensures table == old(table)[Key(k, handle) := slot]
    {
      Store(k, Slots(k)[handle := slot]);
      table := table[Key(k, handle) := slot];
    }

    /** The start calls, between locking the registry and unlocking it: allocate, spawn, insert. */
    method Start(k: Kind, slot: nat, ok: bool) returns (r: Result<nat>)
      requires Valid()
      modifies this
      ensures Valid()
      ensures Allocate(old(nextHandle), |CountedKeys(old(table))|).Err? ==>
        r == Allocate(old(nextHandle), |CountedKeys(old(table))|)
        && nextHandle == old(nextHandle) && table == old(table)
      ensures Allocate(old(nextHandle), |CountedKeys(old(table))|).Ok? ==>
        && nextHandle == old(nextHandle) + 1
        && r == (if ok then Ok(old(nextHandle)) else Err(INTERNAL_ERROR))
        && table == if ok then old(table)[Key(k, old(nextHandle)) := slot] else old(table)
    {
      var handle := AllocateHandle();
      if handle.Err? { return handle; }
      if !ok { return Err(INTERNAL_ERROR); }
      Put(k, handle.value, slot);
      return handle;
    }

    method Get(k: Kind, handle: nat) returns (r: Result<nat>)
      requires Valid()
      ensures r == if Key(k, handle) in table then Ok(table[Key(k, handle)]) else Err(INVALID_HANDLE)
    {
      var slots := Slots(k);
      if handle in slots { return Ok(slots[handle]); }
      return Err(INVALID_HANDLE);
    }

    method Remove(k: Kind, handle: nat) returns (code: int)
      requires Valid()
      modifies this
      ensures Valid() && nextHandle == old(nextHandle)
      ensures table == old(table) - {Key(k, handle)}
      ensures code == if Key(k, handle) in old(table) then OK else INVALID_HANDLE
    {
      code := if handle in Slots(k) then OK else INVALID_HANDLE;
      Store(k, Slots(k) - {handle});
      table := table - {Key(k, handle)};
    }
  }
}
