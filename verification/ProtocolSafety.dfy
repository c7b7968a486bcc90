/** Every step of the registry protocol keeps its invariant. */
module ProtocolSafety {
  import opened Status
  import opened Protocol

  lemma KeysDistinct(s: State, i: nat, j: nat)
    requires Increasing(s.slots) && i < |s.slots| && j < |s.slots| && i != j
    ensures s.slots[i].key != s.slots[j].key
  {
    if i < j { assert s.slots[i].key.handle < s.slots[j].key.handle; }
    else { assert s.slots[j].key.handle < s.slots[i].key.handle; }
  }

  lemma SubsetSize<T>(a: set<T>, b: set<T>)
    requires a <= b
    ensures |a| <= |b|
  {
    assert b == a + (b - a);
    assert |a + (b - a)| == |a| + |b - a|;
  }

  lemma LogIsFree(s: State, log: seq<Entry>)
    requires Core(s)
    ensures Core(s.(log := log))
  {
    var n := s.(log := log);
    forall u | 0 <= u < |n.pcs| ensures ThreadOk(n, u) { assert ThreadOk(s, u); }
    forall i | 0 <= i < |n.slots| ensures SlotOk(n, i) { assert SlotOk(s, i); }
    forall key ensures KeyOk(n, key) { assert KeyOk(s, key); }
  }

  lemma InvokeKeeps(s: State, t: nat, c: Call)
    requires Core(s) && Enabled(s, Invoke(t, c))
    ensures Core(Next(s, Invoke(t, c)))
  {
    var n := Next(s, Invoke(t, c));
    forall u | 0 <= u < |n.pcs| ensures ThreadOk(n, u) { assert ThreadOk(s, u); }
    forall i | 0 <= i < |n.slots| ensures SlotOk(n, i) { assert SlotOk(s, i); }
    forall key ensures KeyOk(n, key) { assert KeyOk(s, key); }
  }

  lemma WorkerKeeps(s: State, i: nat)
    requires Core(s) && Enabled(s, WorkerDone(i))
    ensures Core(Next(s, WorkerDone(i)))
  {
    var n := Next(s, WorkerDone(i));
    forall u | 0 <= u < |n.pcs| ensures ThreadOk(n, u) { assert ThreadOk(s, u); }
    forall j | 0 <= j < |n.slots| ensures SlotOk(n, j) { assert SlotOk(s, j); }
    forall key ensures KeyOk(n, key) { assert KeyOk(s, key); }
  }

  lemma LockKeeps(s: State, t: nat, ok: bool)
    requires Core(s) && CanStep(s, t) && WaitsForRegistry(s.pcs[t])
    ensures Core(Advance(s, t, ok))
  {
    var n := Advance(s, t, ok);
    assert ThreadOk(s, t);
    forall u | 0 <= u < |n.pcs| ensures ThreadOk(n, u) { assert ThreadOk(s, u); }
    forall j | 0 <= j < |n.slots| ensures SlotOk(n, j) { assert SlotOk(s, j); }
    forall key ensures KeyOk(n, key) { assert KeyOk(s, key); }
  }

  lemma LookingKeeps(s: State, t: nat, c: Call)
    requires Core(s) && t < |s.pcs| && s.pcs[t] == Looking(c) && ThreadOk(s, t)
    ensures Core(StepLooking(s, t, c))
  {
    var n := StepLooking(s, t, c);
    assert KeyOk(s, Target(c));
    assert ThreadOk(s, t);
    forall u | 0 <= u < |n.pcs| ensures ThreadOk(n, u) { assert ThreadOk(s, u); }
    forall j | 0 <= j < |n.slots| ensures SlotOk(n, j) { assert SlotOk(s, j); }
    forall key ensures KeyOk(n, key) { assert KeyOk(s, key); }
  }

  function Edit(s: State, t: nat, i: nat, slot: Slot, pc: Pc, log: seq<Entry>): State
    requires t < |s.pcs| && i < |s.slots|
  {
    s.(slots := s.slots[i := slot], pcs := s.pcs[t := pc], log := log)
  }

  /**
   A thread that works on slot `i` and holds no registry lock may rewrite its own program counter and,
   if nobody else holds the slot, the slot itself; only the two of them need to be looked at again.
   */
  lemma EditKeeps(s: State, t: nat, i: nat, slot: Slot, pc: Pc, log: seq<Entry>)
    requires Core(s) && t < |s.pcs| && i < |s.slots| && ThreadOk(s, t)
    requires NamesSlot(s.pcs[t]) && s.pcs[t].slot == i && !HoldsRegistry(s.pcs[t]) && !HoldsRegistry(pc)
    requires slot.key == s.slots[i].key
    requires s.slots[i].holder in {None, Some(t)} || slot.(cancelled := s.slots[i].cancelled) == s.slots[i]
    requires ThreadOk(Edit(s, t, i, slot, pc, log), t) && SlotOk(Edit(s, t, i, slot, pc, log), i)
    ensures Core(Edit(s, t, i, slot, pc, log))
  {
    var n := Edit(s, t, i, slot, pc, log);
    forall u | 0 <= u < |n.pcs| ensures ThreadOk(n, u) { assert ThreadOk(s, u); }
    forall j | 0 <= j < |n.slots| ensures SlotOk(n, j) { assert SlotOk(s, j); }
    forall key ensures KeyOk(n, key) { assert KeyOk(s, key); }
  }

  lemma FoundKeeps(s: State, t: nat, c: Call, i: nat)
    requires Core(s) && t < |s.pcs| && s.pcs[t] == Found(c, i) && ThreadOk(s, t)
    ensures Core(StepFound(s, t, c, i))
  {
    var n := StepFound(s, t, c, i);
    assert SlotOk(s, i);
    assert n == Edit(s, t, i, n.slots[i], n.pcs[t], n.log);
    EditKeeps(s, t, i, n.slots[i], n.pcs[t], n.log);
  }

  lemma TryingKeeps(s: State, t: nat, c: Call, i: nat)
    requires Core(s) && t < |s.pcs| && s.pcs[t] == Trying(c, i) && ThreadOk(s, t)
    ensures Core(StepTrying(s, t, c, i))
  {
    var n := StepTrying(s, t, c, i);
    assert SlotOk(s, i);
    assert n == Edit(s, t, i, n.slots[i], n.pcs[t], n.log);
    EditKeeps(s, t, i, n.slots[i], n.pcs[t], n.log);
  }

  lemma UseKeeps(s: State, t: nat, c: Call, i: nat, ok: bool)
    requires Core(s) && t < |s.pcs| && s.pcs[t] == Inside(c, i) && (c.Use? || c.Execute?) && ThreadOk(s, t)
    ensures Core(StepUse(s, t, c, i, ok))
  {
    var n := StepUse(s, t, c, i, ok);
    assert SlotOk(s, i);
    EditKeeps(s, t, i, n.slots[i], n.pcs[t], n.log);
    assert n == Edit(s, t, i, n.slots[i], n.pcs[t], n.log);
  }

  lemma CancelLockedKeeps(s: State, t: nat, c: Call, i: nat)
    requires Core(s) && t < |s.pcs| && s.pcs[t] == Inside(c, i) && c.CancelLocked? && ThreadOk(s, t)
    ensures Core(StepCancelLocked(s, t, c, i))
  {
    var n := StepCancelLocked(s, t, c, i);
    assert SlotOk(s, i);
    EditKeeps(s, t, i, n.slots[i], n.pcs[t], n.log);
    assert n == Edit(s, t, i, n.slots[i], n.pcs[t], n.log);
  }

  lemma SelectionKeeps(s: State, t: nat, c: Call, i: nat, ok: bool)
    requires Core(s) && t < |s.pcs| && s.pcs[t] == Inside(c, i) && c.SelectionStart? && ThreadOk(s, t)
    ensures Core(StepSelection(s, t, c, i, ok))
  {
    var n := StepSelection(s, t, c, i, ok);
    assert SlotOk(s, i);
    EditKeeps(s, t, i, n.slots[i], n.pcs[t], n.log);
    assert n == Edit(s, t, i, n.slots[i], n.pcs[t], n.log);
  }

  lemma PurgeReadKeeps(s: State, t: nat, c: Call, i: nat, ok: bool)
    requires Core(s) && t < |s.pcs| && s.pcs[t] == Inside(c, i) && c.PurgeExecute? && ThreadOk(s, t)
    ensures Core(StepPurgeRead(s, t, c, i, ok))
  {
    var n := StepPurgeRead(s, t, c, i, ok);
    assert SlotOk(s, i);
    EditKeeps(s, t, i, n.slots[i], n.pcs[t], n.log);
    assert n == Edit(s, t, i, n.slots[i], n.pcs[t], n.log);
  }

  lemma CloseKeeps(s: State, t: nat, c: Call, i: nat)
    requires Core(s) && t < |s.pcs| && s.pcs[t] == Inside(c, i) && c.Release? && ThreadOk(s, t)
    ensures Core(StepRelease(s, t, c, i))
  {
    var n := StepRelease(s, t, c, i);
    assert SlotOk(s, i);
    EditKeeps(s, t, i, n.slots[i], n.pcs[t], n.log);
    assert n == Edit(s, t, i, n.slots[i], n.pcs[t], n.log);
  }

  lemma InsideKeeps(s: State, t: nat, c: Call, i: nat, ok: bool)
    requires Core(s) && t < |s.pcs| && s.pcs[t] == Inside(c, i) && ThreadOk(s, t)
    ensures Core(StepInside(s, t, c, i, ok))
  {
    match c
    case Release(_) => CloseKeeps(s, t, c, i);
    case CancelLocked(_) => CancelLockedKeeps(s, t, c, i);
    case SelectionStart(_) => SelectionKeeps(s, t, c, i, ok);
    case PurgeExecute(_) => PurgeReadKeeps(s, t, c, i, ok);
    case _ => UseKeeps(s, t, c, i, ok);
  }

  lemma LeavingKeeps(s: State, t: nat, c: Call, i: nat, code: int)
    requires Core(s) && t < |s.pcs| && s.pcs[t] == Leaving(c, i, code) && ThreadOk(s, t)
    ensures Core(StepLeaving(s, t, c, i, code))
  {
    var n := StepLeaving(s, t, c, i, code);
    assert SlotOk(s, i);
    assert n == Edit(s, t, i, n.slots[i], n.pcs[t], n.log);
    EditKeeps(s, t, i, n.slots[i], n.pcs[t], n.log);
  }

  /** An insertion uses a handle no slot and no key has seen, and adds at most one counted key. */
  lemma InsertFresh(s: State, k: Kind)
    requires Core(s)
    ensures forall key :: key in s.table ==> key.handle < s.next
    ensures forall i :: 0 <= i < |s.slots| ==> s.slots[i].key.handle < s.next
    ensures |CountedKeys(s.table[Key(k, s.next) := |s.slots|])| <= |CountedKeys(s.table)| + 1
  {
    forall key | key in s.table ensures key.handle < s.next {
      assert KeyOk(s, key);
      assert SlotOk(s, s.table[key]);
    }
    forall i | 0 <= i < |s.slots| ensures s.slots[i].key.handle < s.next { assert SlotOk(s, i); }
    var added := Key(k, s.next);
    SubsetSize(CountedKeys(s.table[added := |s.slots|]), CountedKeys(s.table) + {added});
  }

  /** The registry lock is given up with nothing inserted; a failed start has spent a handle. */
  lemma SpendKeeps(s: State, t: nat, next: nat, pc: Pc)
    requires Core(s) && t < |s.pcs| && ThreadOk(s, t) && HoldsRegistry(s.pcs[t])
    requires pc == Idle || (pc.Leaving? && s.pcs[t].Registering? && s.pcs[t].call.SelectionStart?
                            && pc.call == s.pcs[t].call && pc.slot == s.pcs[t].slot)
    requires s.pcs[t].Registering? ==> pc != Idle
    requires s.next <= next <= U64_MAX
    ensures Core(SetPc(s.(registry := None, next := next), t, pc))
  {
    var n := SetPc(s.(registry := None, next := next), t, pc);
    forall u | 0 <= u < |n.pcs| ensures ThreadOk(n, u) { assert ThreadOk(s, u); }
    forall j | 0 <= j < |n.slots| ensures SlotOk(n, j) { assert SlotOk(s, j); }
    forall key ensures KeyOk(n, key) { assert KeyOk(s, key); }
  }

  /** A new open slot appears under the handle the counter had reached. */
  lemma GrowKeeps(s: State, k: Kind, slot: Slot)
    requires Core(s) && s.next < U64_MAX && |CountedKeys(s.table)| < MAX_TASKS
    requires slot.key == Key(k, s.next) && slot.holder.None? && !slot.closed
    ensures Core(s.(next := s.next + 1, table := s.table[slot.key := |s.slots|], slots := s.slots + [slot]))
  {
    var n := s.(next := s.next + 1, table := s.table[slot.key := |s.slots|], slots := s.slots + [slot]);
    InsertFresh(s, k);
    forall u | 0 <= u < |n.pcs| ensures ThreadOk(n, u) { assert ThreadOk(s, u); }
    forall j | 0 <= j < |n.slots| ensures SlotOk(n, j) { if j < |s.slots| { assert SlotOk(s, j); } }
    forall key ensures KeyOk(n, key) { assert KeyOk(s, key); }
  }

  lemma InsertIs(s: State, c: Call, ok: bool)
    ensures var n := Insert(s, c, ok).0;
      var key := Key(InsertedKind(c), s.next);
      if |n.slots| == |s.slots| then
        s.next <= n.next && (n.next == s.next || s.next < U64_MAX) && n == s.(next := n.next)
      else
        && s.next < U64_MAX && |CountedKeys(s.table)| < MAX_TASKS && n.next == s.next + 1
        && |n.slots| == |s.slots| + 1 && n.slots == s.slots + [n.slots[|s.slots|]]
        && n.slots[|s.slots|].key == key && n.slots[|s.slots|].holder.None? && !n.slots[|s.slots|].closed
        && n == s.(next := n.next, table := s.table[key := |s.slots|], slots := n.slots, log := n.log)
    ensures Insert(s, c, ok).0.next <= s.next + 1
  {
  }

  lemma InsertKeeps(s: State, t: nat, c: Call, ok: bool, pc: Pc)
    requires Core(s) && t < |s.pcs| && ThreadOk(s, t) && HoldsRegistry(s.pcs[t])
    requires pc == Idle || (pc.Leaving? && s.pcs[t].Registering? && s.pcs[t].call.SelectionStart?
                            && pc.call == s.pcs[t].call && pc.slot == s.pcs[t].slot)
    requires s.pcs[t].Registering? ==> pc != Idle
    ensures Core(SetPc(Insert(s.(registry := None), c, ok).0, t, pc))
  {
    var n := SetPc(Insert(s.(registry := None), c, ok).0, t, pc);
    InsertIs(s.(registry := None), c, ok);
    if |n.slots| == |s.slots| {
      SpendKeeps(s, t, n.next, pc);
    } else {
      SpendKeeps(s, t, s.next, pc);
      GrowKeeps(SetPc(s.(registry := None), t, pc), InsertedKind(c), n.slots[|s.slots|]);
      LogIsFree(n.(log := s.log), n.log);
    }
  }

  lemma RemoveKeeps(s: State, t: nat, c: Call, i: nat, ok: bool)
    requires Core(s) && t < |s.pcs| && s.pcs[t] == Registering(c, i) && c.Release? && ThreadOk(s, t)
    ensures Core(StepRegistering(s, t, c, i, ok))
  {
    var n := StepRegistering(s, t, c, i, ok);
    assert SlotOk(s, i);
    SubsetSize(CountedKeys(n.table), CountedKeys(s.table));
    forall u | 0 <= u < |n.pcs| ensures ThreadOk(n, u) {
      assert ThreadOk(s, u);
      if u != t && NamesSlot(s.pcs[u]) && s.pcs[u].slot != i { KeysDistinct(s, i, s.pcs[u].slot); }
    }
    forall j | 0 <= j < |n.slots| ensures SlotOk(n, j) {
      assert SlotOk(s, j);
      if j != i { KeysDistinct(s, i, j); }
    }
    forall key ensures KeyOk(n, key) { assert KeyOk(s, key); }
  }

  lemma StepKeeps(s: State, t: nat, ok: bool)
    requires Core(s) && CanStep(s, t) && ThreadOk(s, t)
    ensures Core(Advance(s, t, ok))
  {
    match s.pcs[t]
    case Ready(_) => LockKeeps(s, t, ok);
    case NeedRegistry(_, _) => LockKeeps(s, t, ok);
    case NeedStart(_) => LockKeeps(s, t, ok);
    case Looking(c) => LookingKeeps(s, t, c);
    case Found(c, i) => FoundKeeps(s, t, c, i);
    case Trying(c, i) => TryingKeeps(s, t, c, i);
    case Inside(c, i) => InsideKeeps(s, t, c, i, ok);
    case Registering(c, i) =>
      if c.Release? { RemoveKeeps(s, t, c, i, ok); }
      else {
        var code := Insert(s.(registry := None), c, ok).1;
        InsertKeeps(s, t, c, ok, Leaving(c, i, code));
      }
    case Leaving(c, i, code) => LeavingKeeps(s, t, c, i, code);
    case Starting(c) =>
      InsertKeeps(s, t, c, ok, Idle);
      LogIsFree(SetPc(Insert(s.(registry := None), c, ok).0, t, Idle), Advance(s, t, ok).log);
  }

  lemma NextKeeps(s: State, e: Event)
    requires Core(s) && Enabled(s, e) && (e.Step? ==> ThreadOk(s, e.thread))
    ensures Core(Next(s, e))
  {
    match e
    case Invoke(t, c) => InvokeKeeps(s, t, c);
    case Step(t, ok) => StepKeeps(s, t, ok);
    case WorkerDone(i) => WorkerKeeps(s, i);
  }
}
