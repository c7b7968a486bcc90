/**
 The handle registry, the per-job locks and the release protocol as a transition system.

 Every exported call is a short program. It locks the registry, clones a slot and unlocks; it then
 tries (never waits for) the job lock, checks `closed`, and acts. A release also sets `closed` and
 takes the registry lock again while it holds the job lock. Threads interleave freely between these
 steps, and workers finish at any time. A slot is named by its index in `slots`, so a thread can
 keep a slot that the registry has already forgotten, as a cloned `Arc` does.
 */
module Protocol {
  import opened Status

  datatype Kind =
    | Scan | Installer | Purge | Uninstall | Picked | Simulator | Orphan | EmptyTrash | Runtime

  /** The eight maps that `allocate_handle` adds up; `runtimes` is not among them. */
  predicate Counted(k: Kind) { k != Runtime }

  predicate HasWorker(k: Kind) { k != Uninstall && k != EmptyTrash }

  /** Kinds whose execute call may start a second worker on the same slot. */
  predicate Respawns(k: Kind) { k == Picked || k == Simulator || k == Runtime || k == Orphan }

  /** Kinds whose release sets the shared cancel flag before it tries the job lock. */
  predicate CancelsBeforeTrying(k: Kind) { k == Picked || k == Simulator || k == Runtime }

  /** Kinds whose cancel call takes the job lock. */
  predicate CancelsUnderLock(k: Kind) { k == Scan || k == Installer || k == Purge || k == Orphan }

  datatype Key = Key(kind: Kind, handle: nat)

  datatype Work = NoWork | Running | Finished

  /** `derived` tells a selection from a discovery, and a purge execution from a preview. */
  datatype Slot = Slot(
    key: Key, holder: Option<nat>, closed: bool, work: Work, cancelled: bool, derived: bool)

  datatype Call =
    | Start(kind: Kind)
    | Use(key: Key)               // poll, result, query: locks the job and checks `closed`
    | Execute(key: Key)           // the same, and may start the second worker of the slot
    | Cancel(key: Key)            // sets the shared flag without the job lock
    | CancelLocked(key: Key)      // sets it under the job lock, after checking `closed`
    | SelectionStart(source: nat) // inserts an installer job while holding its discovery job
    | PurgeExecute(preview: nat)  // reads the preview job without checking `closed`
    | Release(key: Key)

  datatype Pc =
    | Idle
    | Ready(call: Call)                               // waiting for the registry to look a slot up
    | Looking(call: Call)                             // holds the registry
    | Found(call: Call, slot: nat)                    // owns a cloned slot, no lock
    | Trying(call: Call, slot: nat)
    | Inside(call: Call, slot: nat)                   // holds the job
    | NeedRegistry(call: Call, slot: nat)             // holds the job, waiting for the registry
    | Registering(call: Call, slot: nat)              // holds the job and the registry
    | Leaving(call: Call, slot: nat, code: int)       // holds the job, about to return
    | NeedStart(call: Call)                           // waiting for the registry, no job lock
    | Starting(call: Call)                            // holds the registry, no job lock

  /** What a run leaves behind for its clients and for this proof to look at. */
  datatype Entry =
    | Returned(thread: nat, call: Call, code: int)
    | Touched(key: Key)
    | Spawned(key: Key)
    | WorkerExit(key: Key)
    | UncheckedRead(key: Key)

  datatype State = State(
    next: nat, table: map<Key, nat>, registry: Option<nat>,
    slots: seq<Slot>, pcs: seq<Pc>, log: seq<Entry>)

  datatype Event =
    | Invoke(thread: nat, call: Call)
    | Step(thread: nat, ok: bool)     // `ok` is the outcome of the engine call the step contains
    | WorkerDone(slot: nat)

  // ----- the calls -----

  predicate WellFormedCall(c: Call) {
    match c
    case Cancel(key) => CancelsBeforeTrying(key.kind) || key.kind == Uninstall
    case CancelLocked(key) => CancelsUnderLock(key.kind)
    case Execute(key) => Respawns(key.kind)
    case _ => true
  }

  /** The registry entry a call looks up. */
  function Target(c: Call): Key
    requires !c.Start?
  {
    match c
    case Use(key) => key
    case Execute(key) => key
    case Cancel(key) => key
    case CancelLocked(key) => key
    case SelectionStart(h) => Key(Installer, h)
    case PurgeExecute(h) => Key(Purge, h)
    case Release(key) => key
  }

  function InsertedKind(c: Call): Kind {
    match c
    case Start(k) => k
    case SelectionStart(_) => Installer
    case _ => Purge
  }

  // ----- steps -----

  function SetPc(s: State, t: nat, pc: Pc): State
    requires t < |s.pcs|
  {
    s.(pcs := s.pcs[t := pc])
  }

  function SetSlot(s: State, i: nat, slot: Slot): State
    requires i < |s.slots|
  {
    s.(slots := s.slots[i := slot])
  }

  function Record(s: State, e: Entry): State { s.(log := s.log + [e]) }

  function Return(s: State, t: nat, c: Call, code: int): State
    requires t < |s.pcs|
  {
    Record(SetPc(s, t, Idle), Returned(t, c, code))
  }

  function CountedKeys(table: map<Key, nat>): set<Key> {
    set key | key in table && Counted(key.kind)
  }

  /** `Registry::allocate_handle`: the handle, and the counter it leaves behind. */
  function Allocate(next: nat, counted: nat): Result<nat> {
    if counted >= MAX_TASKS then Err(LIMIT_EXCEEDED)
    else if CheckedAdd(next, 1).None? then Err(LIMIT_EXCEEDED)
    else Ok(next)
  }

  function FreshSlot(key: Key, derived: bool): Slot {
    Slot(key, None, false, if HasWorker(key.kind) then Running else NoWork, false, derived)
  }

  /** Allocates a handle, starts the work and inserts the job. A failed start still spends the handle. */
  function Insert(s: State, c: Call, ok: bool): (State, int) {
    var k := InsertedKind(c);
    match Allocate(s.next, |CountedKeys(s.table)|)
    case Err(code) => (s, code)
    case Ok(handle) =>
      var s1 := s.(next := s.next + 1);
      if !ok then (s1, INTERNAL_ERROR)
      else
        var key := Key(k, handle);
        var slot := FreshSlot(key, !c.Start?);
        var s2 := s1.(table := s1.table[key := |s1.slots|], slots := s1.slots + [slot]);
        (if HasWorker(k) then Record(s2, Spawned(key)) else s2, OK)
  }

  function StepLooking(s: State, t: nat, c: Call): State
    requires t < |s.pcs| && !c.Start?
  {
    var s1 := s.(registry := None);
    if Target(c) in s.table then SetPc(s1, t, Found(c, s.table[Target(c)]))
    else Return(s1, t, c, INVALID_HANDLE)
  }

  function StepFound(s: State, t: nat, c: Call, i: nat): State
    requires t < |s.pcs| && i < |s.slots|
  {
    if c.Cancel? then Return(SetSlot(s, i, s.slots[i].(cancelled := true)), t, c, OK)
    else if c.Release? && CancelsBeforeTrying(c.key.kind) then
      SetPc(SetSlot(s, i, s.slots[i].(cancelled := true)), t, Trying(c, i))
    else SetPc(s, t, Trying(c, i))
  }

  function StepTrying(s: State, t: nat, c: Call, i: nat): State
    requires t < |s.pcs| && i < |s.slots|
  {
    if s.slots[i].holder.Some? then Return(s, t, c, BUSY)
    else SetPc(SetSlot(s, i, s.slots[i].(holder := Some(t))), t, Inside(c, i))
  }

  function StepUse(s: State, t: nat, c: Call, i: nat, ok: bool): State
    requires t < |s.pcs| && i < |s.slots|
  {
    var slot := s.slots[i];
    if slot.closed then SetPc(s, t, Leaving(c, i, INVALID_HANDLE))
    else
      var respawn := c.Execute? && ok && slot.work == Finished;
      var s1 := SetSlot(s, i, slot.(work := if respawn then Running else slot.work));
      var s2 := SetPc(s1, t, Leaving(c, i, if ok && (c.Execute? ==> respawn) then OK else NOT_READY));
      s2.(log := s.log + [Touched(slot.key)] + if respawn then [Spawned(slot.key)] else [])
  }

  function StepCancelLocked(s: State, t: nat, c: Call, i: nat): State
    requires t < |s.pcs| && i < |s.slots|
  {
    var slot := s.slots[i];
    if slot.closed then SetPc(s, t, Leaving(c, i, INVALID_HANDLE))
    else Record(SetPc(SetSlot(s, i, slot.(cancelled := true)), t, Leaving(c, i, OK)), Touched(slot.key))
  }

  function StepSelection(s: State, t: nat, c: Call, i: nat, ok: bool): State
    requires t < |s.pcs| && i < |s.slots|
  {
    var slot := s.slots[i];
    if slot.closed then SetPc(s, t, Leaving(c, i, INVALID_HANDLE))
    else if slot.derived then SetPc(s, t, Leaving(c, i, INVALID_HANDLE))
    else if slot.work == Running then SetPc(s, t, Leaving(c, i, NOT_READY))
    else if !ok then SetPc(s, t, Leaving(c, i, INVALID_CANDIDATE))
    else SetPc(Record(s, Touched(slot.key)), t, NeedRegistry(c, i))
  }

  function StepPurgeRead(s: State, t: nat, c: Call, i: nat, ok: bool): State
    requires t < |s.pcs| && i < |s.slots|
  {
    var slot := s.slots[i];
    if slot.derived then SetPc(s, t, Leaving(c, i, INVALID_HANDLE))
    else
      var passed := ok && slot.work != Running;
      var pc := if slot.work == Running then Leaving(c, i, NOT_READY)
                else if !ok then Leaving(c, i, INVALID_CANDIDATE)
                else NeedStart(c);
      var s1 := SetSlot(s, i, slot.(holder := if passed then None else slot.holder));
      Record(SetPc(s1, t, pc), UncheckedRead(slot.key))
  }

  function StepRelease(s: State, t: nat, c: Call, i: nat): State
    requires t < |s.pcs| && i < |s.slots|
  {
    var slot := s.slots[i];
    if slot.closed then SetPc(s, t, Leaving(c, i, INVALID_HANDLE))
    else if slot.work == Running then
      SetPc(SetSlot(s, i, slot.(cancelled := true)), t, Leaving(c, i, BUSY))
    else
      var asked := slot.cancelled || slot.key.kind == Orphan; // an orphan release cancels finished work too
      SetPc(SetSlot(s, i, slot.(closed := true, cancelled := asked)), t, NeedRegistry(c, i))
  }

  function StepInside(s: State, t: nat, c: Call, i: nat, ok: bool): State
    requires t < |s.pcs| && i < |s.slots|
  {
    match c
    case Release(_) => StepRelease(s, t, c, i)
    case CancelLocked(_) => StepCancelLocked(s, t, c, i)
    case SelectionStart(_) => StepSelection(s, t, c, i, ok)
    case PurgeExecute(_) => StepPurgeRead(s, t, c, i, ok)
    case _ => StepUse(s, t, c, i, ok)
  }

  function StepRegistering(s: State, t: nat, c: Call, i: nat, ok: bool): State
    requires t < |s.pcs| && i < |s.slots|
  {
    var s1 := s.(registry := None);
    if c.Release? then
      if c.key in s.table then SetPc(s1.(table := s.table - {c.key}), t, Leaving(c, i, OK))
      else SetPc(s1, t, Leaving(c, i, INVALID_HANDLE))
    else
      var (s2, code) := Insert(s1, c, ok);
      SetPc(s2, t, Leaving(c, i, code))
  }

  function StepLeaving(s: State, t: nat, c: Call, i: nat, code: int): State
    requires t < |s.pcs| && i < |s.slots|
  {
    Return(SetSlot(s, i, s.slots[i].(holder := None)), t, c, code)
  }

  function StepStarting(s: State, t: nat, c: Call, ok: bool): State
    requires t < |s.pcs|
  {
    var (s1, code) := Insert(s.(registry := None), c, ok);
    Return(s1, t, c, code)
  }

  predicate WaitsForRegistry(pc: Pc) { pc.Ready? || pc.NeedRegistry? || pc.NeedStart? }

  predicate HoldsRegistry(pc: Pc) { pc.Looking? || pc.Registering? || pc.Starting? }

  predicate HoldsJob(pc: Pc, i: nat) {
    (pc.Inside? || pc.NeedRegistry? || pc.Registering? || pc.Leaving?) && pc.slot == i
  }

  predicate NamesSlot(pc: Pc) {
    pc.Found? || pc.Trying? || pc.Inside? || pc.NeedRegistry? || pc.Registering? || pc.Leaving?
  }

  /** The registry lock is the only thing a call ever waits for. */
  predicate CanStep(s: State, t: nat) {
    t < |s.pcs| && !s.pcs[t].Idle? && (WaitsForRegistry(s.pcs[t]) ==> s.registry.None?)
  }

  predicate Enabled(s: State, e: Event) {
    match e
    case Invoke(t, c) => t < |s.pcs| && s.pcs[t].Idle? && WellFormedCall(c)
    case Step(t, _) => CanStep(s, t)
    case WorkerDone(i) => i < |s.slots| && s.slots[i].work == Running
  }

  function Advance(s: State, t: nat, ok: bool): State
    requires CanStep(s, t) && ThreadOk(s, t)
  {
    match s.pcs[t]
    case Ready(c) => SetPc(s.(registry := Some(t)), t, Looking(c))
    case Looking(c) => StepLooking(s, t, c)
    case Found(c, i) => StepFound(s, t, c, i)
    case Trying(c, i) => StepTrying(s, t, c, i)
    case Inside(c, i) => StepInside(s, t, c, i, ok)
    case NeedRegistry(c, i) => SetPc(s.(registry := Some(t)), t, Registering(c, i))
    case Registering(c, i) => StepRegistering(s, t, c, i, ok)
    case Leaving(c, i, code) => StepLeaving(s, t, c, i, code)
    case NeedStart(c) => SetPc(s.(registry := Some(t)), t, Starting(c))
    case Starting(c) => StepStarting(s, t, c, ok)
  }

  function Next(s: State, e: Event): State
    requires Enabled(s, e) && (e.Step? ==> ThreadOk(s, e.thread))
  {
    match e
    case Invoke(t, c) => SetPc(s, t, if c.Start? then NeedStart(c) else Ready(c))
    case Step(t, ok) => Advance(s, t, ok)
    case WorkerDone(i) =>
      Record(SetSlot(s, i, s.slots[i].(work := Finished)), WorkerExit(s.slots[i].key))
  }

  // ----- the invariant -----

  /** What the program counter says about the slot the thread works on. */
  predicate PcOk(s: State, pc: Pc) {
    && (!pc.Idle? ==> WellFormedCall(pc.call))
    && (pc.Ready? || pc.Looking? ==> !pc.call.Start?)
    && (pc.NeedStart? || pc.Starting? ==> pc.call.Start? || pc.call.PurgeExecute?)
    && (NamesSlot(pc) ==> !pc.call.Start? && pc.slot < |s.slots| && s.slots[pc.slot].key == Target(pc.call))
    && (pc.Trying? || pc.Inside? || pc.Leaving? ==> !pc.call.Cancel?)
    && (pc.NeedRegistry? || pc.Registering? ==> pc.call.Release? || pc.call.SelectionStart?)
    && ((pc.NeedRegistry? || pc.Registering?) && pc.call.Release? ==>
          s.slots[pc.slot].closed && pc.call.key in s.table)
    && ((pc.NeedRegistry? || pc.Registering?) && pc.call.SelectionStart? ==> !s.slots[pc.slot].closed)
    && (pc.Leaving? && pc.code == OK && pc.call.Release? ==>
          s.slots[pc.slot].closed && pc.call.key !in s.table)
    && (pc.Leaving? && pc.code == OK && !pc.call.Release? && !pc.call.PurgeExecute? ==>
          !s.slots[pc.slot].closed)
    && (pc.Leaving? && pc.call.PurgeExecute? ==> pc.code != OK)
  }

  /** The thread that holds slot `i` is between closing it and returning OK for it. */
  predicate Releasing(pc: Pc) {
    || ((pc.NeedRegistry? || pc.Registering?) && pc.call.Release?)
    || (pc.Leaving? && pc.call.Release? && pc.code == OK)
  }

  predicate InFlight(s: State, i: nat)
    requires i < |s.slots|
  {
    s.slots[i].holder.Some? && s.slots[i].holder.value < |s.pcs| && Releasing(s.pcs[s.slots[i].holder.value])
  }

  predicate ThreadOk(s: State, t: nat)
    requires t < |s.pcs|
  {
    && PcOk(s, s.pcs[t])
    && (HoldsRegistry(s.pcs[t]) ==> s.registry == Some(t))
    && (NamesSlot(s.pcs[t]) && HoldsJob(s.pcs[t], s.pcs[t].slot) ==> s.slots[s.pcs[t].slot].holder == Some(t))
  }

  predicate SlotOk(s: State, i: nat)
    requires i < |s.slots|
  {
    var slot := s.slots[i];
    && 1 <= slot.key.handle < s.next
    && (slot.closed ==> slot.work != Running)
    && (!slot.closed ==> slot.key in s.table && s.table[slot.key] == i)
    && (slot.closed && slot.key in s.table ==> InFlight(s, i))
    && (slot.holder.Some? ==> slot.holder.value < |s.pcs| && HoldsJob(s.pcs[slot.holder.value], i))
  }

  predicate KeyOk(s: State, key: Key) {
    key in s.table ==> s.table[key] < |s.slots| && s.slots[s.table[key]].key == key
  }

  /** Slots are created in the order of their handles, and no two share one. */
  predicate Increasing(slots: seq<Slot>) {
    forall i, j :: 0 <= i < j < |slots| ==> slots[i].key.handle < slots[j].key.handle
  }

  predicate RegistryOk(s: State) {
    && 1 <= s.next <= U64_MAX
    && |CountedKeys(s.table)| <= MAX_TASKS
    && (s.registry.Some? ==> s.registry.value < |s.pcs| && HoldsRegistry(s.pcs[s.registry.value]))
  }

  ghost predicate Core(s: State) {
    && RegistryOk(s)
    && Increasing(s.slots)
    && (forall t :: 0 <= t < |s.pcs| ==> ThreadOk(s, t))
    && (forall i :: 0 <= i < |s.slots| ==> SlotOk(s, i))
    && (forall key :: KeyOk(s, key))
  }
}
