/** What every run of the registry protocol shows its callers. */
module ProtocolHistory {
  import opened Status
  import opened Protocol
  import opened ProtocolSafety

  // ----- runs -----

  function Init(threads: nat): State {
    State(1, map[], None, [], seq(threads, _ => Idle), [])
  }

  lemma InitOk(threads: nat)
    ensures Core(Init(threads))
  {
    var s := Init(threads);
    assert CountedKeys(s.table) == {};
  }

  /** The state after the events `es`, or `None` when one of them was not enabled at its turn. */
  ghost function Exec(s: State, es: seq<Event>): Option<State>
    requires Core(s)
    decreases |es|
  {
    if es == [] then Some(s)
    else if !Enabled(s, es[0]) then None
    else
      assert es[0].Step? ==> ThreadOk(s, es[0].thread);
      NextKeeps(s, es[0]);
      Exec(Next(s, es[0]), es[1..])
  }

  ghost predicate Reachable(s: State) {
    exists threads: nat, es: seq<Event> :: Core(Init(threads)) && Exec(Init(threads), es) == Some(s)
  }

  // ----- reading the log -----

  predicate OkRelease(e: Entry, key: Key) { e.Returned? && e.call == Release(key) && e.code == OK }

  /** The entry shows a worker, or a call that checks `closed` under the job lock, at work on `key`. */
  predicate ActsOn(e: Entry, key: Key) {
    match e
    case Returned(_, c, code) =>
      code == OK && (c.Use? || c.Execute? || c.CancelLocked? || c.SelectionStart? || c.Release?) && Target(c) == key
    case Touched(k) => k == key
    case Spawned(k) => k == key
    case WorkerExit(k) => k == key
    case UncheckedRead(_) => false
  }

  function Releases(log: seq<Entry>, key: Key): nat {
    if log == [] then 0
    else Releases(log[..|log| - 1], key) + if OkRelease(log[|log| - 1], key) then 1 else 0
  }

  /** Workers started for `key` less workers that have exited. */
  function LiveWorkers(log: seq<Entry>, key: Key): int {
    if log == [] then 0
    else
      var e := log[|log| - 1];
      LiveWorkers(log[..|log| - 1], key) + (if e == Spawned(key) then 1 else if e == WorkerExit(key) then -1 else 0)
  }

  /** Nothing acts on a handle after a release of it has returned OK. */
  ghost predicate ReleaseIsFinal(log: seq<Entry>) {
    forall p, q, key :: 0 <= p < q < |log| && OkRelease(log[p], key) ==> !ActsOn(log[q], key)
  }

  lemma Appended(log: seq<Entry>, e: Entry, key: Key)
    ensures Releases(log + [e], key) == Releases(log, key) + if OkRelease(e, key) then 1 else 0
    ensures LiveWorkers(log + [e], key)
         == LiveWorkers(log, key) + (if e == Spawned(key) then 1 else if e == WorkerExit(key) then -1 else 0)
  {
    assert (log + [e])[..|log|] == log;
  }

  lemma {:induction false} NoReleaseBefore(log: seq<Entry>, key: Key, p: nat)
    requires Releases(log, key) == 0 && p < |log|
    ensures !OkRelease(log[p], key)
  {
    if p < |log| - 1 { NoReleaseBefore(log[..|log| - 1], key, p); }
  }

  lemma FinalAppend(log: seq<Entry>, e: Entry)
    requires ReleaseIsFinal(log)
    requires forall key :: ActsOn(e, key) ==> Releases(log, key) == 0
    ensures ReleaseIsFinal(log + [e])
  {
    var l := log + [e];
    forall p, q, key | 0 <= p < q < |l| && OkRelease(l[p], key) ensures !ActsOn(l[q], key) {
      if q == |log| && ActsOn(e, key) { NoReleaseBefore(log, key, p); }
    }
  }

  // ----- the history invariant -----

  predicate SlotHist(s: State, i: nat)
    requires i < |s.slots|
  {
    var slot := s.slots[i];
    && Releases(s.log, slot.key) == (if slot.closed && !InFlight(s, i) then 1 else 0)
    && LiveWorkers(s.log, slot.key) == (if slot.work == Running then 1 else 0)
  }

  predicate HasSlot(slots: seq<Slot>, key: Key) { exists i :: 0 <= i < |slots| && slots[i].key == key }

  /** A key without a slot has left no trace. */
  predicate KeyHist(s: State, key: Key) {
    HasSlot(s.slots, key) || (Releases(s.log, key) == 0 && LiveWorkers(s.log, key) == 0)
  }

  ghost predicate Hist(s: State) {
    && ReleaseIsFinal(s.log)
    && (forall i :: 0 <= i < |s.slots| ==> SlotHist(s, i))
    && (forall key :: KeyHist(s, key))
  }

  /** The entry may be added now: whatever it acts on is the key `mine`, which has not been released. */
  ghost predicate Permitted(log: seq<Entry>, e: Entry, mine: Key) {
    forall key :: ActsOn(e, key) ==> key == mine && Releases(log, key) == 0
  }

  lemma AppendOther(log: seq<Entry>, e: Entry, mine: Key, key: Key)
    requires ActsOn(e, key) ==> key == mine
    requires key != mine
    ensures Releases(log + [e], key) == Releases(log, key) && LiveWorkers(log + [e], key) == LiveWorkers(log, key)
  {
    Appended(log, e, key);
    assert !ActsOn(e, key);
  }

  lemma SameKeys(a: seq<Slot>, b: seq<Slot>, key: Key)
    requires |a| <= |b| && (forall j :: 0 <= j < |a| ==> b[j].key == a[j].key)
    ensures HasSlot(a, key) ==> HasSlot(b, key)
  {
    if HasSlot(a, key) {
      var j :| 0 <= j < |a| && a[j].key == key;
      assert b[j].key == key;
    }
  }

  /** Steps that leave every slot other than `i` alone and log at most one entry. */
  lemma EditHist(s: State, n: State, i: nat, extra: seq<Entry>)
    requires Increasing(s.slots) && Hist(s) && i < |s.slots| && |n.slots| == |s.slots|
    requires n.log == s.log + extra && |extra| <= 1
    requires extra != [] ==> Permitted(s.log, extra[0], s.slots[i].key)
    requires forall j :: 0 <= j < |s.slots| ==> n.slots[j].key == s.slots[j].key
    requires forall j :: 0 <= j < |s.slots| && j != i ==> n.slots[j] == s.slots[j] && InFlight(n, j) == InFlight(s, j)
    requires SlotHist(n, i)
    ensures Hist(n)
  {
    var mine := s.slots[i].key;
    if extra == [] { assert n.log == s.log; }
    else { assert n.log == s.log + [extra[0]]; FinalAppend(s.log, extra[0]); }
    forall j | 0 <= j < |n.slots| ensures SlotHist(n, j) {
      assert SlotHist(s, j);
      if j != i {
        KeysDistinct(s, i, j);
        if extra != [] { AppendOther(s.log, extra[0], mine, s.slots[j].key); }
      }
    }
    forall key ensures KeyHist(n, key) {
      assert KeyHist(s, key);
      SameKeys(s.slots, n.slots, key);
      if key == mine { assert n.slots[i].key == mine; }
      else if extra != [] { AppendOther(s.log, extra[0], mine, key); }
    }
  }

  /** Steps that touch no slot and log nothing that counts. */
  lemma QuietHist(s: State, n: State, extra: seq<Entry>)
    requires Hist(s) && n.slots == s.slots
    requires n.log == s.log + extra && |extra| <= 1
    requires extra != [] ==> forall key :: !ActsOn(extra[0], key)
    requires forall j :: 0 <= j < |s.slots| ==> InFlight(n, j) == InFlight(s, j)
    ensures Hist(n)
  {
    if extra == [] { assert n.log == s.log; }
    else { assert n.log == s.log + [extra[0]]; FinalAppend(s.log, extra[0]); }
    forall j | 0 <= j < |n.slots| ensures SlotHist(n, j) {
      assert SlotHist(s, j);
      if extra != [] { Appended(s.log, extra[0], s.slots[j].key); assert !ActsOn(extra[0], s.slots[j].key); }
    }
    forall key ensures KeyHist(n, key) {
      assert KeyHist(s, key);
      if extra != [] { Appended(s.log, extra[0], key); assert !ActsOn(extra[0], key); }
    }
  }

  /** Only the thread that holds a slot can carry its release in flight. */
  lemma SameFlight(s: State, n: State, t: nat, i: nat)
    requires Core(s) && t < |s.pcs| && i < |s.slots| && NamesSlot(s.pcs[t]) && s.pcs[t].slot == i
    requires |n.slots| == |s.slots| && |n.pcs| == |s.pcs|
    requires forall u :: 0 <= u < |s.pcs| && u != t ==> n.pcs[u] == s.pcs[u]
    requires forall j :: 0 <= j < |s.slots| && j != i ==> n.slots[j] == s.slots[j]
    ensures forall j :: 0 <= j < |s.slots| && j != i ==> InFlight(n, j) == InFlight(s, j)
  {
    forall j | 0 <= j < |s.slots| && j != i ensures InFlight(n, j) == InFlight(s, j) { assert SlotOk(s, j); }
  }

  lemma FoundHist(s: State, t: nat, c: Call, i: nat)
    requires Core(s) && Hist(s) && t < |s.pcs| && s.pcs[t] == Found(c, i) && ThreadOk(s, t)
    ensures Hist(StepFound(s, t, c, i))
  {
    var n := StepFound(s, t, c, i);
    assert SlotOk(s, i) && SlotHist(s, i);
    SameFlight(s, n, t, i);
    if c.Cancel? {
      Appended(s.log, Returned(t, c, OK), s.slots[i].key);
      EditHist(s, n, i, [Returned(t, c, OK)]);
    } else {
      assert s.log + [] == s.log;
      EditHist(s, n, i, []);
    }
  }

  lemma BusyHist(s: State, t: nat, c: Call, i: nat)
    requires Core(s) && Hist(s) && t < |s.pcs| && s.pcs[t] == Trying(c, i) && ThreadOk(s, t)
    requires s.slots[i].holder.Some?
    ensures Hist(StepTrying(s, t, c, i))
  {
    var n := StepTrying(s, t, c, i);
    assert SlotOk(s, i) && SlotHist(s, i);
    assert s.slots[i].holder.value != t;
    SameFlight(s, n, t, i);
    Appended(s.log, Returned(t, c, BUSY), s.slots[i].key);
    EditHist(s, n, i, [Returned(t, c, BUSY)]);
  }

  lemma TryingHist(s: State, t: nat, c: Call, i: nat)
    requires Core(s) && Hist(s) && t < |s.pcs| && s.pcs[t] == Trying(c, i) && ThreadOk(s, t)
    ensures Hist(StepTrying(s, t, c, i))
  {
    if s.slots[i].holder.Some? {
      BusyHist(s, t, c, i);
    } else {
      var n := StepTrying(s, t, c, i);
      assert SlotHist(s, i);
      assert !InFlight(s, i) && !InFlight(n, i);
      SameFlight(s, n, t, i);
      assert s.log + [] == s.log;
      EditHist(s, n, i, []);
    }
  }

  lemma LeavingHist(s: State, t: nat, c: Call, i: nat, code: int)
    requires Core(s) && Hist(s) && t < |s.pcs| && s.pcs[t] == Leaving(c, i, code) && ThreadOk(s, t)
    ensures Hist(StepLeaving(s, t, c, i, code))
  {
    var n := StepLeaving(s, t, c, i, code);
    assert SlotOk(s, i) && SlotHist(s, i);
    SameFlight(s, n, t, i);
    Appended(s.log, Returned(t, c, code), s.slots[i].key);
    EditHist(s, n, i, [Returned(t, c, code)]);
  }

  /** A call that gets past the `closed` check finds a slot with no release behind it. */
  lemma TouchHist(s: State, t: nat, c: Call, i: nat, pc: Pc)
    requires Core(s) && Hist(s) && t < |s.pcs| && s.pcs[t] == Inside(c, i) && ThreadOk(s, t)
    requires !s.slots[i].closed && !Releasing(pc)
    ensures Hist(Edit(s, t, i, s.slots[i], pc, s.log + [Touched(s.slots[i].key)]))
  {
    var n := Edit(s, t, i, s.slots[i], pc, s.log + [Touched(s.slots[i].key)]);
    assert SlotOk(s, i) && SlotHist(s, i);
    SameFlight(s, n, t, i);
    Appended(s.log, Touched(s.slots[i].key), s.slots[i].key);
    EditHist(s, n, i, [Touched(s.slots[i].key)]);
  }

  lemma RespawnHist(s: State, i: nat)
    requires Increasing(s.slots) && Hist(s) && i < |s.slots| && !s.slots[i].closed && s.slots[i].work == Finished
    ensures Hist(Record(SetSlot(s, i, s.slots[i].(work := Running)), Spawned(s.slots[i].key)))
  {
    var n := Record(SetSlot(s, i, s.slots[i].(work := Running)), Spawned(s.slots[i].key));
    assert SlotHist(s, i);
    Appended(s.log, Spawned(s.slots[i].key), s.slots[i].key);
    EditHist(s, n, i, [Spawned(s.slots[i].key)]);
  }

  lemma UseHist(s: State, t: nat, c: Call, i: nat, ok: bool)
    requires Core(s) && Hist(s) && t < |s.pcs| && s.pcs[t] == Inside(c, i) && (c.Use? || c.Execute?) && ThreadOk(s, t)
    ensures Hist(StepUse(s, t, c, i, ok))
  {
    var n := StepUse(s, t, c, i, ok);
    if s.slots[i].closed {
      assert SlotOk(s, i) && SlotHist(s, i);
      SameFlight(s, n, t, i);
      assert s.log + [] == s.log;
      EditHist(s, n, i, []);
    } else {
      TouchHist(s, t, c, i, n.pcs[t]);
      var m := Edit(s, t, i, s.slots[i], n.pcs[t], s.log + [Touched(s.slots[i].key)]);
      if n.slots[i].work != s.slots[i].work {
        RespawnHist(m, i);
        assert n == Record(SetSlot(m, i, m.slots[i].(work := Running)), Spawned(m.slots[i].key));
      } else { assert n == m; }
    }
  }

  lemma CancelLockedHist(s: State, t: nat, c: Call, i: nat)
    requires Core(s) && Hist(s) && t < |s.pcs| && s.pcs[t] == Inside(c, i) && c.CancelLocked? && ThreadOk(s, t)
    ensures Hist(StepCancelLocked(s, t, c, i))
  {
    var n := StepCancelLocked(s, t, c, i);
    assert SlotOk(s, i) && SlotHist(s, i);
    SameFlight(s, n, t, i);
    if s.slots[i].closed {
      assert s.log + [] == s.log;
      EditHist(s, n, i, []);
    } else {
      Appended(s.log, Touched(s.slots[i].key), s.slots[i].key);
      EditHist(s, n, i, [Touched(s.slots[i].key)]);
    }
  }

  lemma CloseHist(s: State, t: nat, c: Call, i: nat)
    requires Core(s) && Hist(s) && t < |s.pcs| && s.pcs[t] == Inside(c, i) && c.Release? && ThreadOk(s, t)
    ensures Hist(StepRelease(s, t, c, i))
  {
    assert SlotOk(s, i) && SlotHist(s, i);
    SameFlight(s, StepRelease(s, t, c, i), t, i);
    assert s.log + [] == s.log;
    EditHist(s, StepRelease(s, t, c, i), i, []);
  }

  lemma SelectionHist(s: State, t: nat, c: Call, i: nat, ok: bool)
    requires Core(s) && Hist(s) && t < |s.pcs| && s.pcs[t] == Inside(c, i) && c.SelectionStart? && ThreadOk(s, t)
    ensures Hist(StepSelection(s, t, c, i, ok))
  {
    var n := StepSelection(s, t, c, i, ok);
    assert SlotOk(s, i) && SlotHist(s, i);
    SameFlight(s, n, t, i);
    if n.pcs[t].NeedRegistry? {
      Appended(s.log, Touched(s.slots[i].key), s.slots[i].key);
      EditHist(s, n, i, [Touched(s.slots[i].key)]);
    } else {
      assert s.log + [] == s.log;
      EditHist(s, n, i, []);
    }
  }

  lemma PurgeReadHist(s: State, t: nat, c: Call, i: nat, ok: bool)
    requires Core(s) && Hist(s) && t < |s.pcs| && s.pcs[t] == Inside(c, i) && c.PurgeExecute? && ThreadOk(s, t)
    ensures Hist(StepPurgeRead(s, t, c, i, ok))
  {
    assert SlotOk(s, i) && SlotHist(s, i);
    SameFlight(s, StepPurgeRead(s, t, c, i, ok), t, i);
    Appended(s.log, UncheckedRead(s.slots[i].key), s.slots[i].key);
    assert s.log + [] == s.log;
    EditHist(s, StepPurgeRead(s, t, c, i, ok), i, if s.slots[i].derived then [] else [UncheckedRead(s.slots[i].key)]);
  }

  lemma RemoveHist(s: State, t: nat, c: Call, i: nat, ok: bool)
    requires Core(s) && Hist(s) && t < |s.pcs| && s.pcs[t] == Registering(c, i) && c.Release? && ThreadOk(s, t)
    ensures Hist(StepRegistering(s, t, c, i, ok))
  {
    var n := StepRegistering(s, t, c, i, ok);
    assert SlotOk(s, i) && SlotHist(s, i);
    SameFlight(s, n, t, i);
    assert n.log == s.log + [];
    EditHist(s, n, i, []);
  }

  /** Steps of threads that hold no job cannot change whose release is in flight. */
  lemma SameFlights(s: State, n: State, t: nat)
    requires Core(s) && t < |s.pcs| && ThreadOk(s, t) && n.slots == s.slots && |n.pcs| == |s.pcs|
    requires forall u :: 0 <= u < |s.pcs| && u != t ==> n.pcs[u] == s.pcs[u]
    requires Releasing(n.pcs[t]) == Releasing(s.pcs[t])
    ensures forall j :: 0 <= j < |s.slots| ==> InFlight(n, j) == InFlight(s, j)
  {
    forall j | 0 <= j < |s.slots| ensures InFlight(n, j) == InFlight(s, j) { assert SlotOk(s, j); }
  }

  lemma LockHist(s: State, t: nat, ok: bool)
    requires Core(s) && Hist(s) && CanStep(s, t) && WaitsForRegistry(s.pcs[t]) && ThreadOk(s, t)
    ensures Hist(Advance(s, t, ok))
  {
    SameFlights(s, Advance(s, t, ok), t);
    assert s.log + [] == s.log;
    QuietHist(s, Advance(s, t, ok), []);
  }

  lemma LookingHist(s: State, t: nat, c: Call)
    requires Core(s) && Hist(s) && t < |s.pcs| && s.pcs[t] == Looking(c) && ThreadOk(s, t)
    ensures Hist(StepLooking(s, t, c))
  {
    var n := StepLooking(s, t, c);
    SameFlights(s, n, t);
    var extra := n.log[|s.log|..];
    assert n.log == s.log + extra;
    QuietHist(s, n, extra);
  }

  /** The step of thread `t` that may insert a job; `pc` is where it goes next. */
  lemma InsertHist(s: State, t: nat, c: Call, ok: bool, pc: Pc)
    requires Core(s) && Hist(s) && t < |s.pcs| && ThreadOk(s, t) && !Releasing(s.pcs[t]) && !Releasing(pc)
    ensures Hist(SetPc(Insert(s.(registry := None), c, ok).0, t, pc))
  {
    var n := SetPc(Insert(s.(registry := None), c, ok).0, t, pc);
    if |n.slots| == |s.slots| {
      SameFlights(s, n, t);
      assert s.log + [] == s.log;
      QuietHist(s, n, []);
    } else {
      NewSlotHist(s, n, Key(InsertedKind(c), s.next));
    }
  }

  lemma NewSlotHist(s: State, n: State, key: Key)
    requires Core(s) && Hist(s) && key.handle == s.next
    requires |n.slots| == |s.slots| + 1 && n.slots[..|s.slots|] == s.slots
    requires n.slots[|s.slots|].key == key && !n.slots[|s.slots|].closed
    requires n.log == if n.slots[|s.slots|].work == Running then s.log + [Spawned(key)] else s.log
    requires forall j :: 0 <= j < |s.slots| ==> InFlight(n, j) == InFlight(s, j)
    ensures Hist(n)
  {
    InsertFresh(s, key.kind);
    assert KeyHist(s, key) && !HasSlot(s.slots, key);
    var grown := s.(slots := n.slots);
    forall k ensures KeyHist(grown, k) { assert KeyHist(s, k); SameKeys(s.slots, n.slots, k); }
    assert n.slots[|s.slots|].key == key;
    if n.log != s.log { AppendNew(s, n, key); }
    forall j | 0 <= j < |n.slots| ensures SlotHist(n, j) {
      Appended(s.log, Spawned(key), n.slots[j].key);
      if j < |s.slots| { assert SlotHist(s, j) && n.slots[j] == s.slots[j] && s.slots[j].key.handle < s.next; }
    }
    forall k ensures KeyHist(n, k) {
      assert KeyHist(grown, k);
      Appended(s.log, Spawned(key), k);
    }
  }

  lemma AppendNew(s: State, n: State, key: Key)
    requires ReleaseIsFinal(s.log) && Releases(s.log, key) == 0
    ensures ReleaseIsFinal(s.log + [Spawned(key)])
  {
    FinalAppend(s.log, Spawned(key));
  }

  lemma WorkerHist(s: State, i: nat)
    requires Core(s) && Hist(s) && Enabled(s, WorkerDone(i))
    ensures Hist(Next(s, WorkerDone(i)))
  {
    var n := Next(s, WorkerDone(i));
    assert SlotOk(s, i) && SlotHist(s, i);
    Appended(s.log, WorkerExit(s.slots[i].key), s.slots[i].key);
    EditHist(s, n, i, [WorkerExit(s.slots[i].key)]);
  }

  lemma StepHist(s: State, t: nat, ok: bool)
    requires Core(s) && Hist(s) && CanStep(s, t) && ThreadOk(s, t)
    ensures Hist(Advance(s, t, ok))
  {
    match s.pcs[t]
    case Ready(_) => LockHist(s, t, ok);
    case NeedRegistry(_, _) => LockHist(s, t, ok);
    case NeedStart(_) => LockHist(s, t, ok);
    case Looking(c) => LookingHist(s, t, c);
    case Found(c, i) => FoundHist(s, t, c, i);
    case Trying(c, i) => TryingHist(s, t, c, i);
    case Inside(c, i) =>
      match c {
        case Release(_) => CloseHist(s, t, c, i);
        case CancelLocked(_) => CancelLockedHist(s, t, c, i);
        case SelectionStart(_) => SelectionHist(s, t, c, i, ok);
        case PurgeExecute(_) => PurgeReadHist(s, t, c, i, ok);
        case _ => UseHist(s, t, c, i, ok);
      }
    case Registering(c, i) =>
      if c.Release? { RemoveHist(s, t, c, i, ok); }
      else {
        InsertHist(s, t, c, ok, Leaving(c, i, Insert(s.(registry := None), c, ok).1));
      }
    case Leaving(c, i, code) => LeavingHist(s, t, c, i, code);
    case Starting(c) => StartingHist(s, t, c, ok);
  }

  lemma StartingHist(s: State, t: nat, c: Call, ok: bool)
    requires Core(s) && Hist(s) && t < |s.pcs| && s.pcs[t] == Starting(c) && ThreadOk(s, t)
    ensures Hist(StepStarting(s, t, c, ok))
  {
    var (s1, code) := Insert(s.(registry := None), c, ok);
    InsertHist(s, t, c, ok, Idle);
    var m := SetPc(s1, t, Idle);
    QuietHist(m, StepStarting(s, t, c, ok), [Returned(t, c, code)]);
  }

  lemma NextHist(s: State, e: Event)
    requires Core(s) && Hist(s) && Enabled(s, e) && (e.Step? ==> ThreadOk(s, e.thread))
    ensures Hist(Next(s, e))
  {
    match e
    case Invoke(t, c) =>
      SameFlights(s, Next(s, e), t);
      assert s.log + [] == s.log;
      QuietHist(s, Next(s, e), []);
    case Step(t, ok) => StepHist(s, t, ok);
    case WorkerDone(i) => WorkerHist(s, i);
  }

  lemma {:induction false} ExecKeeps(s: State, es: seq<Event>)
    requires Core(s) && Hist(s) && Exec(s, es).Some?
    ensures Core(Exec(s, es).value) && Hist(Exec(s, es).value)
    decreases |es|
  {
    if es != [] {
      assert es[0].Step? ==> ThreadOk(s, es[0].thread);
      NextKeeps(s, es[0]);
      NextHist(s, es[0]);
      ExecKeeps(Next(s, es[0]), es[1..]);
    }
  }

  lemma ReachableOk(s: State)
    requires Reachable(s)
    ensures Core(s) && Hist(s)
  {
    var threads: nat, es: seq<Event> :| Core(Init(threads)) && Exec(Init(threads), es) == Some(s);
    assert Hist(Init(threads)) by { forall key ensures KeyHist(Init(threads), key) {} }
    ExecKeeps(Init(threads), es);
  }

  // ----- extending runs -----

  lemma {:induction false} ExecMore(s: State, es: seq<Event>, e: Event)
    requires Core(s) && Exec(s, es).Some? && Enabled(Exec(s, es).value, e)
    ensures Core(Exec(s, es).value) && (e.Step? ==> ThreadOk(Exec(s, es).value, e.thread))
    ensures Exec(s, es + [e]) == Some(Next(Exec(s, es).value, e))
    decreases |es|
  {
    if es == [] {
      assert ([] + [e])[1..] == [];
      assert e.Step? ==> ThreadOk(s, e.thread);
      NextKeeps(s, e);
      assert Exec(Next(s, e), []) == Some(Next(s, e));
    } else {
      assert es[0].Step? ==> ThreadOk(s, es[0].thread);
      NextKeeps(s, es[0]);
      ExecMore(Next(s, es[0]), es[1..], e);
      assert (es + [e])[1..] == es[1..] + [e];
    }
  }

  lemma ReachMore(s: State, e: Event) returns (n: State)
    requires Reachable(s) && Enabled(s, e)
    ensures (e.Step? ==> ThreadOk(s, e.thread)) && n == Next(s, e) && Reachable(n)
  {
    var threads: nat, es: seq<Event> :| Core(Init(threads)) && Exec(Init(threads), es) == Some(s);
    ExecMore(Init(threads), es, e);
    n := Next(s, e);
  }
}
