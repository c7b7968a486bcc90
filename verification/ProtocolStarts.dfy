/**
 Selections and purge executions act on finished work only: none of them is told OK before the worker of the
 job it names has exited, in any interleaving.
 */
module ProtocolStarts {
  import opened Status
  import opened Protocol
  import opened ProtocolSafety
  import opened ProtocolHistory
  import opened ProtocolTheorems
  import opened ProtocolRuns

  // ----- the step inside the job -----

  /** A selection goes on to the registry exactly from an open finished discovery whose candidates are good. */
  lemma SelectionGoesOnExactlyWhen(s: State, t: nat, ok: bool)
    requires Reachable(s) && t < |s.pcs| && s.pcs[t].Inside? && s.pcs[t].call.SelectionStart?
    ensures CanStep(s, t) && ThreadOk(s, t) && s.pcs[t].slot < |s.slots|
    ensures var c, i, n := s.pcs[t].call, s.pcs[t].slot, Advance(s, t, ok);
      var slot := s.slots[i];
      && (n.pcs[t] == NeedRegistry(c, i) <==> !slot.closed && !slot.derived && slot.work != Running && ok)
      && (slot.closed || slot.derived ==> n.pcs[t] == Leaving(c, i, INVALID_HANDLE))
      && (!slot.closed && !slot.derived && slot.work == Running ==> n.pcs[t] == Leaving(c, i, NOT_READY))
      && (!slot.closed && !slot.derived && slot.work != Running && !ok ==>
            n.pcs[t] == Leaving(c, i, INVALID_CANDIDATE))
      && n.slots == s.slots && n.table == s.table && n.registry == s.registry
  {
    ReachableOk(s);
    assert ThreadOk(s, t);
  }

  /** A purge execution goes on exactly from a finished preview it agrees with, closed or not, and lets go of it. */
  lemma PurgeGoesOnExactlyWhen(s: State, t: nat, ok: bool)
    requires Reachable(s) && t < |s.pcs| && s.pcs[t].Inside? && s.pcs[t].call.PurgeExecute?
    ensures CanStep(s, t) && ThreadOk(s, t) && s.pcs[t].slot < |s.slots|
    ensures var c, i, n := s.pcs[t].call, s.pcs[t].slot, Advance(s, t, ok);
      var slot := s.slots[i];
      && (n.pcs[t] == NeedStart(c) <==> !slot.derived && slot.work != Running && ok)
      && (slot.derived ==> n.pcs[t] == Leaving(c, i, INVALID_HANDLE))
      && (!slot.derived && slot.work == Running ==> n.pcs[t] == Leaving(c, i, NOT_READY))
      && (!slot.derived && slot.work != Running && !ok ==> n.pcs[t] == Leaving(c, i, INVALID_CANDIDATE))
      && n.slots == (if n.pcs[t].NeedStart? then s.slots[i := slot.(holder := None)] else s.slots)
      && n.table == s.table && n.registry == s.registry
  {
    ReachableOk(s);
    assert ThreadOk(s, t);
  }

  // ----- over whole runs -----

  /** The call starts a job from the finished work of another. */
  predicate Derives(c: Call) { c.SelectionStart? || c.PurgeExecute? }

  predicate Exited(log: seq<Entry>, key: Key) { WorkerExit(key) in log }

  predicate SlotDone(log: seq<Entry>, slot: Slot) {
    && (slot.work == Finished ==> Exited(log, slot.key))
    && (slot.work == NoWork ==> !HasWorker(slot.key.kind))
  }

  /** The thread has found the work of the job it starts from finished. */
  predicate PastCheck(pc: Pc) {
    || ((pc.NeedRegistry? || pc.Registering?) && pc.call.SelectionStart?)
    || ((pc.NeedStart? || pc.Starting?) && pc.call.PurgeExecute?)
    || (pc.Leaving? && Derives(pc.call) && pc.code == OK)
  }

  predicate PcDone(log: seq<Entry>, pc: Pc) { PastCheck(pc) ==> Exited(log, Target(pc.call)) }

  predicate Told(e: Entry) { e.Returned? && Derives(e.call) && e.code == OK }

  predicate EntryDone(log: seq<Entry>, q: nat)
    requires q < |log|
  {
    Told(log[q]) ==> Exited(log[..q], Target(log[q].call))
  }

  ghost predicate StartInv(s: State) {
    && (forall i :: 0 <= i < |s.slots| ==> SlotDone(s.log, s.slots[i]))
    && (forall t :: 0 <= t < |s.pcs| ==> PcDone(s.log, s.pcs[t]))
    && (forall q :: 0 <= q < |s.log| ==> EntryDone(s.log, q))
  }

  /** What a step of thread `t` does to the work of slots: it finishes none, and a new slot has its kind's work. */
  predicate WorkKept(a: seq<Slot>, b: seq<Slot>, i: nat) {
    i < |b| ==>
      if i < |a| then b[i].key == a[i].key && b[i].work in {a[i].work, Running}
      else b[i].work == if HasWorker(b[i].key.kind) then Running else NoWork
  }

  lemma InsideWork(s: State, t: nat, c: Call, i: nat, ok: bool, j: nat)
    requires t < |s.pcs| && i < |s.slots|
    ensures WorkKept(s.slots, StepInside(s, t, c, i, ok).slots, j)
  {
  }

  lemma InsertWork(s: State, c: Call, ok: bool, j: nat)
    ensures WorkKept(s.slots, Insert(s, c, ok).0.slots, j)
  {
  }

  lemma StepWork(s: State, t: nat, ok: bool, j: nat)
    requires CanStep(s, t) && ThreadOk(s, t)
    ensures WorkKept(s.slots, Advance(s, t, ok).slots, j)
  {
    match s.pcs[t]
    case Inside(c, i) => InsideWork(s, t, c, i, ok, j);
    case Registering(c, i) => InsertWork(s.(registry := None), c, ok, j);
    case Starting(c) => InsertWork(s.(registry := None), c, ok, j);
    case _ =>
  }

  lemma SlotLater(a: State, b: State, i: nat)
    requires a.log <= b.log && i < |b.slots| && WorkKept(a.slots, b.slots, i)
    requires i < |a.slots| ==> SlotDone(a.log, a.slots[i])
    ensures SlotDone(b.log, b.slots[i])
  {
  }

  /** The thread that gets past the check has just looked. */
  lemma MoverDone(s: State, t: nat, ok: bool)
    requires CanStep(s, t) && ThreadOk(s, t) && PcDone(s.log, s.pcs[t])
    requires forall i :: 0 <= i < |s.slots| ==> SlotDone(s.log, s.slots[i])
    ensures s.log <= Advance(s, t, ok).log && PcDone(Advance(s, t, ok).log, Advance(s, t, ok).pcs[t])
  {
    match s.pcs[t]
    case Inside(c, i) => InsideDone(s, t, c, i, ok);
    case Registering(c, i) => GrowsByInsert(s.(registry := None), c, ok);
    case Starting(c) => GrowsByInsert(s.(registry := None), c, ok);
    case _ =>
  }

  lemma InsideDone(s: State, t: nat, c: Call, i: nat, ok: bool)
    requires t < |s.pcs| && i < |s.slots| && s.pcs[t] == Inside(c, i) && ThreadOk(s, t)
    requires SlotDone(s.log, s.slots[i])
    ensures var n := StepInside(s, t, c, i, ok);
      s.log <= n.log && PcDone(n.log, n.pcs[t]) && forall q :: |s.log| <= q < |n.log| ==> !n.log[q].Returned?
  {
  }

  lemma GrowsByInsert(s: State, c: Call, ok: bool)
    ensures var n := Insert(s, c, ok).0;
      s.log <= n.log && forall q :: |s.log| <= q < |n.log| ==> !n.log[q].Returned?
  {
  }

  /** Only the last entry of a step can be an answer, and its thread was past the check if it derives and is OK. */
  predicate AnswersLast(s: State, n: State, t: nat)
    requires t < |s.pcs|
  {
    && s.log <= n.log
    && forall q :: |s.log| <= q < |n.log| && Told(n.log[q]) ==>
         PastCheck(s.pcs[t]) && Target(n.log[q].call) == Target(s.pcs[t].call)
  }

  lemma StepAnswers(s: State, t: nat, ok: bool)
    requires CanStep(s, t) && ThreadOk(s, t)
    ensures AnswersLast(s, Advance(s, t, ok), t)
  {
    match s.pcs[t]
    case Inside(c, i) => InsideAnswers(s, t, c, i, ok);
    case Registering(c, i) => GrowsByInsert(s.(registry := None), c, ok);
    case Starting(c) => GrowsByInsert(s.(registry := None), c, ok);
    case _ =>
  }

  lemma InsideAnswers(s: State, t: nat, c: Call, i: nat, ok: bool)
    requires t < |s.pcs| && i < |s.slots|
    ensures var n := StepInside(s, t, c, i, ok);
      s.log <= n.log && forall q :: |s.log| <= q < |n.log| ==> !n.log[q].Returned?
  {
  }

  lemma EntriesLater(s: State, n: State, t: nat)
    requires t < |s.pcs| && AnswersLast(s, n, t) && PcDone(s.log, s.pcs[t])
    requires forall q :: 0 <= q < |s.log| ==> EntryDone(s.log, q)
    ensures forall q :: 0 <= q < |n.log| ==> EntryDone(n.log, q)
  {
    forall q | 0 <= q < |n.log| ensures EntryDone(n.log, q) {
      if q < |s.log| {
        assert EntryDone(s.log, q) && n.log[q] == s.log[q] && n.log[..q] == s.log[..q];
      } else if Told(n.log[q]) {
        assert s.log <= n.log[..q];
      }
    }
  }

  lemma StepStarts(s: State, t: nat, ok: bool)
    requires StartInv(s) && CanStep(s, t) && ThreadOk(s, t)
    ensures StartInv(Advance(s, t, ok))
  {
    var n := Advance(s, t, ok);
    assert PcDone(s.log, s.pcs[t]);
    MoverDone(s, t, ok);
    StepMoves(s, t, ok);
    StepAnswers(s, t, ok);
    forall i | 0 <= i < |n.slots| ensures SlotDone(n.log, n.slots[i]) {
      StepWork(s, t, ok, i);
      SlotLater(s, n, i);
    }
    forall u | 0 <= u < |n.pcs| ensures PcDone(n.log, n.pcs[u]) {
      if u != t { assert PcDone(s.log, s.pcs[u]); }
    }
    EntriesLater(s, n, t);
  }

  lemma OtherStarts(s: State, e: Event)
    requires StartInv(s) && Enabled(s, e) && !e.Step?
    ensures StartInv(Next(s, e))
  {
    var n := Next(s, e);
    forall i | 0 <= i < |n.slots| ensures SlotDone(n.log, n.slots[i]) { assert SlotDone(s.log, s.slots[i]); }
    forall u | 0 <= u < |n.pcs| ensures PcDone(n.log, n.pcs[u]) { assert PcDone(s.log, s.pcs[u]); }
    forall q | 0 <= q < |n.log| ensures EntryDone(n.log, q) {
      if q < |s.log| { assert EntryDone(s.log, q) && n.log[..q] == s.log[..q]; }
    }
  }

  lemma {:induction false} ExecStarts(s: State, es: seq<Event>)
    requires Core(s) && StartInv(s) && Exec(s, es).Some?
    ensures StartInv(Exec(s, es).value)
    decreases |es|
  {
    if es != [] {
      var e := es[0];
      assert e.Step? ==> ThreadOk(s, e.thread);
      NextKeeps(s, e);
      if e.Step? { StepStarts(s, e.thread, e.ok); } else { OtherStarts(s, e); }
      ExecStarts(Next(s, e), es[1..]);
    }
  }

  /** Whoever is told OK by a selection or a purge execution named a job whose worker had exited before. */
  lemma StartsFromFinishedWork(s: State, q: nat)
    requires Reachable(s) && q < |s.log| && s.log[q].Returned? && s.log[q].code == OK
    ensures s.log[q].call.SelectionStart? ==>
      exists p :: 0 <= p < q && s.log[p] == WorkerExit(Key(Installer, s.log[q].call.source))
    ensures s.log[q].call.PurgeExecute? ==>
      exists p :: 0 <= p < q && s.log[p] == WorkerExit(Key(Purge, s.log[q].call.preview))
  {
    var threads: nat, es: seq<Event> :| Core(Init(threads)) && Exec(Init(threads), es) == Some(s);
    ExecStarts(Init(threads), es);
    assert EntryDone(s.log, q);
  }
}
