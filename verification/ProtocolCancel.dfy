/**
 Cancellation is never lost: whoever was told that a job's cancel succeeded, or that a cancelling release
 was busy or done, has set a flag that no later step takes back, whatever it raced with.
 */
module ProtocolCancel {
  import opened Status
  import opened Protocol
  import opened ProtocolSafety
  import opened ProtocolHistory
  import opened ProtocolTheorems
  import opened ProtocolRuns

  predicate SlotCancelled(slots: seq<Slot>, key: Key) {
    exists i :: 0 <= i < |slots| && slots[i].key == key && slots[i].cancelled
  }

  /** The call sets the flag before it tries the job lock, or without trying it. */
  predicate Cancels(c: Call) { c.Cancel? || (c.Release? && CancelsBeforeTrying(c.key.kind)) }

  /** The answer tells the caller that the job has been asked to stop. */
  predicate Promises(e: Entry) {
    e.Returned? && ((Cancels(e.call) && e.code in {OK, BUSY}) || (e.call.CancelLocked? && e.code == OK))
  }

  predicate PromiseKept(s: State, e: Entry) { Promises(e) ==> SlotCancelled(s.slots, Target(e.call)) }

  /** A thread past the point where its call sets the flag. */
  predicate PcCancelled(s: State, pc: Pc) {
    NamesSlot(pc) && !pc.Found? && Cancels(pc.call) && pc.slot < |s.slots| ==> s.slots[pc.slot].cancelled
  }

  /** A release about to answer BUSY, or a cancel about to answer OK, from inside the job. */
  predicate PcBusy(s: State, pc: Pc) {
    && pc.Leaving? && pc.slot < |s.slots|
    && ((pc.call.Release? && pc.code == BUSY) || (pc.call.CancelLocked? && pc.code == OK))
    ==> s.slots[pc.slot].cancelled
  }

  ghost predicate CancelInv(s: State) {
    && (forall t :: 0 <= t < |s.pcs| ==> PcCancelled(s, s.pcs[t]) && PcBusy(s, s.pcs[t]))
    && (forall p :: 0 <= p < |s.log| ==> PromiseKept(s, s.log[p]))
  }

  lemma KeptLater(a: State, b: State, e: Entry)
    requires Continues(a, b) && PromiseKept(a, e)
    ensures PromiseKept(b, e)
  {
    if Promises(e) {
      var i :| 0 <= i < |a.slots| && a.slots[i].key == Target(e.call) && a.slots[i].cancelled;
      assert SlotContinues(a.slots[i], b.slots[i]);
    }
  }

  lemma FoundCancels(s: State, t: nat, c: Call, i: nat)
    requires t < |s.pcs| && i < |s.slots| && s.pcs[t] == Found(c, i)
    ensures PcCancelled(StepFound(s, t, c, i), StepFound(s, t, c, i).pcs[t])
  {
  }

  /** The thread that moved is still past its flag, if it was or has just set it. */
  lemma MoverCancelled(s: State, t: nat, ok: bool)
    requires CanStep(s, t) && ThreadOk(s, t) && PcCancelled(s, s.pcs[t])
    ensures PcCancelled(Advance(s, t, ok), Advance(s, t, ok).pcs[t])
  {
    StepContinues(s, t, ok);
    StepMoves(s, t, ok);
    if s.pcs[t].Found? {
      FoundCancels(s, t, s.pcs[t].call, s.pcs[t].slot);
    } else {
      MoverFollows(s, t, Advance(s, t, ok));
    }
  }

  lemma MoverFollows(s: State, t: nat, n: State)
    requires t < |s.pcs| && MovesOn(s, n, t) && Continues(s, n) && PcCancelled(s, s.pcs[t]) && !s.pcs[t].Found?
    requires NamesSlot(s.pcs[t]) ==> s.pcs[t].slot < |s.slots|
    ensures PcCancelled(n, n.pcs[t])
  {
    if NamesSlot(n.pcs[t]) && !n.pcs[t].Found? {
      assert SlotContinues(s.slots[s.pcs[t].slot], n.slots[s.pcs[t].slot]);
    }
  }

  lemma InsideIsBusy(s: State, t: nat, c: Call, i: nat, ok: bool)
    requires t < |s.pcs| && i < |s.slots| && s.pcs[t] == Inside(c, i)
    ensures PcBusy(StepInside(s, t, c, i, ok), StepInside(s, t, c, i, ok).pcs[t])
  {
  }

  lemma MoverBusy(s: State, t: nat, ok: bool)
    requires CanStep(s, t) && ThreadOk(s, t)
    ensures PcBusy(Advance(s, t, ok), Advance(s, t, ok).pcs[t])
  {
    match s.pcs[t]
    case Inside(c, i) => InsideIsBusy(s, t, c, i, ok);
    case _ =>
  }

  /** What another thread's step leaves alone. */
  lemma OtherKept(s: State, n: State, u: nat)
    requires Continues(s, n) && u < |s.pcs| && n.pcs[u] == s.pcs[u] && ThreadOk(s, u)
    requires PcCancelled(s, s.pcs[u]) && PcBusy(s, s.pcs[u])
    ensures PcCancelled(n, n.pcs[u]) && PcBusy(n, n.pcs[u])
  {
    if NamesSlot(s.pcs[u]) { assert SlotContinues(s.slots[s.pcs[u].slot], n.slots[s.pcs[u].slot]); }
  }

  lemma InsideAnswersNothing(s: State, t: nat, c: Call, i: nat, ok: bool)
    requires t < |s.pcs| && i < |s.slots|
    ensures var n := StepInside(s, t, c, i, ok);
      s.log <= n.log && forall q :: |s.log| <= q < |n.log| ==> !n.log[q].Returned?
  {
  }

  lemma InsertAnswersNothing(s: State, c: Call, ok: bool)
    ensures var n := Insert(s, c, ok).0;
      s.log <= n.log && forall q :: |s.log| <= q < |n.log| ==> !n.log[q].Returned?
  {
  }

  /** An answer that promises comes from a thread past its flag. */
  lemma AnswersKept(s: State, t: nat, ok: bool)
    requires CanStep(s, t) && ThreadOk(s, t) && PcCancelled(s, s.pcs[t]) && PcBusy(s, s.pcs[t])
    ensures s.log <= Advance(s, t, ok).log
    ensures var n := Advance(s, t, ok); forall q :: |s.log| <= q < |n.log| ==> PromiseKept(n, n.log[q])
  {
    match s.pcs[t]
    case Inside(c, i) => InsideAnswersNothing(s, t, c, i, ok);
    case Registering(c, i) => InsertAnswersNothing(s.(registry := None), c, ok);
    case Starting(c) => InsertAnswersNothing(s.(registry := None), c, ok);
    case _ => LightAnswersKept(s, t, ok);
  }

  lemma LightAnswersKept(s: State, t: nat, ok: bool)
    requires CanStep(s, t) && ThreadOk(s, t) && PcCancelled(s, s.pcs[t]) && PcBusy(s, s.pcs[t])
    requires !s.pcs[t].Inside? && !s.pcs[t].Registering? && !s.pcs[t].Starting?
    ensures s.log <= Advance(s, t, ok).log
    ensures var n := Advance(s, t, ok); forall q :: |s.log| <= q < |n.log| ==> PromiseKept(n, n.log[q])
  {
    var n := Advance(s, t, ok);
    if NamesSlot(s.pcs[t]) { assert n.slots[s.pcs[t].slot].key == Target(s.pcs[t].call); }
  }

  lemma LogKept(s: State, n: State)
    requires Continues(s, n) && s.log <= n.log
    requires forall p :: 0 <= p < |s.log| ==> PromiseKept(s, s.log[p])
    requires forall p :: |s.log| <= p < |n.log| ==> PromiseKept(n, n.log[p])
    ensures forall p :: 0 <= p < |n.log| ==> PromiseKept(n, n.log[p])
  {
    forall p | 0 <= p < |n.log| ensures PromiseKept(n, n.log[p]) {
      if p < |s.log| {
        assert n.log[p] == s.log[p] && PromiseKept(s, s.log[p]);
        KeptLater(s, n, s.log[p]);
      }
    }
  }

  lemma StepCancels(s: State, t: nat, ok: bool)
    requires Core(s) && CancelInv(s) && CanStep(s, t) && ThreadOk(s, t)
    ensures CancelInv(Advance(s, t, ok))
  {
    var n := Advance(s, t, ok);
    StepContinues(s, t, ok);
    StepMoves(s, t, ok);
    assert PcCancelled(s, s.pcs[t]) && PcBusy(s, s.pcs[t]);
    MoverCancelled(s, t, ok);
    MoverBusy(s, t, ok);
    AnswersKept(s, t, ok);
    forall u | 0 <= u < |n.pcs| ensures PcCancelled(n, n.pcs[u]) && PcBusy(n, n.pcs[u]) {
      if u != t {
        assert ThreadOk(s, u) && PcCancelled(s, s.pcs[u]);
        OtherKept(s, n, u);
      }
    }
    LogKept(s, n);
  }

  lemma NextCancels(s: State, e: Event)
    requires Core(s) && CancelInv(s) && Enabled(s, e) && (e.Step? ==> ThreadOk(s, e.thread))
    ensures CancelInv(Next(s, e))
  {
    var n := Next(s, e);
    if e.Step? {
      StepCancels(s, e.thread, e.ok);
    } else {
      NextContinues(s, e);
      forall u | 0 <= u < |n.pcs| ensures PcCancelled(n, n.pcs[u]) && PcBusy(n, n.pcs[u]) {
        assert ThreadOk(s, u) && PcCancelled(s, s.pcs[u]);
        if n.pcs[u] == s.pcs[u] { OtherKept(s, n, u); }
      }
      LogKept(s, n);
    }
  }

  lemma {:induction false} ExecCancels(s: State, es: seq<Event>)
    requires Core(s) && CancelInv(s) && Exec(s, es).Some?
    ensures CancelInv(Exec(s, es).value)
    decreases |es|
  {
    if es != [] {
      assert es[0].Step? ==> ThreadOk(s, es[0].thread);
      NextKeeps(s, es[0]);
      NextCancels(s, es[0]);
      ExecCancels(Next(s, es[0]), es[1..]);
    }
  }

  lemma ReachableCancels(s: State)
    requires Reachable(s)
    ensures Core(s) && CancelInv(s)
  {
    var threads: nat, es: seq<Event> :| Core(Init(threads)) && Exec(Init(threads), es) == Some(s);
    assert CancelInv(Init(threads));
    ExecCancels(Init(threads), es);
    ReachableOk(s);
  }

  /** In every reachable state each promised cancellation stands. */
  lemma CancelIsNeverLost(s: State, p: nat)
    requires Reachable(s) && p < |s.log| && Promises(s.log[p])
    ensures SlotCancelled(s.slots, Target(s.log[p].call))
  {
    ReachableCancels(s);
    assert PromiseKept(s, s.log[p]);
  }

  // ----- releases that do not cancel first -----

  /** The thread runs a release that sets the flag only under the job lock, if at all. */
  predicate ReleasesUnderLock(pc: Pc) { !pc.Idle? && pc.call.Release? && !CancelsBeforeTrying(pc.call.key.kind) }

  /** Of all steps of such a call only the one inside the job sets a flag, and only that job's. */
  lemma FlagNeedsTheLock(s: State, t: nat, ok: bool, i: nat)
    requires CanStep(s, t) && ThreadOk(s, t) && ReleasesUnderLock(s.pcs[t]) && i < |s.slots|
    ensures var n := Advance(s, t, ok);
      i < |n.slots| && (n.slots[i].cancelled != s.slots[i].cancelled ==> s.pcs[t].Inside? && s.pcs[t].slot == i)
  {
    match s.pcs[t]
    case Inside(c, j) => CloseTouches(s, t, c, j, i);
    case _ =>
  }

  lemma CloseTouches(s: State, t: nat, c: Call, j: nat, i: nat)
    requires t < |s.pcs| && j < |s.slots| && i < |s.slots|
    ensures |StepRelease(s, t, c, j).slots| == |s.slots|
    ensures i != j ==> StepRelease(s, t, c, j).slots[i] == s.slots[i]
  {
  }

  /**
   Such a call answers BUSY in one of two ways: having been inside the job, which is then cancelled, or
   without the lock, which another thread holds, and then it has touched nothing.
   */
  lemma BusyMeansOneOfTwo(s: State, t: nat, ok: bool)
    requires Reachable(s) && CanStep(s, t) && ReleasesUnderLock(s.pcs[t])
    ensures ThreadOk(s, t)
    ensures var n := Advance(s, t, ok);
      |n.log| == |s.log| + 1 && n.log[|s.log|] == Returned(t, s.pcs[t].call, BUSY) ==>
        && (s.pcs[t].Leaving? || s.pcs[t].Trying?) && s.pcs[t].slot < |s.slots|
        && (s.pcs[t].Leaving? ==> s.slots[s.pcs[t].slot].cancelled && s.slots[s.pcs[t].slot].holder == Some(t))
        && (s.pcs[t].Trying? ==>
              n.slots == s.slots && s.slots[s.pcs[t].slot].holder.Some? && s.slots[s.pcs[t].slot].holder != Some(t))
  {
    ReachableCancels(s);
    assert ThreadOk(s, t) && PcBusy(s, s.pcs[t]);
    match s.pcs[t]
    case Inside(c, i) => InsideAnswersNothing(s, t, c, i, ok);
    case Trying(c, i) => assert SlotOk(s, i);
    case _ =>
  }

  /** A try fails exactly when another thread is in the job; that answers BUSY and touches no slot, else it enters. */
  lemma BusyExactlyWhenHeld(s: State, t: nat, ok: bool)
    requires Reachable(s) && t < |s.pcs| && s.pcs[t].Trying?
    ensures CanStep(s, t) && ThreadOk(s, t) && s.pcs[t].slot < |s.slots|
    ensures var i := s.pcs[t].slot;
      var n := Advance(s, t, ok);
      && (s.slots[i].holder.Some? <==> n.log == s.log + [Returned(t, s.pcs[t].call, BUSY)])
      && (s.slots[i].holder.Some? ==>
            s.slots[i].holder.value != t && n.slots == s.slots && n.pcs == s.pcs[t := Idle])
      && (s.slots[i].holder.None? ==>
            && n.slots == s.slots[i := s.slots[i].(holder := Some(t))]
            && n.pcs == s.pcs[t := Inside(s.pcs[t].call, i)] && n.log == s.log)
  {
    ReachableOk(s);
    assert ThreadOk(s, t) && SlotOk(s, s.pcs[t].slot);
  }

  /** Inside the job a release answers BUSY exactly while a worker is at work, and then it has cancelled it. */
  lemma BusyInsideExactlyWhen(s: State, t: nat, ok: bool)
    requires Reachable(s) && t < |s.pcs| && s.pcs[t].Inside? && s.pcs[t].call.Release?
    ensures CanStep(s, t) && ThreadOk(s, t) && s.pcs[t].slot < |s.slots|
    ensures var i := s.pcs[t].slot;
      var n := Advance(s, t, ok);
      (n.pcs[t] == Leaving(s.pcs[t].call, i, BUSY) <==> s.slots[i].work == Running)
      && (s.slots[i].work == Running ==> i < |n.slots| && n.slots[i].cancelled)
  {
    ReachableOk(s);
    assert ThreadOk(s, t) && SlotOk(s, s.pcs[t].slot);
  }

  /** The second way happens to each kind: a release is BUSY because a poll is inside, and nothing is cancelled. */
  lemma BusyWithoutCancelling(k: Kind) returns (s: State)
    requires CancelsUnderLock(k)
    ensures Reachable(s) && |s.log| > 0 && s.log[|s.log| - 1] == Returned(0, Release(Key(k, 1)), BUSY)
    ensures s.slots == [Slot(Key(k, 1), Some(1), false, Running, false, false)]
  {
    s := PollInside(k);
    s := Lookup(s, 0, Release(Key(k, 1)));
    s := TurnedAway(s, 0, Release(Key(k, 1)), 0);
  }

  lemma PollInside(k: Kind) returns (s: State)
    requires CancelsUnderLock(k)
    ensures Reachable(s) && s.table == map[Key(k, 1) := 0] && s.registry == None
    ensures s.slots == [Slot(Key(k, 1), Some(1), false, Running, false, false)]
    ensures s.pcs == [Idle, Inside(Use(Key(k, 1)), 0)]
  {
    s := JobStarts(k);
    s := Lookup(s, 1, Use(Key(k, 1)));
    s := Enter(s, 1, Use(Key(k, 1)), 0);
  }

  lemma JobStarts(k: Kind) returns (s: State)
    requires CancelsUnderLock(k)
    ensures Reachable(s) && s.table == map[Key(k, 1) := 0] && s.registry == None
    ensures s.slots == [Slot(Key(k, 1), None, false, Running, false, false)] && s.pcs == [Idle, Idle]
  {
    s := Begin(2);
    s := StartJob(s, 0, k);
    assert s.pcs == [Idle, Idle];
  }

  lemma TurnedAway(s: State, t: nat, c: Call, i: nat) returns (n: State)
    requires Reachable(s) && t < |s.pcs| && s.pcs[t] == Found(c, i) && i < |s.slots| && s.slots[i].holder.Some?
    requires !c.Cancel? && !(c.Release? && CancelsBeforeTrying(c.key.kind))
    ensures Reachable(n) && n.slots == s.slots && n.log == s.log + [Returned(t, c, BUSY)]
  {
    var a := ReachMore(s, Step(t, true));
    assert a == SetPc(s, t, Trying(c, i));
    n := ReachMore(a, Step(t, true));
  }
}
