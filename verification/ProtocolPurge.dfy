/**
 The one call that does not check `closed`. `sayaka_purge_execute_start_v1` reads its preview job
 under the job lock without `ensure_open`, so it can act on a preview that has been released.
 */
module ProtocolPurge {
  import opened Status
  import opened Protocol
  import opened ProtocolSafety
  import opened ProtocolHistory
  import opened ProtocolTheorems
  import opened ProtocolRuns

  /** The thread cloned slot `i` for a purge execution and has not read the preview yet. */
  predicate AboutToRead(pc: Pc, i: nat) {
    (pc.Found? || pc.Trying? || pc.Inside?) && pc.call.PurgeExecute? && pc.slot == i
  }

  predicate SomeReader(s: State, i: nat) { exists t :: 0 <= t < |s.pcs| && AboutToRead(s.pcs[t], i) }

  /** The slot is a preview's and some thread is about to read it; an execution's handle is turned away unread. */
  predicate HasReader(s: State, i: nat)
    requires i < |s.slots|
  {
    !s.slots[i].derived && SomeReader(s, i)
  }

  predicate ReadsIn(log: seq<Entry>, from: nat, key: Key) {
    exists q :: from <= q < |log| && log[q] == UncheckedRead(key)
  }

  predicate Forgotten(s: State, i: nat)
    requires i < |s.slots|
  {
    s.slots[i].closed && !InFlight(s, i) && s.slots[i].key !in s.table
  }

  lemma ForgottenAfterRelease(s: State, i: nat)
    requires Core(s) && Hist(s) && i < |s.slots| && Releases(s.log, s.slots[i].key) == 1
    ensures Forgotten(s, i)
  {
    assert SlotHist(s, i) && SlotOk(s, i);
  }

  /** The entries a step adds, of which only the read of a purge execution is unchecked. */
  predicate LogsOnly(s: State, n: State, t: nat)
    requires t < |s.pcs|
  {
    && s.log <= n.log
    && forall q :: |s.log| <= q < |n.log| && n.log[q].UncheckedRead? ==>
         && s.pcs[t].Inside? && s.pcs[t].call.PurgeExecute? && s.pcs[t].slot < |s.slots|
         && n.log[q].key == s.slots[s.pcs[t].slot].key && !s.slots[s.pcs[t].slot].derived
  }

  lemma InsideLogs(s: State, t: nat, c: Call, i: nat, ok: bool)
    requires t < |s.pcs| && i < |s.slots| && s.pcs[t] == Inside(c, i)
    ensures LogsOnly(s, StepInside(s, t, c, i, ok), t)
  {
  }

  lemma InsertLogs(s: State, c: Call, ok: bool)
    ensures var n := Insert(s, c, ok).0;
      s.log <= n.log && forall q :: |s.log| <= q < |n.log| ==> !n.log[q].UncheckedRead?
  {
  }

  lemma StepLogs(s: State, t: nat, ok: bool)
    requires CanStep(s, t) && ThreadOk(s, t)
    ensures LogsOnly(s, Advance(s, t, ok), t)
  {
    match s.pcs[t]
    case Inside(c, i) => InsideLogs(s, t, c, i, ok);
    case Registering(c, i) => InsertLogs(s.(registry := None), c, ok);
    case Starting(c) => InsertLogs(s.(registry := None), c, ok);
    case _ =>
  }

  lemma LookingBringsNoReader(s: State, t: nat, c: Call, i: nat)
    requires t < |s.pcs| && !c.Start? && (Target(c) in s.table ==> s.table[Target(c)] != i)
    ensures !AboutToRead(StepLooking(s, t, c).pcs[t], i)
  {
  }

  lemma StepBringsNoReader(s: State, t: nat, ok: bool, i: nat)
    requires CanStep(s, t) && ThreadOk(s, t) && i < |s.slots|
    requires !AboutToRead(s.pcs[t], i)
    requires s.pcs[t].Looking? && Target(s.pcs[t].call) in s.table ==> s.table[Target(s.pcs[t].call)] != i
    ensures !AboutToRead(Advance(s, t, ok).pcs[t], i)
  {
    StepMoves(s, t, ok);
    if s.pcs[t].Looking? { LookingBringsNoReader(s, t, s.pcs[t].call, i); }
    else if s.pcs[t].Ready? { assert Advance(s, t, ok).pcs[t].Looking?; }
  }

  /** Without a reader no step reads the forgotten slot, and none brings a reader back. */
  lemma StepWithoutReader(s: State, t: nat, ok: bool, i: nat)
    requires CanStep(s, t) && ThreadOk(s, t) && Core(s) && i < |s.slots|
    requires s.slots[i].key !in s.table && !HasReader(s, i)
    ensures var n := Advance(s, t, ok);
      i < |n.slots| && !HasReader(n, i) && s.log <= n.log && !ReadsIn(n.log, |s.log|, s.slots[i].key)
  {
    var n := Advance(s, t, ok);
    StepContinues(s, t, ok);
    StepMoves(s, t, ok);
    StepLogs(s, t, ok);
    assert SlotContinues(s.slots[i], n.slots[i]);
    if !s.slots[i].derived {
      assert !AboutToRead(s.pcs[t], i);
      if s.pcs[t].Looking? { assert KeyOk(s, Target(s.pcs[t].call)); }
      StepBringsNoReader(s, t, ok, i);
      OthersNoReader(s, n, t, i);
    }
    NoReadOf(s, n, t, i);
  }

  lemma OthersNoReader(s: State, n: State, t: nat, i: nat)
    requires t < |s.pcs| && MovesOn(s, n, t) && !SomeReader(s, i) && !AboutToRead(n.pcs[t], i)
    ensures !SomeReader(n, i)
  {
    forall u | 0 <= u < |n.pcs| ensures !AboutToRead(n.pcs[u], i) {
      if u != t { assert n.pcs[u] == s.pcs[u] && !AboutToRead(s.pcs[u], i); }
    }
  }

  lemma NoReadOf(s: State, n: State, t: nat, i: nat)
    requires Increasing(s.slots) && t < |s.pcs| && i < |s.slots| && LogsOnly(s, n, t)
    requires s.slots[i].derived || !AboutToRead(s.pcs[t], i)
    ensures !ReadsIn(n.log, |s.log|, s.slots[i].key)
  {
    if s.pcs[t].Inside? && s.pcs[t].call.PurgeExecute? && s.pcs[t].slot < |s.slots| && s.pcs[t].slot != i {
      KeysDistinct(s, i, s.pcs[t].slot);
    }
  }

  lemma {:induction false} NoReaderNoRead(s: State, es: seq<Event>, i: nat)
    requires Core(s) && i < |s.slots| && s.slots[i].key !in s.table && !HasReader(s, i)
    requires Exec(s, es).Some?
    ensures s.log <= Exec(s, es).value.log
    ensures !ReadsIn(Exec(s, es).value.log, |s.log|, s.slots[i].key)
    decreases |es|
  {
    if es != [] {
      var e := es[0];
      assert e.Step? ==> ThreadOk(s, e.thread);
      var n := Next(s, e);
      NextKeeps(s, e);
      NextContinues(s, e);
      assert SlotOk(s, i);
      if e.Step? { StepWithoutReader(s, e.thread, e.ok, i); }
      else {
        assert SlotContinues(s.slots[i], n.slots[i]);
        forall u | 0 <= u < |n.pcs| && !s.slots[i].derived ensures !AboutToRead(n.pcs[u], i) {
          assert !AboutToRead(s.pcs[u], i);
        }
      }
      NoReaderNoRead(n, es[1..], i);
    }
  }

  /** The thread to run next: the slot's holder if the reader `t` is about to try the lock in vain. */
  function Runner(s: State, t: nat, i: nat): nat
    requires t < |s.pcs| && i < |s.slots|
  {
    if s.pcs[t].Trying? && s.slots[i].holder.Some? then s.slots[i].holder.value else t
  }

  /** A step of the runner either reads or brings the read closer. */
  lemma RunnerAdvances(s: State, t: nat, i: nat)
    requires Core(s) && i < |s.slots| && s.slots[i].closed && !s.slots[i].derived && !InFlight(s, i)
    requires t < |s.pcs| && AboutToRead(s.pcs[t], i)
    ensures CanStep(s, Runner(s, t, i)) && ThreadOk(s, Runner(s, t, i))
    ensures var u := Runner(s, t, i); var n := Advance(s, u, false);
      && (s.pcs[u].Inside? && s.pcs[u].call.PurgeExecute? ==> n.log == s.log + [UncheckedRead(s.slots[i].key)])
      && (!(s.pcs[u].Inside? && s.pcs[u].call.PurgeExecute?) ==>
            && |n.slots| == |s.slots| && |n.pcs| == |s.pcs| && s.log <= n.log
            && n.slots[i].key == s.slots[i].key && n.slots[i].closed && !n.slots[i].derived
            && !InFlight(n, i) && AboutToRead(n.pcs[t], i))
  {
    assert SlotOk(s, i);
    assert ThreadOk(s, t);
    if s.pcs[t].Trying? && s.slots[i].holder.Some? { HolderAdvances(s, t, i); }
  }

  lemma HolderAdvances(s: State, t: nat, i: nat)
    requires Core(s) && i < |s.slots| && s.slots[i].closed && !s.slots[i].derived && !InFlight(s, i) && SlotOk(s, i)
    requires t < |s.pcs| && s.pcs[t].Trying? && AboutToRead(s.pcs[t], i) && s.slots[i].holder.Some?
    ensures var u := s.slots[i].holder.value; CanStep(s, u) && ThreadOk(s, u)
    ensures var u := s.slots[i].holder.value; var n := Advance(s, u, false);
      && (s.pcs[u].Inside? && s.pcs[u].call.PurgeExecute? ==> n.log == s.log + [UncheckedRead(s.slots[i].key)])
      && (!(s.pcs[u].Inside? && s.pcs[u].call.PurgeExecute?) ==>
            && |n.slots| == |s.slots| && |n.pcs| == |s.pcs| && s.log <= n.log
            && n.slots[i].key == s.slots[i].key && n.slots[i].closed && !n.slots[i].derived
            && !InFlight(n, i) && AboutToRead(n.pcs[t], i))
  {
    var u := s.slots[i].holder.value;
    assert ThreadOk(s, u);
    assert s.pcs[u].Inside? || s.pcs[u].Leaving?;
  }

  /** With a reader around, stepping the slot's holder out of the way lets the read happen. */
  lemma {:induction false} ReadSchedule(s: State, t: nat, i: nat) returns (es: seq<Event>)
    requires Core(s) && i < |s.slots| && s.slots[i].closed && !s.slots[i].derived && !InFlight(s, i)
    requires t < |s.pcs| && AboutToRead(s.pcs[t], i)
    ensures Exec(s, es).Some? && s.log <= Exec(s, es).value.log
    ensures ReadsIn(Exec(s, es).value.log, |s.log|, s.slots[i].key)
    decreases TotalRank(s.pcs)
  {
    RunnerAdvances(s, t, i);
    var u := Runner(s, t, i);
    var e := Step(u, false);
    var n := Next(s, e);
    NextKeeps(s, e);
    StepDescends(s, u, false);
    if s.pcs[u].Inside? && s.pcs[u].call.PurgeExecute? {
      es := [e];
      assert Exec(n, []) == Some(n);
      assert n.log[|s.log|] == UncheckedRead(s.slots[i].key);
    } else {
      var rest := ReadSchedule(n, t, i);
      es := [e] + rest;
      assert es[1..] == rest;
    }
  }

  /**
   The slot of a released handle is still read in some continuation exactly when it is a preview's and a
   purge-execute call already holds it at that moment.
   */
  lemma ReleasedPreviewIsReadable(s: State, i: nat)
    requires Reachable(s) && i < |s.slots| && Releases(s.log, s.slots[i].key) == 1
    ensures Core(s)
    ensures (exists es :: Exec(s, es).Some? && ReadsIn(Exec(s, es).value.log, |s.log|, s.slots[i].key))
       <==> HasReader(s, i)
  {
    ReachableOk(s);
    ForgottenAfterRelease(s, i);
    if HasReader(s, i) {
      var t :| 0 <= t < |s.pcs| && AboutToRead(s.pcs[t], i);
      var es := ReadSchedule(s, t, i);
    } else {
      forall es | Exec(s, es).Some? ensures !ReadsIn(Exec(s, es).value.log, |s.log|, s.slots[i].key) {
        NoReaderNoRead(s, es, i);
      }
    }
  }

  const PREVIEW := Key(Purge, 1)

  predicate RaceAt(s: State, listed: bool, slot: Slot, releaser: Pc, reader: Pc) {
    && s.table == (if listed then map[PREVIEW := 0] else map[]) && s.registry == None && s.next == 2
    && s.slots == [slot] && s.pcs == [releaser, reader]
  }

  lemma PreviewStarts() returns (s: State)
    ensures Reachable(s) && RaceAt(s, true, Slot(PREVIEW, None, false, Running, false, false), Idle, Idle)
  {
    s := Begin(2);
    s := StartJob(s, 0, Purge);
    assert s.pcs == [Idle, Idle];
  }

  lemma ExecutionFindsPreview() returns (s: State)
    ensures Reachable(s)
    ensures RaceAt(s, true, Slot(PREVIEW, None, false, Finished, false, false), Idle, Found(PurgeExecute(1), 0))
  {
    s := PreviewStarts();
    s := ReachMore(s, WorkerDone(0));
    s := Lookup(s, 1, PurgeExecute(1));
  }

  lemma ReleaseReturns() returns (s: State)
    ensures Reachable(s) && |s.log| > 0 && s.log[|s.log| - 1] == Returned(0, Release(PREVIEW), OK)
    ensures RaceAt(s, false, Slot(PREVIEW, None, true, Finished, false, false), Idle, Found(PurgeExecute(1), 0))
  {
    s := ExecutionFindsPreview();
    s := Lookup(s, 0, Release(PREVIEW));
    s := Enter(s, 0, Release(PREVIEW), 0);
    s := Close(s, 0, PREVIEW, 0);
    assert s.table == map[];
  }

  /**
   Two threads suffice: one looks the finished preview up for execution, the other releases it and is
   told OK, and the first can still read it.
   */
  lemma ReleasedPreviewCanHaveReader() returns (s: State)
    ensures Reachable(s) && |s.slots| == 1 && Releases(s.log, s.slots[0].key) == 1 && HasReader(s, 0)
  {
    s := ReleaseReturns();
    ReachableOk(s);
    assert SlotHist(s, 0);
    assert AboutToRead(s.pcs[1], 0);
  }

  /** The reader of a free released slot passes its checks and waits to start the execution. */
  lemma ReadPasses(s: State, t: nat, h: nat, i: nat) returns (n: State)
    requires Reachable(s) && t < |s.pcs| && s.pcs[t] == Found(PurgeExecute(h), i) && i < |s.slots|
    requires s.slots[i].holder == None && s.slots[i].work != Running && !s.slots[i].derived && s.registry == None
    ensures Reachable(n) && n.registry == None && n.table == s.table && n.next == s.next && n.slots == s.slots
    ensures n.pcs == s.pcs[t := NeedStart(PurgeExecute(h))] && n.log == s.log + [UncheckedRead(s.slots[i].key)]
  {
    var a := Enter(s, t, PurgeExecute(h), i);
    n := ReachMore(a, Step(t, true));
    assert n.slots == s.slots && n.pcs == s.pcs[t := NeedStart(PurgeExecute(h))];
  }

  /** And it is executed: the log shows the OK release of the preview and, after it, the execution's worker started. */
  lemma ReleasedPreviewIsExecuted() returns (s: State, p: nat, q: nat)
    ensures Reachable(s) && p < q < |s.log| && OkRelease(s.log[p], PREVIEW)
    ensures s.log[q] == Spawned(Key(Purge, 2)) && q + 1 < |s.log| && s.log[q + 1] == Returned(1, PurgeExecute(1), OK)
  {
    s := ReleaseReturns();
    p := |s.log| - 1;
    s := ReadPasses(s, 1, 1, 0);
    assert CountedKeys(s.table) == {};
    s := Insertion(s, 1, PurgeExecute(1));
    q := |s.log| - 2;
  }
}
