/**
 All interleavings of calls, threads and workers over a registry full of jobs: each is a run of the
 protocol and, slot by slot, a run of the job, so the theorems about both hold of it.
 */
module Interleavings {
  import opened Status
  import opened Protocol
  import opened ProtocolSafety
  import opened ProtocolHistory
  import opened ProtocolTheorems
  import ProtocolCancel
  import PreviewJob = Retained
  import OrphanJob = Orphan
  import UninstallJob = Uninstall
  import opened Composition

  // ----- runs of the product -----

  function Start<T>(threads: nat): World<T> { World(Init(threads), []) }

  lemma StartAgrees<T>(threads: nat)
    ensures Agree(Start<T>(threads))
  {
    InitOk(threads);
    assert Exec(Init(threads), []) == Some(Init(threads));
    forall key ensures NeverSpawned(Init(threads), key) {}
  }

  /** The world after these acts, or `None` when one of them was not possible at its turn. */
  ghost function Runs<T>(w: World<T>, acts: seq<Act<T>>): Option<World<T>>
    requires Agree(w)
    decreases |acts|
  {
    if acts == [] then Some(w)
    else if !Possible(w, acts[0]) then None
    else
      MoveKeeps(w, acts[0]);
      Runs(Move(w, acts[0]), acts[1..])
  }

  lemma {:induction false} RunsKeep<T>(w: World<T>, acts: seq<Act<T>>)
    requires Agree(w) && Runs(w, acts).Some?
    ensures Agree(Runs(w, acts).value)
    decreases |acts|
  {
    if acts != [] {
      MoveKeeps(w, acts[0]);
      RunsKeep(Move(w, acts[0]), acts[1..]);
    }
  }

  /** The protocol's view of a run. */
  ghost function Trace<T>(w: World<T>, acts: seq<Act<T>>): seq<Event>
    requires Agree(w) && Runs(w, acts).Some?
    decreases |acts|
  {
    if acts == [] then []
    else
      MoveKeeps(w, acts[0]);
      Projected(w, acts[0]) + Trace(Move(w, acts[0]), acts[1..])
  }

  /** Every run of the product is a run of the protocol: what holds of all of those holds here. */
  lemma {:induction false} RunsProject<T>(w: World<T>, acts: seq<Act<T>>)
    requires Agree(w) && Core(w.s) && Runs(w, acts).Some?
    ensures Exec(w.s, Trace(w, acts)) == Some(Runs(w, acts).value.s)
    decreases |acts|
  {
    if acts != [] {
      var n := Move(w, acts[0]);
      MoveKeeps(w, acts[0]);
      ReachableOk(n.s);
      RunsProject(n, acts[1..]);
      EventIsEnabled(w, acts[0]);
      var rest := Trace(n, acts[1..]);
      if Projected(w, acts[0]) == [] { assert Trace(w, acts) == rest; }
      else { assert Trace(w, acts)[0] == Projected(w, acts[0])[0] && Trace(w, acts)[1..] == rest; }
    }
  }

  // ----- every job goes through a run of its own -----

  /** `b` is what a run of the job `a` leads to. */
  ghost predicate Follows<T(!new)>(a: Body<T>, b: Body<T>) {
    match a
    case Previews(j) => b.Previews? && exists es :: PreviewJob.Run(j, es) == b.previews
    case Leftovers(j) => b.Leftovers? && exists es :: OrphanJob.Run(j, es) == b.leftovers
    case App(j) => b.App? && exists es :: UninstallJob.Run(j, es) == b.app
    case Engine => b.Engine?
  }

  lemma FollowsItself<T(!new)>(b: Body<T>)
    ensures Follows(b, b)
  {
    match b
    case Previews(j) => assert PreviewJob.Run(j, []) == j;
    case Leftovers(j) => assert OrphanJob.Run(j, []) == j;
    case App(j) => assert UninstallJob.Run(j, []) == j;
    case Engine =>
  }

  lemma FollowsMore<T(!new)>(a: Body<T>, op: Op<T>, b: Body<T>)
    requires Follows(Perform(a, op), b)
    ensures Follows(a, b)
  {
    match a
    case Previews(j) =>
      if op.OnPreviews? {
        var es :| PreviewJob.Run(PreviewJob.Next(j, op.p), es) == b.previews;
        assert ([op.p] + es)[1..] == es;
        assert PreviewJob.Run(j, [op.p] + es) == b.previews;
      }
    case Leftovers(j) =>
      if op.OnLeftovers? {
        var es :| OrphanJob.Run(OrphanJob.Next(j, op.o), es) == b.leftovers;
        assert ([op.o] + es)[1..] == es;
        assert OrphanJob.Run(j, [op.o] + es) == b.leftovers;
      }
    case App(j) =>
      if op.OnApp? {
        var es :| UninstallJob.Run(UninstallJob.Call(j, op.u).0, es) == b.app;
        assert ([op.u] + es)[1..] == es;
        assert UninstallJob.Run(j, [op.u] + es) == b.app;
      }
    case Engine =>
  }

  /** An act leaves each job alone or performs one operation on it, of which the lock-free cancel is one. */
  lemma MovePerforms<T>(w: World<T>, a: Act<T>, i: nat)
    requires Agree(w) && Possible(w, a) && i < |w.bodies|
    ensures |w.bodies| <= |Move(w, a).bodies|
    ensures Move(w, a).bodies[i] == w.bodies[i] || exists op :: Move(w, a).bodies[i] == Perform(w.bodies[i], op)
  {
    var b := w.bodies[i];
    if a.Steps? {
      if Move(w, a).bodies[i] == Ask(b) && b.Previews? {
        assert Ask(b) == Perform(b, OnPreviews(PreviewJob.DoCancel));
      } else {
        assert Move(w, a).bodies[i] in {b, Ask(b), Perform(b, a.op)};
      }
    } else if a.Works? {
      assert Move(w, a).bodies[i] in {b, Perform(b, a.op)};
    }
  }

  /** In every interleaving each job goes through a run of its own calls, so what holds of those holds here. */
  lemma {:induction false} JobsRun<T(!new)>(w: World<T>, acts: seq<Act<T>>, i: nat)
    requires Agree(w) && Runs(w, acts).Some? && i < |w.bodies|
    ensures var n := Runs(w, acts).value; i < |n.bodies| && Follows(w.bodies[i], n.bodies[i])
    decreases |acts|
  {
    if acts == [] {
      FollowsItself(w.bodies[i]);
    } else {
      var m := Move(w, acts[0]);
      MoveKeeps(w, acts[0]);
      MovePerforms(w, acts[0], i);
      JobsRun(m, acts[1..], i);
      var b := Runs(m, acts[1..]).value.bodies[i];
      if m.bodies[i] != w.bodies[i] {
        var op :| m.bodies[i] == Perform(w.bodies[i], op);
        FollowsMore(w.bodies[i], op, b);
      }
    }
  }

  // ----- what follows for all interleavings -----

  ghost predicate JobOk<T>(b: Body<T>) {
    match b
    case Previews(j) => PreviewJob.Inv(j) && j.effects <= j.launches <= 1
    case Leftovers(j) => OrphanJob.Inv(j) && j.launches <= 1
    case App(j) => UninstallJob.Inv(j) && |j.routes| <= 1
    case Engine => true
  }

  /**
   In every interleaving of calls and workers each job keeps its invariant, launches at most one execution
   and hands off at most one move, and the log shows for its handle the first worker and that one at most.
   */
  lemma EveryInterleaving<T>(threads: nat, acts: seq<Act<T>>)
    requires Agree(Start<T>(threads)) && Runs(Start<T>(threads), acts).Some?
    ensures var n := Runs(Start<T>(threads), acts).value;
      && Reachable(n.s) && |n.bodies| == |n.s.slots|
      && forall i :: 0 <= i < |n.bodies| ==>
           && JobOk(n.bodies[i]) && Launches(n.bodies[i]) <= 1
           && Spawns(n.s.log, n.s.slots[i].key)
              == (if HasWorker(n.s.slots[i].key.kind) then 1 else 0) + Launches(n.bodies[i])
  {
    RunsKeep(Start<T>(threads), acts);
    var n := Runs(Start<T>(threads), acts).value;
    forall i | 0 <= i < |n.bodies|
      ensures JobOk(n.bodies[i]) && Launches(n.bodies[i]) <= 1 && CountFits(n.s.log, n.s.slots[i], n.bodies[i])
    {
      assert Agrees(n.s.log, n.s.slots[i], n.bodies[i]);
    }
  }

  /** The job has been released and nothing is at work in it. */
  predicate AtRest<T>(b: Body<T>) {
    match b
    case Previews(j) => j.closed && j.worker.None? && j.outcome.None?
    case Leftovers(j) => j.closed && j.worker.None? && j.session.None? && j.bytes.None?
    case App(j) => j.closed
    case Engine => true
  }

  /** Nothing about the job has changed, but for the flag that a lock-free cancel may set at any time. */
  ghost predicate Unchanged<T>(a: Body<T>, b: Body<T>) {
    b == a || (a.Previews? && b.Previews? && b.previews == a.previews.(cancelled := b.previews.cancelled))
  }

  lemma RestIsFinal<T(!new)>(a: Body<T>, b: Body<T>)
    requires JobOk(a) && AtRest(a) && Follows(a, b)
    ensures Unchanged(a, b)
  {
    match a
    case Previews(j) =>
      var es :| PreviewJob.Run(j, es) == b.previews;
      PreviewJob.ReleasedIsFinal(j, es, (p: T) => OK, true);
    case Leftovers(j) =>
      var es :| OrphanJob.Run(j, es) == b.leftovers;
      OrphanJob.ReleasedIsFinal(j, es, true);
    case App(j) =>
      var es :| UninstallJob.Run(j, es) == b.app;
      UninstallJob.ClosedIsFinal(j, es, UninstallJob.DoRelease);
    case Engine =>
  }

  /** A closed slot stays closed in every run, with no worker at work. */
  lemma ClosedForGood<T>(w: World<T>, i: nat, acts: seq<Act<T>>)
    requires Agree(w) && i < |w.s.slots| && w.s.slots[i].closed && Runs(w, acts).Some?
    ensures var n := Runs(w, acts).value.s;
      i < |n.slots| && n.slots[i].key == w.s.slots[i].key && n.slots[i].closed && n.slots[i].work != Running
  {
    ReachableOk(w.s);
    RunsProject(w, acts);
    NeverReused(w.s, Trace(w, acts));
    var n := Runs(w, acts).value.s;
    assert SlotContinues(w.s.slots[i], n.slots[i]);
    assert SlotOk(n, i);
  }

  /**
   Once some release of a handle has returned OK, its job is closed, the kinds with a preview have given up
   preview, result and worker, and no continuation changes the job or starts a worker of it.
   */
  lemma ReleasedJobsRest<T(!new)>(w: World<T>, i: nat, p: nat, acts: seq<Act<T>>)
    requires Agree(w) && i < |w.bodies| && p < |w.s.log| && OkRelease(w.s.log[p], w.s.slots[i].key)
    requires Runs(w, acts).Some?
    ensures w.s.slots[i].closed && AtRest(w.bodies[i])
    ensures var n := Runs(w, acts).value;
      && i < |n.bodies| == |n.s.slots| && Unchanged(w.bodies[i], n.bodies[i])
      && n.s.slots[i].key == w.s.slots[i].key && n.s.slots[i].closed && n.s.slots[i].work != Running
  {
    ReachableOk(w.s);
    SomeRelease(w.s.log, w.s.slots[i].key, p);
    assert SlotHist(w.s, i) && Agrees(w.s.log, w.s.slots[i], w.bodies[i]);
    JobsRun(w, acts, i);
    RunsKeep(w, acts);
    ClosedForGood(w, i, acts);
    RestIsFinal(w.bodies[i], Runs(w, acts).value.bodies[i]);
  }

  // ----- what a promised cancellation stops -----

  predicate AskedToStop<T>(b: Body<T>) {
    match b
    case Previews(j) => j.cancelled
    case Leftovers(j) => j.cancelled
    case App(_) => true
    case Engine => true
  }

  /** The promise of the log is kept by the job behind the slot. */
  lemma PromisedMeansAsked<T>(w: World<T>, i: nat, p: nat)
    requires Agree(w) && i < |w.bodies| && p < |w.s.log|
    requires ProtocolCancel.Promises(w.s.log[p]) && Target(w.s.log[p].call) == w.s.slots[i].key
    ensures JobOk(w.bodies[i]) && AskedToStop(w.bodies[i])
  {
    ReachableOk(w.s);
    ProtocolCancel.CancelIsNeverLost(w.s, p);
    var j: nat :| j < |w.s.slots| && w.s.slots[j].key == w.s.slots[i].key && w.s.slots[j].cancelled;
    if j != i { KeysDistinct(w.s, i, j); }
    assert Agrees(w.s.log, w.s.slots[i], w.bodies[i]);
  }

  /** The same executions have been launched and the same have got past their guard, and the flag stands. */
  predicate StoppedAt<T>(a: Body<T>, b: Body<T>) {
    match a
    case Previews(j) =>
      b.Previews? && b.previews.cancelled && b.previews.launches == j.launches && b.previews.effects == j.effects
    case Leftovers(j) => b.Leftovers? && b.leftovers.cancelled && b.leftovers.launches == j.launches
    case App(_) => b.App?
    case Engine => b.Engine?
  }

  lemma AskedIsFinal<T(!new)>(a: Body<T>, b: Body<T>)
    requires JobOk(a) && AskedToStop(a) && Follows(a, b)
    ensures StoppedAt(a, b)
  {
    match a
    case Previews(j) =>
      var es :| PreviewJob.Run(j, es) == b.previews;
      PreviewJob.CancelledNeverActs(j, es);
    case Leftovers(j) =>
      var es :| OrphanJob.Run(j, es) == b.leftovers;
      OrphanJob.CancelledNeverLaunches(j, es, true);
    case App(_) =>
    case Engine =>
  }

  /**
   Once a caller has been told that the cancel of a picked, simulator, runtime or orphan job succeeded, no
   interleaving launches an execution of it, and none that was launched gets past its guard any more.
   */
  lemma CancelledAcrossThreads<T(!new)>(w: World<T>, i: nat, p: nat, acts: seq<Act<T>>)
    requires Agree(w) && i < |w.bodies| && p < |w.s.log| && Runs(w, acts).Some?
    requires ProtocolCancel.Promises(w.s.log[p]) && Target(w.s.log[p].call) == w.s.slots[i].key
    ensures i < |Runs(w, acts).value.bodies| && StoppedAt(w.bodies[i], Runs(w, acts).value.bodies[i])
  {
    PromisedMeansAsked(w, i, p);
    JobsRun(w, acts, i);
    AskedIsFinal(w.bodies[i], Runs(w, acts).value.bodies[i]);
  }

  /** Across threads, too, what is executed is the plan that was previewed. */
  lemma ExecutedAcrossThreads<T(!new)>(w: World<T>, i: nat, plan: T, acts: seq<Act<T>>)
    requires Agree(w) && i < |w.bodies| && Runs(w, acts).Some?
    requires w.bodies[i].Previews? && PreviewJob.OnlyPlan(w.bodies[i].previews, plan)
    ensures var n := Runs(w, acts).value;
      i < |n.bodies| && n.bodies[i].Previews? && PreviewJob.OnlyPlan(n.bodies[i].previews, plan)
  {
    JobsRun(w, acts, i);
    var es :| PreviewJob.Run(w.bodies[i].previews, es) == Runs(w, acts).value.bodies[i].previews;
    PreviewJob.ExecutedIsPreviewed(w.bodies[i].previews, plan, es);
  }

  /** What the job answers inside its lock is what the protocol tells the caller, OK or not. */
  lemma AnswersAreTheJobs<T>(w: World<T>, t: nat, op: Op<T>)
    requires Agree(w) && Possible(w, Steps(t, op)) && w.s.pcs[t].Inside? && !w.bodies[w.s.pcs[t].slot].Engine?
    ensures var pc := Move(w, Steps(t, op)).s.pcs[t];
      Answer(w.bodies[w.s.pcs[t].slot], op) <==> pc.NeedRegistry? || (pc.Leaving? && pc.code == OK)
  {
    ProtocolCancel.ReachableCancels(w.s);
    var i := w.s.pcs[t].slot;
    assert ThreadOk(w.s, t) && ProtocolCancel.PcCancelled(w.s, w.s.pcs[t]);
    assert Agrees(w.s.log, w.s.slots[i], w.bodies[i]);
    EntersInside(w.s, t, w.s.pcs[t].call, i, w.bodies[i], op);
    InsideAgrees(w.s, t, w.s.pcs[t].call, i, w.bodies[i], op);
  }

  // ----- nothing the protocol allows is shut out -----

  function SomeOp<T>(b: Body<T>, c: Call): Op<T> {
    match b
    case Previews(_) =>
      OnPreviews(if c.Use? then PreviewJob.DoRead else if c.Execute? then PreviewJob.DoExecute((p: T) => OK, true)
                 else PreviewJob.DoRelease)
    case Leftovers(_) =>
      OnLeftovers(if c.Use? then OrphanJob.DoRead else if c.Execute? then OrphanJob.DoExecute(true)
                  else if c.CancelLocked? then OrphanJob.DoCancel else OrphanJob.DoRelease)
    case App(_) => if c.Use? then Outcome(true, None, false) else OnApp(UninstallJob.DoRelease)
    case Engine => Outcome(true, None, false)
  }

  /** Whichever thread the protocol lets step has an operation to step with. */
  lemma ThreadsCanStep<T>(w: World<T>, t: nat) returns (op: Op<T>)
    requires Agree(w) && CanStep(w.s, t)
    ensures Possible(w, Steps(t, op))
  {
    ReachableOk(w.s);
    assert ThreadOk(w.s, t);
    op := Outcome(true, None, false);
    if w.s.pcs[t].Inside? {
      var i := w.s.pcs[t].slot;
      assert Agrees(w.s.log, w.s.slots[i], w.bodies[i]);
      op := SomeOp(w.bodies[i], w.s.pcs[t].call);
    }
  }

  function LastOp<T>(b: Body<T>): Op<T> {
    match b
    case Previews(j) =>
      OnPreviews(if j.worker == Some(PreviewJob.Preparing) then PreviewJob.DoPreviewExit(Err(INTERNAL_ERROR))
                 else if j.worker.Some? && j.worker.value.Executing? && j.worker.value.pastGuard
                 then PreviewJob.DoExecutionExit(Err(INTERNAL_ERROR))
                 else PreviewJob.DoGuard(false, Err(INTERNAL_ERROR)))
    case Leftovers(_) => OnLeftovers(OrphanJob.DoExit(OrphanJob.Failed("")))
    case App(_) => Outcome(true, None, false)
    case Engine => Outcome(true, None, false)
  }

  /** Whichever worker the protocol lets finish can finish. */
  lemma WorkersCanFinish<T>(w: World<T>, i: nat) returns (op: Op<T>)
    requires Agree(w) && i < |w.s.slots| && w.s.slots[i].work == Running
    ensures Possible(w, Works(i, op)) && Projected(w, Works(i, op)) == [WorkerDone(i)]
  {
    assert Agrees(w.s.log, w.s.slots[i], w.bodies[i]);
    op := LastOp(w.bodies[i]);
  }
}
