/**
 What the protocol sees of a job: forgetting a job's contents turns each of its calls, made under the job
 lock, into the step the protocol takes for it, and each step of its worker into an exit or nothing.
 */
module Refinement {
  import opened Status
  import P = Protocol
  import Retained
  import Orphan
  import Uninstall

  /** A slot of this key and holder whose job has this closed flag, cancel flag and worker. */
  function Slot(key: P.Key, holder: Option<nat>, closed: bool, atWork: bool, cancelled: bool): P.Slot {
    P.Slot(key, holder, closed, if atWork then P.Running else P.Finished, cancelled, false)
  }

  predicate AtWork<T>(j: Retained.Job<T>) { j.worker.Some? && !j.worker.value.Exited? }

  function OfRetained<T>(key: P.Key, holder: Option<nat>, j: Retained.Job<T>): P.Slot {
    Slot(key, holder, j.closed, AtWork(j), j.cancelled)
  }

  function OfOrphan<T>(key: P.Key, holder: Option<nat>, j: Orphan.Job<T>): P.Slot {
    Slot(key, holder, j.closed, Orphan.AtWork(j), j.cancelled)
  }

  /** An uninstall has no worker, and its cancel flag is none of its job's business. */
  function OfUninstall(key: P.Key, holder: Option<nat>, cancelled: bool, j: Uninstall.Job): P.Slot {
    P.Slot(key, holder, j.closed, P.NoWork, cancelled, false)
  }

  /** A thread inside slot `i` for this call, and the step it takes: the new slot and where the thread goes on. */
  function StepOf(s: P.State, t: nat, c: P.Call, i: nat, ok: bool): (P.Slot, P.Pc)
    requires t < |s.pcs| && i < |s.slots| && !c.SelectionStart? && !c.PurgeExecute?
  {
    var n := P.StepInside(s, t, c, i, ok);
    (n.slots[i], n.pcs[t])
  }

  /** The step leaves this slot, and leaves the job with `code`; a release that closed still has to remove its entry. */
  predicate Matches(r: (P.Slot, P.Pc), slot: P.Slot, code: int, c: P.Call, i: nat) {
    r == (slot, if c.Release? && code == OK then P.NeedRegistry(c, i) else P.Leaving(c, i, code))
  }

  // ----- picked, simulator and runtime jobs -----

  /** Their releases are reached with the flag already set: status, slot and all. */
  lemma RetainedReleaseRefines<T>(s: P.State, t: nat, i: nat, j: Retained.Job<T>)
    requires t < |s.pcs| && i < |s.slots| && Retained.Inv(j)
    requires s.slots[i] == OfRetained(s.slots[i].key, s.slots[i].holder, Retained.Cancel(j))
    ensures var (after, code) := Retained.Release(j);
      var c := P.Release(s.slots[i].key);
      Matches(StepOf(s, t, c, i, true), OfRetained(s.slots[i].key, s.slots[i].holder, after), code, c, i)
  {
  }

  /** An execute starts the worker exactly when the protocol's does, and otherwise leaves the slot alone. */
  lemma RetainedExecuteRefines<T>(s: P.State, t: nat, i: nat, j: Retained.Job<T>, check: T -> int, spawnOk: bool)
    requires t < |s.pcs| && i < |s.slots| && Retained.Inv(j)
    requires s.slots[i] == OfRetained(s.slots[i].key, s.slots[i].holder, j)
    ensures var (after, code) := Retained.Execute(j, check, spawnOk);
      var c := P.Execute(s.slots[i].key);
      var (slot, pc) := StepOf(s, t, c, i, code == OK);
      && slot == OfRetained(s.slots[i].key, s.slots[i].holder, after)
      && (pc.code == OK <==> code == OK) && (j.closed ==> pc.code == code == INVALID_HANDLE)
      && (code == OK ==> after.launches == j.launches + 1 && AtWork(after) && !AtWork(j))
      && (code != OK ==> after.launches == j.launches && AtWork(after) == AtWork(j))
  {
  }

  lemma RetainedReadRefines<T>(s: P.State, t: nat, i: nat, j: Retained.Job<T>, ok: bool)
    requires t < |s.pcs| && i < |s.slots| && Retained.Inv(j)
    requires s.slots[i] == OfRetained(s.slots[i].key, s.slots[i].holder, j)
    ensures StepOf(s, t, P.Use(s.slots[i].key), i, ok).0
      == OfRetained(s.slots[i].key, s.slots[i].holder, Retained.ReadResult(j).0)
    ensures j.closed ==> Retained.ReadResult(j).1 == Err(INVALID_HANDLE)
  {
  }

  predicate WorkerEvent<T>(e: Retained.Event<T>) { e.DoPreviewExit? || e.DoGuard? || e.DoExecutionExit? }

  /** Worker steps: a job at work becomes one that is finished, or the slot does not change. */
  lemma RetainedExitRefines<T>(key: P.Key, holder: Option<nat>, j: Retained.Job<T>, e: Retained.Event<T>)
    requires WorkerEvent(e)
    ensures var before, after := OfRetained(key, holder, j), OfRetained(key, holder, Retained.Next(j, e));
      after == before || (before.work == P.Running && after == before.(work := P.Finished))
    ensures Retained.Next(j, e).launches == j.launches
  {
  }

  // ----- orphan jobs -----

  lemma OrphanReleaseRefines<T>(s: P.State, t: nat, i: nat, j: Orphan.Job<T>)
    requires t < |s.pcs| && i < |s.slots| && Orphan.Inv(j) && s.slots[i].key.kind == P.Orphan
    requires s.slots[i] == OfOrphan(s.slots[i].key, s.slots[i].holder, j)
    ensures var (after, code) := Orphan.Release(j);
      var c := P.Release(s.slots[i].key);
      Matches(StepOf(s, t, c, i, true), OfOrphan(s.slots[i].key, s.slots[i].holder, after), code, c, i)
  {
    Orphan.CollectKeeps(j);
    Orphan.CollectKeeps(j.(cancelled := true));
  }

  lemma OrphanExecuteRefines<T>(s: P.State, t: nat, i: nat, j: Orphan.Job<T>, spawnOk: bool)
    requires t < |s.pcs| && i < |s.slots| && Orphan.Inv(j)
    requires s.slots[i] == OfOrphan(s.slots[i].key, s.slots[i].holder, j)
    ensures var (after, code) := Orphan.Execute(j, spawnOk);
      var c := P.Execute(s.slots[i].key);
      var (slot, pc) := StepOf(s, t, c, i, code == OK);
      && slot == OfOrphan(s.slots[i].key, s.slots[i].holder, after)
      && (pc.code == OK <==> code == OK) && (j.closed ==> pc.code == code == INVALID_HANDLE)
      && (code == OK ==> after.launches == j.launches + 1 && Orphan.AtWork(after) && !Orphan.AtWork(j))
      && (code != OK ==> after.launches == j.launches && Orphan.AtWork(after) == Orphan.AtWork(j))
  {
    Orphan.CollectKeeps(j);
  }

  /** Polls and result calls are plain uses. */
  lemma OrphanReadRefines<T>(s: P.State, t: nat, i: nat, j: Orphan.Job<T>, ok: bool)
    requires t < |s.pcs| && i < |s.slots| && Orphan.Inv(j)
    requires s.slots[i] == OfOrphan(s.slots[i].key, s.slots[i].holder, j)
    ensures var slot := StepOf(s, t, P.Use(s.slots[i].key), i, ok).0;
      && slot == OfOrphan(s.slots[i].key, s.slots[i].holder, Orphan.Poll(j).0)
      && slot == OfOrphan(s.slots[i].key, s.slots[i].holder, Orphan.ReadResult(j).0)
    ensures Orphan.Poll(j).0.launches == Orphan.ReadResult(j).0.launches == j.launches
  {
    Orphan.CollectKeeps(j);
  }

  lemma OrphanCancelRefines<T>(s: P.State, t: nat, i: nat, j: Orphan.Job<T>)
    requires t < |s.pcs| && i < |s.slots| && Orphan.Inv(j)
    requires s.slots[i] == OfOrphan(s.slots[i].key, s.slots[i].holder, j)
    ensures var (after, code) := Orphan.Cancel(j);
      var c := P.CancelLocked(s.slots[i].key);
      Matches(StepOf(s, t, c, i, true), OfOrphan(s.slots[i].key, s.slots[i].holder, after), code, c, i)
  {
  }

  lemma OrphanExitRefines<T>(key: P.Key, holder: Option<nat>, j: Orphan.Job<T>, result: Orphan.Completed<T>)
    ensures var before, after := OfOrphan(key, holder, j), OfOrphan(key, holder, Orphan.WorkerExit(j, result));
      after == before || (before.work == P.Running && after == before.(work := P.Finished))
    ensures Orphan.WorkerExit(j, result).launches == j.launches
  {
  }

  // ----- uninstall jobs -----

  /** Every call but release is a plain use, and none but release closes. */
  lemma UninstallCallRefines(s: P.State, t: nat, i: nat, j: Uninstall.Job, e: Uninstall.Event, ok: bool)
    requires t < |s.pcs| && i < |s.slots| && !e.DoRelease?
    requires s.slots[i] == OfUninstall(s.slots[i].key, s.slots[i].holder, s.slots[i].cancelled, j)
    ensures StepOf(s, t, P.Use(s.slots[i].key), i, ok).0
      == OfUninstall(s.slots[i].key, s.slots[i].holder, s.slots[i].cancelled, Uninstall.Call(j, e).0)
    ensures j.closed ==> Uninstall.Call(j, e).1 in {INVALID_HANDLE, INVALID_ARGUMENT}
  {
  }

  lemma UninstallReleaseRefines(s: P.State, t: nat, i: nat, j: Uninstall.Job)
    requires t < |s.pcs| && i < |s.slots| && s.slots[i].key.kind == P.Uninstall
    requires s.slots[i] == OfUninstall(s.slots[i].key, s.slots[i].holder, s.slots[i].cancelled, j)
    ensures var (after, code) := Uninstall.Release(j);
      var c := P.Release(s.slots[i].key);
      Matches(StepOf(s, t, c, i, true),
              OfUninstall(s.slots[i].key, s.slots[i].holder, s.slots[i].cancelled, after), code, c, i)
  {
  }
}
