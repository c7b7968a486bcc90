# Verified model of the Sayaka bindings core and its measurement scripts

The library behind the C interface (`crates/bindings`) keeps long-running jobs behind numeric handles:
scans, installer and purge previews, uninstall sessions, and one-shot trash, simulator, runtime and
orphan executions. Callers poll, query, execute and release them from any thread. This project models

* the handle registry, the per-job locks and the release protocol, as a transition system over program
  counters, with theorems about every interleaving and, step by step, what each call finds, answers and
  leaves (`Protocol*.dfy`), and the nine maps as a class that refines its table (`HandleRegistry.dfy`);
* the one-shot state machines of the jobs, as classes proved against functions on the job's value, with
  theorems about every run of calls and worker steps (`Retained.dfy`, `Orphan.dfy`, `Uninstall.dfy`);
* both together, a job in every slot of the protocol: each call made inside a job is the protocol's step
  (`Refinement.dfy`), the two sides agree after every act (`Composition.dfy`), and every interleaving is a run
  of the protocol and, slot by slot, a run of the job, so the theorems about both hold of it
  (`Interleavings.dfy`);
* the queries over finished work: sorted orders and their caches, the streaming alias buffer, page chains,
  installer candidates, purge item ids, sums and reports (`Order.dfy`, `Paging.dfy`, `Browse.dfy`,
  `Installer.dfy`, `Diagnostics.dfy`, `Purge.dfy`, `Counting.dfy`);
* bounded output and the probe-then-copy buffers (`Output.dfy`);
* the loops of the comparison scripts: the process broker, the paired schedule, the bootstrap interval,
  the footprint totals, the result validator and its estimators, and the removal of a fixture tree
  (`Broker.dfy`, `PhaseB.dfy`, `Footprint.dfy`, `Statistics.dfy`, `Estimates.dfy`, `Validation.dfy`,
  `FixtureCleanup.dfy`).

Objects that the program updates in place are classes here. Each of their methods promises its whole new
state by a function of the old one; the theorems are about those functions. `dafny verify dfyconfig.toml`
checks everything.

## Inputs

Whatever comes from outside is an arbitrary argument: worker results and when workers finish, the outcomes
of engine calls (tokens, stores, approvals, admissions, index building), allocation failures, chunks and
their arrival, clock steps (never backwards), random draws, and whether a thread can be spawned. Requests
are well-formed at the C level: pointers, sizes and versions have been checked, and no mutex is poisoned.

## Where the code and its description differ

The model follows the code.

* `docs/BINDINGS.md:532` says that all handle kinds share one cap of four. The allocator does not add up
  runtimes. `PassesTheBoundExactlyWhen` says which call breaks the cap, in terms its caller can check before
  it: an admitted start, selection or purge execution made while four handles are live and one of them is a
  runtime's. `BoundHoldsExactlyWhen` lifts this to runs, `AnyNumberOfRuntimes` shows how far the cap can be
  passed, and `HandlesAndCapacity` proves it for the eight counted maps. The same document says at
  `docs/BINDINGS.md:1260-1265` that runtimes use a handle registry of their own, which would agree with the
  allocator if it did not put them in the same one.
* `docs/BINDINGS.md:79` says that an OK release invalidates a handle, and `docs/BINDINGS.md:95-96` that a call
  racing it finishes before it or returns INVALID_HANDLE. `sayaka_purge_execute_start_v1` reads its preview
  without checking `closed`, so a call that already holds the slot does neither:
  `ReleasedPreviewIsReadable` gives the exact condition, `ReleasedPreviewCanHaveReader` a run, and
  `ReleasedPreviewIsExecuted` a run in which an execution of the released preview is started.
* `docs/BINDINGS.md:1039` gives INVALID_HANDLE from the administrator begin only if it has already begun.
  `sayaka_uninstall_admin_finish_v1` replaces the administrator state before looking at it, so a finish before
  any begin ends every path of the handle, the native one included, with that status and without a result:
  `StrandsExactlyWhen` says exactly which calls do this, `StrandedForever` what they leave, and
  `EarlyFinishStrandsTheNativePath` shows one.

## Documented behaviour made exact

* `docs/BINDINGS.md:90-94` and `crates/bindings/include/sayaka.h:456-457` allow a BUSY release under contention
  to have cancelled nothing; the comment at `crates/bindings/src/orphan_execution.rs:375` does not mention it.
  `BusyExactlyWhenHeld` and `BusyInsideExactlyWhen` say when each of the two kinds of BUSY is answered,
  `BusyMeansOneOfTwo` that there is no third, and `BusyWithoutCancelling` gives the runs.
* `docs/PURGE_EXECUTION.md:256-257` reports a run whose items were all skipped as partial with the `complete`
  flag set. `ExecutionReport` says over the journal's items when the two part: no journal error, every item
  moved or skipped, and at least one skipped.

## Previews the engine never builds

`preview_item_json` looks for an id among the artifacts first, whatever the profile, while execution goes by the
profile's own list. The engine fills only the profile's own list (`crates/engine/src/purge_preview.rs:1592`,
`crates/engine/src/purge_preview.rs:2066`), and for such previews `OwnListOnly` proves that both name the same
item for every id. `ShownExecutedReported` says for which others they would, and `HiddenCacheIsMisreported` gives
one for which they would not.

## Model

| member | source | states |
|---|---|---|
| `ProtocolTheorems.ReleasedOnce` | crates/bindings/src/lib.rs:555-577 | In every interleaving of calls and workers, at most one release of a handle returns OK. |
| `ProtocolTheorems.NothingAfterRelease` | crates/bindings/src/lib.rs:188-211 | After that OK no worker and no call that checks `closed` under the job lock acts on the handle, even one that cloned the slot before the removal. |
| `ProtocolTheorems.ReleasedAfterWorkers` | crates/bindings/src/lib.rs:566-571 | When a release returns OK every worker ever started for the handle has exited. |
| `ProtocolTheorems.RemovalFinds` | crates/bindings/src/lib.rs:572-577 | The removal that ends a release always finds its entry, so its INVALID_HANDLE is unreachable. |
| `ProtocolTheorems.JobLockExcludes` | crates/bindings/src/lib.rs:206-211 | No two threads are inside one job, although the lock is only tried. |
| `ProtocolTheorems.HandlesAndCapacity` | crates/bindings/src/lib.rs:131-147 | In every reachable state handles increase in the order of insertion, are disjoint across the nine maps, and the eight counted maps hold at most four. |
| `ProtocolTheorems.NeverReused` | crates/bindings/src/lib.rs:144-146 | Over any run, failed starts included, the counter never goes back, a slot keeps its key and a removed key never returns. |
| `ProtocolTheorems.SomeoneCanStep` | crates/bindings/src/installer.rs:366-379 | No deadlock: while a call is pending some calling thread can step, with no worker moving. |
| `ProtocolTheorems.CallsAreBounded` | crates/bindings/src/purge.rs:1057-1067 | However the pending calls are scheduled they take a bounded number of steps: no call waits for work. |
| `ProtocolTheorems.CallsReturn` | crates/bindings/src/picked.rs:66-75 | From every state all pending calls can return while every worker stands still. |
| `ProtocolReturn.HandleCanBeReleased` | crates/bindings/src/lib.rs:555-577 | With all calls returned, any thread can release any live handle: it is told OK, exactly that entry goes, and no worker but the handle's own has to finish for it. |
| `ProtocolReturn.EveryHandleCanGo` | crates/bindings/src/lib.rs:555-577 | Whatever calls are pending, each live handle has a continuation, with at most its own worker finishing, after which a release of it has returned OK and it is gone. |
| `ProtocolTheorems.StepDescends` | crates/bindings/src/lib.rs:206-211 | Each step of a call, whatever its outcome, lowers the rank of that call, and leaves every other thread where it was. |
| `ProtocolHistory.ExecKeeps` | crates/bindings/src/lib.rs:117-147 | The lock, slot, table and history invariants hold after every run from a good state. |
| `ProtocolSafety.NextKeeps` | crates/bindings/src/installer.rs:366-379 | Every single event keeps the invariant that ties program counters, lock holders, slots and table. |
| `ProtocolStarts.StartsFromFinishedWork` | crates/bindings/src/installer.rs:63-77 | In the log of every reachable state each selection or purge execution told OK is preceded by the exit of the worker of the job it names. |
| `ProtocolStarts.SelectionGoesOnExactlyWhen` | crates/bindings/src/installer.rs:366-379 | Inside the job a selection goes on to the registry if and only if the job is an open discovery with no worker at work and the candidates are good; at work it is NOT_READY, closed or a selection INVALID_HANDLE. |
| `ProtocolStarts.PurgeGoesOnExactlyWhen` | crates/bindings/src/purge.rs:1467-1488 | A purge execution goes on if and only if the job is a preview with no worker at work that it agrees with; at work it is NOT_READY, an execution INVALID_HANDLE. |
| `ProtocolAnswers.LookupAnswers` | crates/bindings/src/lib.rs:188-196 | A look-up gets the live slot of exactly its key, or INVALID_HANDLE when there is none, and frees the registry. |
| `ProtocolAnswers.FoundAnswers` | crates/bindings/src/picked.rs:359-376 | A lock-free cancel, and a cancelling release before it tries the lock, set that job's flag; no other call touches a slot there. |
| `ProtocolAnswers.UseAnswers` | crates/bindings/src/lib.rs:198-211 | Polls, results and queries are refused on a closed job and leave every slot as it was. |
| `ProtocolAnswers.ExecuteAnswers` | crates/bindings/src/picked.rs:323-353 | An execute is OK, and starts one worker, if and only if the job is open, its worker is finished and the request is good. |
| `ProtocolAnswers.CancelAnswers` | crates/bindings/src/orphan_execution.rs:366-374 | A cancel under the job lock sets the flag of an open job and is refused on a closed one. |
| `ProtocolAnswers.ReleaseAnswers` | crates/bindings/src/lib.rs:555-577 | Inside the job a release is INVALID_HANDLE on a closed one, BUSY and cancelling while a worker is at work, and closes it otherwise. |
| `ProtocolAnswers.RemovalAnswers` | crates/bindings/src/lib.rs:572-577 | It then removes exactly its own entry and says OK, still holding the job. |
| `ProtocolAnswers.StartAnswers` | crates/bindings/src/lib.rs:335-353 | A start or purge execution is refused with nothing spent for four counted jobs or a spent counter, fails with the handle spent when the engine call does, and otherwise inserts one open job of its kind under the next handle. |
| `ProtocolAnswers.SelectionAnswers` | crates/bindings/src/installer.rs:380-385 | The same of a selection, which still holds its discovery. |
| `ProtocolAnswers.CountedAre` | crates/bindings/src/lib.rs:132-140 | The keys that count against four are those of every kind but runtimes. |
| `ProtocolCancel.CancelIsNeverLost` | crates/bindings/src/picked.rs:359-376 | In every reachable state the slot of each cancel answered OK, with or without the job lock, and of each cancelling release answered OK or BUSY, is marked cancelled, whatever the call raced with. |
| `ProtocolCancel.BusyMeansOneOfTwo` | crates/bindings/src/orphan_execution.rs:377-401 | A release that sets the flag only under the job lock answers BUSY either from inside the job, which is then cancelled, or without the lock, another thread holding it, and then it has changed no slot. |
| `ProtocolCancel.BusyExactlyWhenHeld` | crates/bindings/src/lib.rs:206-211 | A try is answered BUSY, with no slot changed, if and only if another thread is in the job; otherwise the thread gets in. |
| `ProtocolCancel.BusyInsideExactlyWhen` | crates/bindings/src/lib.rs:566-571 | Inside the job a release answers BUSY if and only if a worker is at work, which it has then cancelled. |
| `ProtocolCancel.BusyWithoutCancelling` | crates/bindings/src/orphan_execution.rs:380-383 | The second way happens to scans, installer, purge and orphan jobs: a BUSY release, and the flag is not set. |
| `ProtocolCancel.FlagNeedsTheLock` | crates/bindings/src/lib.rs:555-577 | Of all steps of such a release only the one inside the job can set a flag, and only that job's. |
| `ProtocolPurge.ReleasedPreviewIsReadable` | crates/bindings/src/purge.rs:1467-1488 | The slot of a released handle is still read in some continuation if and only if it is a preview's and a purge execution holds it when the release returns; this call does not check `closed`, and turns an execution's handle away unread. |
| `ProtocolPurge.ReleasedPreviewCanHaveReader` | crates/bindings/src/purge.rs:1467-1488 | Two threads reach such a state, so nothing-after-release is false of this call. |
| `ProtocolPurge.ReleasedPreviewIsExecuted` | crates/bindings/src/purge.rs:1467-1520 | The log of a reachable state shows the OK release of a preview and after it the worker started by the execution of that preview, which returns OK. |
| `ProtocolPurge.NoReaderNoRead` | crates/bindings/src/purge.rs:1467-1488 | Without such a holder, or if the handle is an execution's, no continuation reads it. |
| `ProtocolCapacity.LiveHandles` | crates/bindings/src/lib.rs:132-143 | The live handles are at most four counted ones and whatever runtimes there are; with no runtime the cap of four holds. |
| `ProtocolCapacity.InsertionIsAdmitted` | crates/bindings/src/lib.rs:132-147 | Whichever call inserts a job, a start, a selection or a purge execution, it is refused exactly for four counted jobs, a spent counter or a failed engine call, and otherwise adds its own new key. |
| `ProtocolCapacity.PassesTheBoundExactlyWhen` | crates/bindings/src/lib.rs:132-147 | From within the cap of four, an event passes it if and only if it is such an insertion with a good engine call, four live handles, a runtime among them, and an unspent counter. |
| `ProtocolCapacity.BoundHoldsExactlyWhen` | crates/bindings/src/runtimes.rs:288-306 | A run from within the cap stays within it throughout if and only if no event along it is one of those. |
| `ProtocolCapacity.AnyNumberOfRuntimes` | crates/bindings/src/runtimes.rs:288-306 | For every number there is a reachable state with that many live runtime handles, against the documented four. |
| `HandleRegistry.Registry.AllocateHandle` | crates/bindings/src/lib.rs:131-147 | Over the nine maps as updated in place: the handle and counter, or the refusal with nothing changed, that the protocol's allocation gives. |
| `HandleRegistry.Registry.Start` | crates/bindings/src/lib.rs:335-353 | Allocation, then insertion into the map of the kind, or a spent handle and no entry when the worker does not start. |
| `HandleRegistry.Registry.Get` | crates/bindings/src/lib.rs:188-196 | The entry of that kind and handle, or INVALID_HANDLE exactly when there is none. |
| `HandleRegistry.Registry.Remove` | crates/bindings/src/lib.rs:572-577 | Removes exactly that entry of exactly that map. |
| `HandleRegistry.CountedClasses` | crates/bindings/src/lib.rs:132-140 | Adding up the sizes of eight maps counts exactly the table's keys of the counted kinds. |
| `Refinement.RetainedReleaseRefines` | crates/bindings/src/picked.rs:368-391 | The release of a picked, simulator or runtime job, seen as a slot, is the protocol's step: same status, same slot, cancel flag included. |
| `Refinement.RetainedExecuteRefines` | crates/bindings/src/picked.rs:323-353 | Its execute answers OK, starts a worker and counts one launch exactly when the protocol's step does, and otherwise leaves the slot as it was. |
| `Refinement.RetainedReadRefines` | crates/bindings/src/picked.rs:285-304 | Its reads are the protocol's uses: they change no flag and no worker at work. |
| `Refinement.RetainedExitRefines` | crates/bindings/src/picked.rs:140-160 | Its worker steps are the protocol's worker exits or nothing. |
| `Refinement.OrphanReleaseRefines` | crates/bindings/src/orphan_execution.rs:377-401 | The same for an orphan release, which cancels finished work too: same status, same slot, cancel flag included. |
| `Refinement.OrphanExecuteRefines` | crates/bindings/src/orphan_execution.rs:260-309 | The same for an orphan execute. |
| `Refinement.OrphanReadRefines` | crates/bindings/src/orphan_execution.rs:316-364 | Polls and result calls are the protocol's uses. |
| `Refinement.OrphanCancelRefines` | crates/bindings/src/orphan_execution.rs:366-374 | A cancel is the protocol's cancel under the job lock, refused on a closed job. |
| `Refinement.OrphanExitRefines` | crates/bindings/src/orphan_execution.rs:82-123 | A worker's result arriving is a worker exit or nothing. |
| `Refinement.UninstallCallRefines` | crates/bindings/src/uninstall.rs:459-551 | Every uninstall call but release is a use: whatever it answers, the slot stays as it was. |
| `Refinement.UninstallReleaseRefines` | crates/bindings/src/uninstall.rs:717-733 | An uninstall release is the protocol's step: same status, same slot. |
| `Composition.MoveKeeps` | crates/bindings/src/lib.rs:188-211 | With a job in every slot, each call, each step of a thread with any operation its caller chose, and each worker event keeps slot and job in agreement, and the workers shown in the log equal to those the job started. |
| `Interleavings.RunsProject` | crates/bindings/src/lib.rs:188-211 | Every interleaving of the jobs is a run of the protocol, so all its theorems hold of it. |
| `Interleavings.JobsRun` | crates/bindings/src/lib.rs:206-211 | In every interleaving each job goes through a run of its own calls and worker steps, so the theorems about runs of a job hold of it. |
| `Interleavings.EveryInterleaving` | crates/bindings/src/picked.rs:323-353 | In every interleaving each job keeps its invariant, at most one execution is launched and one move handed off, and the log shows the first worker of the handle and that one at most. |
| `Interleavings.ReleasedJobsRest` | crates/bindings/src/picked.rs:368-391 | Once some release has returned OK the job is closed, a job with a preview has given up preview, result and worker, and no continuation changes the job, but for a lock-free cancel flag, or starts a worker of it. |
| `Interleavings.ExecutedAcrossThreads` | crates/bindings/src/picked.rs:338-346 | However calls of several threads interleave, what is executed is the plan that was previewed. |
| `Interleavings.CancelledAcrossThreads` | crates/bindings/src/picked.rs:359-366 | Once a cancel of a picked, simulator, runtime or orphan job was answered OK, no interleaving launches an execution of it, and of the first three none gets past its guard any more. |
| `Interleavings.AnswersAreTheJobs` | crates/bindings/src/lib.rs:206-211 | What the job answers under its lock, OK or not, is what the protocol goes on to return. |
| `Interleavings.ThreadsCanStep` | crates/bindings/src/lib.rs:206-211 | Whatever thread the protocol lets step has an operation to step with: putting jobs into the slots shuts nothing out. |
| `Interleavings.WorkersCanFinish` | crates/bindings/src/picked.rs:140-160 | And whichever worker the protocol lets finish can finish. |
| `Retained.EveryRun` | crates/bindings/src/picked.rs:62-77 | In every open state of every run exactly one of worker and outcome is present, and at most one execution ever starts. |
| `Retained.CallsAreSound` | crates/bindings/src/picked.rs:323-353 | In every reachable state the INTERNAL_ERROR fallback is unreachable, an execution starts only from an uncancelled first preview, and a release that got the job lock is BUSY exactly while a worker is at work. |
| `Retained.CollectAnswers` | crates/bindings/src/picked.rs:62-77 | Every case of collecting: closed, at work, or the finished worker's result taken over and nothing else changed. |
| `Retained.ReadAnswers` | crates/bindings/src/picked.rs:285-304 | Every answer of a read: the bytes or the failure of what the job holds. |
| `Retained.ExecuteAnswers` | crates/bindings/src/picked.rs:323-353 | Every answer of an execute with the state it leaves: closed, at work, nothing offered or cancelled, refused by the check, started with exactly the offered plan, or taken without a thread. |
| `Retained.ReleaseAnswers` | crates/bindings/src/picked.rs:368-391 | Every answer of a release with the state it leaves. |
| `Retained.WorkersDo` | crates/bindings/src/picked.rs:140-160 | A worker ends its preview, or looks at the flag and the policy before it acts, and ends what it did, with the result it made. |
| `Retained.CheckAnswers` | crates/bindings/src/simulators.rs:452-477 | What the checks of picked and device previews demand, and the status of each refusal. |
| `Retained.ExecuteTakesPreview` | crates/bindings/src/simulators.rs:470-490 | An admitted execute takes the preview whether or not its thread starts; a refused one leaves the outcome. |
| `Retained.TakenPreviewIsGone` | crates/bindings/src/runtimes.rs:404-450 | A preview once taken never comes back, and no later execute in any run starts anything. |
| `Retained.ExecutedIsPreviewed` | crates/bindings/src/picked.rs:338-346 | Whatever any later run executes is exactly the plan the preview worker produced. |
| `Retained.TerminalIsFixed` | crates/bindings/src/picked.rs:62-77 | A collected terminal result or failure is what every read returns until release. |
| `Retained.ReadsWhatWasMade` | crates/bindings/src/picked.rs:140-160 | Previews, reports, guard refusals and failures are read back exactly as the worker made them. |
| `Retained.CancelledNeverActs` | crates/bindings/src/picked.rs:140-160 | Cancelled before the worker's guard, no run performs an effect or starts another execution. |
| `Retained.ReleasedIsFinal` | crates/bindings/src/picked.rs:368-391 | A released job answers INVALID_HANDLE to every call and never changes but for the lock-free flag. |
| `Retained.MapItems` | crates/bindings/src/simulators.rs:452-460 | Ids map to devices exactly when each is between 1 and the number of devices, each to its own. |
| `Retained.MapItemIds` | crates/bindings/src/runtimes.rs:413-421 | The loop computes that mapping. |
| `Retained.PickedStartsOnlyApproved` | crates/bindings/src/picked.rs:323-353 | An execution starts only from an eligible preview, by its own token, with no item in the state directory, and with that plan. |
| `Retained.DevicesStartOnlyApproved` | crates/bindings/src/simulators.rs:440-490 | An execution starts only when every id names a device of the preview and those devices, in that order, were approved. |
| `Retained.RetainedJob.DoCollect` | crates/bindings/src/simulators.rs:77-92 | In place: closed, at work, or the finished worker's result moved into the outcome. |
| `Retained.RetainedJob.Result` | crates/bindings/src/picked.rs:285-304 | In place: the state and answer of the specification the runs are about. |
| `Retained.RetainedJob.ExecuteOnce` | crates/bindings/src/picked.rs:323-353 | In place: checks, takes, spawns as the specification does, in all its error cases. |
| `Retained.RetainedJob.ReleaseJob` | crates/bindings/src/picked.rs:368-391 | In place: cancels first, BUSY at work, else closes and drops the outcome. |
| `Orphan.CallsAreSound` | crates/bindings/src/orphan_execution.rs:259-271 | In every reachable state a missing result, poll's running state and a worker at work coincide, failure states come with failure documents, an execution starts exactly from an open uncancelled ready preview, and a release that got the job lock is BUSY exactly while a worker is at work. |
| `Orphan.CollectTakesOver` | crates/bindings/src/orphan_execution.rs:82-123 | Every arm of collecting: a session is kept only with a document that fits, everything else becomes its document or its failure. |
| `Orphan.ExecuteAnswers` | crates/bindings/src/orphan_execution.rs:260-309 | Every answer of an execute if and only if its cause, and the state it leaves; an admitted one spends the offer whether or not its thread starts. |
| `Orphan.ReadAnswers` | crates/bindings/src/orphan_execution.rs:316-364 | Polls show phase, state and whether cancellation was requested, and results the document, of the job as collected. |
| `Orphan.CancelAndReleaseAnswer` | crates/bindings/src/orphan_execution.rs:366-401 | Every answer of cancel and release with the state it leaves. |
| `Orphan.DigestIs` | crates/bindings/src/orphan_execution.rs:246-250 | A digest is 64 lower-case hexadecimal digits. |
| `Orphan.RunKeeps` | crates/bindings/src/orphan_execution.rs:47-55 | The job invariant, among it that a session is held exactly while a good preview is on offer, holds in every run. |
| `Orphan.SpentOnce` | crates/bindings/src/orphan_execution.rs:267-307 | Once phase 2 is entered, even by a failed spawn, no run starts another execution. |
| `Orphan.CancelledNeverLaunches` | crates/bindings/src/orphan_execution.rs:267-269 | After a cancel no run starts an execution. |
| `Orphan.OutcomeIsFixed` | crates/bindings/src/orphan_execution.rs:349-363 | The outcome of the execution is what every later result call returns until release. |
| `Orphan.ReadsWhatWasMade` | crates/bindings/src/orphan_execution.rs:82-123 | Whatever the worker hands over is read back exactly, or as a failure document when it is too large or failed. |
| `Orphan.ReleasedIsFinal` | crates/bindings/src/orphan_execution.rs:75-81 | Every call on a released job is refused and changes nothing. |
| `Orphan.BusyThenReleased` | crates/bindings/src/orphan_execution.rs:385-392 | A release that is BUSY under the job lock has cancelled the worker and nothing else, and succeeds once it stops. |
| `Orphan.SelectionAccepted` | crates/bindings/src/orphan_execution.rs:239-253 | The one-pass check accepts exactly 1 to 32 pairwise distinct lower-case digests. |
| `Orphan.OrphanJob.CollectWorker` | crates/bindings/src/orphan_execution.rs:82-123 | In place: every arm of the worker's result, size limit and failures included. |
| `Orphan.OrphanJob.ExecuteOnce` | crates/bindings/src/orphan_execution.rs:260-309 | In place: the whole new state of an execute, in each of its outcomes. |
| `Orphan.OrphanJob.ReleaseJob` | crates/bindings/src/orphan_execution.rs:377-401 | In place: cancel, collect, BUSY or closed with session and bytes dropped. |
| `Uninstall.OneRoute` | crates/bindings/src/uninstall.rs:481-517 | In every run at most one move is handed off by any route; a live native session excludes the administrator path; a result reports a move exactly if one was handed off. |
| `Uninstall.EveryRun` | crates/bindings/src/uninstall.rs:343-381 | The same from every preview, and no preview offers both paths. |
| `Uninstall.MovesExactlyWhen` | crates/bindings/src/uninstall.rs:481-551 | A call hands a move off, by exactly one way, if and only if its request is good in every respect: idle, the confirmed token, the store, the live session or eligible evidence or matching capability, and the approval; then it answers OK. |
| `Uninstall.RunMovesExactlyWhen` | crates/bindings/src/uninstall.rs:481-551 | Over any run something is moved if and only if some request along it was good when it was made. |
| `Uninstall.ExecuteAnswers` | crates/bindings/src/uninstall.rs:481-551 | Every answer of the native path if and only if its cause: a wrong token is INVALID_ARGUMENT and changes nothing. |
| `Uninstall.BeginAnswers` | crates/bindings/src/uninstall.rs:587-638 | Every answer of the start of the administrator path, and what it leaves. |
| `Uninstall.FinishAnswers` | crates/bindings/src/uninstall.rs:658-711 | Every answer of a finish, and what it leaves. |
| `Uninstall.RelatedPreviewAnswers` | crates/bindings/src/uninstall/related.rs:119-146 | Every answer of a related preview: the old capability is gone even when the new one cannot be shown. |
| `Uninstall.RelatedExecuteAnswers` | crates/bindings/src/uninstall/related.rs:230-273 | Every answer of a related execution: a request that does not match leaves the capability, any other attempt spends everything. |
| `Uninstall.StartOffers` | crates/bindings/src/uninstall.rs:343-381 | Which preview offers the native session, the administrator path, or neither. |
| `Uninstall.ResultIsFinal` | crates/bindings/src/uninstall.rs:466-484 | Once a result is set it is what every read shows, and every later execute, begin or finish is refused. |
| `Uninstall.OutstandingIsExclusive` | crates/bindings/src/uninstall.rs:658-711 | While Finder has the move every other call is INVALID_HANDLE without effect, and finish always records the outcome. |
| `Uninstall.StrandsExactlyWhen` | crates/bindings/src/uninstall.rs:669-673 | A call strands an open handle if and only if it is a finish before any begin, or a refusal too large to record. |
| `Uninstall.StrandedForever` | crates/bindings/src/uninstall/related.rs:41-55 | A stranded handle refuses all but release in every run, and nothing was ever moved through it. |
| `Uninstall.EarlyFinishStrandsTheNativePath` | crates/bindings/src/uninstall.rs:669-673 | One early finish on a good native preview makes every later execute fail, which it would not have. |
| `Uninstall.ProgressUnlessStranded` | crates/bindings/src/uninstall/related.rs:193-274 | Any other open handle without a result can still reach a report of its own route and body by good requests. |
| `Uninstall.UninstallJob.ExecuteBundle` | crates/bindings/src/uninstall.rs:459-551 | In place: the native path with its refusals. |
| `Uninstall.UninstallJob.BeginAdmin` | crates/bindings/src/uninstall.rs:587-638 | In place: the start of the administrator path. |
| `Uninstall.UninstallJob.FinishAdmin` | crates/bindings/src/uninstall.rs:658-711 | In place: related operation first, then the replaced administrator state, as written. |
| `Uninstall.UninstallJob.PreviewRelated` | crates/bindings/src/uninstall/related.rs:119-146 | In place: a fresh observation never leaves the preceding capability. |
| `Uninstall.UninstallJob.ExecuteRelated` | crates/bindings/src/uninstall/related.rs:230-273 | In place: a well-formed attempt consumes every execution capability, also on refusal; a failed administrator begin records the finished reports with its error. |
| `Browse.RawPathCmpIsTotalOrder` | crates/bindings/src/browse.rs:184-210 | The raw path comparison ties exactly on equal paths, flips and is transitive. |
| `Order.BytesLeIs` | crates/bindings/src/browse.rs:184-189 | And is byte order: a path comes before another if it is a prefix of it or has the smaller byte where they first differ. |
| `Order.NamesLeIs` | crates/bindings/src/installer.rs:278-286 | The same of paths by components: a leading part, or the smaller component where they first differ. |
| `Browse.NodeAliases` | crates/bindings/src/browse.rs:214-230 | The bounded buffer, filled at positions found by binary search, ends as the first 16 of the stable sort of all same-identity files, and the count is their number. |
| `Browse.AliasPosition` | crates/bindings/src/browse.rs:222-223 | The binary search over the sorted buffer finds the position at which the stable sort inserts. |
| `Browse.ShownAliasesComeFirst` | crates/bindings/src/browse.rs:221-229 | The first sixteen aliases are shown, all if there are fewer, in byte order, and no hidden one precedes a shown one. |
| `Browse.AliasesAreThose` | crates/bindings/src/browse.rs:217-219 | The aliases are the files of the same identity, each as often as the report has it. |
| `Browse.MatchingIssues` | crates/bindings/src/browse.rs:240-250 | All matching issues are counted, the first eight kept in report order. |
| `Browse.MatchingAreThose` | crates/bindings/src/browse.rs:240-250 | The matching issues are exactly those with this path, first to last. |
| `Browse.BuildLargestFilesOrder` | crates/bindings/src/browse.rs:343-369 | The loop and sort compute the specified order and the number of unmeasured files. |
| `Browse.LargestOrderIsDetermined` | crates/bindings/src/browse.rs:343-369 | The order is a sorted permutation of exactly the counted measured files, ids and unmeasured add up, and no other sorted permutation exists. |
| `Browse.LargestComeFirst` | crates/bindings/src/browse.rs:355-367 | Of two listed files the earlier has the larger size in the metric asked for, and of equal sizes the path that comes first in byte order. |
| `Browse.LargestListsExactly` | crates/bindings/src/browse.rs:346-354 | Listed are exactly the counted files with a size in that metric. |
| `Browse.LargestListsOnce` | crates/bindings/src/browse.rs:346-354 | Each once, and the other counted files are the unmeasured ones. |
| `Browse.OrderIdsAreEntries` | crates/bindings/src/browse.rs:355-366 | Every listed id is an indexed, measured, counted file, so the lookups in the comparison never fail. |
| `Browse.ScanJob.GetTree` | crates/bindings/src/browse.rs:60-97 | The index as prepared, built or refused; once cached it, or its failure, never changes. |
| `Browse.ScanJob.LargestFilesPage` | crates/bindings/src/browse.rs:371-415 | A filled cache implies an index, and every page is cut from the order that recomputation would give. |
| `Browse.PageOfOrder` | crates/bindings/src/browse.rs:391-408 | A page shows the nodes behind its ids; the unknown-id error is unreachable. |
| `Paging.PageIsExact` | crates/bindings/src/browse.rs:305-334 | A page holds the next `limit` items or all that are left; saturation never shows. |
| `Paging.WalkCovers` | crates/bindings/src/browse.rs:316-333 | Following next_offset with any limits, the pages received so far are the list up to the next offset: no gap, no repeat. |
| `Paging.WalkEnds` | crates/bindings/src/browse.rs:316-333 | The walk ends, and its pages concatenate to the whole list. |
| `Paging.PlainSumFits` | crates/bindings/src/installer.rs:289 | The installer's unsaturated addition cannot overflow. |
| `Order.StableSortSorts` | crates/bindings/src/browse.rs:355-366 | The reference sort gives a sorted permutation for any total preorder. |
| `Order.StableSortIsStable` | crates/bindings/src/browse.rs:221-229 | And keeps the order of elements that tie. |
| `Order.SortedIsUnique` | crates/bindings/src/installer.rs:275-288 | Where nothing ties, any sorted permutation is the same list: an unstable sort has one answer. |
| `Order.KeepIsTakeOfInsert` | crates/bindings/src/browse.rs:221-229 | Cutting commutes with inserting: the bounded buffer never needs what it dropped. |
| `Order.PartitionPoint` | crates/bindings/src/browse.rs:222-223 | The halving search ends at a partition point of any list that is partitioned. |
| `Order.PointIsThePartition` | crates/bindings/src/browse.rs:222-223 | In a sorted list every partition point is the position of a stable insertion: a linear scan gives the same. |
| `Installer.AnySortAgrees` | crates/bindings/src/installer.rs:274-288 | For distinct paths an order is sorted if and only if it is the one order. |
| `Installer.OrderMeans` | crates/bindings/src/installer.rs:278-286 | Names ascend component by component in byte order; the size asked for descends with unknown sizes last and ties by name. |
| `Installer.PagesCoverCandidates` | crates/bindings/src/installer.rs:271-300 | Although every call sorts anew, following the pages lists each candidate once. |
| `Installer.CandidatesPage` | crates/bindings/src/installer.rs:271-300 | The page of references the call builds, or INVALID_ARGUMENT exactly past the end. |
| `Installer.ShownReadsBack` | crates/bindings/src/installer.rs:232-246 | A reference reads back as the candidate it was shown for, and no other reference does. |
| `Installer.SelectionIndices` | crates/bindings/src/installer.rs:351-374 | A selection is accepted exactly when it names 1 to 32 known candidates of this handle, each once, in order. |
| `Diagnostics.IssuesArePaged` | crates/bindings/src/diagnostics.rs:51-98 | A report's issues and a fatal error page alike, the error as a list of one. |
| `Purge.ShowArtifacts` | crates/bindings/src/purge.rs:226-276 | Artifact ids count from 1 through the nested lists, one by one. |
| `Purge.ItemIdFor` | crates/engine/src/purge_preview.rs:1340-1346 | The summed formula gives the id the walk hands out. |
| `Purge.FindArtifact` | crates/engine/src/purge_preview.rs:1441-1455 | The nested walk finds exactly the artifact numbered so, with capped or checked counting. |
| `Purge.PreviewItem` | crates/bindings/src/purge.rs:676-743 | The reported item of an id: artifacts first, then the profile's own list. |
| `Purge.Resolve` | crates/engine/src/purge_preview.rs:1421-1439 | Ids resolve exactly when distinct, in range and supported, each to the item of its profile's list. |
| `Purge.ShownExecutedReported` | crates/bindings/src/purge.rs:676-743 | A shown item is reported as it is executed if and only if artifacts are the own list, or too few to hide it, or equal. |
| `Purge.OwnListOnly` | crates/bindings/src/purge.rs:682-728 | A preview holding only its own list reports every id as executed; id 0 would alias item 1. |
| `Purge.HiddenCacheIsMisreported` | crates/bindings/src/purge.rs:682-712 | Were a cache preview also to list an artifact, the artifact would be reported for the cache moved; the engine builds no such preview. |
| `Purge.ReadItemIds` | crates/bindings/src/purge.rs:1121-1144 | Accepted exactly for 1 to 32 distinct nonzero ids of this preview, kept in order. |
| `Purge.RefusalLines` | crates/bindings/src/purge.rs:636-674 | A refusal lists each requested id once in order and counts all as skipped. |
| `Purge.SumKnown` | crates/bindings/src/purge.rs:467-498 | The exact total if and only if every size is known and the total fits u64. |
| `Purge.SumPrivateIsExact` | crates/bindings/src/purge.rs:459-465 | The same for private bytes of a complete preview, none for an incomplete one. |
| `Purge.CheckedSumIgnoresOrder` | crates/bindings/src/purge.rs:467-498 | Neither the order of items nor of lists changes the checked sum. |
| `Purge.ExecutionReport` | crates/bindings/src/purge.rs:538-628 | Each item is counted once as what the journal says of it; complete, partial and failed mean what happened; the complete flag also holds of reports with skipped items only; the bytes moved are their exact total if it fits. |
| `Output.LimitedBuffer.Write` | crates/bindings/src/lib.rs:444-460 | All of a write or none; exceeded exactly when the limit or usize would be passed. |
| `Output.BoundedJson` | crates/bindings/src/lib.rs:428-441 | The full concatenation if it fits, an error otherwise, whatever the cuts: never a truncation. |
| `Output.Query` | crates/bindings/src/lib.rs:515-550 | Required length, untouched storage on anything short, an exact copy otherwise. |
| `Output.ProbeThenCopy` | crates/bindings/src/lib.rs:515-550 | Probing and then copying with the reported length yields exactly the bytes. |
| `Output.ScanResult.ResultBytes` | crates/bindings/src/lib.rs:466-488 | The first rendering is cached and is what every later call sees. |
| `Output.ScanResult.Fetch` | crates/bindings/src/lib.rs:497-513 | The whole result call, closed jobs and every refusal included. |
| `Output.ProbeThenFetch` | crates/bindings/src/lib.rs:497-513 | Probe and copy of a cached result deliver the full rendering. |
| `Broker.RunBroker` | scripts/check_c0_batch2_phase_b.py:349-452 | Everything the rounds deliver is taken in, with its time, up to the first round that ends with the child exited and both pipes closed, which is when it is reaped; both captures are the heads of their streams, at most one SIGTERM and then one SIGKILL at least 250 ms later; completed means no signal and both streams whole. |
| `Broker.HeardIs` | scripts/check_c0_batch2_phase_b.py:351-383 | What a pipe has delivered is its chunks in a row up to the first empty one, and it is open until then. |
| `Broker.PlayIs` | scripts/check_c0_batch2_phase_b.py:351-402 | Rounds deliver their arrivals in order; each takes its own time. |
| `Broker.FirstCompleteIs` | scripts/check_c0_batch2_phase_b.py:374-383 | The first-document time is that of the first chunk after which the output was a complete document. |
| `Broker.LastContentIs` | scripts/check_c0_batch2_phase_b.py:371-373 | The last-content time is that of the last chunk with a byte that is not blank. |
| `Broker.Process.Receive` | scripts/check_c0_batch2_phase_b.py:351-383 | Each chunk is counted whole and kept as far as the cap allows. |
| `Broker.Process.Escalate` | scripts/check_c0_batch2_phase_b.py:385-392 | A passed deadline is acted upon, with SIGTERM and after the grace period SIGKILL, and none before it passes. |
| `Broker.Process.Tick` | scripts/check_c0_batch2_phase_b.py:385-402 | The child is reaped exactly when it exited and both pipes are closed. |
| `Broker.Process.Abandon` | scripts/check_c0_batch2_phase_b.py:411-414 | A run cut short kills the group and still reaps the child once. |
| `Broker.PassedMeansWhole` | scripts/check_c0_batch2_phase_b.py:519-557 | A sample passes if and only if the child was never signalled, exited 0 and its whole stdout decodes, parses and normalizes. |
| `Broker.SampleAnswers` | scripts/check_c0_batch2_phase_b.py:519-557 | Each failure class of a sample if and only if its cause, the first that applies. |
| `PhaseB.RunPhaseB` | scripts/check_c0_batch2_phase_b.py:1124-1196 | Rows are a prefix of the plan with all but the last passed; completed exactly when every planned row passed and the trees are intact. |
| `PhaseB.PlanIs` | scripts/check_c0_batch2_phase_b.py:1124-1185 | The plan: both gates, both warmups, then each pair A before B, or B before A where the schedule says so. |
| `PhaseB.PlanMeasuresBoth` | scripts/check_c0_batch2_phase_b.py:1178-1185 | The plan measures both tools once a pair with indexes 1, 2, 3 and so on. |
| `PhaseB.RecordedIsConsecutive` | scripts/check_c0_batch2_phase_b.py:1145-1176 | However a run stopped, a tool's recorded indexes are consecutive from 1. |
| `Footprint.FootprintTotals` | scripts/check_c0_batch2_phase_b.py:744-771 | The loop computes the totals kind by kind, with files measured at the first entry of their identity. |
| `Footprint.FirstsAre` | scripts/check_c0_batch2_phase_b.py:755-761 | A file is measured at the first entry of its identity and at no other. |
| `Footprint.UniqueFilesAreIdentities` | scripts/check_c0_batch2_phase_b.py:755-761 | There are as many unique files as identities, however often they are linked. |
| `Footprint.OrderDoesNotMatter` | scripts/check_c0_batch2_phase_b.py:744-771 | When links to a file report the same sizes, the totals do not depend on the order of trees or entries. |
| `Statistics.PercentileIsNearestRank` | scripts/check_c0_statistics.py:107-114 | The value is in the list, at least p percent are at most it, and that is true of no smaller number. |
| `Statistics.PercentileMonotone` | scripts/check_c0_statistics.py:107-114 | A higher percentile is never a smaller value. |
| `Statistics.PercentileCovers` | scripts/check_c0_statistics.py:107-114 | The value at a percentile is the least of the list that this share of the list does not exceed. |
| `Statistics.MedianSplits` | scripts/check_c0_statistics.py:124-126 | At least half of the values are at most the median, at most half at most anything smaller. |
| `Statistics.MedianSwaps` | scripts/check_c0_statistics.py:124-126 | Exchanging the two tools changes the sign of the median of the paired differences. |
| `Statistics.MedianIsMiddle` | scripts/check_c0_statistics.py:124-126 | Twice the median is the sum of the two middle values of the sorted list, which are one value for an odd length. |
| `Statistics.PairedBootstrapCi` | scripts/check_c0_statistics.py:117-130 | For any draws the ends of the interval are medians of resamples, in order: the least that half of what the confidence leaves does not exceed, and the least that all but that half does not exceed. |
| `Statistics.IntervalWithinDifferences` | scripts/check_c0_statistics.py:117-130 | The interval lies within every range that holds the paired differences. |
| `Estimates.PairDifferences` | scripts/check_c0_statistics.py:359-369 | The loops over the passed samples compute the differences pair by pair, in the order of first samples. |
| `Estimates.DifferencesArePaired` | scripts/check_c0_statistics.py:359-369 | They are exactly the differences of the pairs in which both tools passed. |
| `Estimates.ValidateEstimates` | scripts/check_c0_statistics.py:371-403 | The recomputation: accepted exactly when a pair exists, both baselines are positive and median, interval and both regressions are within the tolerance. |
| `Estimates.AcceptedExactlyWhen` | scripts/check_c0_statistics.py:371-403 | The same by its meaning: the interval's ends are within the tolerance of the medians that the confidence asks for, and both regressions of the percentages by which Mole's positive 95th percentiles have to grow to reach Sayaka's. |
| `Estimates.ColumnCounts` | scripts/check_c0_statistics.py:380-390 | The columns compared hold each passed sample of a tool once, in the right measure. |
| `Estimates.RegressionMeans` | scripts/check_c0_statistics.py:396-397 | A regression is the percentage by which the baseline has to grow to reach the value. |
| `Estimates.AcceptedIntervalIsWithin` | scripts/check_c0_statistics.py:373-401 | An accepted median and interval lie within the tolerance of every range that holds the paired differences. |
| `Validation.ValidateSchedule` | scripts/check_c0_statistics.py:246-258 | A schedule is accepted exactly when it repeats the expected orders with ids 1, 2, 3 and so on; the duplicate check never fires. |
| `Validation.ValidateSamples` | scripts/check_c0_statistics.py:460-504 | Samples pass the loop exactly when each is good and every slot is covered once. |
| `Validation.SamplesAcceptedMeans` | scripts/check_c0_statistics.py:460-504 | Spelled out: each sample is well formed and in its scheduled order, no two share pair and tool, and every pair has one of each tool. |
| `Validation.ValidateFailures` | scripts/check_c0_statistics.py:506-541 | Failure records pass exactly when they match the samples that did not pass. |
| `Validation.FailuresAcceptedMeans` | scripts/check_c0_statistics.py:506-541 | Spelled out: each record is well formed and of a sample with its classification, no two of one run, and no sample that did not pass lacks one. |
| `Validation.AcceptedSampleCount` | scripts/check_c0_statistics.py:460-504 | There are exactly two samples a repetition, split into passed, failed and skipped. |
| `Validation.RecordsMatchSamples` | scripts/check_c0_statistics.py:349-356 | Records and such samples correspond one to one by classification, so the summary's two cross-checks cannot fail. |
| `Validation.ValidateSummary` | scripts/check_c0_statistics.py:316-403 | The summary is accepted exactly when its counts are those of the samples and its estimators are the recomputed ones. |
| `Validation.ValidateScenario` | scripts/check_c0_statistics.py:406-551 | The whole decision, both directions, for supported and blocked scenarios, with the counts and the estimators of an accepted one. |
| `Validation.AcceptedScenarioMeans` | scripts/check_c0_statistics.py:371-401 | An accepted measured scenario has a pair in which both tools passed, and its reported median and interval lie within the tolerance of all such differences. |
| `FixtureCleanup.RemoveOwnedTree` | scripts/check_c0_fixtures.py:99-140 | Success exactly when marked and all ours: the tree is gone, each entry removed once, the rest untouched; otherwise what is left and why. |
| `FixtureCleanup.RemoveEntry` | scripts/check_c0_fixtures.py:132-139 | One entry in its turn: removed if it is ours, an error with nothing touched otherwise. |
| `FixtureCleanup.RemoveEntries` | scripts/check_c0_fixtures.py:132-139 | Deepest first, every directory is empty in its turn, so only a foreign entry stops the loop. |
| `FixtureCleanup.WalkDirectories` | scripts/check_c0_fixtures.py:114-125 | The first walk passes exactly when every directory from the root down is ours. |
| `FixtureCleanup.DepthOrder` | scripts/check_c0_fixtures.py:132 | Sorting by number of parts puts everything below an entry before it, for any enumeration order. |

## Left out

- The engine: scanning, index construction, trash, purge and uninstall sessions, journals, `simctl` and policy files are opaque results. The index is assumed to refuse repeated ids and paths (`crates/engine/src/scan/index.rs:120-125`), installer candidates to have distinct paths.
- Raw pointers, alignment, struct sizes, panic containment and poisoned mutexes.
- JSON text, status messages and path encodings. A rendering is its sequence of writes; a document is opaque bytes.
- The text comparison of approval tokens with counted or named phrases: whether a token is right is an argument.
- ProtocolTheorems.CallsAreBounded: counts the steps between lock operations; work done inside one step (a query, a synchronous native move) is one step.
- Protocol statuses: every failed use or execute other than INVALID_HANDLE and BUSY leaves with NOT_READY, and every refused selection or purge execution of finished work with INVALID_CANDIDATE; the job-level models carry the exact statuses. A start whose engine call fails answers INTERNAL_ERROR, where the code also answers INVALID_ARGUMENT or UNSUPPORTED_PLATFORM (`crates/bindings/src/lib.rs:337-342`), with the same state.
- HandleRegistry.Registry.Start: answers INTERNAL_ERROR for every failed engine call, likewise.
- Retained.CancelledNeverActs: the guard is the picked worker's own check; simulator and runtime workers hand the flag to their session, whose first check stands for the guard.
- Uninstall.OneRoute: counts moves handed to the native session, to Finder or to the related operation; what those then do to files is the engine's.
- Uninstall refusal documents that do not fit are reported as LIMIT_EXCEEDED; the one re-parsed before it is bounded could also be INTERNAL_ERROR, with the same state.
- Interleavings.AnswersAreTheJobs: says when the two statuses are OK; which refusal it is, is the job's to say.
- Browse: AI footprints, directory children and roots are ordered by the engine; their pages are the pages modelled here.
- Installer, purge and scan execution jobs carry no state machine of their own beyond the protocol's slot, its worker and its cached result; modelling them again would add only easy members.
- Broker: the kqueue exit notification, decoding with replacement for stderr, and diagnostic timestamps. Time is in nanoseconds and the timeout compared exactly, not through a division of floats.
- Statistics: exact reals; floating-point rounding is not modelled.
- Validation: checks that look at one record alone are single flags. The bootstrap's index lists are arbitrary arguments, one list of lists for each length, not the seeded generator's.
- FixtureCleanup.RemoveOwnedTree: permission bits are not modelled, and a dangling link at the root, which the program takes for an absent root, counts as refused; in both cases nothing is touched.
- Status and capability calls, exclusions, orphan discovery, trash emptying and the command-line interface: each would add an easy loop or a single call into unseen code.
