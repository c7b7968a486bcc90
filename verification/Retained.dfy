/**
 Jobs that retain one preview and may execute it once: picked files, simulators and runtimes share
 this state, `collect`, and release. Every call runs under the job lock, so a run is a sequence of
 whole calls, interleaved with the lock-free cancel flag and with the steps of the worker.
 */
module Retained {
  import opened Status

  type Bytes = seq<nat>

  datatype Outcome<+P> = Preview(plan: P, bytes: Bytes) | Terminal(bytes: Bytes)

  /** A join handle; `is_finished` is `Exited?`, and joining yields the result. */
  datatype Worker<+P> =
    | Preparing
    | Executing(plan: P, pastGuard: bool)
    | Exited(result: Result<Outcome<P>>)

  /** `launches` and `effects` count execution workers started and workers that got past their guard. */
  datatype Job<+P> = Job(
    cancelled: bool, worker: Option<Worker<P>>, outcome: Option<Result<Outcome<P>>>, closed: bool,
    launches: nat, effects: nat)

  function Init<P>(): Job<P> { Job(false, Some(Preparing), None, false, 0, 0) }

  // ----- the calls, as functions of the job -----

  function Collect<P>(j: Job<P>): (Job<P>, int) {
    if j.closed then (j, INVALID_HANDLE)
    else
      match j.worker
      case None => (j, OK)
      case Some(Exited(r)) => (j.(worker := None, outcome := Some(r)), OK)
      case Some(_) => (j, NOT_READY)
  }

  function ReadResult<P>(j: Job<P>): (Job<P>, Result<Bytes>) {
    var (c, code) := Collect(j);
    if code != OK then (c, Err(code))
    else
      match c.outcome
      case None => (c, Err(INTERNAL_ERROR))
      case Some(Err(e)) => (c, Err(e))
      case Some(Ok(o)) => (c, Ok(o.bytes))
  }

  /** `check` is what the kind demands of the retained plan; OK admits it. */
  function Execute<P>(j: Job<P>, check: P -> int, spawnOk: bool): (Job<P>, int) {
    var (c, code) := Collect(j);
    if code != OK then (c, code)
    else if !HoldsPreview(c) || c.cancelled then (c, INVALID_CANDIDATE)
    else
      var plan := c.outcome.value.value.plan;
      if check(plan) != OK then (c, check(plan))
      else if spawnOk then
        (c.(outcome := None, worker := Some(Executing(plan, false)), launches := c.launches + 1), OK)
      else (c.(outcome := Some(Err(INTERNAL_ERROR))), INTERNAL_ERROR)
  }

  function Cancel<P>(j: Job<P>): Job<P> { j.(cancelled := true) }

  function Release<P>(j: Job<P>): (Job<P>, int) {
    var (c, code) := Collect(Cancel(j));
    if code == NOT_READY then (c, BUSY)
    else if code != OK then (c, code)
    else (c.(closed := true, outcome := None), OK)
  }

  // ----- the worker's own steps -----

  function PreviewExit<P>(j: Job<P>, r: Result<Outcome<P>>): Job<P> {
    if j.worker == Some(Preparing) then j.(worker := Some(Exited(r))) else j
  }

  /** The execution worker looks at the cancel flag and the policy before it does anything else. */
  function Guard<P>(j: Job<P>, policyOk: bool, refusal: Result<Bytes>): Job<P> {
    match j.worker
    case Some(Executing(p, false)) =>
      if j.cancelled || !policyOk then j.(worker := Some(Exited(Finish(refusal))))
      else j.(worker := Some(Executing(p, true)), effects := j.effects + 1)
    case _ => j
  }

  function ExecutionExit<P>(j: Job<P>, r: Result<Bytes>): Job<P> {
    match j.worker
    case Some(Executing(_, true)) => j.(worker := Some(Exited(Finish(r))))
    case _ => j
  }

  function Finish<P>(r: Result<Bytes>): Result<Outcome<P>> {
    if r.Ok? then Ok(Terminal(r.value)) else Err(r.code)
  }

  predicate HoldsPreview<P>(j: Job<P>) {
    j.outcome.Some? && j.outcome.value.Ok? && j.outcome.value.value.Preview?
  }

  // ----- runs -----

  datatype Event<!P> =
    | DoRead
    | DoExecute(check: P -> int, spawnOk: bool)
    | DoCancel
    | DoRelease
    | DoPreviewExit(preview: Result<Outcome<P>>)
    | DoGuard(policyOk: bool, refusal: Result<Bytes>)
    | DoExecutionExit(report: Result<Bytes>)

  function Next<P>(j: Job<P>, e: Event<P>): Job<P> {
    match e
    case DoRead => ReadResult(j).0
    case DoExecute(check, spawnOk) => Execute(j, check, spawnOk).0
    case DoCancel => Cancel(j)
    case DoRelease => Release(j).0
    case DoPreviewExit(r) => PreviewExit(j, r)
    case DoGuard(policyOk, refusal) => Guard(j, policyOk, refusal)
    case DoExecutionExit(r) => ExecutionExit(j, r)
  }

  function Run<P>(j: Job<P>, es: seq<Event<P>>): Job<P>
    decreases |es|
  {
    if es == [] then j else Run(Next(j, es[0]), es[1..])
  }

  /** A preview is on its way, waiting to be collected, or retained. */
  predicate PreviewLeft<P>(j: Job<P>) {
    || j.worker == Some(Preparing)
    || (j.worker.Some? && j.worker.value.Exited? && j.worker.value.result.Ok? && j.worker.value.result.value.Preview?)
    || HoldsPreview(j)
  }

  predicate Inv<P>(j: Job<P>) {
    && (j.closed ==> j.worker.None? && j.outcome.None?)
    && (!j.closed ==> (j.worker.Some? <==> j.outcome.None?))
    && (PreviewLeft(j) ==> j.launches == 0)
    && j.effects <= j.launches <= 1
    && (j.worker.Some? && j.worker.value.Executing? ==>
          j.launches == 1 && j.effects == if j.worker.value.pastGuard then 1 else 0)
  }

  lemma NextKeeps<P>(j: Job<P>, e: Event<P>)
    requires Inv(j)
    ensures Inv(Next(j, e))
  {
  }

  /** In every open state exactly one of worker and outcome is present, and at most one execution ever starts. */
  lemma {:induction false} EveryRun<P>(j: Job<P>, es: seq<Event<P>>)
    requires Inv(j)
    ensures var n := Run(j, es);
      && (!n.closed ==> (n.worker.Some? <==> n.outcome.None?))
      && n.launches <= 1 && n.effects <= n.launches && Inv(n)
    decreases |es|
  {
    if es != [] {
      NextKeeps(j, es[0]);
      EveryRun(Next(j, es[0]), es[1..]);
    }
  }

  // ----- what each call answers and leaves, case by case -----

  predicate Busy<P>(j: Job<P>) { j.worker.Some? && !j.worker.value.Exited? }

  /** The outcome a call sees once it has taken over what a finished worker left. */
  function Seen<P>(j: Job<P>): Option<Result<Outcome<P>>> {
    if j.worker.Some? && j.worker.value.Exited? then Some(j.worker.value.result) else j.outcome
  }

  lemma CollectAnswers<P>(j: Job<P>)
    requires Inv(j)
    ensures j.closed ==> Collect(j) == (j, INVALID_HANDLE)
    ensures !j.closed && Busy(j) ==> Collect(j) == (j, NOT_READY)
    ensures !j.closed && !Busy(j) ==> Collect(j) == (j.(worker := None, outcome := Seen(j)), OK)
  {
  }

  /** A read shows the preview or the report, or the failure, of whatever the job holds. */
  lemma ReadAnswers<P>(j: Job<P>)
    requires Inv(j)
    ensures ReadResult(j).0 == Collect(j).0
    ensures j.closed ==> ReadResult(j).1 == Err(INVALID_HANDLE)
    ensures !j.closed && Busy(j) ==> ReadResult(j).1 == Err(NOT_READY)
    ensures !j.closed && !Busy(j) ==>
      && Seen(j).Some?
      && (Seen(j).value.Ok? ==> ReadResult(j).1 == Ok(Seen(j).value.value.bytes))
      && (Seen(j).value.Err? ==> ReadResult(j).1 == Err(Seen(j).value.code))
  {
  }

  /** The plan an execute would take: of a preview retained already, or just left by the worker. */
  function Offered<P>(j: Job<P>): Option<P> {
    if Seen(j).Some? && Seen(j).value.Ok? && Seen(j).value.value.Preview? then Some(Seen(j).value.value.plan) else None
  }

  lemma ExecuteAnswers<P>(j: Job<P>, check: P -> int, spawnOk: bool)
    requires Inv(j)
    ensures var (n, code) := Execute(j, check, spawnOk);
      var offered := !j.closed && !Busy(j) && Offered(j).Some? && !j.cancelled;
      && (j.closed ==> code == INVALID_HANDLE && n == j)
      && (!j.closed && Busy(j) ==> code == NOT_READY && n == j)
      && (!j.closed && !Busy(j) && !offered ==> code == INVALID_CANDIDATE && n == Collect(j).0)
      && (offered && check(Offered(j).value) != OK ==> code == check(Offered(j).value) && n == Collect(j).0)
      && (offered && check(Offered(j).value) == OK && spawnOk ==>
            && code == OK && n.outcome.None? && n.worker == Some(Executing(Offered(j).value, false))
            && n.launches == j.launches + 1 && n.effects == j.effects && !n.cancelled && !n.closed)
      && (offered && check(Offered(j).value) == OK && !spawnOk ==>
            code == INTERNAL_ERROR && n == j.(worker := None, outcome := Some(Err(INTERNAL_ERROR))))
  {
  }

  /** A release always cancels; it closes, dropping whatever was retained, as soon as no worker is at work. */
  lemma ReleaseAnswers<P>(j: Job<P>)
    requires Inv(j)
    ensures j.closed ==> Release(j) == (j.(cancelled := true), INVALID_HANDLE)
    ensures !j.closed && Busy(j) ==> Release(j) == (j.(cancelled := true), BUSY)
    ensures !j.closed && !Busy(j) ==>
      Release(j) == (j.(cancelled := true, closed := true, worker := None, outcome := None), OK)
  {
  }

  /** What a worker can do: end its preview, look at the flag and the policy before it acts, and end what it did. */
  lemma WorkersDo<P>(
    j: Job<P>, preview: Result<Outcome<P>>, policyOk: bool, refusal: Result<Bytes>, report: Result<Bytes>)
    ensures j.worker == Some(Preparing) ==> PreviewExit(j, preview) == j.(worker := Some(Exited(preview)))
    ensures j.worker != Some(Preparing) ==> PreviewExit(j, preview) == j
    ensures j.worker.Some? && j.worker.value.Executing? && !j.worker.value.pastGuard ==>
      && ExecutionExit(j, report) == j
      && Guard(j, policyOk, refusal) ==
           if policyOk && !j.cancelled then
             j.(worker := Some(Executing(j.worker.value.plan, true)), effects := j.effects + 1)
           else
             j.(worker := Some(Exited(if refusal.Ok? then Ok(Terminal(refusal.value)) else Err(refusal.code))))
    ensures j.worker.Some? && j.worker.value.Executing? && j.worker.value.pastGuard ==>
      && Guard(j, policyOk, refusal) == j
      && ExecutionExit(j, report)
           == j.(worker := Some(Exited(if report.Ok? then Ok(Terminal(report.value)) else Err(report.code))))
    ensures j.worker.None? || !j.worker.value.Executing? ==>
      Guard(j, policyOk, refusal) == j && ExecutionExit(j, report) == j
  {
  }

  /** A new job prepares its preview, and nothing has happened yet. */
  lemma InitIs<P>()
    ensures var j := Init<P>();
      && Inv(j) && j.worker == Some(Preparing) && j.outcome.None? && !j.cancelled && !j.closed
      && j.launches == 0 && j.effects == 0
  {
  }

  /** What a caller can rely on in any state a run from the start reaches. */
  lemma CallsAreSound<P>(es: seq<Event<P>>, check: P -> int, spawnOk: bool)
    ensures var j := Run(Init<P>(), es);
      // the `INTERNAL_ERROR` fallback after a successful collect is never taken
      && (Collect(j).1 == OK ==> Collect(j).0.outcome.Some?)
      // an execution that starts is the first, and starts from an uncancelled retained preview
      && (Execute(j, check, spawnOk).1 == OK ==> j.launches == 0 && !j.cancelled && PreviewLeft(j))
      // a release that returns OK leaves no worker behind
      && (Release(j).1 == OK ==> Release(j).0.worker.None? && !j.closed)
      // and it is refused exactly while a worker is still at work
      && (Release(j).1 == BUSY <==> !j.closed && j.worker.Some? && !j.worker.value.Exited?)
  {
    EveryRun(Init<P>(), es);
  }

  /** A preview that has been taken never comes back, and no later execute starts anything. */
  lemma {:induction false} TakenPreviewIsGone<P>(j: Job<P>, es: seq<Event<P>>, check: P -> int, spawnOk: bool)
    requires Inv(j) && !PreviewLeft(j)
    ensures !PreviewLeft(Run(j, es)) && Run(j, es).launches == j.launches
    ensures Execute(Run(j, es), check, spawnOk).1 != OK
    decreases |es|
  {
    if es != [] {
      NextKeeps(j, es[0]);
      TakenPreviewIsGone(Next(j, es[0]), es[1..], check, spawnOk);
    }
  }

  /**
   An execute that gets past the checks takes the preview, whether or not its thread could be
   spawned; an execute that is refused leaves the retained outcome as it was.
   */
  lemma ExecuteTakesPreview<P>(j: Job<P>, check: P -> int, spawnOk: bool)
    requires Inv(j)
    ensures var (n, code) := Execute(j, check, spawnOk);
      var admitted := Collect(j).1 == OK && HoldsPreview(Collect(j).0) && !j.cancelled
                      && check(Collect(j).0.outcome.value.value.plan) == OK;
      && (admitted ==> !PreviewLeft(n) && code == if spawnOk then OK else INTERNAL_ERROR)
      && (admitted && spawnOk ==> n.worker == Some(Executing(Collect(j).0.outcome.value.value.plan, false)))
      && (!admitted ==> code != OK && n == Collect(j).0 && n.launches == j.launches)
  {
  }

  /** Every plan the job still holds is `plan`. */
  ghost predicate OnlyPlan<P>(j: Job<P>, plan: P) {
    && j.worker != Some(Preparing)
    && (HoldsPreview(j) ==> j.outcome.value.value.plan == plan)
    && (j.worker.Some? && j.worker.value.Executing? ==> j.worker.value.plan == plan)
    && (j.worker.Some? && j.worker.value.Exited? && j.worker.value.result.Ok? && j.worker.value.result.value.Preview?
        ==> j.worker.value.result.value.plan == plan)
  }

  /** Whatever is executed later is exactly the plan the preview worker produced. */
  lemma {:induction false} ExecutedIsPreviewed<P>(j: Job<P>, plan: P, es: seq<Event<P>>)
    requires OnlyPlan(j, plan)
    ensures OnlyPlan(Run(j, es), plan)
    decreases |es|
  {
    if es != [] { ExecutedIsPreviewed(Next(j, es[0]), plan, es[1..]); }
  }

  /** Until release, a collected terminal result or failure is what every later read returns. */
  lemma {:induction false} TerminalIsFixed<P>(j: Job<P>, es: seq<Event<P>>)
    requires Inv(j) && j.outcome.Some? && !HoldsPreview(j)
    ensures Run(j, es).closed || (Run(j, es).outcome == j.outcome && ReadResult(Run(j, es)).1 == ReadResult(j).1)
    decreases |es|
  {
    if es != [] {
      NextKeeps(j, es[0]);
      if Next(j, es[0]).closed {
        ReleasedIsFinal(Next(j, es[0]), es[1..], (p: P) => OK, true);
      } else {
        TerminalIsFixed(Next(j, es[0]), es[1..]);
      }
    }
  }

  /** What a worker hands over is what the next read returns: previews, reports, refusals and failures alike. */
  lemma ReadsWhatWasMade<P>(j: Job<P>, preview: Result<Outcome<P>>, report: Result<Bytes>)
    requires Inv(j) && !j.closed && j.worker.Some?
    ensures j.worker.value.Preparing? ==>
      ReadResult(PreviewExit(j, preview)).1 == (if preview.Ok? then Ok(preview.value.bytes) else Err(preview.code))
    ensures j.worker.value.Executing? && j.worker.value.pastGuard ==> ReadResult(ExecutionExit(j, report)).1 == report
    ensures j.worker.value.Executing? && !j.worker.value.pastGuard ==>
      && (j.cancelled ==> ReadResult(Guard(j, true, report)).1 == report && Guard(j, true, report).effects == j.effects)
      && (ReadResult(Guard(j, false, report)).1 == report && Guard(j, false, report).effects == j.effects)
      && (!j.cancelled ==> ReadResult(Guard(j, true, report)).1 == Err(NOT_READY))
  {
  }

  /** Cancelled before the guard, no run lets the execution pass it: cancelling is final. */
  lemma {:induction false} CancelledNeverActs<P>(j: Job<P>, es: seq<Event<P>>)
    requires j.cancelled
    ensures Run(j, es).cancelled && Run(j, es).effects == j.effects && Run(j, es).launches == j.launches
    decreases |es|
  {
    if es != [] { CancelledNeverActs(Next(j, es[0]), es[1..]); }
  }

  /** A released job never changes again, but for the flag that lock-free cancel may still set. */
  lemma {:induction false} ReleasedIsFinal<P>(j: Job<P>, es: seq<Event<P>>, check: P -> int, spawnOk: bool)
    requires Inv(j) && j.closed
    ensures Run(j, es).(cancelled := j.cancelled) == j
    ensures ReadResult(Run(j, es)).1 == Err(INVALID_HANDLE)
    ensures Execute(Run(j, es), check, spawnOk).1 == INVALID_HANDLE && Release(Run(j, es)).1 == INVALID_HANDLE
    decreases |es|
  {
    if es != [] { ReleasedIsFinal(Next(j, es[0]), es[1..], check, spawnOk); }
  }

  // ----- what each kind demands before it executes -----

  /** A picked preview: `Path` is the list of components, so `starts_with` is the prefix order. */
  type Path = seq<string>
  datatype PickedPlan = PickedPlan(eligible: bool, token: string, items: seq<Path>)

  function PickedCheck(plan: PickedPlan, token: string, stateDir: Path): int {
    if plan.eligible && plan.token == token && forall p :: p in plan.items ==> !(stateDir <= p) then OK
    else INVALID_CANDIDATE
  }

  /** A simulator or runtime preview: item `id` stands for device `udids[id - 1]`. */
  datatype DevicePlan = DevicePlan(udids: seq<string>)

  predicate Known(id: nat, udids: seq<string>) { 1 <= id <= |udids| }

  function MapItems(ids: seq<nat>, udids: seq<string>): (r: Result<seq<string>>)
    ensures r.Ok? <==> forall id :: id in ids ==> Known(id, udids)
    ensures r.Ok? ==>
      |r.value| == |ids| && forall k :: 0 <= k < |ids| ==> Known(ids[k], udids) && r.value[k] == udids[ids[k] - 1]
    ensures r.Err? ==> r.code == INVALID_CANDIDATE
  {
    if ids == [] then Ok([])
    else
      var front := MapItems(ids[..|ids| - 1], udids);
      var last := ids[|ids| - 1];
      if front.Ok? && Known(last, udids) then Ok(front.value + [udids[last - 1]])
      else
        assert front.Err? ==> exists id :: id in ids[..|ids| - 1] && !Known(id, udids);
        Err(INVALID_CANDIDATE)
  }

  /** The loop of the execute call; the first unknown id ends it. */
  method MapItemIds(ids: seq<nat>, udids: seq<string>) returns (r: Result<seq<string>>)
    ensures r == MapItems(ids, udids)
  {
    var items: seq<string> := [];
    for i := 0 to |ids|
      invariant |items| == i
      invariant forall k :: 0 <= k < i ==> Known(ids[k], udids) && items[k] == udids[ids[k] - 1]
    {
      if ids[i] == 0 || ids[i] - 1 >= |udids| {
        assert ids[i] in ids && !Known(ids[i], udids);
        return Err(INVALID_CANDIDATE);
      }
      items := items + [udids[ids[i] - 1]];
    }
    assert MapItems(ids, udids).Ok? ==> MapItems(ids, udids).value == items;
    return Ok(items);
  }

  function DeviceCheck(
    plan: DevicePlan, ids: seq<nat>, stateDirOk: DevicePlan -> bool, approved: (DevicePlan, seq<string>) -> bool
  ): int {
    var items := MapItems(ids, plan.udids);
    if items.Err? then items.code
    else if !stateDirOk(plan) then INVALID_ARGUMENT
    else if !approved(plan, items.value) then INVALID_CANDIDATE
    else OK
  }

  /** What the two checks answer. */
  lemma CheckAnswers(
    picked: PickedPlan, token: string, stateDir: Path, plan: DevicePlan, ids: seq<nat>,
    stateDirOk: DevicePlan -> bool, approved: (DevicePlan, seq<string>) -> bool, items: seq<string>)
    requires |items| == |ids|
    requires forall k :: 0 <= k < |ids| ==>
      1 <= ids[k] <= |plan.udids| ==> items[k] == plan.udids[ids[k] - 1]
    ensures var code := PickedCheck(picked, token, stateDir);
      && code in {OK, INVALID_CANDIDATE}
      && (code == OK <==>
            picked.eligible && picked.token == token && forall p :: p in picked.items ==> !(stateDir <= p))
    ensures var code := DeviceCheck(plan, ids, stateDirOk, approved);
      var known := forall id :: id in ids ==> 1 <= id <= |plan.udids|;
      && code in {OK, INVALID_ARGUMENT, INVALID_CANDIDATE}
      && (code == INVALID_ARGUMENT <==> known && !stateDirOk(plan))
      && (code == OK <==> known && stateDirOk(plan) && approved(plan, items))
  {
    var r := MapItems(ids, plan.udids);
    if r.Ok? {
      forall k | 0 <= k < |ids| ensures items[k] == r.value[k] { assert Known(ids[k], plan.udids); }
      assert r.value == items;
    }
    assert forall id :: id in ids ==> (Known(id, plan.udids) <==> 1 <= id <= |plan.udids|);
  }

  /** A picked execution starts only from an eligible preview, by its own token, off the state directory. */
  lemma PickedStartsOnlyApproved(j: Job<PickedPlan>, token: string, stateDir: Path, spawnOk: bool)
    requires Inv(j)
    ensures var (n, code) := Execute(j, plan => PickedCheck(plan, token, stateDir), spawnOk);
      code == OK ==>
        && n.worker.Some? && n.worker.value.Executing? && !n.worker.value.pastGuard
        && var plan := n.worker.value.plan;
           plan.eligible && plan.token == token && forall p :: p in plan.items ==> !(stateDir <= p)
  {
  }

  /** A device execution starts only when every id names a device of the preview, and those devices were approved. */
  lemma DevicesStartOnlyApproved(
    j: Job<DevicePlan>, ids: seq<nat>, stateDirOk: DevicePlan -> bool, approved: (DevicePlan, seq<string>) -> bool,
    spawnOk: bool)
    requires Inv(j)
    ensures var (n, code) := Execute(j, plan => DeviceCheck(plan, ids, stateDirOk, approved), spawnOk);
      code == OK ==>
        && n.worker.Some? && n.worker.value.Executing?
        && var plan := n.worker.value.plan;
           && (forall id :: id in ids ==> Known(id, plan.udids)) && stateDirOk(plan)
           && exists items :: |items| == |ids| && approved(plan, items)
                && forall k :: 0 <= k < |ids| ==> items[k] == plan.udids[ids[k] - 1]
  {
    var (n, code) := Execute(j, plan => DeviceCheck(plan, ids, stateDirOk, approved), spawnOk);
    if code == OK {
      var items := MapItems(ids, n.worker.value.plan.udids).value;
      assert forall k :: 0 <= k < |ids| ==> Known(ids[k], n.worker.value.plan.udids);
      assert approved(n.worker.value.plan, items);
    }
  }

  // ----- the job as the calls update it -----

  class RetainedJob<P> {
    var cancelled: bool
    var worker: Option<Worker<P>>
    var outcome: Option<Result<Outcome<P>>>
    var closed: bool
    ghost var launches: nat
    ghost var effects: nat

    ghost function View(): Job<P>
      reads this
    {
      Job(cancelled, worker, outcome, closed, launches, effects)
    }

    constructor ()
      ensures View() == Init() && Inv(View())
    {
      cancelled, worker, outcome, closed := false, Some(Preparing), None, false;
      launches, effects := 0, 0;
    }

    method DoCollect() returns (code: int)
      modifies this`worker, this`outcome
      ensures (View(), code) == Collect(old(View()))
    {
      if closed { return INVALID_HANDLE; }
      if worker.Some? && worker.value.Exited? {
        outcome := Some(worker.value.result);
        worker := None;
      }
      if worker.Some? { return NOT_READY; }
      return OK;
    }

    method Result() returns (r: Result<Bytes>)
      modifies this`worker, this`outcome
      ensures (View(), r) == ReadResult(old(View()))
    {
      var code := DoCollect();
      if code != OK { return Err(code); }
      match outcome
      case None => return Err(INTERNAL_ERROR);
      case Some(Err(e)) => return Err(e);
      case Some(Ok(o)) => return Ok(o.bytes);
    }

    method ExecuteOnce(check: P -> int, spawnOk: bool) returns (code: int)
      modifies this`worker, this`outcome, this`launches
      ensures (View(), code) == Execute(old(View()), check, spawnOk)
    {
      code := DoCollect();
      if code != OK { return; }
      match outcome {
        case Some(Ok(Preview(plan, _))) =>
          if cancelled { return INVALID_CANDIDATE; }
          if check(plan) != OK { return check(plan); }
          outcome := None;
          if spawnOk {
            worker := Some(Executing(plan, false));
            launches := launches + 1;
          } else {
            outcome := Some(Err(INTERNAL_ERROR));
            return INTERNAL_ERROR;
          }
        case _ => return INVALID_CANDIDATE;
      }
    }

    method CancelWork()
      modifies this`cancelled
      ensures View() == Cancel(old(View()))
    {
      cancelled := true;
    }

    method ReleaseJob() returns (code: int)
      modifies this
      ensures (View(), code) == Release(old(View()))
    {
      cancelled := true;
      code := DoCollect();
      if code == NOT_READY { return BUSY; }
      if code != OK { return; }
      closed := true;
      outcome := None;
    }
  }
}
