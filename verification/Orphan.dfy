/**
 Orphan leftovers: one handle first prepares a session (phase 1), then may spend it on one execution
 (phase 2). Every call runs under the job lock, so a run is a sequence of whole calls and worker exits.
 */
module Orphan {
  import opened Status

  type Bytes = seq<nat>

  /** What the result call hands out: the worker's own document, or an error document made here. */
  datatype Content = Document(bytes: Bytes) | Failure(message: string)

  /** `json` is the bounded rendering of the prepared session, absent when it does not fit. */
  datatype Completed<+S> =
    | Preview(session: S, json: Option<Bytes>)
    | Execution(report: Bytes)
    | Failed(message: string)

  datatype Worker<+S> = Preparing | Executing(session: S) | Exited(result: Completed<S>)

  /** `launches` counts the executions started; it is not a field of the program. */
  datatype Job<+S> = Job(
    cancelled: bool, worker: Option<Worker<S>>, session: Option<S>, bytes: Option<Content>,
    phase: nat, failed: bool, closed: bool, launches: nat)

  function Init<S>(): Job<S> { Job(false, Some(Preparing), None, None, 1, false, false, 0) }

  predicate AtWork<S>(j: Job<S>) { j.worker.Some? && !j.worker.value.Exited? }

  // ----- the calls, as functions of the job -----

  function Collect<S>(j: Job<S>): Job<S> {
    if j.worker.None? || !j.worker.value.Exited? then j
    else
      var idle := j.(worker := None);
      match j.worker.value.result
      case Preview(s, Some(json)) =>
        if |json| <= MAX_RESULT_BYTES then idle.(bytes := Some(Document(json)), session := Some(s))
        else idle.(failed := true, bytes := Some(Failure("preview serialization failed")))
      case Preview(_, None) => idle.(failed := true, bytes := Some(Failure("preview serialization failed")))
      case Execution(b) =>
        if |b| <= MAX_RESULT_BYTES then idle.(bytes := Some(Document(b)))
        else idle.(failed := true, bytes := Some(Failure("result limit exceeded; inspect history")))
      case Failed(m) => idle.(failed := true, bytes := Some(Failure(m)))
  }

  function Execute<S>(j: Job<S>, spawnOk: bool): (Job<S>, int) {
    if j.closed then (j, INVALID_HANDLE)
    else
      var c := Collect(j);
      if c.worker.Some? then (c, NOT_READY)
      else if c.phase != 1 || c.cancelled then (c, INVALID_HANDLE)
      else if c.session.None? then (c, INVALID_CANDIDATE)
      else
        var spent := c.(session := None, phase := 2, bytes := None, failed := false);
        if spawnOk then (spent.(worker := Some(Executing(c.session.value)), launches := c.launches + 1), OK)
        else (spent.(failed := true, bytes := Some(Failure("cannot start execution worker"))), INTERNAL_ERROR)
  }

  datatype Snapshot = Snapshot(phase: nat, state: nat, cancellationRequested: bool)

  function Poll<S>(j: Job<S>): (Job<S>, Result<Snapshot>) {
    if j.closed then (j, Err(INVALID_HANDLE))
    else
      var c := Collect(j);
      (c, Ok(Snapshot(c.phase, if c.worker.Some? then 1 else if c.failed then 5 else 2, c.cancelled)))
  }

  function ReadResult<S>(j: Job<S>): (Job<S>, Result<Content>) {
    if j.closed then (j, Err(INVALID_HANDLE))
    else
      var c := Collect(j);
      (c, if c.bytes.Some? then Ok(c.bytes.value) else Err(NOT_READY))
  }

  function Cancel<S>(j: Job<S>): (Job<S>, int) {
    if j.closed then (j, INVALID_HANDLE) else (j.(cancelled := true), OK)
  }

  function Release<S>(j: Job<S>): (Job<S>, int) {
    if j.closed then (j, INVALID_HANDLE)
    else
      var c := Collect(j.(cancelled := true));
      if c.worker.Some? then (c, BUSY)
      else (c.(closed := true, session := None, bytes := None), OK)
  }

  /** The thread ends: a preparing worker with a session or an error, an executing one with a report or an error. */
  function WorkerExit<S>(j: Job<S>, result: Completed<S>): Job<S> {
    match j.worker
    case Some(Preparing) => if result.Execution? then j else j.(worker := Some(Exited(result)))
    case Some(Executing(_)) => if result.Preview? then j else j.(worker := Some(Exited(result)))
    case _ => j
  }

  // ----- runs -----

  datatype Event<+S> = DoExecute(spawnOk: bool) | DoPoll | DoRead | DoCancel | DoRelease | DoExit(result: Completed<S>)

  function Next<S>(j: Job<S>, e: Event<S>): Job<S> {
    match e
    case DoExecute(spawnOk) => Execute(j, spawnOk).0
    case DoPoll => Poll(j).0
    case DoRead => ReadResult(j).0
    case DoCancel => Cancel(j).0
    case DoRelease => Release(j).0
    case DoExit(r) => WorkerExit(j, r)
  }

  function Run<S>(j: Job<S>, es: seq<Event<S>>): Job<S>
    decreases |es|
  {
    if es == [] then j else Run(Next(j, es[0]), es[1..])
  }

  predicate Inv<S>(j: Job<S>) {
    && j.phase in {1, 2} && j.launches <= j.phase - 1
    && (j.closed ==> j.worker.None? && j.session.None? && j.bytes.None?)
    && (!j.closed ==> (j.worker.Some? <==> j.bytes.None?))
    // a session is held exactly while a good preview is on offer
    && (j.session.Some? <==> j.phase == 1 && j.bytes.Some? && !j.failed)
    && (j.bytes.Some? ==> (j.failed <==> j.bytes.value.Failure?))
    && (j.worker.Some? ==> !j.failed && WorkerFits(j.worker.value, j.phase))
  }

  predicate WorkerFits<S>(w: Worker<S>, phase: nat) {
    match w
    case Preparing => phase == 1
    case Executing(_) => phase == 2
    case Exited(Preview(_, _)) => phase == 1
    case Exited(Execution(_)) => phase == 2
    case Exited(Failed(_)) => true
  }

  lemma CollectKeeps<S>(j: Job<S>)
    requires Inv(j)
    ensures Inv(Collect(j)) && (Collect(j).worker.Some? <==> AtWork(j))
    ensures Collect(j) == j.(worker := Collect(j).worker, session := Collect(j).session,
                             bytes := Collect(j).bytes, failed := Collect(j).failed)
  {
  }

  lemma NextKeeps<S>(j: Job<S>, e: Event<S>)
    requires Inv(j)
    ensures Inv(Next(j, e))
  {
    CollectKeeps(j);
    CollectKeeps(j.(cancelled := true));
  }

  lemma {:induction false} RunKeeps<S>(j: Job<S>, es: seq<Event<S>>)
    requires Inv(j)
    ensures Inv(Run(j, es))
    decreases |es|
  {
    if es != [] {
      NextKeeps(j, es[0]);
      RunKeeps(Next(j, es[0]), es[1..]);
    }
  }

  /** What each call tells its caller, in every state a run reaches. */
  lemma CallsAreSound<S>(es: seq<Event<S>>, spawnOk: bool)
    ensures var j := Run(Init<S>(), es);
      && Inv(j) && j.launches <= 1
      // the result is missing exactly while the worker is at work, and so is poll's `running`
      && (ReadResult(j).1 == Err(NOT_READY) <==> !j.closed && AtWork(j))
      && (!j.closed ==> (Poll(j).1.value.state == 1 <==> AtWork(j)))
      // `failed` is reported exactly with a failure document, `ready` with a real one
      && (!j.closed && Poll(j).1.value.state == 5 ==> ReadResult(j).1.Ok? && ReadResult(j).1.value.Failure?)
      && (!j.closed && Poll(j).1.value.state == 2 ==> ReadResult(j).1.Ok? && ReadResult(j).1.value.Document?)
      // an execution starts exactly from an open, uncancelled, ready preview
      && (Execute(j, true).1 == OK <==>
            !j.closed && !j.cancelled && Poll(j).1.value.phase == 1 && Poll(j).1.value.state == 2)
      && (Execute(j, spawnOk).1 == OK ==> j.launches == 0)
      // release waits for the worker, and for nothing else
      && (Release(j).1 == BUSY <==> !j.closed && AtWork(j))
      && (Release(j).1 == OK <==> !j.closed && !AtWork(j))
      && (!j.closed ==> Release(j).0.cancelled)
  {
    RunKeeps(Init<S>(), es);
    CollectKeeps(Run(Init<S>(), es));
    CollectKeeps(Run(Init<S>(), es).(cancelled := true));
  }

  // ----- what each call answers and leaves, case by case -----

  /** A preview that can be spent: the worker has left a session whose document fits. */
  predicate GoodPreview<S>(c: Completed<S>) { c.Preview? && c.json.Some? && |c.json.value| <= 64 * 1024 * 1024 }

  /** Collecting takes over what a finished worker left, and does nothing else. */
  lemma CollectTakesOver<S>(j: Job<S>)
    ensures j.worker.None? || !j.worker.value.Exited? ==> Collect(j) == j
    ensures j.worker.Some? && j.worker.value.Exited? ==>
      var r, n := j.worker.value.result, Collect(j);
      && n.worker.None? && n.phase == j.phase && n.cancelled == j.cancelled && n.closed == j.closed
      && n.launches == j.launches
      && (GoodPreview(r) ==>
            n.session == Some(r.session) && n.bytes == Some(Document(r.json.value)) && n.failed == j.failed)
      && (!GoodPreview(r) ==> n.session == j.session)
      && (r.Execution? && |r.report| <= 64 * 1024 * 1024 ==>
            n.bytes == Some(Document(r.report)) && n.failed == j.failed)
      && (r.Execution? && |r.report| > 64 * 1024 * 1024 ==>
            n.failed && n.bytes == Some(Failure("result limit exceeded; inspect history")))
      && (r.Preview? && !GoodPreview(r) ==> n.failed && n.bytes == Some(Failure("preview serialization failed")))
      && (r.Failed? ==> n.failed && n.bytes == Some(Failure(r.message)))
  {
  }

  /** The session an execute would spend: on offer already, or just left by the worker. */
  function Offered<S>(j: Job<S>): Option<S> {
    if j.worker.Some? && j.worker.value.Exited? && GoodPreview(j.worker.value.result) then
      Some(j.worker.value.result.session)
    else j.session
  }

  lemma ExecuteAnswers<S>(j: Job<S>, spawnOk: bool)
    requires Inv(j)
    ensures var (n, code) := Execute(j, spawnOk);
      var admitted := !j.closed && !AtWork(j) && j.phase == 1 && !j.cancelled && Offered(j).Some?;
      && (code == NOT_READY <==> !j.closed && AtWork(j))
      && (code == INVALID_HANDLE <==> j.closed || (!AtWork(j) && (j.phase == 2 || j.cancelled)))
      && (code == INVALID_CANDIDATE <==>
            !j.closed && !AtWork(j) && j.phase == 1 && !j.cancelled && Offered(j).None?)
      && (code == OK <==> admitted && spawnOk) && (code == INTERNAL_ERROR <==> admitted && !spawnOk)
      && (j.closed || AtWork(j) ==> n == j) && (!admitted && !j.closed ==> n == Collect(j))
      // the offer is spent whether or not the thread starts, and nothing of the old document is left
      && (admitted ==> n.phase == 2 && n.session.None? && n.cancelled == j.cancelled && n.closed == j.closed)
      && (code == OK ==>
            n.worker == Some(Executing(Offered(j).value)) && n.bytes.None? && !n.failed && n.launches == j.launches + 1)
      && (code == INTERNAL_ERROR ==>
            && n.worker.None? && n.bytes == Some(Failure("cannot start execution worker")) && n.failed
            && n.launches == j.launches)
  {
  }

  /** Polls and result calls show the job as it is once the worker's result is taken over. */
  lemma ReadAnswers<S>(j: Job<S>)
    requires Inv(j)
    ensures j.closed ==> Poll(j) == (j, Err(INVALID_HANDLE)) && ReadResult(j) == (j, Err(INVALID_HANDLE))
    ensures !j.closed ==> Poll(j).0 == ReadResult(j).0 == Collect(j) && Poll(j).1.Ok?
    ensures !j.closed ==>
      var s := Poll(j).1.value;
      && s.phase == j.phase && (s.cancellationRequested <==> j.cancelled)
      && (s.state == 1 <==> AtWork(j)) && (s.state == 5 <==> Collect(j).failed) && s.state in {1, 2, 5}
      && (AtWork(j) ==> ReadResult(j).1 == Err(NOT_READY))
      && (!AtWork(j) ==> Collect(j).bytes.Some? && ReadResult(j).1 == Ok(Collect(j).bytes.value))
  {
  }

  /** Cancels are seen by every later poll; a release cancels, and closes as soon as no worker is at work. */
  lemma CancelAndReleaseAnswer<S>(j: Job<S>)
    requires Inv(j)
    ensures j.closed ==> Cancel(j) == Release(j) == (j, INVALID_HANDLE)
    ensures !j.closed ==> Cancel(j) == (j.(cancelled := true), OK)
    ensures !j.closed && AtWork(j) ==> Release(j) == (j.(cancelled := true), BUSY)
    ensures !j.closed && !AtWork(j) ==>
      var (n, code) := Release(j);
      && code == OK && n.closed && n.cancelled && n.worker.None? && n.session.None? && n.bytes.None?
      && n.phase == j.phase && n.launches == j.launches
  {
  }

  /** A worker ends once, with what its kind can end with. */
  lemma ExitLeaves<S>(j: Job<S>, result: Completed<S>)
    ensures var n := WorkerExit(j, result);
      && n.(worker := j.worker) == j
      && (n.worker == Some(Exited(result)) || n == j)
      && (AtWork(j) && result.Failed? ==> n.worker == Some(Exited(result)))
      && (j.worker == Some(Preparing) ==> (result.Preview? ==> n.worker == Some(Exited(result))))
      && (j.worker.Some? && j.worker.value.Executing? ==> (result.Execution? ==> n.worker == Some(Exited(result))))
      && (j.worker == Some(Preparing) && result.Execution? ==> n == j)
      && (j.worker.Some? && j.worker.value.Executing? && result.Preview? ==> n == j)
      && (!AtWork(j) ==> n == j)
  {
  }

  /** A new job prepares; nothing is cancelled, offered, failed or launched. */
  lemma InitIs<S>()
    ensures var j := Init<S>();
      && Inv(j) && AtWork(j) && j.worker == Some(Preparing) && j.phase == 1
      && !j.cancelled && !j.closed && !j.failed && j.session.None? && j.bytes.None? && j.launches == 0
  {
  }

  /** Once the preview is spent no later call starts anything, whatever happened to the first attempt. */
  lemma {:induction false} SpentOnce<S>(j: Job<S>, es: seq<Event<S>>, spawnOk: bool)
    requires Inv(j) && j.phase == 2
    ensures Run(j, es).phase == 2 && Run(j, es).launches == j.launches
    ensures Execute(Run(j, es), spawnOk).1 in {NOT_READY, INVALID_HANDLE}
    decreases |es|
  {
    if es != [] {
      NextKeeps(j, es[0]);
      CollectKeeps(j);
      CollectKeeps(j.(cancelled := true));
      SpentOnce(Next(j, es[0]), es[1..], spawnOk);
    } else {
      CollectKeeps(j);
    }
  }

  /** Cancelling is final: no execution starts after it, in any run. */
  lemma {:induction false} CancelledNeverLaunches<S>(j: Job<S>, es: seq<Event<S>>, spawnOk: bool)
    requires Inv(j) && j.cancelled
    ensures Run(j, es).cancelled && Run(j, es).launches == j.launches
    ensures Execute(Run(j, es), spawnOk).1 in {NOT_READY, INVALID_HANDLE}
    decreases |es|
  {
    if es != [] {
      NextKeeps(j, es[0]);
      CollectKeeps(j);
      CollectKeeps(j.(cancelled := true));
      CancelledNeverLaunches(Next(j, es[0]), es[1..], spawnOk);
    } else {
      CollectKeeps(j);
    }
  }

  /** The outcome of the execution, or of the failed attempt to start it, is never replaced before release. */
  lemma {:induction false} OutcomeIsFixed<S>(j: Job<S>, es: seq<Event<S>>)
    requires Inv(j) && j.phase == 2 && ReadResult(j).1.Ok?
    ensures Run(j, es).closed || ReadResult(Run(j, es)).1 == ReadResult(j).1
    decreases |es|
  {
    if es != [] {
      var n := Next(j, es[0]);
      NextKeeps(j, es[0]);
      if n.closed {
        ReleasedIsFinal(n, es[1..], true);
      } else {
        CollectKeeps(j);
        OutcomeIsFixed(n, es[1..]);
      }
    }
  }

  /** What a worker hands over is what the next result call returns, or a failure document saying why not. */
  lemma ReadsWhatWasMade<S>(j: Job<S>, result: Completed<S>)
    requires Inv(j) && !j.closed && j.worker.Some? && !j.worker.value.Exited?
    requires result.Execution? ==> j.phase == 2
    requires result.Preview? ==> j.phase == 1
    ensures var n := WorkerExit(j, result);
      && (result.Execution? && |result.report| <= MAX_RESULT_BYTES ==> ReadResult(n).1 == Ok(Document(result.report)))
      && (result.Execution? && |result.report| > MAX_RESULT_BYTES ==>
            ReadResult(n).1.value.Failure? && Poll(n).1.value.state == 5)
      && (result.Preview? && result.json.Some? && |result.json.value| <= MAX_RESULT_BYTES ==>
            ReadResult(n).1 == Ok(Document(result.json.value)) && ReadResult(n).0.session == Some(result.session))
      && (result.Preview? && (result.json.None? || |result.json.value| > MAX_RESULT_BYTES) ==>
            ReadResult(n).1.value.Failure? && ReadResult(n).0.session.None?)
      && (result.Failed? ==> ReadResult(n).1 == Ok(Failure(result.message)))
  {
  }

  /** Every call on a released job is refused and leaves it as it was. */
  lemma {:induction false} ReleasedIsFinal<S>(j: Job<S>, es: seq<Event<S>>, spawnOk: bool)
    requires Inv(j) && j.closed
    ensures Run(j, es) == j
    ensures Execute(j, spawnOk).1 == INVALID_HANDLE && Poll(j).1 == Err(INVALID_HANDLE)
    ensures ReadResult(j).1 == Err(INVALID_HANDLE) && Cancel(j).1 == INVALID_HANDLE && Release(j).1 == INVALID_HANDLE
    decreases |es|
  {
    if es != [] { ReleasedIsFinal(Next(j, es[0]), es[1..], spawnOk); }
  }

  /** A release that met a running worker has cancelled it, and succeeds once that worker has stopped. */
  lemma BusyThenReleased<S>(j: Job<S>, result: Completed<S>)
    requires Inv(j) && Release(j).1 == BUSY
    ensures Release(j).0 == j.(cancelled := true)
    ensures var stopped := WorkerExit(Release(j).0, result);
      stopped.worker.value.Exited? ==> Release(stopped).1 == OK && Release(stopped).0.closed
  {
    CollectKeeps(j.(cancelled := true));
  }

  // ----- the selection the execute call accepts -----

  predicate HexDigest(s: string) {
    |s| == 64 && forall k :: 0 <= k < 64 ==> '0' <= s[k] <= '9' || 'a' <= s[k] <= 'f'
  }

  lemma DigitIs(c: char)
    ensures ('0' <= c <= '9' || 'a' <= c <= 'f') <==> c in "0123456789abcdef"
  {
    var digits := "0123456789abcdef";
    assert digits[0] == '0' && digits[1] == '1' && digits[2] == '2' && digits[3] == '3' && digits[4] == '4';
    assert digits[5] == '5' && digits[6] == '6' && digits[7] == '7' && digits[8] == '8' && digits[9] == '9';
    assert digits[10] == 'a' && digits[11] == 'b' && digits[12] == 'c' && digits[13] == 'd' && digits[14] == 'e';
    assert digits[15] == 'f';
  }

  /** A digest is 64 lower-case hexadecimal digits. */
  lemma DigestIs(id: string)
    ensures HexDigest(id) <==> |id| == 64 && forall c :: 0 <= c < |id| ==> id[c] in "0123456789abcdef"
  {
    forall c | 0 <= c < |id| ensures ('0' <= id[c] <= '9' || 'a' <= id[c] <= 'f') <==> id[c] in "0123456789abcdef" {
      DigitIs(id[c]);
    }
  }

  /** One pass with a set of the ids met so far, as the request check makes it. */
  method SelectionAccepted(ids: seq<string>) returns (ok: bool)
    ensures ok <==> 1 <= |ids| <= 32
                    && (forall k :: 0 <= k < |ids| ==> HexDigest(ids[k]))
                    && (forall a, b :: 0 <= a < b < |ids| ==> ids[a] != ids[b])
  {
    if |ids| == 0 || |ids| > 32 { return false; }
    var seen: set<string> := {};
    for i := 0 to |ids|
      invariant forall id :: id in seen <==> id in ids[..i]
      invariant forall k :: 0 <= k < i ==> HexDigest(ids[k])
      invariant forall a, b :: 0 <= a < b < i ==> ids[a] != ids[b]
    {
      if !HexDigest(ids[i]) || ids[i] in seen {
        assert ids[i] in seen ==> exists a :: 0 <= a < i && ids[a] == ids[i];
        return false;
      }
      seen := seen + {ids[i]};
    }
    return true;
  }

  // ----- the job as the calls update it -----

  class OrphanJob<S> {
    var cancelled: bool
    var worker: Option<Worker<S>>
    var session: Option<S>
    var bytes: Option<Content>
    var phase: nat
    var failed: bool
    var closed: bool
    ghost var launches: nat

    ghost function View(): Job<S>
      reads this
    {
      Job(cancelled, worker, session, bytes, phase, failed, closed, launches)
    }

    constructor ()
      ensures View() == Init() && Inv(View())
    {
      cancelled, worker, session, bytes := false, Some(Preparing), None, None;
      phase, failed, closed, launches := 1, false, false, 0;
    }

    method CollectWorker()
      modifies this`worker, this`session, this`bytes, this`failed
      ensures View() == Collect(old(View()))
    {
      if worker.None? || !worker.value.Exited? { return; }
      var result := worker.value.result;
      worker := None;
      match result {
        case Preview(s, json) =>
          if json.Some? && |json.value| <= MAX_RESULT_BYTES {
            bytes := Some(Document(json.value));
            session := Some(s);
          } else {
            failed := true;
            bytes := Some(Failure("preview serialization failed"));
          }
        case Execution(report) =>
          if |report| <= MAX_RESULT_BYTES {
            bytes := Some(Document(report));
          } else {
            failed := true;
            bytes := Some(Failure("result limit exceeded; inspect history"));
          }
        case Failed(message) =>
          failed := true;
          bytes := Some(Failure(message));
      }
    }

    method ExecuteOnce(spawnOk: bool) returns (code: int)
      modifies this
      ensures (View(), code) == Execute(old(View()), spawnOk)
    {
      if closed { return INVALID_HANDLE; }
      CollectWorker();
      if worker.Some? { return NOT_READY; }
      if phase != 1 || cancelled { return INVALID_HANDLE; }
      if session.None? { return INVALID_CANDIDATE; }
      var taken := session.value;
      session := None;
      phase := 2;
      bytes := None;
      failed := false;
      if !spawnOk {
        failed := true;
        bytes := Some(Failure("cannot start execution worker"));
        return INTERNAL_ERROR;
      }
      worker := Some(Executing(taken));
      launches := launches + 1;
      return OK;
    }

    method PollState() returns (r: Result<Snapshot>)
      modifies this`worker, this`session, this`bytes, this`failed
      ensures (View(), r) == Poll(old(View()))
    {
      if closed { return Err(INVALID_HANDLE); }
      CollectWorker();
      return Ok(Snapshot(phase, if worker.Some? then 1 else if failed then 5 else 2, cancelled));
    }

    method Result() returns (r: Result<Content>)
      modifies this`worker, this`session, this`bytes, this`failed
      ensures (View(), r) == ReadResult(old(View()))
    {
      if closed { return Err(INVALID_HANDLE); }
      CollectWorker();
      if bytes.None? { return Err(NOT_READY); }
      return Ok(bytes.value);
    }

    method CancelWork() returns (code: int)
      modifies this`cancelled
      ensures (View(), code) == Cancel(old(View()))
    {
      if closed { return INVALID_HANDLE; }
      cancelled := true;
      return OK;
    }

    method ReleaseJob() returns (code: int)
      modifies this
      ensures (View(), code) == Release(old(View()))
    {
      if closed { return INVALID_HANDLE; }
      cancelled := true;
      CollectWorker();
      if worker.Some? { return BUSY; }
      closed := true;
      session := None;
      bytes := None;
      return OK;
    }
  }
}
