/**
 The uninstall handle: a native Trash session, an administrator path that hands the move to Finder, and
 a related-data capability, of which at most one may ever act. The engine's answers are inputs of the
 calls: whether a token, store, approval or admission was good, and the report of a move. `fits` says
 whether a refusal document is within the output budget.
 */
module Uninstall {
  import opened Status

  datatype Admin = Unavailable | Eligible | AwaitingDelegate | Consumed

  /** The four ways an application can be moved away. */
  datatype Route = NativeMove | FinderMove | RelatedMove | RelatedFinderMove

  /**
   A refusal made here, the reports of a related operation that was finished before anything was handed
   to Finder, with the error that stopped it, or the report of a move.
   */
  datatype Content = Refused | Withdrawn(body: nat) | Report(route: Route, body: nat)

  /** `related` holds whether the capability needs the administrator; `routes` is the history of moves handed off. */
  datatype Job = Job(
    session: bool, admin: Admin, related: Option<bool>, relatedAdmin: bool,
    result: Option<Content>, closed: bool, routes: seq<Route>)

  /** `plan` is absent when the preview already refuses, else whether preparing gave a non-empty Trash plan. */
  function Start(plan: Option<bool>, evidence: bool): Job {
    Job(plan == Some(true), if plan == Some(false) && evidence then Eligible else Unavailable,
        None, false, None, false, [])
  }

  // ----- the calls, as functions of the job -----

  function EnsureIdle(j: Job): int {
    if j.closed || j.result.Some? || j.relatedAdmin || j.admin in {AwaitingDelegate, Consumed} then INVALID_HANDLE
    else OK
  }

  function ExecuteV1(j: Job, tokenOk: bool, storeOk: bool, approved: bool, body: nat, fits: bool): (Job, int) {
    if EnsureIdle(j) != OK then (j, EnsureIdle(j))
    else if !tokenOk then (j, INVALID_ARGUMENT)
    else if !storeOk then (j, INTERNAL_ERROR)
    else if !j.session then (j, INVALID_CANDIDATE)
    else
      var taken := j.(session := false, related := None);
      if approved then (taken.(result := Some(Report(NativeMove, body)), routes := j.routes + [NativeMove]), OK)
      else if fits then (taken.(result := Some(Refused)), OK)
      else (taken, LIMIT_EXCEEDED)
  }

  /** `store` is OK, or the status a failure to open the store maps to. */
  function AdminBeginV1(j: Job, tokenOk: bool, store: int, admitted: bool, fits: bool): (Job, int) {
    if EnsureIdle(j) != OK then (j, EnsureIdle(j))
    else if !tokenOk then (j, INVALID_ARGUMENT)
    else if j.admin == Unavailable then (j, INVALID_CANDIDATE)
    else if store != OK then (j, store)
    else if admitted then (j.(related := None, admin := AwaitingDelegate, routes := j.routes + [FinderMove]), OK)
    else if fits then (j.(admin := Consumed, result := Some(Refused)), INVALID_CANDIDATE)
    else (j.(admin := Consumed), LIMIT_EXCEEDED)
  }

  /** The administrator state is replaced before it is looked at. */
  function AdminFinish(j: Job, statusKnown: bool, body: nat): (Job, int) {
    if !statusKnown then (j, INVALID_ARGUMENT)
    else if j.closed || j.result.Some? then (j, INVALID_HANDLE)
    else if j.relatedAdmin then (j.(relatedAdmin := false, result := Some(Report(RelatedFinderMove, body))), OK)
    else
      var replaced := j.(admin := Consumed);
      if j.admin != AwaitingDelegate then (replaced, INVALID_HANDLE)
      else (replaced.(result := Some(Report(FinderMove, body))), OK)
  }

  function RelatedPreviewV2(j: Job, prepared: Option<bool>, fits: bool): (Job, int) {
    if EnsureIdle(j) != OK then (j, EnsureIdle(j))
    else
      var dropped := j.(related := None);
      if !fits then (dropped, LIMIT_EXCEEDED)
      else (dropped.(related := prepared), OK)
  }

  function ExecuteV2(j: Job, admin: bool, begun: bool, adminBegun: bool, body: nat, fits: bool): (Job, int) {
    if EnsureIdle(j) != OK then (j, EnsureIdle(j))
    else if j.related.None? then (j, INVALID_HANDLE)
    else if j.related.value != admin then (j, INVALID_CANDIDATE)
    else
      var spent := j.(related := None, session := false, admin := Consumed);
      if !begun then
        if fits then (spent.(result := Some(Refused)), INVALID_CANDIDATE) else (spent, LIMIT_EXCEEDED)
      else if admin && !adminBegun then
        if fits then (spent.(result := Some(Withdrawn(body))), INVALID_CANDIDATE) else (spent, LIMIT_EXCEEDED)
      else if admin then (spent.(relatedAdmin := true, routes := j.routes + [RelatedFinderMove]), OK)
      else (spent.(result := Some(Report(RelatedMove, body)), routes := j.routes + [RelatedMove]), OK)
  }

  function Release(j: Job): (Job, int) {
    if j.closed then (j, INVALID_HANDLE) else (j.(closed := true), OK)
  }

  /** What the result call shows: the terminal document, or `None` for the retained preview. */
  function ReadResult(j: Job): Result<Option<Content>> {
    if j.closed then Err(INVALID_HANDLE) else Ok(j.result)
  }

  // ----- runs -----

  datatype Event =
    | DoExecuteV1(tokenOk: bool, storeOk: bool, approved: bool, body: nat, fits: bool)
    | DoAdminBeginV1(tokenOk: bool, store: int, admitted: bool, fits: bool)
    | DoAdminFinish(statusKnown: bool, body: nat)
    | DoRelatedPreviewV2(prepared: Option<bool>, fits: bool)
    | DoExecuteV2(admin: bool, begun: bool, adminBegun: bool, body: nat, fits: bool)
    | DoRelease

  function Call(j: Job, e: Event): (Job, int) {
    match e
    case DoExecuteV1(t, s, a, b, f) => ExecuteV1(j, t, s, a, b, f)
    case DoAdminBeginV1(t, s, a, f) => AdminBeginV1(j, t, s, a, f)
    case DoAdminFinish(k, b) => AdminFinish(j, k, b)
    case DoRelatedPreviewV2(p, f) => RelatedPreviewV2(j, p, f)
    case DoExecuteV2(a, g, ab, b, f) => ExecuteV2(j, a, g, ab, b, f)
    case DoRelease => Release(j)
  }

  function Run(j: Job, es: seq<Event>): Job
    decreases |es|
  {
    if es == [] then j else Run(Call(j, es[0]).0, es[1..])
  }

  /** A move has been handed to Finder and its outcome is not yet recorded. */
  predicate Outstanding(j: Job) { j.admin == AwaitingDelegate || j.relatedAdmin }

  predicate Inv(j: Job) {
    // a live native session and the administrator path exclude each other
    && (j.session ==> j.admin !in {Eligible, AwaitingDelegate} && !j.relatedAdmin)
    && (j.relatedAdmin ==> j.admin == Consumed)
    && (j.result.Some? ==> !Outstanding(j) && !j.session)
    && (Outstanding(j) ==> j.related.None?)
    // exactly the moves that were handed off are outstanding or reported
    && j.routes == (if j.admin == AwaitingDelegate then [FinderMove]
                    else if j.relatedAdmin then [RelatedFinderMove]
                    else if j.result.Some? && j.result.value.Report? then [j.result.value.route]
                    else [])
  }

  lemma CallKeeps(j: Job, e: Event)
    requires Inv(j)
    ensures Inv(Call(j, e).0)
  {
  }

  /** In every run at most one route is taken, and a result reports a move exactly if one was handed off. */
  lemma {:induction false} OneRoute(j: Job, es: seq<Event>)
    requires Inv(j)
    ensures var n := Run(j, es);
      && Inv(n) && |n.routes| <= 1 && j.routes <= n.routes
      && (n.session ==> n.admin !in {Eligible, AwaitingDelegate})
      && (n.result.Some? ==> (n.result.value.Report? <==> n.routes != []))
      && (EnsureIdle(n) == OK ==> n.routes == [])
    decreases |es|
  {
    if es != [] {
      CallKeeps(j, es[0]);
      OneRoute(Call(j, es[0]).0, es[1..]);
    }
  }

  /** The run from any preview: the preview itself never offers both paths. */
  lemma EveryRun(plan: Option<bool>, evidence: bool, es: seq<Event>)
    ensures Inv(Start(plan, evidence)) && !(Start(plan, evidence).session && Start(plan, evidence).admin == Eligible)
    ensures |Run(Start(plan, evidence), es).routes| <= 1
  {
    OneRoute(Start(plan, evidence), es);
  }

  /** The result call refuses a closed handle only; before a result there is the preview to show. */
  lemma ReadAnswers(j: Job)
    ensures j.closed ==> ReadResult(j) == Err(INVALID_HANDLE)
    ensures !j.closed ==> ReadResult(j).Ok? && (ReadResult(j).value.Some? <==> j.result.Some?)
  {
  }

  /** A terminal result is shown by every later read until release, and nothing acts again. */
  lemma {:induction false} ResultIsFinal(j: Job, es: seq<Event>, e: Event)
    requires Inv(j) && j.result.Some?
    ensures var n := Run(j, es);
      && n.(closed := j.closed) == j
      && (!n.closed ==> ReadResult(n) == Ok(j.result))
      && (n.closed || !e.DoRelease? ==> Call(n, e).0 == n && Call(n, e).1 in {INVALID_HANDLE, INVALID_ARGUMENT})
    decreases |es|
  {
    if es != [] { ResultIsFinal(Call(j, es[0]).0, es[1..], e); }
  }

  /** While Finder has the move only finish and release get through, and finish always records it. */
  lemma OutstandingIsExclusive(j: Job, e: Event)
    requires Inv(j) && Outstanding(j) && !j.closed && !e.DoRelease?
    ensures !e.DoAdminFinish? ==> Call(j, e) == (j, INVALID_HANDLE)
    ensures e.DoAdminFinish? && e.statusKnown ==>
      Call(j, e).1 == OK && Call(j, e).0.result == Some(Report(j.routes[0], e.body))
  {
  }

  // ----- exactly which calls act, and what the others answer -----

  predicate IsIdle(j: Job) {
    !j.closed && j.result.None? && !j.relatedAdmin && (j.admin == Unavailable || j.admin == Eligible)
  }

  /** Everything the caller must have got right for the move to be handed off, and the way it then takes. */
  predicate GoodMove(j: Job, e: Event, route: Route) {
    match e
    case DoExecuteV1(tokenOk, storeOk, approved, _, _) =>
      route == NativeMove && IsIdle(j) && tokenOk && storeOk && j.session && approved
    case DoAdminBeginV1(tokenOk, store, admitted, _) =>
      route == FinderMove && IsIdle(j) && tokenOk && j.admin == Eligible && store == OK && admitted
    case DoExecuteV2(admin, begun, adminBegun, _, _) =>
      && route == (if admin then RelatedFinderMove else RelatedMove)
      && IsIdle(j) && j.related == Some(admin) && begun && (admin ==> adminBegun)
    case _ => false
  }

  /** A call hands a move off, by one way, if and only if its request is good in every respect; then it answers OK. */
  lemma MovesExactlyWhen(j: Job, e: Event, route: Route)
    requires Inv(j)
    ensures Call(j, e).0.routes == j.routes + [route] <==> GoodMove(j, e, route)
    ensures Call(j, e).0.routes != j.routes <==> exists r :: GoodMove(j, e, r)
    ensures GoodMove(j, e, route) ==> Call(j, e).1 == OK
  {
    assert Call(j, e).0.routes != j.routes ==> |Call(j, e).0.routes| > 0;
    if Call(j, e).0.routes != j.routes { assert GoodMove(j, e, Call(j, e).0.routes[|j.routes|]); }
  }

  /** The request at `k` of the run is good when it is made. */
  predicate MovesAt(j: Job, es: seq<Event>, k: nat, route: Route) {
    k < |es| && GoodMove(Run(j, es[..k]), es[k], route)
  }

  /** Over a run: something was moved if and only if some request along it was good when it was made. */
  lemma {:induction false} RunMovesExactlyWhen(j: Job, es: seq<Event>)
    requires Inv(j)
    ensures Run(j, es).routes != j.routes <==> exists k: nat, r :: MovesAt(j, es, k, r)
    decreases |es|
  {
    if es != [] {
      var n, rest := Call(j, es[0]).0, es[1..];
      CallKeeps(j, es[0]);
      OneRoute(n, rest);
      RunMovesExactlyWhen(n, rest);
      MovesFirst(j, es);
      forall k: nat, r ensures MovesAt(n, rest, k, r) <==> MovesAt(j, es, k + 1, r) { MovesLater(j, es, k, r); }
      if k: nat, r :| MovesAt(j, es, k, r) {
        if k > 0 { assert MovesAt(n, rest, k - 1, r); }
      }
      if k: nat, r :| MovesAt(n, rest, k, r) { assert MovesAt(j, es, k + 1, r); }
    }
  }

  lemma MovesFirst(j: Job, es: seq<Event>)
    requires Inv(j) && es != []
    ensures Call(j, es[0]).0.routes != j.routes <==> exists r :: MovesAt(j, es, 0, r)
    ensures |Call(j, es[0]).0.routes| >= |j.routes| && j.routes <= Call(j, es[0]).0.routes
  {
    assert es[..0] == [] && Run(j, es[..0]) == j;
    MovesExactlyWhen(j, es[0], NativeMove);
    if r :| GoodMove(j, es[0], r) { assert MovesAt(j, es, 0, r); }
  }

  lemma MovesLater(j: Job, es: seq<Event>, k: nat, r: Route)
    requires es != []
    ensures MovesAt(Call(j, es[0]).0, es[1..], k, r) <==> MovesAt(j, es, k + 1, r)
  {
    if k + 1 < |es| { RunSplits(j, es, k + 1); }
  }

  lemma RunSplits(j: Job, es: seq<Event>, k: nat)
    requires 0 < k <= |es|
    ensures Run(j, es[..k]) == Run(Call(j, es[0]).0, es[1..][..k - 1])
  {
    assert es[..k][1..] == es[1..][..k - 1];
  }

  /** What the native path answers, case by case; a refused call changes nothing. */
  lemma ExecuteAnswers(j: Job, tokenOk: bool, storeOk: bool, approved: bool, body: nat, fits: bool)
    ensures var (n, code) := ExecuteV1(j, tokenOk, storeOk, approved, body, fits);
      && (code == INVALID_HANDLE <==> !IsIdle(j))
      && (code == INVALID_ARGUMENT <==> IsIdle(j) && !tokenOk)
      && (code == INTERNAL_ERROR <==> IsIdle(j) && tokenOk && !storeOk)
      && (code == INVALID_CANDIDATE <==> IsIdle(j) && tokenOk && storeOk && !j.session)
      && (code == LIMIT_EXCEEDED <==> IsIdle(j) && tokenOk && storeOk && j.session && !approved && !fits)
      && (code in {INVALID_HANDLE, INVALID_ARGUMENT, INTERNAL_ERROR, INVALID_CANDIDATE} ==> n == j)
      && (code in {OK, LIMIT_EXCEEDED} ==> !n.session && n.related.None? && n.admin == j.admin && !n.closed)
      && (code == LIMIT_EXCEEDED ==> n.result.None? && n.routes == j.routes)
      && (code == OK ==> n.result == Some(if approved then Report(NativeMove, body) else Refused))
      && code in {OK, INVALID_HANDLE, INVALID_ARGUMENT, INTERNAL_ERROR, INVALID_CANDIDATE, LIMIT_EXCEEDED}
  {
  }

  /** What the start of the administrator path answers; only an admitted or refused intent changes the job. */
  lemma BeginAnswers(j: Job, tokenOk: bool, store: int, admitted: bool, fits: bool)
    requires store !in {INVALID_HANDLE, INVALID_ARGUMENT, INVALID_CANDIDATE, LIMIT_EXCEEDED}
    ensures var (n, code) := AdminBeginV1(j, tokenOk, store, admitted, fits);
      var asked := IsIdle(j) && tokenOk && j.admin == Eligible && store == OK;
      && (code == INVALID_HANDLE <==> !IsIdle(j))
      && (code == INVALID_ARGUMENT <==> IsIdle(j) && !tokenOk)
      && (IsIdle(j) && tokenOk && j.admin == Eligible && store != OK ==> code == store)
      && (code == INVALID_CANDIDATE <==>
            (IsIdle(j) && tokenOk && j.admin == Unavailable) || (asked && !admitted && fits))
      && (code == LIMIT_EXCEEDED <==> asked && !admitted && !fits)
      && (code == OK <==> asked && admitted)
      && (!asked ==> n == j)
      && (code == OK ==> n.admin == AwaitingDelegate && n.related.None? && n.result.None? && n.session == j.session)
      && (asked && !admitted ==> n == j.(admin := Consumed, result := if fits then Some(Refused) else None))
  {
  }

  /** What a finish answers: an unknown status changes nothing, a related move is reported before a native one. */
  lemma FinishAnswers(j: Job, statusKnown: bool, body: nat)
    requires Inv(j)
    ensures var (n, code) := AdminFinish(j, statusKnown, body);
      && (code == INVALID_ARGUMENT <==> !statusKnown) && (!statusKnown ==> n == j)
      && (code == OK <==> statusKnown && !j.closed && Outstanding(j))
      && (code == OK ==> n.result == Some(Report(if j.relatedAdmin then RelatedFinderMove else FinderMove, body)))
      && (code == OK ==> n.admin == Consumed && !n.relatedAdmin && n.routes == j.routes)
      && (code == INVALID_HANDLE <==> statusKnown && (j.closed || !Outstanding(j)))
      && (statusKnown && (j.closed || j.result.Some?) ==> n == j)
      && (statusKnown && !j.closed && j.result.None? && !Outstanding(j) ==> n == j.(admin := Consumed))
  {
  }

  /** A new capability replaces the old one, which is gone even when the new one cannot be shown. */
  lemma RelatedPreviewAnswers(j: Job, prepared: Option<bool>, fits: bool)
    ensures var (n, code) := RelatedPreviewV2(j, prepared, fits);
      && (code == INVALID_HANDLE <==> !IsIdle(j)) && (!IsIdle(j) ==> n == j)
      && (code == LIMIT_EXCEEDED <==> IsIdle(j) && !fits) && (code == OK <==> IsIdle(j) && fits)
      && (IsIdle(j) ==> n == j.(related := if fits then prepared else None))
  {
  }

  /** A related request that does not match the capability leaves it; any other attempt spends everything. */
  lemma RelatedExecuteAnswers(j: Job, admin: bool, begun: bool, adminBegun: bool, body: nat, fits: bool)
    ensures var (n, code) := ExecuteV2(j, admin, begun, adminBegun, body, fits);
      var matched := IsIdle(j) && j.related == Some(admin);
      var stopped := !begun || (admin && !adminBegun);
      && (code == INVALID_HANDLE <==> !IsIdle(j) || j.related.None?)
      && (IsIdle(j) && j.related == Some(!admin) ==> code == INVALID_CANDIDATE)
      && (!matched ==> n == j)
      && (matched ==> n.related.None? && !n.session && n.admin == Consumed && n.closed == j.closed)
      && (matched && !stopped ==> code == OK)
      && (matched && stopped ==> code == if fits then INVALID_CANDIDATE else LIMIT_EXCEEDED)
      && (matched && stopped && !fits ==> n.result == j.result && !n.relatedAdmin)
      && (matched && stopped && fits ==> n.result == Some(if begun then Withdrawn(body) else Refused))
      && (matched && !stopped && admin ==> n.relatedAdmin && n.result == j.result)
      && (matched && !stopped && !admin ==> !n.relatedAdmin && n.result == Some(Report(RelatedMove, body)))
  {
  }

  /** Which preview offers what: the native session, the administrator path, or neither. */
  lemma StartOffers(plan: Option<bool>, evidence: bool)
    ensures var j := Start(plan, evidence);
      && (j.session <==> plan == Some(true))
      && (j.admin == Eligible <==> plan == Some(false) && evidence) && (j.admin == Eligible || j.admin == Unavailable)
      && j.related.None? && !j.relatedAdmin && j.result.None? && !j.closed && j.routes == []
  {
  }

  // ----- the early finish -----

  /** No result, nothing outstanding, and no call but release is admitted any more. */
  predicate Stranded(j: Job) {
    !j.closed && j.result.None? && !j.relatedAdmin && j.admin == Consumed
  }

  /** The document of an attempt that ended before a move could not be written. */
  predicate RefusalLost(j: Job, e: Event) {
    match e
    case DoAdminBeginV1(t, s, admitted, fits) =>
      t && s == OK && j.admin == Eligible && !admitted && !fits
    case DoExecuteV2(admin, begun, adminBegun, _, fits) =>
      j.related == Some(admin) && (!begun || (admin && !adminBegun)) && !fits
    case _ => false
  }

  /** Exactly which calls strand an open handle: a finish before any begin, or a refusal too large to record. */
  lemma StrandsExactlyWhen(j: Job, e: Event)
    requires Inv(j) && !Stranded(j)
    ensures Stranded(Call(j, e).0) <==>
      EnsureIdle(j) == OK && ((e.DoAdminFinish? && e.statusKnown) || RefusalLost(j, e))
  {
  }

  /** A stranded handle refuses everything but release in every later run, and has moved nothing. */
  lemma {:induction false} StrandedForever(j: Job, es: seq<Event>, e: Event)
    requires Inv(j) && Stranded(j)
    ensures var n := Run(j, es);
      && n.(closed := false) == j && n.routes == [] && n.result.None?
      && (!e.DoRelease? ==> Call(n, e).0 == n && Call(n, e).1 in {INVALID_HANDLE, INVALID_ARGUMENT})
    decreases |es|
  {
    if es != [] {
      if Call(j, es[0]).0.closed {
        ClosedIsFinal(Call(j, es[0]).0, es[1..], e);
      } else {
        StrandedForever(Call(j, es[0]).0, es[1..], e);
      }
    }
  }

  lemma {:induction false} ClosedIsFinal(j: Job, es: seq<Event>, e: Event)
    requires j.closed
    ensures Run(j, es) == j && Call(j, e).0 == j && Call(j, e).1 in {INVALID_HANDLE, INVALID_ARGUMENT}
    decreases |es|
  {
    if es != [] { ClosedIsFinal(Call(j, es[0]).0, es[1..], e); }
  }

  /** One early finish on a perfectly good native preview: the bundle can no longer be uninstalled through it. */
  lemma EarlyFinishStrandsTheNativePath(body: nat, es: seq<Event>)
    ensures var good := Start(Some(true), false);
      && ExecuteV1(good, true, true, true, body, true).1 == OK
      && AdminFinish(good, true, body).1 == INVALID_HANDLE
      && Stranded(AdminFinish(good, true, body).0)
      && ExecuteV1(Run(AdminFinish(good, true, body).0, es), true, true, true, body, true).1 == INVALID_HANDLE
  {
    var stranded := AdminFinish(Start(Some(true), false), true, body).0;
    StrandedForever(stranded, es, DoExecuteV1(true, true, true, body, true));
  }

  /** An open handle that is not stranded can still reach a terminal result: good requests are not refused for good. */
  lemma ProgressUnlessStranded(j: Job, body: nat)
    requires Inv(j) && !j.closed && !Stranded(j) && j.result.None?
    ensures Outstanding(j) ==> Call(j, DoAdminFinish(true, body)).0.result == Some(Report(j.routes[0], body))
    ensures !Outstanding(j) && j.session ==>
      Call(j, DoExecuteV1(true, true, true, body, true)).0.result == Some(Report(NativeMove, body))
    ensures !Outstanding(j) && j.admin == Eligible ==>
      Run(j, [DoAdminBeginV1(true, OK, true, true), DoAdminFinish(true, body)]).result == Some(Report(FinderMove, body))
    ensures !Outstanding(j) ==>
      Run(j, [DoRelatedPreviewV2(Some(false), true), DoExecuteV2(false, true, true, body, true)]).result
        == Some(Report(RelatedMove, body))
  {
    RunTwo(j, DoAdminBeginV1(true, OK, true, true), DoAdminFinish(true, body));
    RunTwo(j, DoRelatedPreviewV2(Some(false), true), DoExecuteV2(false, true, true, body, true));
  }

  lemma RunTwo(j: Job, a: Event, b: Event)
    ensures Run(j, [a, b]) == Call(Call(j, a).0, b).0
  {
    var n := Call(j, a).0;
    assert [a, b][1..] == [b];
    assert Run(j, [a, b]) == Run(n, [b]);
    assert Run(n, [b]) == Run(Call(n, b).0, [b][1..]);
  }

  // ----- the job as the calls update it -----

  class UninstallJob {
    var session: bool
    var admin: Admin
    var related: Option<bool>
    var relatedAdmin: bool
    var result: Option<Content>
    var closed: bool
    ghost var routes: seq<Route>

    ghost function View(): Job
      reads this
    {
      Job(session, admin, related, relatedAdmin, result, closed, routes)
    }

    constructor (plan: Option<bool>, evidence: bool)
      ensures View() == Start(plan, evidence) && Inv(View())
    {
      session := plan == Some(true);
      admin := if plan == Some(false) && evidence then Eligible else Unavailable;
      related, relatedAdmin, result, closed, routes := None, false, None, false, [];
    }

    method Idle() returns (code: int)
      ensures code == EnsureIdle(View())
    {
      if closed || result.Some? { return INVALID_HANDLE; }
      if relatedAdmin || admin == AwaitingDelegate || admin == Consumed { return INVALID_HANDLE; }
      return OK;
    }

    method ExecuteBundle(tokenOk: bool, storeOk: bool, approved: bool, body: nat, fits: bool) returns (code: int)
      modifies this
      ensures (View(), code) == ExecuteV1(old(View()), tokenOk, storeOk, approved, body, fits)
    {
      if closed { return INVALID_HANDLE; }
      if result.Some? { return INVALID_HANDLE; }
      code := Idle();
      if code != OK { return; }
      if !tokenOk { return INVALID_ARGUMENT; }
      if !storeOk { return INTERNAL_ERROR; }
      if !session { return INVALID_CANDIDATE; }
      session := false;
      related := None;
      if !approved {
        if !fits { return LIMIT_EXCEEDED; }
        result := Some(Refused);
        return OK;
      }
      routes := routes + [NativeMove];
      result := Some(Report(NativeMove, body));
    }

    method BeginAdmin(tokenOk: bool, store: int, admitted: bool, fits: bool) returns (code: int)
      modifies this
      ensures (View(), code) == AdminBeginV1(old(View()), tokenOk, store, admitted, fits)
    {
      if closed || result.Some? { return INVALID_HANDLE; }
      code := Idle();
      if code != OK { return; }
      if !tokenOk { return INVALID_ARGUMENT; }
      match admin {
        case Eligible =>
        case Unavailable => return INVALID_CANDIDATE;
        case AwaitingDelegate | Consumed => return INVALID_HANDLE;
      }
      if store != OK { return store; }
      if admitted {
        related := None;
        admin := AwaitingDelegate;
        routes := routes + [FinderMove];
        return OK;
      }
      admin := Consumed;
      if !fits { return LIMIT_EXCEEDED; }
      result := Some(Refused);
      return INVALID_CANDIDATE;
    }

    method FinishAdmin(statusKnown: bool, body: nat) returns (code: int)
      modifies this
      ensures (View(), code) == AdminFinish(old(View()), statusKnown, body)
    {
      if !statusKnown { return INVALID_ARGUMENT; }
      if closed || result.Some? { return INVALID_HANDLE; }
      if relatedAdmin {
        relatedAdmin := false;
        result := Some(Report(RelatedFinderMove, body));
        return OK;
      }
      var was := admin;
      admin := Consumed;
      if was != AwaitingDelegate { return INVALID_HANDLE; }
      result := Some(Report(FinderMove, body));
      return OK;
    }

    method PreviewRelated(prepared: Option<bool>, fits: bool) returns (code: int)
      modifies this`related
      ensures (View(), code) == RelatedPreviewV2(old(View()), prepared, fits)
    {
      code := Idle();
      if code != OK { return; }
      related := None;
      if !fits { return LIMIT_EXCEEDED; }
      if prepared.Some? { related := prepared; }
    }

    method ExecuteRelated(needsAdmin: bool, begun: bool, adminBegun: bool, body: nat, fits: bool) returns (code: int)
      modifies this
      ensures (View(), code) == ExecuteV2(old(View()), needsAdmin, begun, adminBegun, body, fits)
    {
      code := Idle();
      if code != OK { return; }
      if related.None? { return INVALID_HANDLE; }
      if related.value != needsAdmin { return INVALID_CANDIDATE; }
      related := None;
      session := false;
      admin := Consumed;
      if !begun {
        if !fits { return LIMIT_EXCEEDED; }
        result := Some(Refused);
        return INVALID_CANDIDATE;
      }
      if needsAdmin {
        if !adminBegun {
          if !fits { return LIMIT_EXCEEDED; }
          result := Some(Withdrawn(body));
          return INVALID_CANDIDATE;
        }
        relatedAdmin := true;
        routes := routes + [RelatedFinderMove];
      } else {
        result := Some(Report(RelatedMove, body));
        routes := routes + [RelatedMove];
      }
    }

    method ReleaseJob() returns (code: int)
      modifies this`closed
      ensures (View(), code) == Release(old(View()))
    {
      if closed { return INVALID_HANDLE; }
      closed := true;
      return OK;
    }
  }
}
