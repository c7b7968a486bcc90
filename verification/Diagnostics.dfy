/** Recorded diagnostics of a terminal scan: the issues of a report, or the one fatal error. */
module Diagnostics {
  import opened Status
  import Paging

  datatype Outcome<+I> = Report(issues: seq<I>, omitted: nat) | Fatal(error: I)

  datatype IssuePage<+I> = IssuePage(page: Paging.Page<I>, observed: nat, omitted: nat)

  function IssuesPage<I>(outcome: Option<Outcome<I>>, offset: nat, limit: nat): Result<IssuePage<I>>
    requires outcome.Some? && outcome.value.Report? ==> |outcome.value.issues| <= USIZE_MAX
  {
    if outcome.None? then Err(NOT_READY)
    else
      var (total, omitted) := match outcome.value
        case Report(issues, omitted) => (|issues|, omitted)
        case Fatal(_) => (1, 0);
      if offset > total then Err(INVALID_ARGUMENT)
      else
        var end := Paging.Min(SaturatingAdd(offset, limit), total);
        var issues := match outcome.value
          case Report(issues, _) => issues[offset..end]
          case Fatal(error) => if offset < end then [error] else [];
        Ok(IssuePage(Paging.Page(offset, total, if end < total then Some(end) else None, issues), total, omitted))
  }

  function Recorded<I>(outcome: Outcome<I>): seq<I> {
    match outcome case Report(issues, _) => issues case Fatal(error) => [error]
  }

  /** Both arms page one list, so a fatal error is a list of one and every walk covers what was recorded. */
  lemma IssuesArePaged<I>(outcome: Outcome<I>, offset: nat, limit: nat)
    requires |Recorded(outcome)| <= USIZE_MAX
    ensures var r := IssuesPage(Some(outcome), offset, limit);
      var p := Paging.PageOf(Recorded(outcome), offset, limit);
      && (r.Ok? <==> p.Ok?) && (r.Err? ==> r == Err(p.code))
      && (r.Ok? ==> r.value.page == p.value && r.value.observed == |Recorded(outcome)|)
      && (r.Ok? && outcome.Report? ==> r.value.omitted == outcome.omitted)
      && (r.Ok? && outcome.Fatal? ==> r.value.omitted == 0)
    ensures outcome.Report? ==> Recorded(outcome) == outcome.issues
    ensures outcome.Fatal? ==> Recorded(outcome) == [outcome.error]
    ensures IssuesPage<I>(None, offset, limit) == Err(NOT_READY)
  {
    if outcome.Fatal? && offset == 1 { assert Recorded(outcome)[1..1] == []; }
  }
}
