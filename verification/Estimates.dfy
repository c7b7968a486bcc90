/** The estimators of a measured scenario: paired differences, their interval, and regressions against a baseline. */
module Estimates {
  import opened Status
  import opened Statistics

  const TOLERANCE: real := 0.000000001
  const LARGEST_REGRESSION: real := 100000.0

  /** A sample that passed. */
  datatype Run = Run(pairId: int, sayaka: bool, completeMs: real, peakRss: real)

  datatype Reported = Reported(median: real, ciLow: real, ciHigh: real, p95Regression: real, rssRegression: real)

  // ----- paired differences -----

  function Times(runs: seq<Run>): map<(int, bool), real> {
    if runs == [] then map[]
    else
      var last := runs[|runs| - 1];
      Times(runs[..|runs| - 1])[(last.pairId, last.sayaka) := last.completeMs]
  }

  /** The pairs, in the order of their first sample. */
  function PairOrder(runs: seq<Run>): seq<int> {
    if runs == [] then []
    else
      var front, id := PairOrder(runs[..|runs| - 1]), runs[|runs| - 1].pairId;
      if id in front then front else front + [id]
  }

  function DifferencesOf(order: seq<int>, times: map<(int, bool), real>): seq<real> {
    if order == [] then []
    else
      var id := order[|order| - 1];
      DifferencesOf(order[..|order| - 1], times)
      + if (id, true) in times && (id, false) in times then [times[(id, true)] - times[(id, false)]] else []
  }

  function Differences(runs: seq<Run>): seq<real> { DifferencesOf(PairOrder(runs), Times(runs)) }

  method PairDifferences(runs: seq<Run>) returns (differences: seq<real>)
    ensures differences == Differences(runs)
  {
    var order: seq<int>, times: map<(int, bool), real> := [], map[];
    for i := 0 to |runs|
      invariant order == PairOrder(runs[..i]) && times == Times(runs[..i])
    {
      assert runs[..i + 1][..i] == runs[..i];
      if runs[i].pairId !in order { order := order + [runs[i].pairId]; }
      times := times[(runs[i].pairId, runs[i].sayaka) := runs[i].completeMs];
    }
    assert runs[..|runs|] == runs;
    differences := [];
    for i := 0 to |order|
      invariant differences == DifferencesOf(order[..i], times)
    {
      assert order[..i + 1][..i] == order[..i];
      var id := order[i];
      if (id, true) in times && (id, false) in times {
        differences := differences + [times[(id, true)] - times[(id, false)]];
      }
    }
    assert order[..|order|] == order;
  }

  ghost predicate DistinctRuns(runs: seq<Run>) {
    forall i, j :: 0 <= i < j < |runs| ==> (runs[i].pairId, runs[i].sayaka) != (runs[j].pairId, runs[j].sayaka)
  }

  lemma {:induction false} TimesAre(runs: seq<Run>, id: int, sayaka: bool)
    requires DistinctRuns(runs)
    ensures (id, sayaka) in Times(runs) <==> exists r :: r in runs && r.pairId == id && r.sayaka == sayaka
    ensures forall r :: r in runs && r.pairId == id && r.sayaka == sayaka ==> Times(runs)[(id, sayaka)] == r.completeMs
  {
    if runs != [] {
      var front, last := runs[..|runs| - 1], runs[|runs| - 1];
      assert runs == front + [last];
      TimesAre(front, id, sayaka);
    }
  }

  lemma {:induction false} OrderIs(runs: seq<Run>, id: int)
    ensures id in PairOrder(runs) <==> exists r :: r in runs && r.pairId == id
  {
    if runs != [] {
      assert runs == runs[..|runs| - 1] + [runs[|runs| - 1]];
      OrderIs(runs[..|runs| - 1], id);
    }
  }

  lemma {:induction false} DifferencesOfAre(order: seq<int>, times: map<(int, bool), real>, d: real)
    ensures d in DifferencesOf(order, times) <==>
      exists id :: id in order && (id, true) in times && (id, false) in times
                   && d == times[(id, true)] - times[(id, false)]
  {
    if order != [] {
      assert order == order[..|order| - 1] + [order[|order| - 1]];
      DifferencesOfAre(order[..|order| - 1], times, d);
    }
  }

  ghost predicate PairedBy(runs: seq<Run>, a: Run, b: Run, d: real) {
    a in runs && b in runs && a.sayaka && !b.sayaka && a.pairId == b.pairId && d == a.completeMs - b.completeMs
  }

  /** The differences are exactly those of pairs in which both tools passed. */
  lemma DifferencesArePaired(runs: seq<Run>, d: real)
    requires DistinctRuns(runs)
    ensures d in Differences(runs) <==> exists a, b :: PairedBy(runs, a, b, d)
  {
    DifferencesOfAre(PairOrder(runs), Times(runs), d);
    if d in Differences(runs) {
      var id :| id in PairOrder(runs) && (id, true) in Times(runs) && (id, false) in Times(runs)
                && d == Times(runs)[(id, true)] - Times(runs)[(id, false)];
      TimesAre(runs, id, true);
      TimesAre(runs, id, false);
      var a :| a in runs && a.pairId == id && a.sayaka;
      var b :| b in runs && b.pairId == id && !b.sayaka;
      assert PairedBy(runs, a, b, d);
    }
    if a, b :| PairedBy(runs, a, b, d) {
      OrderIs(runs, a.pairId);
      TimesAre(runs, a.pairId, true);
      TimesAre(runs, a.pairId, false);
    }
  }

  // ----- acceptance -----

  /** The index lists the generator gives for a list of this length. */
  type Draws = nat -> seq<seq<nat>>

  ghost predicate GoodDraws(draws: Draws) { forall n, k :: 0 <= k < |draws(n)| ==> IsDraw(draws(n)[k], n) }

  function Column(runs: seq<Run>, sayaka: bool, rss: bool): seq<real> {
    if runs == [] then []
    else
      var last := runs[|runs| - 1];
      Column(runs[..|runs| - 1], sayaka, rss)
      + if last.sayaka == sayaka then [if rss then last.peakRss else last.completeMs] else []
  }

  function Abs(x: real): real { if x < 0.0 then -x else x }

  predicate Close(a: real, b: real) { Abs(a - b) <= TOLERANCE }

  function Regression(value: real, baseline: real): real
    requires baseline > 0.0
  {
    (value - baseline) / baseline * 100.0
  }

  /** The percentage by which the baseline has to grow to reach the value. */
  lemma RegressionMeans(value: real, baseline: real)
    requires baseline > 0.0
    ensures baseline + baseline * (Regression(value, baseline) / 100.0) == value
  {
    var share := (value - baseline) / baseline;
    assert share * baseline == value - baseline;
  }

  predicate Ordered(r: Reported) {
    r.ciLow <= r.ciHigh && Abs(r.p95Regression) <= LARGEST_REGRESSION && Abs(r.rssRegression) <= LARGEST_REGRESSION
  }

  ghost predicate IntervalAccepted(differences: seq<real>, r: Reported, confidence: real, draws: Draws)
    requires GoodDraws(draws)
  {
    && differences != [] && 0.0 < confidence < 1.0 && draws(|differences|) != []
    && Close(r.median, Median(differences))
    && EndsClose(r, Interval(MediansOf(differences, draws(|differences|)), confidence))
  }

  predicate EndsClose(r: Reported, ci: (real, real)) { Close(r.ciLow, ci.0) && Close(r.ciHigh, ci.1) }

  /** Both tools have samples, the baseline is positive, and the reported regression of the percentiles is right. */
  predicate RegressionAccepted(runs: seq<Run>, rss: bool, reported: real) {
    var values := NearestRankPercentile(Column(runs, true, rss), 95.0);
    var baseline := NearestRankPercentile(Column(runs, false, rss), 95.0);
    values.Some? && baseline.Some? && baseline.value > 0.0 && Close(reported, Regression(values.value, baseline.value))
  }

  ghost predicate EstimatesAccepted(runs: seq<Run>, r: Reported, confidence: real, draws: Draws)
    requires GoodDraws(draws)
  {
    && Ordered(r) && IntervalAccepted(Differences(runs), r, confidence, draws)
    && RegressionAccepted(runs, false, r.p95Regression) && RegressionAccepted(runs, true, r.rssRegression)
  }

  method ValidateInterval(differences: seq<real>, r: Reported, confidence: real, draws: Draws) returns (ok: bool)
    requires GoodDraws(draws)
    ensures ok <==> IntervalAccepted(differences, r, confidence, draws)
  {
    if differences == [] { return false; }
    var ci, medians := PairedBootstrapCi(differences, confidence, draws(|differences|));
    if ci.None? { return false; }
    return Close(r.median, Median(differences)) && Close(r.ciLow, ci.value.0) && Close(r.ciHigh, ci.value.1);
  }

  method ValidateEstimates(runs: seq<Run>, r: Reported, confidence: real, draws: Draws) returns (ok: bool)
    requires GoodDraws(draws)
    ensures ok <==> EstimatesAccepted(runs, r, confidence, draws)
  {
    if !Ordered(r) { return false; }
    var differences := PairDifferences(runs);
    ok := ValidateInterval(differences, r, confidence, draws);
    if !ok { return false; }
    return RegressionAccepted(runs, false, r.p95Regression) && RegressionAccepted(runs, true, r.rssRegression);
  }

  // ----- acceptance by its meaning -----

  predicate WithinTolerance(reported: real, exact: real) { exact - TOLERANCE <= reported <= exact + TOLERANCE }

  /** The reported number is, within the tolerance, the value that covers this share of the list. */
  ghost predicate ReportsShare(values: seq<real>, share: real, reported: real) {
    exists v :: CoversShare(values, v, share) && WithinTolerance(reported, v)
  }

  lemma ReportsItsShare(values: seq<real>, v: real, share: real, reported: real)
    requires CoversShare(values, v, share)
    ensures ReportsShare(values, share, reported) <==> Close(reported, v)
  {
    if w :| CoversShare(values, w, share) && WithinTolerance(reported, w) { ShareHasOneValue(values, v, w, share); }
    if Close(reported, v) { assert WithinTolerance(reported, v); }
  }

  lemma EndsMean(medians: seq<real>, r: Reported, ci: (real, real), low: real, high: real)
    requires CoversShare(medians, ci.0, low) && CoversShare(medians, ci.1, high)
    ensures EndsClose(r, ci) <==> ReportsShare(medians, low, r.ciLow) && ReportsShare(medians, high, r.ciHigh)
  {
    ReportsItsShare(medians, ci.0, low, r.ciLow);
    ReportsItsShare(medians, ci.1, high, r.ciHigh);
  }

  lemma IntervalEnds(medians: seq<real>, r: Reported, confidence: real)
    requires medians != [] && 0.0 < confidence < 1.0
    ensures EndsClose(r, Interval(medians, confidence)) <==>
      && ReportsShare(medians, (1.0 - confidence) / 2.0, r.ciLow)
      && ReportsShare(medians, (1.0 + confidence) / 2.0, r.ciHigh)
  {
    IntervalCovers(medians, confidence);
    EndsMean(medians, r, Interval(medians, confidence), (1.0 - confidence) / 2.0, (1.0 + confidence) / 2.0);
  }

  /** The interval's ends are, within the tolerance, the medians that the two shares of the confidence ask for. */
  lemma IntervalAcceptedMeans(
    differences: seq<real>, r: Reported, confidence: real, draws: Draws, medians: seq<real>)
    requires GoodDraws(draws) && differences != [] && 0.0 < confidence < 1.0 && draws(|differences|) != []
    requires medians == MediansOf(differences, draws(|differences|))
    ensures IntervalAccepted(differences, r, confidence, draws) <==>
      && WithinTolerance(r.median, Median(differences))
      && ReportsShare(medians, (1.0 - confidence) / 2.0, r.ciLow)
      && ReportsShare(medians, (1.0 + confidence) / 2.0, r.ciHigh)
  {
    IntervalEnds(medians, r, confidence);
    CloseMeans(r.median, Median(differences));
  }

  lemma CloseMeans(a: real, b: real)
    ensures Close(a, b) <==> WithinTolerance(a, b)
  {
  }

  /** Without a difference, a confidence inside (0, 1) or a resample nothing is accepted. */
  lemma NothingToAccept(differences: seq<real>, r: Reported, confidence: real, draws: Draws)
    requires GoodDraws(draws) && (differences == [] || !(0.0 < confidence < 1.0) || draws(|differences|) == [])
    ensures !IntervalAccepted(differences, r, confidence, draws)
  {
  }

  function Indices(runs: seq<Run>, p: Run -> bool): set<int> { set i | 0 <= i < |runs| && p(runs[i]) }

  function Took(sayaka: bool, v: real): Run -> bool { (r: Run) => r.sayaka == sayaka && r.completeMs <= v }

  function Used(sayaka: bool, v: real): Run -> bool { (r: Run) => r.sayaka == sayaka && r.peakRss <= v }

  /** How many samples of a tool measured at most `v`: the column has each of them once, in the right measure. */
  lemma {:induction false} ColumnCounts(runs: seq<Run>, sayaka: bool, v: real)
    ensures AtMostCount(Column(runs, sayaka, false), v) == |Indices(runs, Took(sayaka, v))|
    ensures AtMostCount(Column(runs, sayaka, true), v) == |Indices(runs, Used(sayaka, v))|
  {
    if runs != [] {
      ColumnCounts(runs[..|runs| - 1], sayaka, v);
      OneMoreIndex(runs, Took(sayaka, v));
      OneMoreIndex(runs, Used(sayaka, v));
      ColumnGrows(runs, sayaka, v);
    }
  }

  lemma OneMoreIndex(runs: seq<Run>, p: Run -> bool)
    requires runs != []
    ensures |Indices(runs, p)| == |Indices(runs[..|runs| - 1], p)| + if p(runs[|runs| - 1]) then 1 else 0
  {
    var n := |runs| - 1;
    var before := Indices(runs[..n], p);
    assert Indices(runs, p) == if p(runs[n]) then before + {n} else before;
  }

  lemma ColumnGrows(runs: seq<Run>, sayaka: bool, v: real)
    requires runs != []
    ensures var last, front := runs[|runs| - 1], runs[..|runs| - 1];
      && AtMostCount(Column(runs, sayaka, false), v)
           == AtMostCount(Column(front, sayaka, false), v)
              + (if last.sayaka == sayaka && last.completeMs <= v then 1 else 0)
      && AtMostCount(Column(runs, sayaka, true), v)
           == AtMostCount(Column(front, sayaka, true), v)
              + (if last.sayaka == sayaka && last.peakRss <= v then 1 else 0)
  {
    var last, front := runs[|runs| - 1], runs[..|runs| - 1];
    CountOne(Column(front, sayaka, false), last.completeMs, v);
    CountOne(Column(front, sayaka, true), last.peakRss, v);
    assert Column(front, sayaka, false) + [] == Column(front, sayaka, false);
    assert Column(front, sayaka, true) + [] == Column(front, sayaka, true);
  }

  lemma CountOne(values: seq<real>, x: real, v: real)
    ensures AtMostCount(values + [x], v) == AtMostCount(values, v) + if x <= v then 1 else 0
  {
    assert (values + [x])[..|values|] == values;
  }

  predicate IsRegression(reported: real, value: real, baseline: real) {
    baseline > 0.0 && WithinTolerance(reported, (value - baseline) / baseline * 100.0)
  }

  /** Accepted means: a regression, within the tolerance, of Sayaka's 95th percentile over Mole's positive one. */
  lemma RegressionAcceptedMeans(runs: seq<Run>, rss: bool, reported: real, value: real, baseline: real)
    requires CoversShare(Column(runs, true, rss), value, 0.95) && CoversShare(Column(runs, false, rss), baseline, 0.95)
    ensures RegressionAccepted(runs, rss, reported) <==> IsRegression(reported, value, baseline)
  {
    NinetyFifth(Column(runs, true, rss), value);
    NinetyFifth(Column(runs, false, rss), baseline);
  }

  lemma NinetyFifth(values: seq<real>, v: real)
    requires CoversShare(values, v, 0.95)
    ensures NearestRankPercentile(values, 95.0) == Some(v)
  {
    PercentileCovers(values, 0.95);
    ShareHasOneValue(values, v, Percentile(values, 95.0), 0.95);
  }

  /** Without samples of either tool nothing is accepted. */
  lemma NoColumnNoRegression(runs: seq<Run>, rss: bool, reported: real)
    requires Column(runs, true, rss) == [] || Column(runs, false, rss) == []
    ensures !RegressionAccepted(runs, rss, reported)
  {
  }

  /** The reported numbers are also looked at on their own. */
  lemma OrderedMeans(r: Reported)
    ensures Ordered(r) <==>
      && r.ciLow <= r.ciHigh
      && -100000.0 <= r.p95Regression <= 100000.0 && -100000.0 <= r.rssRegression <= 100000.0
    ensures TOLERANCE * 1000000000.0 == 1.0
  {
  }

  /**
   The whole decision by its meaning. The four numbers are the least times and memory sizes that 95 in 100
   samples of each tool do not exceed.
   */
  lemma AcceptedExactlyWhen(
    runs: seq<Run>, r: Reported, confidence: real, draws: Draws, medians: seq<real>,
    sayakaMs: real, moleMs: real, sayakaRss: real, moleRss: real)
    requires GoodDraws(draws) && Differences(runs) != [] && 0.0 < confidence < 1.0 && draws(|Differences(runs)|) != []
    requires medians == MediansOf(Differences(runs), draws(|Differences(runs)|))
    requires CoversShare(Column(runs, true, false), sayakaMs, 0.95)
    requires CoversShare(Column(runs, false, false), moleMs, 0.95)
    requires CoversShare(Column(runs, true, true), sayakaRss, 0.95)
    requires CoversShare(Column(runs, false, true), moleRss, 0.95)
    ensures EstimatesAccepted(runs, r, confidence, draws) <==>
      && r.ciLow <= r.ciHigh
      && -100000.0 <= r.p95Regression <= 100000.0 && -100000.0 <= r.rssRegression <= 100000.0
      && WithinTolerance(r.median, Median(Differences(runs)))
      && ReportsShare(medians, (1.0 - confidence) / 2.0, r.ciLow)
      && ReportsShare(medians, (1.0 + confidence) / 2.0, r.ciHigh)
      && IsRegression(r.p95Regression, sayakaMs, moleMs) && IsRegression(r.rssRegression, sayakaRss, moleRss)
  {
    OrderedMeans(r);
    IntervalAcceptedMeans(Differences(runs), r, confidence, draws, medians);
    RegressionAcceptedMeans(runs, false, r.p95Regression, sayakaMs, moleMs);
    RegressionAcceptedMeans(runs, true, r.rssRegression, sayakaRss, moleRss);
  }

  /** An accepted median and interval lie within tolerance of every range that holds the paired differences. */
  lemma AcceptedIntervalIsWithin(runs: seq<Run>, r: Reported, confidence: real, draws: Draws, low: real, high: real)
    requires GoodDraws(draws) && EstimatesAccepted(runs, r, confidence, draws) && Within(Differences(runs), low, high)
    ensures low - TOLERANCE <= r.ciLow <= r.ciHigh <= high + TOLERANCE
    ensures low - TOLERANCE <= r.median <= high + TOLERANCE
  {
    var differences := Differences(runs);
    var medians := MediansOf(differences, draws(|differences|));
    IntervalIsOrdered(medians, confidence);
    IntervalWithinDifferences(
      differences, draws(|differences|), medians, Interval(medians, confidence), low, high);
    MedianWithin(differences, low, high);
  }

  /** An accepted summary rests on some pair in which both tools passed. */
  lemma AcceptedHasAPair(runs: seq<Run>, r: Reported, confidence: real, draws: Draws)
    requires GoodDraws(draws) && EstimatesAccepted(runs, r, confidence, draws) && DistinctRuns(runs)
    ensures exists a, b, d :: PairedBy(runs, a, b, d)
  {
    var d := Differences(runs)[0];
    DifferencesArePaired(runs, d);
    var a, b :| PairedBy(runs, a, b, d);
  }
}
