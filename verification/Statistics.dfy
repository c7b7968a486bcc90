/** Nearest-rank percentiles, medians and the paired bootstrap interval, over exact reals and arbitrary draws. */
module Statistics {
  import opened Status
  import opened Order
  import Counting

  predicate RealLe(x: real, y: real) { x <= y }

  function SortedValues(values: seq<real>): (s: seq<real>)
    ensures |s| == |values| && multiset(s) == multiset(values)
    ensures forall i, j :: 0 <= i <= j < |s| ==> s[i] <= s[j]
  {
    StableSortSorts(values, RealLe);
    var s := StableSort(values, RealLe);
    assert forall i, j :: 0 <= i < j < |s| ==> RealLe(s[i], s[j]);
    s
  }

  function Ceil(x: real): int { -((-x).Floor) }

  function Clamp(i: int, n: nat): (r: nat)
    requires n > 0
    ensures r < n
  {
    var top := if i < n - 1 then i else n - 1;
    if top > 0 then top else 0
  }

  /** The rank a percentile asks for, before it is rounded up. */
  function Rank(n: nat, percentile: real): real { percentile / 100.0 * n as real }

  function RankIndex(n: nat, rank: real): (i: nat)
    requires n > 0
    ensures i < n
  {
    Clamp(Ceil(rank) - 1, n)
  }

  function Percentile(values: seq<real>, percentile: real): real
    requires values != [] && 0.0 <= percentile <= 100.0
  {
    if percentile == 0.0 then SortedValues(values)[0] else AtRank(values, Rank(|values|, percentile))
  }

  function AtRank(values: seq<real>, rank: real): real
    requires values != []
  {
    SortedValues(values)[RankIndex(|values|, rank)]
  }

  /** The checks the function makes before it computes. */
  function NearestRankPercentile(values: seq<real>, percentile: real): Option<real> {
    if values == [] || !(0.0 <= percentile <= 100.0) then None else Some(Percentile(values, percentile))
  }

  /** Refused exactly for an empty list or a percentile outside 0 to 100. */
  lemma PercentileRefuses(values: seq<real>, percentile: real)
    ensures NearestRankPercentile(values, percentile).None? <==> values == [] || percentile < 0.0 || percentile > 100.0
  {
  }

  // ----- what nearest rank means -----

  function AtMost(v: real): real -> nat { (x: real) => if x <= v then 1 else 0 }

  function AtMostCount(values: seq<real>, v: real): nat { Counting.Sum(values, AtMost(v)) }

  lemma {:induction false} CountAll(s: seq<real>, v: real)
    ensures (forall k :: 0 <= k < |s| ==> s[k] <= v) ==> AtMostCount(s, v) == |s|
    ensures (forall k :: 0 <= k < |s| ==> s[k] > v) ==> AtMostCount(s, v) == 0
    ensures AtMostCount(s, v) <= |s|
  {
    if s != [] { CountAll(s[..|s| - 1], v); }
  }

  ghost predicate Ascending(s: seq<real>) { forall j, k :: 0 <= j <= k < |s| ==> s[j] <= s[k] }

  /** In a sorted list at least `i + 1` values are at most the one at `i`. */
  lemma CountUpTo(s: seq<real>, i: nat)
    requires i < |s| && Ascending(s)
    ensures AtMostCount(s, s[i]) >= i + 1
  {
    var a, b := s[..i + 1], s[i + 1..];
    assert s == a + b;
    Counting.SumConcat(a, b, AtMost(s[i]));
    CountAll(a, s[i]);
  }

  lemma CountSplit(a: seq<real>, b: seq<real>, w: real)
    requires forall k :: 0 <= k < |b| ==> b[k] > w
    ensures AtMostCount(a + b, w) <= |a|
  {
    Counting.SumConcat(a, b, AtMost(w));
    CountAll(a, w);
    CountAll(b, w);
  }

  /** And at most `i` are at most anything smaller. */
  lemma CountBelow(s: seq<real>, i: nat, w: real)
    requires i < |s| && Ascending(s) && w < s[i]
    ensures AtMostCount(s, w) <= i
  {
    forall k | 0 <= k < |s[i..]| ensures s[i..][k] > w { assert s[i] <= s[i + k]; }
    CountSplit(s[..i], s[i..], w);
    assert s == s[..i] + s[i..];
  }

  lemma Scale(a: real, b: real, m: real)
    requires a <= b && m >= 0.0
    ensures a * m <= b * m
  {
    assert (b - a) * m >= 0.0;
  }

  /** Ranks are ordered as their percentiles, within the length of the list; only the zeroth is 0. */
  lemma RankBounds(n: nat, p: real, q: real)
    requires n > 0 && 0.0 <= p <= q <= 100.0
    ensures 0.0 <= Rank(n, p) <= Rank(n, q) <= n as real
    ensures p > 0.0 ==> Rank(n, p) > 0.0
    ensures p == 0.0 ==> Rank(n, p) == 0.0
  {
    var a, b, m := p / 100.0, q / 100.0, n as real;
    Scale(a, b, m);
    Scale(b, 1.0, m);
    Scale(0.0, a, m);
    if p > 0.0 { assert a > 0.0 && m > 0.0; }
  }

  lemma RankIndexIsCeiling(n: nat, x: real)
    requires n > 0 && 0.0 <= x <= n as real
    ensures x > 0.0 ==> (RankIndex(n, x) as real) < x
    ensures x <= RankIndex(n, x) as real + 1.0
    ensures x == 0.0 ==> RankIndex(n, x) == 0
  {
  }

  lemma NearestAtRank(values: seq<real>, x: real, smaller: real)
    requires values != [] && 0.0 <= x <= |values| as real
    ensures var v := AtRank(values, x);
      && v in values && AtMostCount(values, v) as real >= x
      && (smaller < v ==> (AtMostCount(values, smaller) as real) < x || (x == 0.0 && AtMostCount(values, smaller) == 0))
  {
    var s, i := SortedValues(values), RankIndex(|values|, x);
    RankIndexIsCeiling(|values|, x);
    assert s[i] in multiset(s);
    CountUpTo(s, i);
    if smaller < s[i] { CountBelow(s, i, smaller); }
    Counting.SumOfPermutation(s, values, AtMost(s[i]));
    Counting.SumOfPermutation(s, values, AtMost(smaller));
  }

  lemma PercentileIsAtRank(values: seq<real>, p: real)
    requires values != [] && 0.0 <= p <= 100.0
    ensures Percentile(values, p) == AtRank(values, Rank(|values|, p))
  {
    RankBounds(|values|, p, 100.0);
    RankIndexIsCeiling(|values|, Rank(|values|, p));
  }

  /**
   Nearest rank, by its definition: the value is one of the list, at least `p` percent of the list is at
   most it, and that is true of no smaller number.
   */
  lemma PercentileIsNearestRank(values: seq<real>, p: real, smaller: real)
    requires values != [] && 0.0 <= p <= 100.0
    ensures var v := Percentile(values, p);
      && v in values
      && AtMostCount(values, v) as real >= p / 100.0 * |values| as real
      && (p > 0.0 && smaller < v ==> (AtMostCount(values, smaller) as real) < p / 100.0 * |values| as real)
      && (p == 0.0 && smaller < v ==> AtMostCount(values, smaller) == 0)
  {
    RankBounds(|values|, p, 100.0);
    PercentileIsAtRank(values, p);
    NearestAtRank(values, Rank(|values|, p), smaller);
  }

  /** `v` is the least of the values that a share of them does not exceed: a nearest rank, by its definition. */
  ghost predicate CoversShare(values: seq<real>, v: real, share: real) {
    && v in values
    && AtMostCount(values, v) as real >= share * |values| as real
    && forall smaller :: smaller < v ==> (AtMostCount(values, smaller) as real) < share * |values| as real
  }

  /** There is one such value. */
  lemma ShareHasOneValue(values: seq<real>, v: real, w: real, share: real)
    requires CoversShare(values, v, share) && CoversShare(values, w, share)
    ensures v == w
  {
  }

  lemma PercentileCovers(values: seq<real>, share: real)
    requires values != [] && 0.0 < share <= 1.0
    ensures CoversShare(values, Percentile(values, share * 100.0), share)
  {
    var x := Rank(|values|, share * 100.0);
    RankOfShare(|values|, share);
    RankBounds(|values|, share * 100.0, 100.0);
    PercentileIsAtRank(values, share * 100.0);
    forall smaller | smaller < AtRank(values, x) ensures (AtMostCount(values, smaller) as real) < x {
      NearestAtRank(values, x, smaller);
    }
    NearestAtRank(values, x, 0.0);
  }

  lemma RankOfShare(n: nat, share: real)
    ensures Rank(n, share * 100.0) == share * n as real
  {
    assert share * 100.0 / 100.0 == share;
  }

  lemma AtRankMonotone(values: seq<real>, x: real, y: real)
    requires values != [] && x <= y
    ensures AtRank(values, x) <= AtRank(values, y)
  {
    assert RankIndex(|values|, x) <= RankIndex(|values|, y);
  }

  /** A higher percentile is never a smaller value. */
  lemma PercentileMonotone(values: seq<real>, p: real, q: real)
    requires values != [] && 0.0 <= p <= q <= 100.0
    ensures Percentile(values, p) <= Percentile(values, q)
  {
    RankBounds(|values|, p, q);
    PercentileIsAtRank(values, p);
    PercentileIsAtRank(values, q);
    AtRankMonotone(values, Rank(|values|, p), Rank(|values|, q));
  }

  // ----- medians -----

  function Median(values: seq<real>): real
    requires values != []
  {
    var s, n := SortedValues(values), |values|;
    if n % 2 == 1 then s[n / 2] else (s[n / 2 - 1] + s[n / 2]) / 2.0
  }

  /** The middle of the sorted list, or half the sum of the two in the middle. */
  lemma MedianIsMiddle(values: seq<real>)
    requires values != []
    ensures var s, n := SortedValues(values), |values|; 2.0 * Median(values) == s[(n - 1) / 2] + s[n / 2]
  {
  }

  ghost predicate Within(values: seq<real>, low: real, high: real) {
    forall k :: 0 <= k < |values| ==> low <= values[k] <= high
  }

  lemma SortedWithin(values: seq<real>, low: real, high: real)
    requires Within(values, low, high)
    ensures Within(SortedValues(values), low, high)
  {
    var s := SortedValues(values);
    forall k | 0 <= k < |s| ensures low <= s[k] <= high {
      assert s[k] in multiset(s);
      assert s[k] in values;
    }
  }

  lemma MedianWithin(values: seq<real>, low: real, high: real)
    requires values != [] && Within(values, low, high)
    ensures low <= Median(values) <= high
  {
    SortedWithin(values, low, high);
  }

  /** At least half of the values are at most the median, and at most half are at most anything smaller. */
  lemma MedianSplits(values: seq<real>, smaller: real)
    requires values != []
    ensures 2 * AtMostCount(values, Median(values)) >= |values|
    ensures smaller < Median(values) ==> 2 * AtMostCount(values, smaller) <= |values|
  {
    var s, n := SortedValues(values), |values|;
    var i := if n % 2 == 1 then n / 2 else n / 2 - 1;
    CountUpTo(s, i);
    Counting.SumOfPermutation(s, values, AtMost(Median(values)));
    CountMonotone(s, s[i], Median(values));
    if smaller < Median(values) {
      CountBelow(s, n / 2, smaller);
      Counting.SumOfPermutation(s, values, AtMost(smaller));
    }
  }

  lemma {:induction false} CountMonotone(s: seq<real>, v: real, w: real)
    requires v <= w
    ensures AtMostCount(s, v) <= AtMostCount(s, w)
  {
    if s != [] { CountMonotone(s[..|s| - 1], v, w); }
  }

  // ----- swapping the tools -----

  function Negated(values: seq<real>): (s: seq<real>)
    ensures |s| == |values| && forall k :: 0 <= k < |s| ==> s[k] == -values[k]
  {
    seq(|values|, k requires 0 <= k < |values| => -values[k])
  }

  function Mirrored(values: seq<real>): (s: seq<real>)
    ensures |s| == |values| && forall k :: 0 <= k < |s| ==> s[k] == -values[|values| - 1 - k]
  {
    seq(|values|, k requires 0 <= k < |values| => -values[|values| - 1 - k])
  }

  lemma CountOfAppend(front: seq<real>, last: real, x: real)
    ensures multiset(front + [last])[x] == multiset(front)[x] + if last == x then 1 else 0
    ensures multiset([last] + front)[x] == multiset(front)[x] + if last == x then 1 else 0
  {
  }

  lemma NegatedAppend(front: seq<real>, last: real)
    ensures Negated(front + [last]) == Negated(front) + [-last]
    ensures Mirrored(front + [last]) == [-last] + Mirrored(front)
  {
  }

  ghost predicate CountsNegated(s: seq<real>, t: seq<real>, x: real) { multiset(t)[x] == multiset(s)[-x] }

  lemma OneMoreNegated(front: seq<real>, last: real, x: real)
    requires CountsNegated(front, Negated(front), x) && CountsNegated(front, Mirrored(front), x)
    ensures CountsNegated(front + [last], Negated(front + [last]), x)
    ensures CountsNegated(front + [last], Mirrored(front + [last]), x)
  {
    NegatedAppend(front, last);
    CountOfAppend(front, last, -x);
    CountOfAppend(Negated(front), -last, x);
    CountOfAppend(Mirrored(front), -last, x);
  }

  lemma {:induction false} NegatedCount(values: seq<real>, x: real)
    ensures CountsNegated(values, Negated(values), x) && CountsNegated(values, Mirrored(values), x)
  {
    if values != [] {
      NegatedCount(values[..|values| - 1], x);
      OneMoreNegated(values[..|values| - 1], values[|values| - 1], x);
      assert values == values[..|values| - 1] + [values[|values| - 1]];
    }
  }

  lemma SortedMirrors(values: seq<real>)
    ensures SortedValues(Negated(values)) == Mirrored(SortedValues(values))
  {
    var s, t := SortedValues(values), SortedValues(Negated(values));
    forall x ensures multiset(t)[x] == multiset(Mirrored(s))[x] {
      NegatedCount(s, x);
      NegatedCount(values, x);
    }
    assert multiset(t) == multiset(Mirrored(s));
    AscendingIsSorted(t);
    AscendingIsSorted(Mirrored(s));
    SortedIsUnique(t, Mirrored(s), RealLe);
  }

  /** Exchanging the tools changes the sign of every paired difference, and of their median. */
  lemma MedianSwaps(values: seq<real>)
    requires values != []
    ensures Median(Negated(values)) == -Median(values)
  {
    SortedMirrors(values);
  }

  lemma AscendingIsSorted(s: seq<real>)
    requires Ascending(s)
    ensures Sorted(s, RealLe) && NoTies(s, RealLe) && Total(RealLe)
  {
    forall x, y ensures RealLe(x, y) || RealLe(y, x) {}
  }

  // ----- the paired bootstrap -----

  function Resample(differences: seq<real>, draws: seq<nat>): (s: seq<real>)
    requires forall k :: 0 <= k < |draws| ==> draws[k] < |differences|
    ensures |s| == |draws| && forall k :: 0 <= k < |s| ==> s[k] == differences[draws[k]]
  {
    seq(|draws|, k requires 0 <= k < |draws| => differences[draws[k]])
  }

  /** One resample: as many draws as there are differences, each an index. */
  predicate IsDraw(draws: seq<nat>, size: nat) { |draws| == size && forall k :: 0 <= k < size ==> draws[k] < size }

  ghost predicate MedianOf(m: real, differences: seq<real>, draws: seq<nat>) {
    differences != [] && IsDraw(draws, |differences|) && m == Median(Resample(differences, draws))
  }

  /** The median of each resample. */
  function MediansOf(differences: seq<real>, draws: seq<seq<nat>>): (m: seq<real>)
    requires differences != [] && forall k :: 0 <= k < |draws| ==> IsDraw(draws[k], |differences|)
    ensures |m| == |draws| && forall k :: 0 <= k < |draws| ==> MedianOf(m[k], differences, draws[k])
  {
    seq(|draws|, k requires 0 <= k < |draws| && IsDraw(draws[k], |differences|) =>
      Median(Resample(differences, draws[k])))
  }

  lemma MediansWithin(differences: seq<real>, draws: seq<seq<nat>>, medians: seq<real>, low: real, high: real)
    requires |medians| == |draws| && Within(differences, low, high)
    requires forall k :: 0 <= k < |draws| ==> MedianOf(medians[k], differences, draws[k])
    ensures Within(medians, low, high)
  {
    forall k | 0 <= k < |medians| ensures low <= medians[k] <= high {
      assert MedianOf(medians[k], differences, draws[k]);
      MedianWithin(Resample(differences, draws[k]), low, high);
    }
  }

  function Alpha(confidence: real): real { (1.0 - confidence) / 2.0 }

  /** The outer percentiles of the medians. */
  function Interval(medians: seq<real>, confidence: real): (real, real)
    requires medians != [] && 0.0 < confidence < 1.0
  {
    (Percentile(medians, Alpha(confidence) * 100.0), Percentile(medians, (1.0 - Alpha(confidence)) * 100.0))
  }

  lemma IntervalIsOrdered(medians: seq<real>, confidence: real)
    requires medians != [] && 0.0 < confidence < 1.0
    ensures var ci := Interval(medians, confidence); ci.0 in medians && ci.1 in medians && ci.0 <= ci.1
  {
    var lower, upper := Alpha(confidence) * 100.0, (1.0 - Alpha(confidence)) * 100.0;
    assert 0.0 <= lower <= upper <= 100.0;
    PercentileIsNearestRank(medians, lower, 0.0);
    PercentileIsNearestRank(medians, upper, 0.0);
    PercentileMonotone(medians, lower, upper);
  }

  /** Its ends are the least medians that cover half of what the confidence leaves, and all but half of it. */
  lemma IntervalCovers(medians: seq<real>, confidence: real)
    requires medians != [] && 0.0 < confidence < 1.0
    ensures CoversShare(medians, Interval(medians, confidence).0, (1.0 - confidence) / 2.0)
    ensures CoversShare(medians, Interval(medians, confidence).1, (1.0 + confidence) / 2.0)
  {
    assert 1.0 - Alpha(confidence) == (1.0 + confidence) / 2.0;
    PercentileCovers(medians, (1.0 - confidence) / 2.0);
    PercentileCovers(medians, (1.0 + confidence) / 2.0);
  }

  /**
   Whatever the generator draws, the interval is ordered and both of its ends are medians of a resample;
   they are the outer percentiles of those medians.
   */
  method PairedBootstrapCi(differences: seq<real>, confidence: real, draws: seq<seq<nat>>)
    returns (r: Option<(real, real)>, medians: seq<real>)
    requires forall k :: 0 <= k < |draws| ==> IsDraw(draws[k], |differences|)
    ensures r.Some? <==> 0.0 < confidence < 1.0 && draws != [] && differences != []
    ensures r.Some? ==> |medians| == |draws|
    ensures r.Some? ==> forall k :: 0 <= k < |draws| ==> MedianOf(medians[k], differences, draws[k])
    ensures r.Some? ==> r.value.0 in medians && r.value.1 in medians && r.value.0 <= r.value.1
    ensures r.Some? ==> CoversShare(medians, r.value.0, (1.0 - confidence) / 2.0)
    ensures r.Some? ==> CoversShare(medians, r.value.1, (1.0 + confidence) / 2.0)
    ensures r.Some? ==> medians == MediansOf(differences, draws) && r.value == Interval(medians, confidence)
  {
    if !(0.0 < confidence < 1.0) || draws == [] || differences == [] { return None, []; }
    medians := ResampledMedians(differences, draws);
    IntervalIsOrdered(medians, confidence);
    IntervalCovers(medians, confidence);
    return Some(Interval(medians, confidence)), medians;
  }

  method ResampledMedians(differences: seq<real>, draws: seq<seq<nat>>) returns (medians: seq<real>)
    requires differences != [] && forall k :: 0 <= k < |draws| ==> IsDraw(draws[k], |differences|)
    ensures |medians| == |draws|
    ensures forall k :: 0 <= k < |draws| ==> MedianOf(medians[k], differences, draws[k])
    ensures medians == MediansOf(differences, draws)
  {
    medians := [];
    for i := 0 to |draws|
      invariant |medians| == i
      invariant forall k :: 0 <= k < i ==> MedianOf(medians[k], differences, draws[k])
    {
      assert IsDraw(draws[i], |differences|);
      var sample := Resample(differences, draws[i]);
      medians := medians + [Median(sample)];
    }
  }

  /** So the interval lies within every range that holds the paired differences. */
  lemma IntervalWithinDifferences(
    differences: seq<real>, draws: seq<seq<nat>>, medians: seq<real>, ci: (real, real), low: real, high: real)
    requires |medians| == |draws| && forall k :: 0 <= k < |draws| ==> MedianOf(medians[k], differences, draws[k])
    requires ci.0 in medians && ci.1 in medians && ci.0 <= ci.1 && Within(differences, low, high)
    ensures low <= ci.0 <= ci.1 <= high
  {
    MediansWithin(differences, draws, medians, low, high);
  }
}
