/** Acceptance of a measured scenario: sample slots, failure records and the counts of the summary. */
module Validation {
  import opened Status
  import Counting
  import E = Estimates

  datatype Tool = Sayaka | Mole | OtherTool
  datatype Order = AB | BA | OtherOrder
  datatype State = Passed | Failed | Skipped | OtherState

  /** `wellFormed` stands for the checks that look at one record alone: fields, numbers, provenance. */
  datatype Sample = Sample(
    pairId: int, runIndex: int, tool: Tool, order: Order, status: State, completeMs: real, peakRss: real,
    wellFormed: bool)

  datatype Failure = Failure(pairId: int, tool: Tool, runIndex: int, classification: State, wellFormed: bool)

  datatype Pair = Pair(pairId: int, order: Order)

  datatype Outcome = Good | Ineligible | Bad

  datatype Summary = Summary(failureCount: int, skipCount: int, reported: E.Reported)

  /** The preregistered confidence level, and the resamples its seed draws for a list of each length. */
  datatype Method = Method(confidence: real, draws: E.Draws)

  /** `orders` is the generated schedule, one order a repetition. */
  datatype Protocol = Protocol(repetitions: nat, orders: seq<Order>, supported: bool)

  datatype Scenario = Scenario(
    bound: bool, measured: bool, eligibility: Outcome, equalWork: Outcome,
    schedule: seq<Pair>, samples: seq<Sample>, failures: seq<Failure>, summary: Option<Summary>)

  type Slot = (int, Tool)
  type Key = (int, Tool, int)

  function SlotOf(s: Sample): Slot { (s.pairId, s.tool) }

  function KeyOf(s: Sample): Key { (s.pairId, s.tool, s.runIndex) }

  function FailureKey(f: Failure): Key { (f.pairId, f.tool, f.runIndex) }

  // ----- counting by key -----

  function Count<T>(s: seq<T>, p: T -> bool): nat { Counting.Sum(s, One(p)) }

  function One<T>(p: T -> bool): T -> nat { (x: T) => if p(x) then 1 else 0 }

  ghost predicate DistinctBy<T, K>(s: seq<T>, key: T -> K) {
    forall i, j :: 0 <= i < j < |s| ==> key(s[i]) != key(s[j])
  }

  function Image<T(==), K(==)>(s: seq<T>, p: T -> bool, key: T -> K): set<K> {
    set x | x in s && p(x) :: key(x)
  }

  lemma OneMore<T, K>(s: seq<T>, x: T, p: T -> bool, key: T -> K)
    ensures Count(s + [x], p) == Count(s, p) + if p(x) then 1 else 0
    ensures Image(s + [x], p, key) == Image(s, p, key) + if p(x) then {key(x)} else {}
    ensures DistinctBy(s + [x], key) <==> DistinctBy(s, key) && forall i :: 0 <= i < |s| ==> key(s[i]) != key(x)
  {
    assert (s + [x])[..|s|] == s;
    if DistinctBy(s + [x], key) {
      forall i | 0 <= i < |s| ensures key(s[i]) != key(x) { assert (s + [x])[i] == s[i] && (s + [x])[|s|] == x; }
      forall i, j | 0 <= i < j < |s| ensures key(s[i]) != key(s[j]) {
        assert (s + [x])[i] == s[i] && (s + [x])[j] == s[j];
      }
    }
  }

  /** When keys are distinct there are as many of them as there are elements. */
  lemma {:induction false} ImageCount<T, K>(s: seq<T>, p: T -> bool, key: T -> K)
    requires DistinctBy(s, key)
    ensures |Image(s, p, key)| == Count(s, p)
  {
    if s != [] {
      var front, last := s[..|s| - 1], s[|s| - 1];
      assert s == front + [last];
      OneMore(front, last, p, key);
      ImageCount(front, p, key);
    }
  }

  // ----- what acceptance means -----

  predicate SampleOk(p: Protocol, s: Sample) {
    && 1 <= s.pairId <= p.repetitions && s.runIndex >= 1 && s.tool in {Sayaka, Mole} && s.order in {AB, BA}
    && s.pairId <= |p.orders| && s.order == p.orders[s.pairId - 1]
    && s.status in {Passed, Failed, Skipped} && s.wellFormed
  }

  ghost predicate DistinctSlots(samples: seq<Sample>) { DistinctBy(samples, SlotOf) }

  function SlotsUpTo(n: nat): set<Slot> {
    if n == 0 then {} else SlotsUpTo(n - 1) + {(n, Sayaka), (n, Mole)}
  }

  function Always<T>(): T -> bool { (x: T) => true }

  function HasStatus(state: State): Sample -> bool { (s: Sample) => s.status == state }

  function HasClass(state: State): Failure -> bool { (f: Failure) => f.classification == state }

  function SlotSet(samples: seq<Sample>): set<Slot> { Image(samples, Always(), SlotOf) }

  /** Each slot of the protocol has a sample, and only one. */
  ghost predicate SamplesAccepted(p: Protocol, samples: seq<Sample>) {
    && (forall k :: 0 <= k < |samples| ==> SampleOk(p, samples[k]))
    && DistinctSlots(samples) && SlotSet(samples) == SlotsUpTo(p.repetitions)
  }

  predicate FailureOk(p: Protocol, f: Failure) {
    && 1 <= f.pairId <= p.repetitions && f.tool in {Sayaka, Mole} && f.runIndex >= 1
    && f.classification in {Failed, Skipped} && f.wellFormed
  }

  ghost predicate DistinctKeys(failures: seq<Failure>) { DistinctBy(failures, FailureKey) }

  predicate Records(f: Failure, s: Sample) { FailureKey(f) == KeyOf(s) && f.classification == s.status }

  ghost predicate HasSample(samples: seq<Sample>, f: Failure) { exists s :: s in samples && Records(f, s) }

  ghost predicate HasRecord(failures: seq<Failure>, s: Sample) { exists f :: f in failures && Records(f, s) }

  ghost predicate Justified(p: Protocol, samples: seq<Sample>, f: Failure) { FailureOk(p, f) && HasSample(samples, f) }

  /** Each record belongs to a sample with that status, and each sample that did not pass has a record. */
  ghost predicate FailuresAccepted(p: Protocol, samples: seq<Sample>, failures: seq<Failure>) {
    && (forall k :: 0 <= k < |failures| ==> Justified(p, samples, failures[k]))
    && DistinctKeys(failures)
    && (forall s :: s in samples && s.status != Passed ==> HasRecord(failures, s))
  }

  function CountStatus(samples: seq<Sample>, state: State): nat { Count(samples, HasStatus(state)) }

  function CountClass(failures: seq<Failure>, state: State): nat { Count(failures, HasClass(state)) }

  // ----- the loops -----

  method ValidateSchedule(expected: seq<Order>, schedule: seq<Pair>) returns (ok: bool)
    ensures ok <==>
      && |schedule| == |expected|
      && forall k :: 0 <= k < |schedule| ==> schedule[k] == Pair(k + 1, expected[k]) && expected[k] != OtherOrder
  {
    if |schedule| != |expected| { return false; }
    var seen: set<int> := {};
    for i := 0 to |schedule|
      invariant forall k :: 0 <= k < i ==> schedule[k] == Pair(k + 1, expected[k]) && expected[k] != OtherOrder
      invariant forall x :: x in seen ==> x <= i
    {
      var pair := schedule[i];
      if pair.pairId != i + 1 || pair.order == OtherOrder || pair.order != expected[i] { return false; }
      // the duplicate check behind these can never fire
      assert pair.pairId !in seen;
      seen := seen + {pair.pairId};
    }
    return true;
  }

  /** The checks of one sample, in turn. */
  method CheckSample(p: Protocol, s: Sample) returns (ok: bool)
    ensures ok <==> SampleOk(p, s)
  {
    if s.pairId < 1 || s.pairId > p.repetitions || s.runIndex < 1 { return false; }
    if s.tool != Sayaka && s.tool != Mole { return false; }
    if s.order != AB && s.order != BA { return false; }
    if s.pairId > |p.orders| || s.order != p.orders[s.pairId - 1] { return false; }
    if s.status != Passed && s.status != Failed && s.status != Skipped { return false; }
    return s.wellFormed;
  }

  /** The checks of one failure record that need nothing else. */
  method CheckFailure(p: Protocol, f: Failure) returns (ok: bool)
    ensures ok <==> FailureOk(p, f)
  {
    if f.pairId < 1 || f.pairId > p.repetitions || f.runIndex < 1 { return false; }
    if f.tool != Sayaka && f.tool != Mole { return false; }
    if !f.wellFormed { return false; }
    return f.classification == Failed || f.classification == Skipped;
  }

  method ValidateSamples(p: Protocol, samples: seq<Sample>)
    returns (ok: bool, passed: nat, failedKeys: set<Key>, skippedKeys: set<Key>)
    ensures ok <==> SamplesAccepted(p, samples)
    ensures ok ==> passed == CountStatus(samples, Passed)
    ensures ok ==> failedKeys == KeysWith(samples, Failed) && skippedKeys == KeysWith(samples, Skipped)
  {
    var seen: set<Slot> := {};
    passed, failedKeys, skippedKeys, ok := 0, {}, {}, false;
    for i := 0 to |samples|
      invariant forall k :: 0 <= k < i ==> SampleOk(p, samples[k])
      invariant DistinctSlots(samples[..i]) && seen == SlotSet(samples[..i])
      invariant passed == CountStatus(samples[..i], Passed)
      invariant failedKeys == KeysWith(samples[..i], Failed) && skippedKeys == KeysWith(samples[..i], Skipped)
    {
      var s := samples[i];
      SampleMore(samples, i);
      var good := CheckSample(p, s);
      if !good {
        assert !SampleOk(p, samples[i]);
        return;
      }
      if SlotOf(s) in seen {
        Repeated(samples, i);
        assert !DistinctSlots(samples);
        return;
      }
      seen := seen + {SlotOf(s)};
      if s.status == Skipped {
        skippedKeys := skippedKeys + {KeyOf(s)};
      } else if s.status == Failed {
        failedKeys := failedKeys + {KeyOf(s)};
      } else {
        passed := passed + 1;
      }
    }
    assert samples[..|samples|] == samples;
    SlotsAreExpected(p, samples);
    var missing := SlotsUpTo(p.repetitions) - seen;
    assert seen == SlotSet(samples) && seen <= SlotsUpTo(p.repetitions);
    assert seen == SlotsUpTo(p.repetitions) - missing;
    ok := missing == {};
    assert ok <==> seen == SlotsUpTo(p.repetitions);
  }

  /** What one more sample does to everything the loop keeps. */
  lemma SampleMore(samples: seq<Sample>, i: nat)
    requires i < |samples|
    ensures var s, before, after := samples[i], samples[..i], samples[..i + 1];
      && SlotSet(after) == SlotSet(before) + {SlotOf(s)}
      && (DistinctSlots(before) && SlotOf(s) !in SlotSet(before) ==> DistinctSlots(after))
      && (forall state :: CountStatus(after, state) == CountStatus(before, state) + if s.status == state then 1 else 0)
      && (forall state ::
            KeysWith(after, state) == KeysWith(before, state) + if s.status == state then {KeyOf(s)} else {})
  {
    var s, before := samples[i], samples[..i];
    assert samples[..i + 1] == before + [s];
    OneMore(before, s, Always(), SlotOf);
    if SlotOf(s) !in SlotSet(before) {
      forall k | 0 <= k < i ensures SlotOf(before[k]) != SlotOf(s) { assert before[k] in before; }
    }
    forall state
      ensures CountStatus(before + [s], state) == CountStatus(before, state) + if s.status == state then 1 else 0
      ensures KeysWith(before + [s], state) == KeysWith(before, state) + if s.status == state then {KeyOf(s)} else {}
    {
      OneMore(before, s, HasStatus(state), KeyOf);
    }
  }

  lemma Repeated(samples: seq<Sample>, i: nat)
    requires i < |samples| && SlotOf(samples[i]) in SlotSet(samples[..i])
    ensures !DistinctSlots(samples)
  {
    var t :| t in samples[..i] && SlotOf(t) == SlotOf(samples[i]);
    var j :| 0 <= j < i && samples[j] == t;
  }

  ghost function KeysWith(samples: seq<Sample>, state: State): set<Key> { Image(samples, HasStatus(state), KeyOf) }

  lemma {:induction false} SlotMembers(n: nat, x: Slot)
    ensures x in SlotsUpTo(n) <==> 1 <= x.0 <= n && x.1 in {Sayaka, Mole}
  {
    if n > 0 { SlotMembers(n - 1, x); }
  }

  lemma SlotsAreExpected(p: Protocol, samples: seq<Sample>)
    requires forall k :: 0 <= k < |samples| ==> SampleOk(p, samples[k])
    ensures SlotSet(samples) <= SlotsUpTo(p.repetitions)
  {
    forall x | x in SlotSet(samples) ensures x in SlotsUpTo(p.repetitions) {
      var s :| s in samples && SlotOf(s) == x;
      SlotMembers(p.repetitions, x);
    }
  }

  /** The last sample with this key, as a dictionary filled in order holds it. */
  function StatusAt(samples: seq<Sample>, key: Key): Option<State> {
    if samples == [] then None
    else if KeyOf(samples[|samples| - 1]) == key then Some(samples[|samples| - 1].status)
    else StatusAt(samples[..|samples| - 1], key)
  }

  lemma {:induction false} StatusAtIs(samples: seq<Sample>, key: Key)
    requires DistinctSlots(samples)
    ensures StatusAt(samples, key).None? <==> forall s :: s in samples ==> KeyOf(s) != key
    ensures forall s :: s in samples && KeyOf(s) == key ==> StatusAt(samples, key) == Some(s.status)
  {
    if samples != [] {
      var front, last := samples[..|samples| - 1], samples[|samples| - 1];
      assert samples == front + [last];
      StatusAtIs(front, key);
    }
  }

  /** Looking a record's key up gives its classification exactly when a sample matches it. */
  lemma Matched(samples: seq<Sample>, f: Failure)
    requires DistinctSlots(samples)
    ensures StatusAt(samples, FailureKey(f)) == Some(f.classification) <==> HasSample(samples, f)
  {
    StatusAtIs(samples, FailureKey(f));
    if StatusAt(samples, FailureKey(f)) == Some(f.classification) {
      var s :| s in samples && KeyOf(s) == FailureKey(f);
      assert Records(f, s);
    }
  }

  lemma FailureMore(failures: seq<Failure>, i: nat)
    requires i < |failures|
    ensures var f, before, after := failures[i], failures[..i], failures[..i + 1];
      && FailureKeys(after) == FailureKeys(before) + {FailureKey(f)}
      && (DistinctKeys(before) && FailureKey(f) !in FailureKeys(before) ==> DistinctKeys(after))
      && (FailureKey(f) in FailureKeys(before) ==> !DistinctKeys(failures))
  {
    var f, before := failures[i], failures[..i];
    assert failures[..i + 1] == before + [f];
    OneMore(before, f, Always(), FailureKey);
    if FailureKey(f) !in FailureKeys(before) {
      forall k | 0 <= k < i ensures FailureKey(before[k]) != FailureKey(f) { assert before[k] in before; }
    } else {
      var g :| g in before && FailureKey(g) == FailureKey(f);
      var j :| 0 <= j < i && failures[j] == g;
    }
  }

  method ValidateFailure(p: Protocol, samples: seq<Sample>, f: Failure) returns (ok: bool)
    requires DistinctSlots(samples)
    ensures ok <==> Justified(p, samples, f)
  {
    Matched(samples, f);
    ok := CheckFailure(p, f);
    return ok && StatusAt(samples, FailureKey(f)) == Some(f.classification);
  }

  method ValidateFailures(
    p: Protocol, samples: seq<Sample>, failures: seq<Failure>, failedKeys: set<Key>, skippedKeys: set<Key>)
    returns (ok: bool)
    requires SamplesAccepted(p, samples)
    requires failedKeys == KeysWith(samples, Failed) && skippedKeys == KeysWith(samples, Skipped)
    ensures ok <==> FailuresAccepted(p, samples, failures)
  {
    var keys: set<Key> := {};
    for i := 0 to |failures|
      invariant forall k :: 0 <= k < i ==> Justified(p, samples, failures[k])
      invariant DistinctKeys(failures[..i]) && keys == FailureKeys(failures[..i])
    {
      FailureMore(failures, i);
      var justified := ValidateFailure(p, samples, failures[i]);
      if !justified || FailureKey(failures[i]) in keys { return false; }
      keys := keys + {FailureKey(failures[i])};
    }
    assert failures[..|failures|] == failures;
    RequiredKeys(p, samples, failures);
    return failedKeys + skippedKeys == keys;
  }

  ghost function FailureKeys(failures: seq<Failure>): set<Key> { Image(failures, Always(), FailureKey) }

  lemma SameKeySameSample(samples: seq<Sample>, s: Sample, t: Sample)
    requires DistinctSlots(samples) && s in samples && t in samples && SlotOf(s) == SlotOf(t)
    ensures s == t
  {
    var i :| 0 <= i < |samples| && samples[i] == s;
    var j :| 0 <= j < |samples| && samples[j] == t;
    assert i < j || j < i || i == j;
  }

  /** The comparison of key sets says that exactly the samples that did not pass have a record. */
  lemma RequiredKeys(p: Protocol, samples: seq<Sample>, failures: seq<Failure>)
    requires SamplesAccepted(p, samples)
    requires forall k :: 0 <= k < |failures| ==> Justified(p, samples, failures[k])
    ensures KeysWith(samples, Failed) + KeysWith(samples, Skipped) == FailureKeys(failures) <==>
      forall s :: s in samples && s.status != Passed ==> HasRecord(failures, s)
  {
    var required := KeysWith(samples, Failed) + KeysWith(samples, Skipped);
    forall f | f in failures ensures FailureKey(f) in required {
      var k :| 0 <= k < |failures| && failures[k] == f;
      assert Justified(p, samples, failures[k]);
      RecordIsRequired(samples, failures, f);
    }
    forall k | 0 <= k < |failures| ensures HasSample(samples, failures[k]) {
      assert Justified(p, samples, failures[k]);
    }
    if required == FailureKeys(failures) {
      forall s | s in samples && s.status != Passed ensures HasRecord(failures, s) {
        assert SampleOk(p, s);
        assert KeyOf(s) in required;
        RequiredHasRecord(samples, failures, s);
      }
    }
    if forall s :: s in samples && s.status != Passed ==> HasRecord(failures, s) {
      RequiredAreRecorded(samples, failures, Failed);
      RequiredAreRecorded(samples, failures, Skipped);
    }
  }

  lemma RequiredAreRecorded(samples: seq<Sample>, failures: seq<Failure>, state: State)
    requires state != Passed && forall s :: s in samples && s.status != Passed ==> HasRecord(failures, s)
    ensures KeysWith(samples, state) <= FailureKeys(failures)
  {
    forall x | x in KeysWith(samples, state) ensures x in FailureKeys(failures) {
      var s :| s in samples && s.status == state && KeyOf(s) == x;
      assert HasRecord(failures, s);
      var f :| f in failures && Records(f, s);
    }
  }

  lemma RequiredHasRecord(samples: seq<Sample>, failures: seq<Failure>, s: Sample)
    requires DistinctSlots(samples) && s in samples && KeyOf(s) in FailureKeys(failures)
    requires forall k :: 0 <= k < |failures| ==> HasSample(samples, failures[k])
    ensures HasRecord(failures, s)
  {
    var f :| f in failures && FailureKey(f) == KeyOf(s);
    var k :| 0 <= k < |failures| && failures[k] == f;
    var t :| t in samples && Records(f, t);
    SameKeySameSample(samples, s, t);
  }

  lemma RecordIsRequired(samples: seq<Sample>, failures: seq<Failure>, f: Failure)
    requires f in failures && f.classification in {Failed, Skipped} && HasSample(samples, f)
    ensures FailureKey(f) in KeysWith(samples, Failed) + KeysWith(samples, Skipped)
  {
    var s :| s in samples && Records(f, s);
  }

  // ----- what an accepted scenario has -----

  lemma {:induction false} SlotCount(n: nat)
    ensures |SlotsUpTo(n)| == 2 * n
  {
    if n > 0 {
      SlotCount(n - 1);
      SlotMembers(n - 1, (n, Sayaka));
      SlotMembers(n - 1, (n, Mole));
      TwoMore(SlotsUpTo(n - 1), (n, Sayaka), (n, Mole));
    }
  }

  lemma TwoMore(s: set<Slot>, a: Slot, b: Slot)
    requires a !in s && b !in s && a != b
    ensures |s + {a, b}| == |s| + 2
  {
    assert s + {a, b} == (s + {a}) + {b};
  }

  lemma {:induction false} CountAlways<T>(s: seq<T>)
    ensures Count(s, Always()) == |s|
  {
    if s != [] { CountAlways(s[..|s| - 1]); }
  }

  lemma DistinctSlotsGiveKeys(samples: seq<Sample>)
    requires DistinctSlots(samples)
    ensures DistinctBy(samples, KeyOf)
  {
    forall i, j | 0 <= i < j < |samples| ensures KeyOf(samples[i]) != KeyOf(samples[j]) {
      assert SlotOf(samples[i]) != SlotOf(samples[j]);
    }
  }

  ghost function ClassKeys(failures: seq<Failure>, state: State): set<Key> {
    Image(failures, HasClass(state), FailureKey)
  }

  /** The samples of an accepted list are exactly two a repetition, split three ways. */
  lemma AcceptedSampleCount(p: Protocol, samples: seq<Sample>)
    requires SamplesAccepted(p, samples)
    ensures |samples| == 2 * p.repetitions
    ensures CountStatus(samples, Passed) + CountStatus(samples, Failed) + CountStatus(samples, Skipped) == |samples|
  {
    ImageCount(samples, Always(), SlotOf);
    CountAlways(samples);
    SlotCount(p.repetitions);
    StatusSplit(p, samples);
  }

  lemma {:induction false} StatusSplit(p: Protocol, samples: seq<Sample>)
    requires forall k :: 0 <= k < |samples| ==> SampleOk(p, samples[k])
    ensures CountStatus(samples, Passed) + CountStatus(samples, Failed) + CountStatus(samples, Skipped) == |samples|
  {
    if samples != [] {
      assert SampleOk(p, samples[|samples| - 1]);
      StatusSplit(p, samples[..|samples| - 1]);
    }
  }

  lemma SameKeys(p: Protocol, samples: seq<Sample>, failures: seq<Failure>, state: State)
    requires FailuresAccepted(p, samples, failures) && state in {Failed, Skipped}
    ensures ClassKeys(failures, state) == KeysWith(samples, state)
  {
    forall x | x in ClassKeys(failures, state) ensures x in KeysWith(samples, state) {
      var f :| f in failures && f.classification == state && FailureKey(f) == x;
      var k :| 0 <= k < |failures| && failures[k] == f;
      assert Justified(p, samples, failures[k]);
      var s :| s in samples && Records(f, s);
    }
    forall x | x in KeysWith(samples, state) ensures x in ClassKeys(failures, state) {
      var s :| s in samples && s.status == state && KeyOf(s) == x;
      assert HasRecord(failures, s);
      var f :| f in failures && Records(f, s);
    }
  }

  /**
   Records and samples that did not pass correspond one to one, with their classification, so the two
   cross-checks the summary makes of these counts hold of everything that got so far.
   */
  lemma RecordsMatchSamples(p: Protocol, samples: seq<Sample>, failures: seq<Failure>, state: State)
    requires SamplesAccepted(p, samples) && FailuresAccepted(p, samples, failures) && state in {Failed, Skipped}
    ensures ClassKeys(failures, state) == KeysWith(samples, state)
    ensures CountClass(failures, state) == CountStatus(samples, state)
  {
    SameKeys(p, samples, failures, state);
    ImageCount(failures, HasClass(state), FailureKey);
    DistinctSlotsGiveKeys(samples);
    ImageCount(samples, HasStatus(state), KeyOf);
  }

  // ----- acceptance spelled out -----

  /** Some sample is that of this pair and tool. */
  ghost predicate Covered(samples: seq<Sample>, pair: int, tool: Tool) {
    exists k :: 0 <= k < |samples| && samples[k].pairId == pair && samples[k].tool == tool
  }

  /** Accepted samples are well formed, follow the schedule, and cover each pair once with each tool. */
  lemma SamplesAcceptedMeans(p: Protocol, samples: seq<Sample>)
    ensures SamplesAccepted(p, samples) <==>
      && (forall k :: 0 <= k < |samples| ==>
            var s := samples[k];
            && 1 <= s.pairId <= p.repetitions && s.pairId <= |p.orders| && s.runIndex >= 1 && s.wellFormed
            && (s.tool == Sayaka || s.tool == Mole) && (s.order == AB || s.order == BA)
            && s.order == p.orders[s.pairId - 1]
            && (s.status == Passed || s.status == Failed || s.status == Skipped))
      && (forall i, j :: 0 <= i < j < |samples| ==>
            samples[i].pairId != samples[j].pairId || samples[i].tool != samples[j].tool)
      && (forall pair :: 1 <= pair <= p.repetitions ==> Covered(samples, pair, Sayaka) && Covered(samples, pair, Mole))
  {
    if forall k :: 0 <= k < |samples| ==> SampleOk(p, samples[k]) {
      SlotsAreExpected(p, samples);
      CoveredMeans(p, samples);
    }
  }

  lemma CoveredIs(samples: seq<Sample>, pair: int, tool: Tool)
    ensures Covered(samples, pair, tool) <==> (pair, tool) in SlotSet(samples)
  {
    if (pair, tool) in SlotSet(samples) {
      var s :| s in samples && SlotOf(s) == (pair, tool);
      var k :| 0 <= k < |samples| && samples[k] == s;
    }
    if k :| 0 <= k < |samples| && samples[k].pairId == pair && samples[k].tool == tool {
      assert samples[k] in samples && SlotOf(samples[k]) == (pair, tool);
    }
  }

  lemma CoveredMeans(p: Protocol, samples: seq<Sample>)
    requires SlotSet(samples) <= SlotsUpTo(p.repetitions)
    ensures SlotSet(samples) == SlotsUpTo(p.repetitions) <==>
      forall pair :: 1 <= pair <= p.repetitions ==> Covered(samples, pair, Sayaka) && Covered(samples, pair, Mole)
  {
    forall pair: int, tool: Tool ensures Covered(samples, pair, tool) <==> (pair, tool) in SlotSet(samples) {
      CoveredIs(samples, pair, tool);
    }
    forall pair: int, tool: Tool
      ensures (pair, tool) in SlotsUpTo(p.repetitions) <==> 1 <= pair <= p.repetitions && tool in {Sayaka, Mole}
    {
      SlotMembers(p.repetitions, (pair, tool));
    }
    if forall pair :: 1 <= pair <= p.repetitions ==> Covered(samples, pair, Sayaka) && Covered(samples, pair, Mole) {
      forall x | x in SlotsUpTo(p.repetitions) ensures x in SlotSet(samples) {
        assert (x.0, x.1) == x && Covered(samples, x.0, x.1);
      }
    }
  }

  /** The record is of this sample: same pair, tool and run, and the same classification. */
  ghost predicate IsRecordOf(f: Failure, s: Sample) {
    f.pairId == s.pairId && f.tool == s.tool && f.runIndex == s.runIndex && f.classification == s.status
  }

  /** Accepted records are well formed, no two of one run, each of a sample, and none that did not pass lacks one. */
  lemma FailuresAcceptedMeans(p: Protocol, samples: seq<Sample>, failures: seq<Failure>)
    ensures FailuresAccepted(p, samples, failures) <==>
      && (forall k :: 0 <= k < |failures| ==>
            var f := failures[k];
            && 1 <= f.pairId <= p.repetitions && f.runIndex >= 1 && f.wellFormed
            && (f.tool == Sayaka || f.tool == Mole) && (f.classification == Failed || f.classification == Skipped)
            && exists s :: s in samples && IsRecordOf(f, s))
      && (forall i, j :: 0 <= i < j < |failures| ==>
            failures[i].pairId != failures[j].pairId || failures[i].tool != failures[j].tool
            || failures[i].runIndex != failures[j].runIndex)
      && (forall s :: s in samples && s.status != Passed ==> exists f :: f in failures && IsRecordOf(f, s))
  {
    forall f: Failure, s: Sample ensures Records(f, s) <==> IsRecordOf(f, s) {}
    forall f: Failure ensures HasSample(samples, f) <==> exists s :: s in samples && IsRecordOf(f, s) {}
    forall s: Sample ensures HasRecord(failures, s) <==> exists f :: f in failures && IsRecordOf(f, s) {}
    assert forall k :: 0 <= k < |failures| ==>
      (Justified(p, samples, failures[k]) <==> FailureOk(p, failures[k]) && HasSample(samples, failures[k]));
  }

  // ----- the whole scenario -----

  /** The samples that passed, as the estimators read them. */
  function PassedRuns(samples: seq<Sample>): seq<E.Run> {
    if samples == [] then []
    else
      var last := samples[|samples| - 1];
      PassedRuns(samples[..|samples| - 1])
      + if last.status == Passed then [E.Run(last.pairId, last.tool == Sayaka, last.completeMs, last.peakRss)] else []
  }

  lemma {:induction false} RunsAreSamples(samples: seq<Sample>, r: E.Run)
    ensures |PassedRuns(samples)| == CountStatus(samples, Passed)
    ensures r in PassedRuns(samples) <==>
      exists s :: s in samples && s.status == Passed && r == E.Run(s.pairId, s.tool == Sayaka, s.completeMs, s.peakRss)
  {
    if samples != [] {
      assert samples == samples[..|samples| - 1] + [samples[|samples| - 1]];
      RunsAreSamples(samples[..|samples| - 1], r);
    }
  }

  lemma {:induction false} RunsAreDistinct(p: Protocol, samples: seq<Sample>)
    requires DistinctSlots(samples) && forall k :: 0 <= k < |samples| ==> SampleOk(p, samples[k])
    ensures E.DistinctRuns(PassedRuns(samples))
  {
    if samples != [] {
      var front, last := samples[..|samples| - 1], samples[|samples| - 1];
      RunsAreDistinct(p, front);
      forall r | r in PassedRuns(front) ensures (r.pairId, r.sayaka) != (last.pairId, last.tool == Sayaka) {
        RunsAreSamples(front, r);
        var s :| s in front && s.status == Passed && r == E.Run(s.pairId, s.tool == Sayaka, s.completeMs, s.peakRss);
        OtherSlot(p, samples, s);
      }
    }
  }

  /** No earlier sample has the last one's slot; with two tools its pair or its being Sayaka's differs. */
  lemma OtherSlot(p: Protocol, samples: seq<Sample>, s: Sample)
    requires samples != [] && DistinctSlots(samples) && forall k :: 0 <= k < |samples| ==> SampleOk(p, samples[k])
    requires s in samples[..|samples| - 1]
    ensures var last := samples[|samples| - 1]; (s.pairId, s.tool == Sayaka) != (last.pairId, last.tool == Sayaka)
  {
    var j :| 0 <= j < |samples| - 1 && samples[j] == s;
    assert SampleOk(p, samples[j]) && SampleOk(p, samples[|samples| - 1]);
    assert SlotOf(samples[j]) != SlotOf(samples[|samples| - 1]);
  }

  ghost predicate MeasuredAccepted(p: Protocol, m: Method, r: Scenario)
    requires E.GoodDraws(m.draws)
  {
    && SamplesAccepted(p, r.samples) && FailuresAccepted(p, r.samples, r.failures)
    && r.measured && r.eligibility == Good && r.equalWork == Good && CountStatus(r.samples, Passed) > 0
    && r.summary.Some?
    && r.summary.value.failureCount == CountStatus(r.samples, Failed)
    && r.summary.value.skipCount == CountStatus(r.samples, Skipped)
    && E.EstimatesAccepted(PassedRuns(r.samples), r.summary.value.reported, m.confidence, m.draws)
  }

  /** The counts of the summary against the records and the samples, and its estimators against the recomputed ones. */
  method ValidateSummary(p: Protocol, m: Method, s: Summary, samples: seq<Sample>, failures: seq<Failure>)
    returns (ok: bool)
    requires E.GoodDraws(m.draws) && SamplesAccepted(p, samples) && FailuresAccepted(p, samples, failures)
    ensures ok <==>
      && s.failureCount == CountStatus(samples, Failed) && s.skipCount == CountStatus(samples, Skipped)
      && E.EstimatesAccepted(PassedRuns(samples), s.reported, m.confidence, m.draws)
  {
    RecordsMatchSamples(p, samples, failures, Failed);
    RecordsMatchSamples(p, samples, failures, Skipped);
    if s.failureCount != CountClass(failures, Failed) || s.skipCount != CountClass(failures, Skipped) { return false; }
    if CountClass(failures, Failed) != CountStatus(samples, Failed) { return false; }
    if CountClass(failures, Skipped) != CountStatus(samples, Skipped) { return false; }
    ok := E.ValidateEstimates(PassedRuns(samples), s.reported, m.confidence, m.draws);
  }

  /** A supported scenario is accepted exactly when fully measured; an unsupported one exactly when empty. */
  method ValidateScenario(p: Protocol, m: Method, r: Scenario) returns (passedSlots: Option<nat>)
    requires E.GoodDraws(m.draws)
    ensures passedSlots.Some? <==>
      && r.bound && |r.schedule| == |p.orders|
      && (forall k :: 0 <= k < |r.schedule| ==>
            r.schedule[k] == Pair(k + 1, p.orders[k]) && p.orders[k] != OtherOrder)
      && (if p.supported then
            && SamplesAccepted(p, r.samples) && FailuresAccepted(p, r.samples, r.failures)
            && r.measured && r.eligibility == Good && r.equalWork == Good && CountStatus(r.samples, Passed) > 0
            && r.summary.Some?
            && r.summary.value.failureCount == CountStatus(r.samples, Failed)
            && r.summary.value.skipCount == CountStatus(r.samples, Skipped)
            && E.EstimatesAccepted(PassedRuns(r.samples), r.summary.value.reported, m.confidence, m.draws)
          else !r.measured && r.eligibility != Good && r.equalWork != Good
               && r.samples == [] && r.failures == [] && r.summary.None?)
    ensures passedSlots.Some? ==> passedSlots.value == CountStatus(r.samples, Passed)
    ensures passedSlots.Some? && p.supported ==>
      && |r.samples| == 2 * p.repetitions
      && passedSlots.value + r.summary.value.failureCount + r.summary.value.skipCount == 2 * p.repetitions
  {
    if !r.bound { return None; }
    var scheduled := ValidateSchedule(p.orders, r.schedule);
    if !scheduled { return None; }
    if !p.supported {
      if r.measured || r.eligibility == Good || r.equalWork == Good { return None; }
      if r.samples != [] || r.failures != [] || r.summary.Some? { return None; }
      return Some(0);
    }
    var ok, passed, failedKeys, skippedKeys := ValidateSamples(p, r.samples);
    if !ok { return None; }
    ok := ValidateFailures(p, r.samples, r.failures, failedKeys, skippedKeys);
    if !ok { return None; }
    if !r.measured || r.eligibility != Good || r.equalWork != Good || passed == 0 || r.summary.None? { return None; }
    AcceptedSampleCount(p, r.samples);
    ok := ValidateSummary(p, m, r.summary.value, r.samples, r.failures);
    if !ok { return None; }
    return Some(passed);
  }

  /**
   What an accepted measured scenario says: some pair passed with both tools, and the reported median and
   interval lie within the tolerance of every range that holds all such differences.
   */
  lemma AcceptedScenarioMeans(p: Protocol, m: Method, r: Scenario, low: real, high: real)
    requires E.GoodDraws(m.draws) && MeasuredAccepted(p, m, r)
    requires forall a, b, d :: E.PairedBy(PassedRuns(r.samples), a, b, d) ==> low <= d <= high
    ensures exists a, b, d :: E.PairedBy(PassedRuns(r.samples), a, b, d)
    ensures var s := r.summary.value.reported;
      && low - E.TOLERANCE <= s.ciLow <= s.ciHigh <= high + E.TOLERANCE
      && low - E.TOLERANCE <= s.median <= high + E.TOLERANCE
  {
    var runs, reported := PassedRuns(r.samples), r.summary.value.reported;
    RunsAreDistinct(p, r.samples);
    E.AcceptedHasAPair(runs, reported, m.confidence, m.draws);
    var differences := E.Differences(runs);
    forall k | 0 <= k < |differences| ensures low <= differences[k] <= high {
      E.DifferencesArePaired(runs, differences[k]);
      var a, b :| E.PairedBy(runs, a, b, differences[k]);
    }
    E.AcceptedIntervalIsWithin(runs, reported, m.confidence, m.draws, low, high);
  }
}
