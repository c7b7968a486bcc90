/** A paired measurement run: two gates, two warmups, then each pair in its order, stopping at the first failure. */
module PhaseB {
  import opened Status

  datatype Tool = Mole | Sayaka
  datatype Phase = CorrectnessGate | Warmup | Measurement
  datatype Order = AB | BA | Unsupported

  /** The manifest maps A and B to distinct tools. */
  datatype Mapping = Mapping(a: Tool, b: Tool)

  datatype Step = Step(tool: Tool, phase: Phase, index: nat, pair: Option<(nat, Order)>)

  datatype Row = Row(step: Step, passed: bool)

  datatype Ending = Completed | Blocked(phase: Phase) | Raised

  // ----- the plan -----

  const OPENING: seq<Step> := [
    Step(Mole, CorrectnessGate, 1, None), Step(Sayaka, CorrectnessGate, 1, None),
    Step(Mole, Warmup, 1, None), Step(Sayaka, Warmup, 1, None)]

  function First(o: Order, m: Mapping): Tool { if o == BA then m.b else m.a }

  function Second(o: Order, m: Mapping): Tool { if o == BA then m.a else m.b }

  /** Pair `p` measures each tool for the `p`-th time, in the order scheduled for it. */
  function PairSteps(p: nat, o: Order, m: Mapping): seq<Step> {
    [Step(First(o, m), Measurement, p, Some((p, o))), Step(Second(o, m), Measurement, p, Some((p, o)))]
  }

  function Pairs(schedule: seq<Order>, m: Mapping): (s: seq<Step>)
    ensures |s| == 2 * |schedule|
  {
    if schedule == [] then []
    else Pairs(schedule[..|schedule| - 1], m) + PairSteps(|schedule|, schedule[|schedule| - 1], m)
  }

  function Plan(schedule: seq<Order>, m: Mapping): seq<Step> { OPENING + Pairs(schedule, m) }

  function Steps(rows: seq<Row>): (s: seq<Step>)
    ensures |s| == |rows| && forall k :: 0 <= k < |s| ==> s[k] == rows[k].step
  {
    seq(|rows|, k requires 0 <= k < |rows| => rows[k].step)
  }

  lemma {:induction false} PlanGrows(schedule: seq<Order>, n: nat, m: Mapping)
    requires n <= |schedule|
    ensures Plan(schedule[..n], m) <= Plan(schedule, m)
    decreases |schedule|
  {
    if n < |schedule| {
      var front := schedule[..|schedule| - 1];
      PlanGrows(front, n, m);
      assert front[..n] == schedule[..n];
      assert Plan(schedule, m) == Plan(front, m) + PairSteps(|schedule|, schedule[|schedule| - 1], m);
    } else {
      assert schedule[..n] == schedule;
    }
  }

  // ----- the run -----

  /** Every row recorded so far is the planned one, carries its own outcome, and all but the last passed. */
  ghost predicate Follows(rows: seq<Row>, plan: seq<Step>, runs: nat -> bool) {
    && Steps(rows) <= plan
    && (forall k :: 0 <= k < |rows| ==> rows[k].passed == runs(k))
    && (forall k :: 0 <= k < |rows| - 1 ==> rows[k].passed)
  }

  ghost predicate AllPassed(rows: seq<Row>) { forall k :: 0 <= k < |rows| ==> rows[k].passed }

  /** Appends one planned row, whatever becomes of it. */
  method RunRow(rows: seq<Row>, step: Step, runs: nat -> bool, ghost plan: seq<Step>) returns (more: seq<Row>, ok: bool)
    requires Follows(rows, plan, runs) && AllPassed(rows) && |rows| < |plan| && plan[|rows|] == step
    ensures more == rows + [Row(step, ok)] && ok == runs(|rows|)
    ensures Follows(more, plan, runs) && (ok ==> AllPassed(more))
  {
    ok := runs(|rows|);
    more := rows + [Row(step, ok)];
    assert Steps(more) == Steps(rows) + [step];
  }

  method RunPair(rows: seq<Row>, schedule: seq<Order>, p: nat, m: Mapping, indexes: map<Tool, nat>, runs: nat -> bool)
    returns (nextIndexes: map<Tool, nat>, more: seq<Row>, ok: bool)
    requires m.a != m.b && p < |schedule| && |rows| == 4 + 2 * p && schedule[p] != Unsupported
    requires Follows(rows, Plan(schedule, m), runs) && AllPassed(rows) && indexes == map[Mole := p, Sayaka := p]
    ensures Follows(more, Plan(schedule, m), runs) && |rows| < |more| <= |rows| + 2
    ensures ok ==> AllPassed(more) && |more| == |rows| + 2 && nextIndexes == map[Mole := p + 1, Sayaka := p + 1]
    ensures !ok ==> !more[|more| - 1].passed && more[|more| - 1].step.phase == Measurement
  {
    PlanAt(schedule, p, m);
    nextIndexes, more := indexes, rows;
    var order := schedule[p];
    var sequence := [if order == AB then m.a else m.b, if order == AB then m.b else m.a];
    for k := 0 to 2
      invariant |more| == |rows| + k && Follows(more, Plan(schedule, m), runs) && AllPassed(more)
      invariant Mole in nextIndexes && Sayaka in nextIndexes && nextIndexes.Keys == {Mole, Sayaka}
      invariant nextIndexes[sequence[0]] == (if k > 0 then p + 1 else p)
      invariant nextIndexes[sequence[1]] == (if k > 1 then p + 1 else p)
    {
      var tool := sequence[k];
      nextIndexes := nextIndexes[tool := nextIndexes[tool] + 1];
      var step := Step(tool, Measurement, nextIndexes[tool], Some((p + 1, order)));
      more, ok := RunRow(more, step, runs, Plan(schedule, m));
      if !ok { return; }
    }
    ok := true;
  }

  /**
   `runs(k)` is how the `k`-th row turns out, including the integrity checks around it; `intact` is the
   comparison of the trees after the last pair.
   */
  method RunPhaseB(schedule: seq<Order>, m: Mapping, runs: nat -> bool, intact: bool)
    returns (rows: seq<Row>, ending: Ending)
    requires m.a != m.b
    ensures Follows(rows, Plan(schedule, m), runs)
    ensures ending == Completed <==>
      intact && Unsupported !in schedule && forall k :: 0 <= k < 4 + 2 * |schedule| ==> runs(k)
    ensures ending == Completed ==> Steps(rows) == Plan(schedule, m) && AllPassed(rows)
    ensures ending.Blocked? <==> rows != [] && !rows[|rows| - 1].passed
    ensures ending.Blocked? ==> ending.phase == rows[|rows| - 1].step.phase
    ensures ending == Raised ==> AllPassed(rows) && (Unsupported in schedule || !intact)
    // an unsupported order ends the run before its pair, changed trees only at the very end
    ensures ending == Raised && Unsupported in schedule ==>
      exists p ::
        0 <= p < |schedule| && schedule[p] == Unsupported && Unsupported !in schedule[..p] && |rows| == 4 + 2 * p
    ensures ending == Raised && Unsupported !in schedule ==> |rows| == 4 + 2 * |schedule| && !intact
  {
    ghost var plan := Plan(schedule, m);
    rows := [];
    assert Steps(rows) == [];
    var ok: bool;
    for k := 0 to 4
      invariant |rows| == k && Follows(rows, plan, runs) && AllPassed(rows)
    {
      rows, ok := RunRow(rows, OPENING[k], runs, plan);
      if !ok { return rows, Blocked(OPENING[k].phase); }
    }
    var runIndexes: map<Tool, nat> := map[Mole := 0, Sayaka := 0];
    for p := 0 to |schedule|
      invariant |rows| == 4 + 2 * p && Follows(rows, plan, runs) && AllPassed(rows)
      invariant Unsupported !in schedule[..p]
      invariant runIndexes == map[Mole := p, Sayaka := p]
    {
      if schedule[p] == Unsupported { return rows, Raised; }
      runIndexes, rows, ok := RunPair(rows, schedule, p, m, runIndexes, runs);
      if !ok { return rows, Blocked(Measurement); }
    }
    assert schedule[..|schedule|] == schedule;
    assert Steps(rows) == plan;
    return rows, if intact then Completed else Raised;
  }

  lemma PlanAt(schedule: seq<Order>, p: nat, m: Mapping)
    requires p < |schedule|
    ensures |Plan(schedule, m)| == 4 + 2 * |schedule|
    ensures Plan(schedule, m)[4 + 2 * p..4 + 2 * p + 2] == PairSteps(p + 1, schedule[p], m)
    ensures Plan(schedule, m)[4 + 2 * p] == PairSteps(p + 1, schedule[p], m)[0]
    ensures Plan(schedule, m)[4 + 2 * p + 1] == PairSteps(p + 1, schedule[p], m)[1]
  {
    PlanGrows(schedule, p + 1, m);
    var upTo := schedule[..p + 1];
    assert upTo[..p] == schedule[..p];
    assert Plan(upTo, m) == OPENING + Pairs(upTo[..p], m) + PairSteps(p + 1, schedule[p], m);
  }

  /** Gates and warmups first, for Mole and then Sayaka; then pair by pair, A before B unless it is a BA pair. */
  lemma PlanIs(schedule: seq<Order>, p: nat, m: Mapping)
    requires p < |schedule|
    ensures |Plan(schedule, m)| == 4 + 2 * |schedule|
    ensures Plan(schedule, m)[0] == Step(Mole, CorrectnessGate, 1, None)
    ensures Plan(schedule, m)[1] == Step(Sayaka, CorrectnessGate, 1, None)
    ensures Plan(schedule, m)[2] == Step(Mole, Warmup, 1, None) && Plan(schedule, m)[3] == Step(Sayaka, Warmup, 1, None)
    ensures var first, second := Plan(schedule, m)[4 + 2 * p], Plan(schedule, m)[4 + 2 * p + 1];
      && (schedule[p] == AB ==> first.tool == m.a && second.tool == m.b)
      && (schedule[p] == BA ==> first.tool == m.b && second.tool == m.a)
      && first.phase == second.phase == Measurement && first.index == second.index == p + 1
      && first.pair == second.pair == Some((p + 1, schedule[p]))
  {
    PlanAt(schedule, p, m);
  }

  // ----- what a plan measures -----

  /** The indexes of a tool's measurement rows, in order. */
  function Measured(steps: seq<Step>, t: Tool): seq<nat> {
    if steps == [] then []
    else
      var last := steps[|steps| - 1];
      Measured(steps[..|steps| - 1], t) + if last.phase == Measurement && last.tool == t then [last.index] else []
  }

  function UpTo(n: nat): (s: seq<nat>)
    ensures |s| == n && forall k :: 0 <= k < n ==> s[k] == k + 1
  {
    seq(n, k => k + 1)
  }

  lemma {:induction false} MeasuredConcat(a: seq<Step>, b: seq<Step>, t: Tool)
    ensures Measured(a + b, t) == Measured(a, t) + Measured(b, t)
  {
    if b == [] {
      assert a + b == a;
    } else {
      MeasuredConcat(a, b[..|b| - 1], t);
      assert (a + b)[..|a + b| - 1] == a + b[..|b| - 1];
    }
  }

  lemma MeasuredOne(s: Step, t: Tool)
    ensures Measured([s], t) == if s.phase == Measurement && s.tool == t then [s.index] else []
  {
    assert [s] == [] + [s];
    assert Measured([s][..0], t) == [];
  }

  lemma MeasuredTwo(a: Step, b: Step, t: Tool)
    ensures Measured([a, b], t) == Measured([a], t) + Measured([b], t)
  {
    assert [a, b] == [a] + [b];
    MeasuredConcat([a], [b], t);
  }

  lemma MeasuredPair(p: nat, o: Order, m: Mapping, t: Tool)
    requires m.a != m.b
    ensures Measured(PairSteps(p, o, m), t) == [p]
  {
    var steps := PairSteps(p, o, m);
    MeasuredTwo(steps[0], steps[1], t);
    MeasuredOne(steps[0], t);
    MeasuredOne(steps[1], t);
  }

  lemma {:induction false} NothingMeasured(steps: seq<Step>, t: Tool)
    requires forall k :: 0 <= k < |steps| ==> steps[k].phase != Measurement
    ensures Measured(steps, t) == []
  {
    if steps != [] { NothingMeasured(steps[..|steps| - 1], t); }
  }

  /** A whole plan measures both tools once a pair, with consecutive indexes from 1. */
  lemma {:induction false} PlanMeasuresBoth(schedule: seq<Order>, m: Mapping, t: Tool)
    requires m.a != m.b
    ensures Measured(Plan(schedule, m), t) == UpTo(|schedule|)
  {
    if schedule == [] {
      NothingMeasured(OPENING, t);
      assert Plan(schedule, m) == OPENING;
    } else {
      var front, n := schedule[..|schedule| - 1], |schedule|;
      PlanMeasuresBoth(front, m, t);
      MeasuredConcat(Plan(front, m), PairSteps(n, schedule[n - 1], m), t);
      MeasuredPair(n, schedule[n - 1], m, t);
      assert Plan(schedule, m) == Plan(front, m) + PairSteps(n, schedule[n - 1], m);
    }
  }

  /** What any run recorded of a tool is the start of that: never a gap or a repeat, in whatever state it stopped. */
  lemma RecordedIsConsecutive(schedule: seq<Order>, m: Mapping, rows: seq<Row>, runs: nat -> bool, t: Tool)
    requires m.a != m.b && Follows(rows, Plan(schedule, m), runs)
    ensures Measured(Steps(rows), t) <= UpTo(|schedule|)
    ensures Steps(rows) == Plan(schedule, m) ==> |Measured(Steps(rows), t)| == |schedule|
  {
    var plan, n := Plan(schedule, m), |rows|;
    PlanMeasuresBoth(schedule, m, t);
    assert plan == Steps(rows) + plan[n..];
    MeasuredConcat(Steps(rows), plan[n..], t);
  }
}
