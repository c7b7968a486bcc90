/**
 The documented bound of four live handles of all kinds. The allocator adds up eight of the nine maps, so
 a start can pass the bound exactly when four handles are live and one of them is a runtime's.
 */
module ProtocolCapacity {
  import opened Status
  import opened Protocol
  import opened ProtocolSafety
  import opened ProtocolHistory
  import opened ProtocolTheorems
  import opened ProtocolRuns

  function RuntimeKeys(table: map<Key, nat>): set<Key> { set key | key in table && key.kind == Runtime }

  lemma Split(table: map<Key, nat>)
    ensures |table| == |CountedKeys(table)| + |RuntimeKeys(table)|
  {
    assert table.Keys == CountedKeys(table) + RuntimeKeys(table);
    assert CountedKeys(table) !! RuntimeKeys(table);
    assert |table| == |table.Keys|;
  }

  /** How many handles are live in all: four counted ones at most, and whatever runtimes there are. */
  lemma LiveHandles(s: State)
    requires Reachable(s)
    ensures |s.table| == |CountedKeys(s.table)| + |RuntimeKeys(s.table)|
    ensures |CountedKeys(s.table)| <= MAX_TASKS
    ensures RuntimeKeys(s.table) == {} ==> |s.table| <= MAX_TASKS
  {
    ReachableOk(s);
    Split(s.table);
  }

  // ----- one step -----

  /** The three calls that insert a job: starts, selections and purge executions, with the registry in hand. */
  predicate Inserts(pc: Pc) { pc.Starting? || (pc.Registering? && pc.call.SelectionStart?) }

  lemma InsertTable(s: State, c: Call, ok: bool)
    ensures var (n, code) := Insert(s, c, ok);
      && (code == OK <==> ok && |CountedKeys(s.table)| < MAX_TASKS && s.next < U64_MAX)
      && n.table == (if code == OK then s.table[Key(InsertedKind(c), s.next) := |s.slots|] else s.table)
      && |n.slots| == |s.slots| + if code == OK then 1 else 0
  {
  }

  /** Whichever call inserts, it is admitted exactly for fewer than four counted jobs and an unspent counter. */
  lemma InsertionIsAdmitted(s: State, t: nat, ok: bool)
    requires Reachable(s) && t < |s.pcs| && Inserts(s.pcs[t])
    ensures CanStep(s, t) && ThreadOk(s, t)
    ensures var n := Advance(s, t, ok);
      var key := Key(InsertedKind(s.pcs[t].call), s.next);
      var admitted := ok && |CountedKeys(s.table)| < MAX_TASKS && s.next < U64_MAX;
      && key !in s.table
      && n.table == (if admitted then s.table[key := |s.slots|] else s.table)
      && (s.pcs[t].Registering? ==> n.pcs[t].Leaving? && (n.pcs[t].code == OK <==> admitted))
      && (s.pcs[t].Starting? ==>
            |n.log| > 0 && n.log[|n.log| - 1].Returned? && (n.log[|n.log| - 1].code == OK <==> admitted))
  {
    ReachableOk(s);
    assert ThreadOk(s, t);
    HandlesAndCapacity(s);
    InsertTable(s.(registry := None), s.pcs[t].call, ok);
  }

  /** No other step makes the table larger. */
  lemma OthersInsertNothing(s: State, t: nat, ok: bool)
    requires CanStep(s, t) && ThreadOk(s, t) && !Inserts(s.pcs[t])
    ensures Advance(s, t, ok).table.Keys <= s.table.Keys
  {
    match s.pcs[t]
    case Inside(c, i) => InsideInsertsNothing(s, t, c, i, ok);
    case _ =>
  }

  lemma InsideInsertsNothing(s: State, t: nat, c: Call, i: nat, ok: bool)
    requires t < |s.pcs| && i < |s.slots|
    ensures StepInside(s, t, c, i, ok).table == s.table
  {
  }

  /** Whether an event is an admitted insertion while four handles, a runtime's among them, are live. */
  predicate Overfills(s: State, e: Event) {
    && e.Step? && CanStep(s, e.thread) && Inserts(s.pcs[e.thread]) && e.ok
    && |s.table| == MAX_TASKS && RuntimeKeys(s.table) != {} && s.next < U64_MAX
  }

  /** From within the bound, exactly such an event passes it. */
  lemma PassesTheBoundExactlyWhen(s: State, e: Event)
    requires Reachable(s) && Enabled(s, e) && |s.table| <= MAX_TASKS
    ensures e.Step? ==> ThreadOk(s, e.thread)
    ensures |Next(s, e).table| > MAX_TASKS <==> Overfills(s, e)
  {
    ReachableOk(s);
    LiveHandles(s);
    if e.Step? {
      assert ThreadOk(s, e.thread);
      if Inserts(s.pcs[e.thread]) {
        InsertionIsAdmitted(s, e.thread, e.ok);
        assert RuntimeKeys(s.table) != {} <==> |RuntimeKeys(s.table)| > 0;
      } else {
        OthersInsertNothing(s, e.thread, e.ok);
        SubsetSize(Next(s, e).table.Keys, s.table.Keys);
        assert |Next(s, e).table| == |Next(s, e).table.Keys| && |s.table| == |s.table.Keys|;
      }
    }
  }

  // ----- runs -----

  /** The bound holds all along the run. */
  ghost predicate StaysWithin(s: State, es: seq<Event>)
    requires Core(s) && Exec(s, es).Some?
    decreases |es|
  {
    && |s.table| <= MAX_TASKS
    && (es == [] || (FirstIsFine(s, es); StaysWithin(Next(s, es[0]), es[1..])))
  }

  /** No event along the run starts a job with four live and a runtime among them. */
  ghost predicate NeverOverfills(s: State, es: seq<Event>)
    requires Core(s) && Exec(s, es).Some?
    decreases |es|
  {
    es == [] || (FirstIsFine(s, es); !Overfills(s, es[0]) && NeverOverfills(Next(s, es[0]), es[1..]))
  }

  lemma FirstIsFine(s: State, es: seq<Event>)
    requires Core(s) && Exec(s, es).Some? && es != []
    ensures Enabled(s, es[0]) && (es[0].Step? ==> ThreadOk(s, es[0].thread))
    ensures Core(Next(s, es[0])) && Exec(Next(s, es[0]), es[1..]).Some?
  {
    assert es[0].Step? ==> ThreadOk(s, es[0].thread);
    NextKeeps(s, es[0]);
  }

  /** A run from within the bound keeps it if and only if no start is made beside a runtime and three others. */
  lemma {:induction false} BoundHoldsExactlyWhen(s: State, es: seq<Event>)
    requires Reachable(s) && Core(s) && Exec(s, es).Some? && |s.table| <= MAX_TASKS
    ensures StaysWithin(s, es) <==> NeverOverfills(s, es)
    decreases |es|
  {
    if es != [] {
      FirstIsFine(s, es);
      PassesTheBoundExactlyWhen(s, es[0]);
      var n := ReachMore(s, es[0]);
      if |n.table| <= MAX_TASKS { BoundHoldsExactlyWhen(n, es[1..]); }
    }
  }

  // ----- how far it can be passed -----

  lemma OneMoreRuntimeKey(table: map<Key, nat>, key: Key, i: nat)
    requires key.kind == Runtime && key !in table
    ensures CountedKeys(table[key := i]) == CountedKeys(table)
    ensures |RuntimeKeys(table[key := i])| == |RuntimeKeys(table)| + 1
  {
    assert RuntimeKeys(table[key := i]) == RuntimeKeys(table) + {key};
  }

  lemma OneMoreRuntime(s: State) returns (n: State)
    requires Reachable(s) && s.pcs == [Idle] && s.registry == None && s.next < U64_MAX && CountedKeys(s.table) == {}
    ensures Reachable(n) && n.pcs == [Idle] && n.registry == None && n.next == s.next + 1
    ensures CountedKeys(n.table) == {} && |RuntimeKeys(n.table)| == |RuntimeKeys(s.table)| + 1
  {
    HandlesAndCapacity(s);
    n := StartJob(s, 0, Runtime);
    OneMoreRuntimeKey(s.table, Key(Runtime, s.next), |s.slots|);
  }

  /** Any number of runtime handles can be live at once. */
  lemma {:induction false} AnyNumberOfRuntimes(n: nat) returns (s: State)
    requires n < U64_MAX
    ensures Reachable(s) && s.pcs == [Idle] && s.registry == None && s.next == n + 1
    ensures |s.table| == |RuntimeKeys(s.table)| == n && CountedKeys(s.table) == {}
  {
    if n == 0 {
      s := Begin(1);
      assert RuntimeKeys(s.table) == {};
    } else {
      s := AnyNumberOfRuntimes(n - 1);
      s := OneMoreRuntime(s);
      Split(s.table);
    }
  }
}
