/** The promises of the handle lifecycle, for every interleaving of calls and workers. */
module ProtocolTheorems {
  import opened Status
  import opened Protocol
  import opened ProtocolSafety
  import opened ProtocolHistory

  // ----- release -----

  lemma {:induction false} SomeRelease(log: seq<Entry>, key: Key, p: nat)
    requires p < |log| && OkRelease(log[p], key)
    ensures Releases(log, key) >= 1
  {
    if p < |log| - 1 { SomeRelease(log[..|log| - 1], key, p); }
  }

  lemma {:induction false} TwoReleases(log: seq<Entry>, key: Key, p: nat, q: nat)
    requires p < q < |log| && OkRelease(log[p], key) && OkRelease(log[q], key)
    ensures Releases(log, key) >= 2
  {
    if q < |log| - 1 { TwoReleases(log[..|log| - 1], key, p, q); }
    else { SomeRelease(log[..|log| - 1], key, p); }
  }

  /** At most one release of a handle ever returns OK. */
  lemma ReleasedOnce(s: State, key: Key, p: nat, q: nat)
    requires Reachable(s) && p < |s.log| && q < |s.log|
    requires OkRelease(s.log[p], key) && OkRelease(s.log[q], key)
    ensures p == q
  {
    ReachableOk(s);
    assert KeyHist(s, key);
    if p < q { TwoReleases(s.log, key, p, q); } else if q < p { TwoReleases(s.log, key, q, p); }
    if HasSlot(s.slots, key) {
      var i :| 0 <= i < |s.slots| && s.slots[i].key == key;
      assert SlotHist(s, i);
    }
  }

  /** No worker and no call that checks `closed` acts on a handle after its release returned OK. */
  lemma NothingAfterRelease(s: State, key: Key, p: nat, q: nat)
    requires Reachable(s) && p < q < |s.log| && OkRelease(s.log[p], key)
    ensures !ActsOn(s.log[q], key)
  {
    ReachableOk(s);
  }

  lemma {:induction false} LiveSuffix(log: seq<Entry>, key: Key, p: nat)
    requires p <= |log| && forall q :: p <= q < |log| ==> !ActsOn(log[q], key)
    ensures LiveWorkers(log, key) == LiveWorkers(log[..p], key)
  {
    if p == |log| { assert log[..p] == log; }
    else {
      var rest := log[..|log| - 1];
      assert !ActsOn(log[|log| - 1], key);
      assert forall q :: p <= q < |rest| ==> rest[q] == log[q];
      LiveSuffix(rest, key, p);
      assert rest[..p] == log[..p];
    }
  }

  /** A release returns OK only when every worker ever started for the handle has exited. */
  lemma ReleasedAfterWorkers(s: State, key: Key, p: nat)
    requires Reachable(s) && p < |s.log| && OkRelease(s.log[p], key)
    ensures LiveWorkers(s.log[..p], key) == 0
  {
    ReachableOk(s);
    SomeRelease(s.log, key, p);
    assert KeyHist(s, key);
    var i :| 0 <= i < |s.slots| && s.slots[i].key == key;
    assert SlotHist(s, i) && SlotOk(s, i);
    LiveSuffix(s.log, key, p + 1);
    assert s.log[..p + 1][..p] == s.log[..p];
  }

  /** The removal at the end of a release always finds its entry: that INVALID_HANDLE is unreachable. */
  lemma RemovalFinds(s: State, t: nat)
    requires Reachable(s) && t < |s.pcs| && s.pcs[t].Registering? && s.pcs[t].call.Release?
    ensures s.pcs[t].call.key in s.table
  {
    ReachableOk(s);
    assert ThreadOk(s, t);
  }

  /** A worker and a caller's job lock: at most one thread is inside a job at any time. */
  lemma JobLockExcludes(s: State, t: nat, u: nat, i: nat)
    requires Reachable(s) && t < |s.pcs| && u < |s.pcs|
    requires HoldsJob(s.pcs[t], i) && HoldsJob(s.pcs[u], i)
    ensures t == u
  {
    ReachableOk(s);
    assert ThreadOk(s, t) && ThreadOk(s, u);
  }

  // ----- handles -----

  lemma HandlesDistinct(s: State, i: nat, j: nat)
    requires Increasing(s.slots) && i < |s.slots| && j < |s.slots| && i != j
    ensures s.slots[i].key.handle != s.slots[j].key.handle
  {
    if i < j { assert s.slots[i].key.handle < s.slots[j].key.handle; }
    else { assert s.slots[j].key.handle < s.slots[i].key.handle; }
  }

  /** Handles grow with every inserted job, no two maps share one, and the counted maps stay within the limit. */
  lemma HandlesAndCapacity(s: State)
    requires Reachable(s)
    ensures forall i, j :: 0 <= i < j < |s.slots| ==> s.slots[i].key.handle < s.slots[j].key.handle
    ensures forall a, b :: a in s.table && b in s.table && a.handle == b.handle ==> a == b
    ensures forall a :: a in s.table ==> 1 <= a.handle < s.next
    ensures |CountedKeys(s.table)| <= MAX_TASKS
  {
    ReachableOk(s);
    forall a | a in s.table ensures 1 <= a.handle < s.next { assert KeyOk(s, a) && SlotOk(s, s.table[a]); }
    forall a, b | a in s.table && b in s.table && a != b ensures a.handle != b.handle {
      assert KeyOk(s, a) && KeyOk(s, b);
      HandlesDistinct(s, s.table[a], s.table[b]);
    }
  }

  /** A slot keeps its key and its role, and neither closing nor cancelling is taken back. */
  predicate SlotContinues(a: Slot, b: Slot) {
    a.key == b.key && a.derived == b.derived && (a.closed ==> b.closed) && (a.cancelled ==> b.cancelled)
  }

  /** `b` continues `a`: no handle is taken back, none below the counter is issued again, slots continue. */
  predicate Continues(a: State, b: State) {
    && a.next <= b.next && |a.slots| <= |b.slots| && |a.pcs| == |b.pcs|
    && (forall i :: 0 <= i < |a.slots| ==> SlotContinues(a.slots[i], b.slots[i]))
    && (forall i :: |a.slots| <= i < |b.slots| ==> a.next <= b.slots[i].key.handle)
    && (forall key :: key in b.table && key.handle < a.next ==> key in a.table)
  }

  lemma InsertContinues(s: State, t: nat, c: Call, ok: bool, pc: Pc)
    requires t < |s.pcs|
    ensures Continues(s, SetPc(Insert(s.(registry := None), c, ok).0, t, pc))
  {
  }

  lemma InsideContinues(s: State, t: nat, c: Call, i: nat, ok: bool)
    requires t < |s.pcs| && i < |s.slots|
    ensures Continues(s, StepInside(s, t, c, i, ok))
  {
  }

  /** The steps that insert nothing and look at nothing inside a job. */
  lemma LightContinues(s: State, t: nat, ok: bool)
    requires CanStep(s, t) && ThreadOk(s, t)
    requires !s.pcs[t].Starting? && !s.pcs[t].Registering? && !s.pcs[t].Inside?
    ensures Continues(s, Advance(s, t, ok))
  {
  }

  lemma StepContinues(s: State, t: nat, ok: bool)
    requires CanStep(s, t) && ThreadOk(s, t)
    ensures Continues(s, Advance(s, t, ok))
  {
    match s.pcs[t] {
      case Starting(c) => InsertContinues(s, t, c, ok, Idle);
      case Registering(c, i) =>
        InsertContinues(s, t, c, ok, Leaving(c, i, Insert(s.(registry := None), c, ok).1));
      case Inside(c, i) => InsideContinues(s, t, c, i, ok);
      case _ => LightContinues(s, t, ok);
    }
  }

  lemma NextContinues(s: State, e: Event)
    requires Enabled(s, e) && (e.Step? ==> ThreadOk(s, e.thread))
    ensures Continues(s, Next(s, e))
  {
    if e.Step? { StepContinues(s, e.thread, e.ok); }
  }

  /** A handle is never reused: later insertions lie at or above the counter, and a removed key stays out. */
  lemma {:induction false} NeverReused(s: State, es: seq<Event>)
    requires Core(s) && Exec(s, es).Some?
    ensures Core(Exec(s, es).value) && Continues(s, Exec(s, es).value)
    decreases |es|
  {
    if es != [] {
      assert es[0].Step? ==> ThreadOk(s, es[0].thread);
      var n := Next(s, es[0]);
      NextKeeps(s, es[0]);
      NextContinues(s, es[0]);
      NeverReused(n, es[1..]);
      assert Exec(s, es) == Exec(n, es[1..]);
    }
  }

  // ----- progress -----

  /** Steps left before the call returns, whatever the outcomes. */
  function Rank(pc: Pc): nat {
    match pc
    case Idle => 0
    case Starting(_) => 1
    case Leaving(_, _, _) => 1
    case NeedStart(_) => 2
    case Registering(_, _) => 2
    case NeedRegistry(_, _) => 3
    case Inside(_, _) => 4
    case Trying(_, _) => 5
    case Found(_, _) => 6
    case Looking(_) => 7
    case Ready(_) => 8
  }

  function TotalRank(pcs: seq<Pc>): nat {
    if pcs == [] then 0 else Rank(pcs[0]) + TotalRank(pcs[1..])
  }

  lemma {:induction false} RankUpdate(pcs: seq<Pc>, t: nat, pc: Pc)
    requires t < |pcs|
    ensures TotalRank(pcs[t := pc]) == TotalRank(pcs) - Rank(pcs[t]) + Rank(pc)
  {
    if t == 0 { assert pcs[t := pc][1..] == pcs[1..]; }
    else {
      assert pcs[t := pc][1..] == pcs[1..][t - 1 := pc];
      RankUpdate(pcs[1..], t - 1, pc);
    }
  }

  /** Thread `t` moves on, and no other: its rank falls, and a slot it goes on with is the one it had. */
  predicate MovesOn(s: State, n: State, t: nat)
    requires t < |s.pcs|
  {
    && |n.pcs| == |s.pcs| && n.pcs == s.pcs[t := n.pcs[t]]
    && Rank(n.pcs[t]) < Rank(s.pcs[t])
    && (NamesSlot(n.pcs[t]) && !n.pcs[t].Found? ==>
          NamesSlot(s.pcs[t]) && n.pcs[t].slot == s.pcs[t].slot && n.pcs[t].call == s.pcs[t].call)
  }

  lemma InsideMoves(s: State, t: nat, c: Call, i: nat, ok: bool)
    requires t < |s.pcs| && i < |s.slots| && s.pcs[t] == Inside(c, i)
    ensures MovesOn(s, StepInside(s, t, c, i, ok), t)
  {
  }

  lemma InsertMoves(s: State, t: nat, c: Call, ok: bool, pc: Pc)
    requires t < |s.pcs|
    ensures SetPc(Insert(s.(registry := None), c, ok).0, t, pc).pcs == s.pcs[t := pc]
  {
  }

  lemma RegisteringMoves(s: State, t: nat, c: Call, i: nat, ok: bool)
    requires t < |s.pcs| && i < |s.slots| && s.pcs[t] == Registering(c, i)
    ensures MovesOn(s, StepRegistering(s, t, c, i, ok), t)
  {
    InsertMoves(s, t, c, ok, Leaving(c, i, Insert(s.(registry := None), c, ok).1));
  }

  lemma StartingMoves(s: State, t: nat, c: Call, ok: bool)
    requires t < |s.pcs| && s.pcs[t] == Starting(c)
    ensures MovesOn(s, StepStarting(s, t, c, ok), t)
  {
    InsertMoves(s, t, c, ok, Idle);
  }

  lemma FoundMoves(s: State, t: nat, c: Call, i: nat)
    requires t < |s.pcs| && i < |s.slots| && s.pcs[t] == Found(c, i)
    ensures MovesOn(s, StepFound(s, t, c, i), t)
  {
  }

  lemma TryingMoves(s: State, t: nat, c: Call, i: nat)
    requires t < |s.pcs| && i < |s.slots| && s.pcs[t] == Trying(c, i)
    ensures MovesOn(s, StepTrying(s, t, c, i), t)
  {
  }

  lemma StepMoves(s: State, t: nat, ok: bool)
    requires CanStep(s, t) && ThreadOk(s, t)
    ensures MovesOn(s, Advance(s, t, ok), t)
  {
    match s.pcs[t]
    case Found(c, i) => FoundMoves(s, t, c, i);
    case Trying(c, i) => TryingMoves(s, t, c, i);
    case Inside(c, i) => InsideMoves(s, t, c, i, ok);
    case Registering(c, i) => RegisteringMoves(s, t, c, i, ok);
    case Starting(c) => StartingMoves(s, t, c, ok);
    case _ =>
  }

  /** A step lowers the rank of its own call, whatever the outcome, and leaves every other thread where it was. */
  lemma StepDescends(s: State, t: nat, ok: bool)
    requires CanStep(s, t) && ThreadOk(s, t)
    ensures var n := Advance(s, t, ok);
      && |n.pcs| == |s.pcs| && n.pcs == s.pcs[t := n.pcs[t]]
      && Rank(n.pcs[t]) < Rank(s.pcs[t]) && TotalRank(n.pcs) < TotalRank(s.pcs)
  {
    StepMoves(s, t, ok);
    RankUpdate(s.pcs, t, Advance(s, t, ok).pcs[t]);
  }

  /** No deadlock: while a call is pending, some calling thread can step. No worker needs to move. */
  lemma SomeoneCanStep(s: State, t: nat) returns (u: nat)
    requires Core(s) && t < |s.pcs| && !s.pcs[t].Idle?
    ensures CanStep(s, u)
  {
    u := if s.registry.Some? then s.registry.value else t;
  }

  predicate OnlySteps(es: seq<Event>) { forall k :: 0 <= k < |es| ==> es[k].Step? }

  /** However calls are scheduled, pending calls take boundedly many steps with no worker moving. */
  lemma {:induction false} CallsAreBounded(s: State, es: seq<Event>)
    requires Core(s) && OnlySteps(es) && Exec(s, es).Some?
    ensures |es| <= TotalRank(s.pcs)
    decreases |es|
  {
    if es != [] {
      assert ThreadOk(s, es[0].thread);
      NextKeeps(s, es[0]);
      StepDescends(s, es[0].thread, es[0].ok);
      CallsAreBounded(Next(s, es[0]), es[1..]);
    }
  }

  predicate AllReturned(s: State) { forall t :: 0 <= t < |s.pcs| ==> s.pcs[t].Idle? }

  /** From every state all pending calls can return although every worker stands still. */
  lemma {:induction false} CallsReturn(s: State) returns (es: seq<Event>)
    requires Core(s)
    ensures OnlySteps(es) && Exec(s, es).Some? && AllReturned(Exec(s, es).value)
    decreases TotalRank(s.pcs)
  {
    if AllReturned(s) { return []; }
    var t: nat :| t < |s.pcs| && !s.pcs[t].Idle?;
    var u := SomeoneCanStep(s, t);
    assert ThreadOk(s, u);
    NextKeeps(s, Step(u, true));
    StepDescends(s, u, true);
    var rest := CallsReturn(Next(s, Step(u, true)));
    es := [Step(u, true)] + rest;
    assert es[1..] == rest;
  }
}
