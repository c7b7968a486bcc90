/** How single calls go when nothing interferes, for building concrete runs. */
module ProtocolRuns {
  import opened Status
  import opened Protocol
  import opened ProtocolHistory

  /** An idle thread looks a live handle up and has its slot. */
  lemma Lookup(s: State, t: nat, c: Call) returns (n: State)
    requires Reachable(s) && t < |s.pcs| && s.pcs[t] == Idle && s.registry == None
    requires WellFormedCall(c) && !c.Start? && Target(c) in s.table
    ensures Reachable(n) && n == SetPc(s, t, Found(c, s.table[Target(c)]))
  {
    var b := TakeRegistry(s, t, c);
    n := ReachMore(b, Step(t, true));
    assert n == SetPc(s, t, Found(c, s.table[Target(c)]));
  }

  lemma TakeRegistry(s: State, t: nat, c: Call) returns (n: State)
    requires Reachable(s) && t < |s.pcs| && s.pcs[t] == Idle && s.registry == None
    requires WellFormedCall(c) && !c.Start?
    ensures Reachable(n) && n == SetPc(s.(registry := Some(t)), t, Looking(c))
  {
    var a := ReachMore(s, Invoke(t, c));
    assert a == SetPc(s, t, Ready(c));
    n := ReachMore(a, Step(t, true));
    assert n == SetPc(s.(registry := Some(t)), t, Looking(c));
  }

  /** From a free slot the thread gets into the job. */
  lemma Enter(s: State, t: nat, c: Call, i: nat) returns (n: State)
    requires Reachable(s) && t < |s.pcs| && s.pcs[t] == Found(c, i) && i < |s.slots| && s.slots[i].holder == None
    requires !c.Cancel? && !(c.Release? && CancelsBeforeTrying(c.key.kind))
    ensures Reachable(n) && n == SetPc(SetSlot(s, i, s.slots[i].(holder := Some(t))), t, Inside(c, i))
  {
    var a := ReachMore(s, Step(t, true));
    assert a == SetPc(s, t, Trying(c, i));
    n := ReachMore(a, Step(t, true));
    assert n.pcs == SetPc(s, t, Inside(c, i)).pcs;
  }

  /** A release inside a finished open job closes it, removes its entry and returns OK. */
  lemma Close(s: State, t: nat, key: Key, i: nat) returns (n: State)
    requires Reachable(s) && t < |s.pcs| && s.pcs[t] == Inside(Release(key), i) && i < |s.slots| && s.registry == None
    requires !s.slots[i].closed && s.slots[i].work != Running && s.slots[i].key == key && key.kind != Orphan
    requires key in s.table
    ensures Reachable(n) && n.registry == None && n.next == s.next && n.table == s.table - {key}
    ensures n.slots == s.slots[i := s.slots[i].(closed := true, holder := None)]
    ensures n.pcs == s.pcs[t := Idle] && n.log == s.log + [Returned(t, Release(key), OK)]
  {
    var a := ReachMore(s, Step(t, true));
    assert a == SetPc(SetSlot(s, i, s.slots[i].(closed := true)), t, NeedRegistry(Release(key), i));
    n := Remove(a, t, key, i);
    assert n.slots == s.slots[i := s.slots[i].(closed := true, holder := None)];
    assert n.pcs == s.pcs[t := Idle];
  }

  lemma Leave(s: State, t: nat, c: Call, i: nat, code: int) returns (n: State)
    requires Reachable(s) && t < |s.pcs| && s.pcs[t] == Leaving(c, i, code) && i < |s.slots|
    ensures Reachable(n) && n.registry == s.registry && n.next == s.next && n.table == s.table
    ensures n.slots == s.slots[i := s.slots[i].(holder := None)]
    ensures n.pcs == s.pcs[t := Idle] && n.log == s.log + [Returned(t, c, code)]
  {
    n := ReachMore(s, Step(t, true));
  }

  lemma Remove(s: State, t: nat, key: Key, i: nat) returns (n: State)
    requires Reachable(s) && t < |s.pcs| && s.pcs[t] == NeedRegistry(Release(key), i) && i < |s.slots|
    requires s.registry == None && key in s.table
    ensures Reachable(n) && n.registry == None && n.next == s.next && n.table == s.table - {key}
    ensures n.slots == s.slots[i := s.slots[i].(holder := None)]
    ensures n.pcs == s.pcs[t := Idle] && n.log == s.log + [Returned(t, Release(key), OK)]
  {
    var a := ReachMore(s, Step(t, true));
    assert a == SetPc(s.(registry := Some(t)), t, Registering(Release(key), i));
    var b := ReachMore(a, Step(t, true));
    assert b.pcs == s.pcs[t := Leaving(Release(key), i, OK)];
    n := Leave(b, t, Release(key), i, OK);
    assert n.pcs == s.pcs[t := Idle];
  }

  /** An admitted start inserts a fresh slot under the next handle. */
  lemma Insertion(s: State, t: nat, c: Call) returns (n: State)
    requires Reachable(s) && t < |s.pcs| && s.pcs[t] == NeedStart(c) && (c.Start? || c.PurgeExecute?)
    requires s.registry == None
    requires |CountedKeys(s.table)| < MAX_TASKS && s.next < U64_MAX
    ensures var key := Key(InsertedKind(c), s.next);
      && Reachable(n) && n.registry == None && n.next == s.next + 1
      && n.table == s.table[key := |s.slots|] && n.slots == s.slots + [FreshSlot(key, !c.Start?)]
      && n.pcs == s.pcs[t := Idle]
      && n.log == s.log + (if HasWorker(key.kind) then [Spawned(key)] else []) + [Returned(t, c, OK)]
  {
    var a := ReachMore(s, Step(t, true));
    assert a == SetPc(s.(registry := Some(t)), t, Starting(c));
    n := ReachMore(a, Step(t, true));
    assert n.pcs == s.pcs[t := Idle];
  }

  /** The same from an idle thread. */
  lemma StartJob(s: State, t: nat, k: Kind) returns (n: State)
    requires Reachable(s) && t < |s.pcs| && s.pcs[t] == Idle && s.registry == None
    requires |CountedKeys(s.table)| < MAX_TASKS && s.next < U64_MAX
    ensures var key := Key(k, s.next);
      && Reachable(n) && n.registry == None && n.next == s.next + 1
      && n.table == s.table[key := |s.slots|] && n.slots == s.slots + [FreshSlot(key, false)]
      && n.pcs == s.pcs && n.log == s.log + (if HasWorker(k) then [Spawned(key)] else []) + [Returned(t, Start(k), OK)]
  {
    var a := ReachMore(s, Invoke(t, Start(k)));
    assert a == SetPc(s, t, NeedStart(Start(k)));
    n := Insertion(a, t, Start(k));
    assert n.pcs == s.pcs;
  }

  /** Some threads, nothing started. */
  lemma Begin(threads: nat) returns (s: State)
    ensures Reachable(s) && s == Init(threads) && CountedKeys(s.table) == {}
  {
    InitOk(threads);
    s := Init(threads);
    assert Exec(s, []) == Some(s);
  }
}
