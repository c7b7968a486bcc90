/** Every live handle can be given back, with no worker but its own having to finish. */
module ProtocolReturn {
  import opened Status
  import opened Protocol
  import opened ProtocolSafety
  import opened ProtocolHistory
  import opened ProtocolTheorems

  // ----- runs one after the other -----

  lemma ExecFirst(s: State, a: seq<Event>, b: seq<Event>) returns (n: State)
    requires Core(s) && a != [] && Exec(s, a).Some?
    ensures Core(n) && Exec(s, a) == Exec(n, a[1..]) && Exec(s, a + b) == Exec(n, a[1..] + b)
  {
    assert a[0].Step? ==> ThreadOk(s, a[0].thread);
    n := Next(s, a[0]);
    NextKeeps(s, a[0]);
    assert (a + b)[0] == a[0] && (a + b)[1..] == a[1..] + b;
  }

  lemma {:induction false} ExecConcat(s: State, a: seq<Event>, b: seq<Event>)
    requires Core(s) && Exec(s, a).Some?
    ensures Core(Exec(s, a).value) && Exec(s, a + b) == Exec(Exec(s, a).value, b)
    decreases |a|
  {
    if a == [] {
      assert a + b == b;
    } else {
      var n := ExecFirst(s, a, b);
      ExecConcat(n, a[1..], b);
    }
  }

  lemma {:induction false} ExecReaches(s: State, es: seq<Event>)
    requires Reachable(s) && Core(s) && Exec(s, es).Some?
    ensures Reachable(Exec(s, es).value)
    decreases |es|
  {
    if es != [] {
      var n := ReachMore(s, es[0]);
      NextKeeps(s, es[0]);
      ExecReaches(n, es[1..]);
    }
  }

  /** `es` leads from `s` to `n`, and the only worker that finishes on the way is that of slot `i`. */
  ghost predicate Leads(s: State, es: seq<Event>, n: State, i: nat) {
    && Core(s) && Exec(s, es) == Some(n) && Core(n)
    && forall k :: 0 <= k < |es| && es[k].WorkerDone? ==> es[k].slot == i
  }

  lemma LeadsOn(s: State, es: seq<Event>, m: State, e: Event, i: nat) returns (all: seq<Event>, n: State)
    requires Leads(s, es, m, i) && Enabled(m, e) && (e.WorkerDone? ==> e.slot == i)
    ensures (e.Step? ==> ThreadOk(m, e.thread)) && n == Next(m, e) && Leads(s, all, n, i)
  {
    all := es + [e];
    ExecMore(s, es, e);
    n := Next(m, e);
    NextKeeps(m, e);
  }

  // ----- one release, undisturbed -----

  /** All calls have returned, and the key's slot is open and not at work. */
  predicate ReadyToGo(s: State, t: nat, key: Key, i: nat) {
    && AllReturned(s) && t < |s.pcs| && s.registry == None && key in s.table && s.table[key] == i < |s.slots|
    && s.slots[i].key == key && s.slots[i].holder == None && !s.slots[i].closed && s.slots[i].work != Running
  }

  /** Between calls nothing is locked, and whatever the table lists is open. */
  lemma RestingState(s: State, key: Key)
    requires Core(s) && AllReturned(s) && key in s.table
    ensures s.registry == None && s.table[key] < |s.slots|
    ensures var slot := s.slots[s.table[key]]; slot.key == key && slot.holder == None && !slot.closed
  {
    assert KeyOk(s, key);
    assert SlotOk(s, s.table[key]);
  }

  lemma LetWorkerFinish(s: State, t: nat, key: Key) returns (es: seq<Event>, n: State)
    requires Core(s) && AllReturned(s) && t < |s.pcs| && key in s.table
    ensures s.table[key] < |s.slots| && Leads(s, es, n, s.table[key])
    ensures ReadyToGo(n, t, key, s.table[key]) && n.table == s.table && |n.pcs| == |s.pcs|
  {
    RestingState(s, key);
    var i := s.table[key];
    assert Exec(s, []) == Some(s);
    if s.slots[i].work == Running {
      es, n := LeadsOn(s, [], s, WorkerDone(i), i);
    } else {
      es, n := [], s;
    }
  }

  lemma FindsSlot(s: State, t: nat, key: Key, i: nat) returns (es: seq<Event>, n: State)
    requires Core(s) && ReadyToGo(s, t, key, i)
    ensures Leads(s, es, n, i) && n == SetPc(s, t, Found(Release(key), i))
  {
    var c := Release(key);
    assert s.pcs[t].Idle? && Exec(s, []) == Some(s);
    es, n := LeadsOn(s, [], s, Invoke(t, c), i);
    es, n := LeadsOn(s, es, n, Step(t, true), i);
    assert n == SetPc(s.(registry := Some(t)), t, Looking(c));
    es, n := LeadsOn(s, es, n, Step(t, true), i);
    assert n == SetPc(s, t, Found(c, i));
  }

  lemma GetsInside(s: State, t: nat, key: Key, i: nat) returns (es: seq<Event>, n: State)
    requires Core(s) && t < |s.pcs| && i < |s.slots| && s.pcs[t] == Found(Release(key), i) && s.slots[i].holder == None
    ensures Leads(s, es, n, i) && n.pcs == s.pcs[t := Inside(Release(key), i)]
    ensures n == s.(pcs := n.pcs, slots := n.slots) && |n.slots| == |s.slots|
    ensures n.slots[i].closed == s.slots[i].closed && n.slots[i].work == s.slots[i].work
  {
    assert Exec(s, []) == Some(s);
    es, n := LeadsOn(s, [], s, Step(t, true), i);
    assert n.pcs[t] == Trying(Release(key), i) && n.slots[i].holder == None;
    es, n := LeadsOn(s, es, n, Step(t, true), i);
    assert n.pcs == s.pcs[t := Inside(Release(key), i)];
  }

  /** Closes the job and takes the registry. */
  lemma Closes(s: State, t: nat, key: Key, i: nat) returns (es: seq<Event>, n: State)
    requires Core(s) && t < |s.pcs| && s.pcs[t] == Inside(Release(key), i) && i < |s.slots|
    requires s.registry == None && !s.slots[i].closed && s.slots[i].work != Running
    ensures Leads(s, es, n, i) && n.pcs == s.pcs[t := Registering(Release(key), i)]
    ensures n == s.(pcs := n.pcs, slots := n.slots, registry := Some(t)) && |n.slots| == |s.slots|
  {
    assert Exec(s, []) == Some(s);
    es, n := LeadsOn(s, [], s, Step(t, true), i);
    es, n := LeadsOn(s, es, n, Step(t, true), i);
    assert n.pcs == s.pcs[t := Registering(Release(key), i)];
  }

  lemma GetsOut(s: State, t: nat, key: Key, i: nat) returns (es: seq<Event>, n: State)
    requires Core(s) && t < |s.pcs| && s.pcs[t] == Registering(Release(key), i) && i < |s.slots| && key in s.table
    ensures Leads(s, es, n, i) && n.pcs == s.pcs[t := Idle]
    ensures n.table == s.table - {key} && n.log == s.log + [Returned(t, Release(key), OK)]
  {
    assert Exec(s, []) == Some(s);
    es, n := LeadsOn(s, [], s, Step(t, true), i);
    es, n := LeadsOn(s, es, n, Step(t, true), i);
    assert n.pcs == s.pcs[t := Idle];
  }

  lemma LeadsThrough(s: State, a: seq<Event>, m: State, b: seq<Event>, n: State, i: nat)
    requires Leads(s, a, m, i) && Leads(m, b, n, i)
    ensures Leads(s, a + b, n, i)
  {
    ExecConcat(s, a, b);
  }

  lemma OneRelease(s: State, t: nat, key: Key, i: nat) returns (es: seq<Event>, n: State)
    requires Core(s) && ReadyToGo(s, t, key, i)
    ensures Leads(s, es, n, i) && n.pcs == s.pcs[t := Idle]
    ensures n.table == s.table - {key} && |n.log| > 0 && n.log[|n.log| - 1] == Returned(t, Release(key), OK)
  {
    var a, k := FindsSlot(s, t, key, i);
    var b, l := GetsInside(k, t, key, i);
    LeadsThrough(s, a, k, b, l, i);
    var c, m := Closes(l, t, key, i);
    LeadsThrough(s, a + b, l, c, m, i);
    var d;
    d, n := GetsOut(m, t, key, i);
    LeadsThrough(s, a + b + c, m, d, n, i);
    es := a + b + c + d;
    assert n.pcs == s.pcs[t := Idle];
  }

  /**
   With all calls returned, any thread can release any live handle: it is told OK and exactly that entry is
   gone, and no worker but the handle's own has to finish for it.
   */
  lemma HandleCanBeReleased(s: State, t: nat, key: Key) returns (es: seq<Event>, n: State)
    requires Core(s) && AllReturned(s) && t < |s.pcs| && key in s.table
    ensures Leads(s, es, n, s.table[key]) && AllReturned(n)
    ensures n.table == s.table - {key}
    ensures |n.log| > 0 && n.log[|n.log| - 1] == Returned(t, Release(key), OK)
  {
    var i := s.table[key];
    var a, l := LetWorkerFinish(s, t, key);
    var b;
    b, n := OneRelease(l, t, key, i);
    LeadsThrough(s, a, l, b, n, i);
    es := a + b;
  }

  // ----- from any state -----

  /** A slot that the table no longer lists was released with OK, once no call is pending. */
  lemma GoneMeansReleased(s: State, i: nat)
    requires Core(s) && Hist(s) && AllReturned(s) && i < |s.slots| && s.slots[i].key !in s.table
    ensures exists p :: 0 <= p < |s.log| && OkRelease(s.log[p], s.slots[i].key)
  {
    assert SlotOk(s, i) && SlotHist(s, i);
    SomeEntry(s.log, s.slots[i].key);
  }

  lemma {:induction false} SomeEntry(log: seq<Entry>, key: Key)
    requires Releases(log, key) > 0
    ensures exists p :: 0 <= p < |log| && OkRelease(log[p], key)
  {
    if !OkRelease(log[|log| - 1], key) {
      SomeEntry(log[..|log| - 1], key);
      var p :| 0 <= p < |log| - 1 && OkRelease(log[..|log| - 1][p], key);
      assert OkRelease(log[p], key);
    }
  }

  /**
   Whatever is going on, each live handle has a continuation, with no worker but its own finishing, after
   which all calls have returned, the handle is gone, and a release of it has returned OK.
   */
  lemma EveryHandleCanGo(s: State, t: nat, key: Key) returns (es: seq<Event>, n: State)
    requires Reachable(s) && t < |s.pcs| && key in s.table
    ensures Leads(s, es, n, s.table[key]) && AllReturned(n)
    ensures key !in n.table && exists p :: 0 <= p < |n.log| && OkRelease(n.log[p], key)
  {
    ReachableOk(s);
    assert KeyOk(s, key);
    var i := s.table[key];
    var a := CallsReturn(s);
    var m := Exec(s, a).value;
    NeverReused(s, a);
    ExecReaches(s, a);
    ReachableOk(m);
    assert SlotContinues(s.slots[i], m.slots[i]);
    assert Leads(s, a, m, i);
    if key in m.table {
      SameSlot(m, key, i);
      var b;
      b, n := HandleCanBeReleased(m, t, key);
      LeadsThrough(s, a, m, b, n, i);
      es := a + b;
      assert OkRelease(n.log[|n.log| - 1], key);
    } else {
      es, n := a, m;
      GoneMeansReleased(m, i);
    }
  }

  lemma SameSlot(s: State, key: Key, i: nat)
    requires Core(s) && key in s.table && i < |s.slots| && s.slots[i].key == key
    ensures s.table[key] == i
  {
    assert KeyOk(s, key);
    if s.table[key] != i { KeysDistinct(s, s.table[key], i); }
  }
}
