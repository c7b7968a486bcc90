/** What each step of each call finds, answers and leaves behind, in every reachable state. */
module ProtocolAnswers {
  import opened Status
  import opened Protocol
  import opened ProtocolHistory

  /** Only the stepping thread's program counter has changed, to `pc`, and only this entry is new. */
  predicate Goes(s: State, n: State, t: nat, pc: Pc, extra: seq<Entry>)
    requires t < |s.pcs|
  {
    n.pcs == s.pcs[t := pc] && n.log == s.log + extra && n.next == s.next
  }

  lemma Steps(s: State, t: nat)
    requires Reachable(s) && t < |s.pcs|
    ensures ThreadOk(s, t) && Core(s)
  {
    ReachableOk(s);
  }

  /** A look-up clones the live slot of exactly that key, or answers INVALID_HANDLE; the registry is free again. */
  lemma LookupAnswers(s: State, t: nat, ok: bool)
    requires Reachable(s) && t < |s.pcs| && s.pcs[t].Looking?
    ensures CanStep(s, t) && ThreadOk(s, t) && !s.pcs[t].call.Start?
    ensures var c, n := s.pcs[t].call, Advance(s, t, ok);
      && n.slots == s.slots && n.table == s.table && n.registry.None?
      && (Target(c) in s.table ==>
            && s.table[Target(c)] < |s.slots| && s.slots[s.table[Target(c)]].key == Target(c)
            && Goes(s, n, t, Found(c, s.table[Target(c)]), []))
      && (Target(c) !in s.table ==> Goes(s, n, t, Idle, [Returned(t, c, INVALID_HANDLE)]))
  {
    Steps(s, t);
    assert KeyOk(s, Target(s.pcs[t].call));
  }

  /** A lock-free cancel sets the flag and is done; so does a cancelling release before it tries the lock. */
  lemma FoundAnswers(s: State, t: nat, ok: bool)
    requires Reachable(s) && t < |s.pcs| && s.pcs[t].Found?
    ensures CanStep(s, t) && ThreadOk(s, t) && s.pcs[t].slot < |s.slots|
    ensures var c, i, n := s.pcs[t].call, s.pcs[t].slot, Advance(s, t, ok);
      var flagged := s.slots[i := s.slots[i].(cancelled := true)];
      && n.table == s.table && n.registry == s.registry
      && (c.Cancel? ==> n.slots == flagged && Goes(s, n, t, Idle, [Returned(t, c, OK)]))
      && (!c.Cancel? ==> Goes(s, n, t, Trying(c, i), []))
      && (c.Release? && c.key.kind in {Picked, Simulator, Runtime} ==> n.slots == flagged)
      && (!c.Cancel? && !(c.Release? && c.key.kind in {Picked, Simulator, Runtime}) ==> n.slots == s.slots)
  {
    Steps(s, t);
  }

  /** Polls, results and queries touch open jobs only, and change nothing of what the protocol sees. */
  lemma UseAnswers(s: State, t: nat, ok: bool)
    requires Reachable(s) && t < |s.pcs| && s.pcs[t].Inside? && s.pcs[t].call.Use?
    ensures CanStep(s, t) && ThreadOk(s, t) && s.pcs[t].slot < |s.slots|
    ensures var c, i, n := s.pcs[t].call, s.pcs[t].slot, Advance(s, t, ok);
      && n.slots == s.slots && n.table == s.table && n.registry == s.registry
      && (s.slots[i].closed ==> Goes(s, n, t, Leaving(c, i, INVALID_HANDLE), []))
      && (!s.slots[i].closed ==> Goes(s, n, t, Leaving(c, i, if ok then OK else NOT_READY), [Touched(c.key)]))
  {
    Steps(s, t);
  }

  /** An execute is OK, and starts one worker, exactly in an open job with no worker left and a good request. */
  lemma ExecuteAnswers(s: State, t: nat, ok: bool)
    requires Reachable(s) && t < |s.pcs| && s.pcs[t].Inside? && s.pcs[t].call.Execute?
    ensures CanStep(s, t) && ThreadOk(s, t) && s.pcs[t].slot < |s.slots|
    ensures var c, i, n := s.pcs[t].call, s.pcs[t].slot, Advance(s, t, ok);
      var slot := s.slots[i];
      && n.table == s.table && n.registry == s.registry
      && (slot.closed ==> n.slots == s.slots && Goes(s, n, t, Leaving(c, i, INVALID_HANDLE), []))
      && (!slot.closed && slot.work == Finished && ok ==>
            && n.slots == s.slots[i := slot.(work := Running)]
            && Goes(s, n, t, Leaving(c, i, OK), [Touched(c.key), Spawned(c.key)]))
      && (!slot.closed && !(slot.work == Finished && ok) ==>
            n.slots == s.slots && Goes(s, n, t, Leaving(c, i, NOT_READY), [Touched(c.key)]))
  {
    Steps(s, t);
  }

  lemma CancelAnswers(s: State, t: nat, ok: bool)
    requires Reachable(s) && t < |s.pcs| && s.pcs[t].Inside? && s.pcs[t].call.CancelLocked?
    ensures CanStep(s, t) && ThreadOk(s, t) && s.pcs[t].slot < |s.slots|
    ensures var c, i, n := s.pcs[t].call, s.pcs[t].slot, Advance(s, t, ok);
      && n.table == s.table && n.registry == s.registry
      && (s.slots[i].closed ==> n.slots == s.slots && Goes(s, n, t, Leaving(c, i, INVALID_HANDLE), []))
      && (!s.slots[i].closed ==>
            && n.slots == s.slots[i := s.slots[i].(cancelled := true)]
            && Goes(s, n, t, Leaving(c, i, OK), [Touched(c.key)]))
  {
    Steps(s, t);
  }

  /** A release inside the job: refused on a closed one, BUSY and cancelling on one at work, else it closes. */
  lemma ReleaseAnswers(s: State, t: nat, ok: bool)
    requires Reachable(s) && t < |s.pcs| && s.pcs[t].Inside? && s.pcs[t].call.Release?
    ensures CanStep(s, t) && ThreadOk(s, t) && s.pcs[t].slot < |s.slots|
    ensures var c, i, n := s.pcs[t].call, s.pcs[t].slot, Advance(s, t, ok);
      var slot := s.slots[i];
      && n.table == s.table && n.registry == s.registry
      && (slot.closed ==> n.slots == s.slots && Goes(s, n, t, Leaving(c, i, INVALID_HANDLE), []))
      && (!slot.closed && slot.work == Running ==>
            n.slots == s.slots[i := slot.(cancelled := true)] && Goes(s, n, t, Leaving(c, i, BUSY), []))
      && (!slot.closed && slot.work != Running ==>
            && n.slots == s.slots[i := slot.(closed := true, cancelled := slot.cancelled || c.key.kind == Orphan)]
            && Goes(s, n, t, NeedRegistry(c, i), []))
  {
    Steps(s, t);
  }

  /** It then removes exactly its own entry, still holding the job, and says OK. */
  lemma RemovalAnswers(s: State, t: nat, ok: bool)
    requires Reachable(s) && t < |s.pcs| && s.pcs[t].Registering? && s.pcs[t].call.Release?
    ensures CanStep(s, t) && ThreadOk(s, t)
    ensures var c, i, n := s.pcs[t].call, s.pcs[t].slot, Advance(s, t, ok);
      && n.slots == s.slots && n.table == s.table - {c.key} && n.registry.None?
      && Goes(s, n, t, Leaving(c, i, OK), [])
  {
    Steps(s, t);
  }

  /** Leaving unlocks the job and returns what was decided inside. */
  lemma LeavingAnswers(s: State, t: nat, ok: bool)
    requires Reachable(s) && t < |s.pcs| && s.pcs[t].Leaving?
    ensures CanStep(s, t) && ThreadOk(s, t) && s.pcs[t].slot < |s.slots|
    ensures var c, i, code, n := s.pcs[t].call, s.pcs[t].slot, s.pcs[t].code, Advance(s, t, ok);
      && n.table == s.table && n.registry == s.registry
      && n.slots == s.slots[i := s.slots[i].(holder := None)]
      && Goes(s, n, t, Idle, [Returned(t, c, code)])
  {
    Steps(s, t);
  }

  /** The registry lock is waited for and then held; nothing else happens with it. */
  lemma LockAnswers(s: State, t: nat, ok: bool)
    requires Reachable(s) && t < |s.pcs| && WaitsForRegistry(s.pcs[t]) && s.registry.None?
    ensures CanStep(s, t) && ThreadOk(s, t)
    ensures var c, n := s.pcs[t].call, Advance(s, t, ok);
      && n.slots == s.slots && n.table == s.table && n.registry == Some(t)
      && Goes(s, n, t, if s.pcs[t].Ready? then Looking(c) else if s.pcs[t].NeedStart? then Starting(c)
                       else Registering(c, s.pcs[t].slot), [])
  {
    Steps(s, t);
  }

  /** The kind of job each inserting call adds, and whether it comes from another job. */
  predicate Adds(c: Call, k: Kind, derived: bool) {
    match c
    case Start(kind) => k == kind && !derived
    case SelectionStart(_) => k == Installer && derived
    case PurgeExecute(_) => k == Purge && derived
    case _ => false
  }

  /** An insertion: refused for capacity with nothing spent, failed with the handle spent, or a new open job. */
  predicate Inserted(s: State, n: State, c: Call, ok: bool, code: int) {
    var full := |CountedKeys(s.table)| >= 4 || s.next >= 0xFFFF_FFFF_FFFF_FFFF;
    && (full ==> code == LIMIT_EXCEEDED && n.next == s.next && n.table == s.table && n.slots == s.slots)
    && (!full && !ok ==> code == INTERNAL_ERROR && n.next == s.next + 1 && n.table == s.table && n.slots == s.slots)
    && (!full && ok ==>
          && code == OK && n.next == s.next + 1 && |n.slots| == |s.slots| + 1 && s.slots <= n.slots
          && var slot := n.slots[|s.slots|];
             && Adds(c, slot.key.kind, slot.derived) && slot.key.handle == s.next
             && n.table == s.table[slot.key := |s.slots|]
             && slot.holder.None? && !slot.closed && !slot.cancelled
             && slot.work == if slot.key.kind in {Uninstall, EmptyTrash} then NoWork else Running)
  }

  lemma InsertAnswers(s: State, c: Call, ok: bool)
    requires 1 <= s.next <= U64_MAX && (c.Start? || c.SelectionStart? || c.PurgeExecute?)
    ensures Inserted(s, Insert(s, c, ok).0, c, ok, Insert(s, c, ok).1)
    ensures Insert(s, c, ok).0.pcs == s.pcs
    ensures var n := Insert(s, c, ok).0;
      n.log == s.log + if |n.slots| > |s.slots| && n.slots[|s.slots|].work == Running
                       then [Spawned(n.slots[|s.slots|].key)] else []
  {
  }

  /** Starts and purge executions insert without a job lock and return; a selection still has its discovery to leave. */
  lemma StartAnswers(s: State, t: nat, ok: bool)
    requires Reachable(s) && t < |s.pcs| && s.pcs[t].Starting?
    ensures CanStep(s, t) && ThreadOk(s, t)
    ensures var c, n := s.pcs[t].call, Advance(s, t, ok);
      && n.registry.None? && n.pcs == s.pcs[t := Idle] && |n.log| > 0
      && n.log[|n.log| - 1].Returned? && n.log[|n.log| - 1].call == c && n.log[|n.log| - 1].thread == t
      && Inserted(s, n, c, ok, n.log[|n.log| - 1].code)
  {
    Steps(s, t);
    InsertAnswers(s.(registry := None), s.pcs[t].call, ok);
  }

  lemma SelectionAnswers(s: State, t: nat, ok: bool)
    requires Reachable(s) && t < |s.pcs| && s.pcs[t].Registering? && s.pcs[t].call.SelectionStart?
    ensures CanStep(s, t) && ThreadOk(s, t)
    ensures var c, n := s.pcs[t].call, Advance(s, t, ok);
      && n.registry.None? && n.pcs[t].Leaving? && n.pcs == s.pcs[t := Leaving(c, s.pcs[t].slot, n.pcs[t].code)]
      && Inserted(s, n, c, ok, n.pcs[t].code)
  {
    Steps(s, t);
    InsertAnswers(s.(registry := None), s.pcs[t].call, ok);
  }

  /** Which keys count against the cap of four: those of every kind but one. */
  lemma CountedAre(table: map<Key, nat>, key: Key)
    ensures key in CountedKeys(table) <==>
      key in table && key.kind in {Scan, Installer, Purge, Uninstall, Picked, Simulator, Orphan, EmptyTrash}
  {
  }

  /** The map each call looks into. */
  lemma CallsName(c: Call)
    requires !c.Start?
    ensures c.SelectionStart? ==> Target(c) == Key(Installer, c.source)
    ensures c.PurgeExecute? ==> Target(c) == Key(Purge, c.preview)
    ensures !c.SelectionStart? && !c.PurgeExecute? ==> Target(c) == c.key
  {
  }

  /** The calls there are: who can cancel how, and who can execute on the same handle. */
  lemma CallsThereAre(c: Call)
    ensures c.Cancel? ==> (WellFormedCall(c) <==> c.key.kind in {Picked, Simulator, Runtime, Uninstall})
    ensures c.CancelLocked? ==> (WellFormedCall(c) <==> c.key.kind in {Scan, Installer, Purge, Orphan})
    ensures c.Execute? ==> (WellFormedCall(c) <==> c.key.kind in {Picked, Simulator, Runtime, Orphan})
    ensures !c.Cancel? && !c.CancelLocked? && !c.Execute? ==> WellFormedCall(c)
  {
  }

  /** A call begins by waiting for the registry; a worker that finishes marks its slot and nothing else. */
  lemma OtherEvents(s: State, t: nat, c: Call, i: nat)
    requires Reachable(s)
    ensures Enabled(s, Invoke(t, c)) ==>
      var n := Next(s, Invoke(t, c));
      s.pcs[t].Idle? && n == s.(pcs := s.pcs[t := if c.Start? then NeedStart(c) else Ready(c)])
    ensures Enabled(s, WorkerDone(i)) ==>
      var n := Next(s, WorkerDone(i));
      && s.slots[i].work == Running
      && n == s.(slots := s.slots[i := s.slots[i].(work := Finished)], log := s.log + [WorkerExit(s.slots[i].key)])
    ensures i < |s.slots| && s.slots[i].work == Running ==> Enabled(s, WorkerDone(i))
    ensures t < |s.pcs| && s.pcs[t].Idle? && WellFormedCall(c) ==> Enabled(s, Invoke(t, c))
  {
  }
}
