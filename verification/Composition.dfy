/**
 The protocol with a job in every slot. Each step of a thread inside a job is one of that job's own calls,
 with whatever arguments the caller chose, and each event of a worker is a step of the job's worker. The
 answer the job gives is the outcome the protocol goes on with.
 */
module Composition {
  import opened Status
  import opened Protocol
  import opened ProtocolSafety
  import opened ProtocolHistory
  import opened ProtocolTheorems
  import ProtocolCancel
  import PreviewJob = Retained
  import OrphanJob = Orphan
  import UninstallJob = Uninstall
  import Refinement

  /** What lives behind a slot: the engine's own jobs (scans and the like) carry no state of theirs here. */
  datatype Body<+T> =
    | Previews(previews: PreviewJob.Job<T>)
    | Leftovers(leftovers: OrphanJob.Job<T>)
    | App(app: UninstallJob.Job)
    | Engine

  /** One operation of a job, or how an engine call ended, with what a new uninstall handle was prepared from. */
  datatype Op<!T> =
    | OnPreviews(p: PreviewJob.Event<T>)
    | OnLeftovers(o: OrphanJob.Event<T>)
    | OnApp(u: UninstallJob.Event)
    | Outcome(ok: bool, plan: Option<bool>, evidence: bool)

  datatype World<+T> = World(s: State, bodies: seq<Body<T>>)

  datatype Act<!T> =
    | Calls(thread: nat, call: Call)
    | Steps(thread: nat, op: Op<T>)
    | Works(slot: nat, op: Op<T>)

  // ----- one job -----

  function New<T>(k: Kind, op: Op<T>): Body<T> {
    if CancelsBeforeTrying(k) then Previews(PreviewJob.Init())
    else if k == Kind.Orphan then Leftovers(OrphanJob.Init())
    else if k == Kind.Uninstall then
      if op.Outcome? then App(UninstallJob.Start(op.plan, op.evidence)) else App(UninstallJob.Start(None, false))
    else Engine
  }

  function Perform<T>(b: Body<T>, op: Op<T>): Body<T> {
    match b
    case Previews(j) => if op.OnPreviews? then Previews(PreviewJob.Next(j, op.p)) else b
    case Leftovers(j) => if op.OnLeftovers? then Leftovers(OrphanJob.Next(j, op.o)) else b
    case App(j) => if op.OnApp? then App(UninstallJob.Call(j, op.u).0) else b
    case Engine => b
  }

  /** The operations a call of this kind can make inside the job; an uninstall's result call changes nothing. */
  predicate Makes<T>(c: Call, b: Body<T>, op: Op<T>) {
    match b
    case Previews(_) =>
      && op.OnPreviews?
      && (if c.Use? then op.p.DoRead? else if c.Execute? then op.p.DoExecute? else c.Release? && op.p.DoRelease?)
    case Leftovers(_) =>
      && op.OnLeftovers?
      && (if c.Use? then op.o.DoPoll? || op.o.DoRead? else if c.Execute? then op.o.DoExecute?
          else if c.CancelLocked? then op.o.DoCancel? else c.Release? && op.o.DoRelease?)
    case App(_) =>
      if c.Use? then op.Outcome? || (op.OnApp? && !op.u.DoRelease?) else c.Release? && op.OnApp? && op.u.DoRelease?
    case Engine => op.Outcome?
  }

  /** Whether the job answers the call with OK. */
  function Answer<T>(b: Body<T>, op: Op<T>): bool {
    match b
    case Previews(j) =>
      if !op.OnPreviews? then false
      else
        match op.p {
          case DoExecute(check, spawnOk) => PreviewJob.Execute(j, check, spawnOk).1 == OK
          case DoRelease => PreviewJob.Release(j).1 == OK
          case _ => PreviewJob.ReadResult(j).1.Ok?
        }
    case Leftovers(j) =>
      if !op.OnLeftovers? then false
      else
        match op.o {
          case DoExecute(spawnOk) => OrphanJob.Execute(j, spawnOk).1 == OK
          case DoPoll => OrphanJob.Poll(j).1.Ok?
          case DoCancel => OrphanJob.Cancel(j).1 == OK
          case DoRelease => OrphanJob.Release(j).1 == OK
          case _ => OrphanJob.ReadResult(j).1.Ok?
        }
    case App(j) => if op.OnApp? then UninstallJob.Call(j, op.u).1 == OK else UninstallJob.ReadResult(j).Ok?
    case Engine => op.Outcome? && op.ok
  }

  function Ask<T>(b: Body<T>): Body<T> {
    if b.Previews? then Previews(PreviewJob.Cancel(b.previews)) else b
  }

  predicate WorkerOp<T>(b: Body<T>, op: Op<T>) {
    match b
    case Previews(_) => op.OnPreviews? && Refinement.WorkerEvent(op.p)
    case Leftovers(_) => op.OnLeftovers? && op.o.DoExit?
    case App(_) => false
    case Engine => op.Outcome?
  }

  predicate Busy<T>(b: Body<T>) {
    match b
    case Previews(j) => Refinement.AtWork(j)
    case Leftovers(j) => OrphanJob.AtWork(j)
    case App(_) => false
    case Engine => false
  }

  /** The worker event is the worker's last. An engine worker has only that one. */
  predicate Ends<T>(b: Body<T>, op: Op<T>) { b.Engine? || (Busy(b) && !Busy(Perform(b, op))) }

  // ----- the product -----

  predicate Offers<T>(w: World<T>, t: nat, op: Op<T>)
    requires t < |w.s.pcs|
  {
    match w.s.pcs[t]
    case Inside(c, i) => i < |w.bodies| && Makes(c, w.bodies[i], op)
    case _ => op.Outcome?
  }

  /** How the engine or the job ends the step: the outcome the protocol leaves open. */
  function Ok<T>(w: World<T>, t: nat, op: Op<T>): bool
    requires t < |w.s.pcs| && Offers(w, t, op)
  {
    match w.s.pcs[t]
    case Inside(_, i) => Answer(w.bodies[i], op)
    case _ => op.ok
  }

  predicate Possible<T>(w: World<T>, a: Act<T>)
    requires |w.bodies| == |w.s.slots|
  {
    match a
    case Calls(t, c) => Enabled(w.s, Invoke(t, c))
    case Steps(t, op) => CanStep(w.s, t) && Offers(w, t, op)
    case Works(i, op) =>
      i < |w.bodies| && WorkerOp(w.bodies[i], op) && (w.bodies[i].Engine? ==> w.s.slots[i].work == Running)
  }

  /** The protocol event of the act: none for a worker event that is not the worker's last. */
  function Projected<T>(w: World<T>, a: Act<T>): seq<Event>
    requires |w.bodies| == |w.s.slots| && Possible(w, a)
  {
    match a
    case Calls(t, c) => [Invoke(t, c)]
    case Steps(t, op) => [Step(t, Ok(w, t, op))]
    case Works(i, op) => if Ends(w.bodies[i], op) then [WorkerDone(i)] else []
  }

  /** The jobs after the step of thread `t` that leads the protocol to `n`. */
  function Bodies<T>(w: World<T>, n: State, t: nat, op: Op<T>): seq<Body<T>>
    requires |w.bodies| == |w.s.slots| && t < |w.s.pcs| && Offers(w, t, op)
  {
    match w.s.pcs[t]
    case Inside(_, i) => w.bodies[i := Perform(w.bodies[i], op)]
    case Found(c, i) =>
      if ProtocolCancel.Cancels(c) && i < |w.bodies| then w.bodies[i := Ask(w.bodies[i])] else w.bodies
    case _ =>
      if |n.slots| > |w.s.slots| then w.bodies + [New(n.slots[|w.s.slots|].key.kind, op)] else w.bodies
  }

  ghost function Move<T>(w: World<T>, a: Act<T>): World<T>
    requires Agree(w) && Possible(w, a)
  {
    EventIsEnabled(w, a);
    var n := if Projected(w, a) == [] then w.s else Next(w.s, Projected(w, a)[0]);
    match a
    case Calls(_, _) => World(n, w.bodies)
    case Steps(t, op) => World(n, Bodies(w, n, t, op))
    case Works(i, op) => World(n, w.bodies[i := Perform(w.bodies[i], op)])
  }

  // ----- what the two sides agree on -----

  /** The slot is what the protocol sees of this job, and the job keeps its own invariant. */
  predicate Fits<T>(slot: Slot, b: Body<T>) {
    match b
    case Previews(j) =>
      && CancelsBeforeTrying(slot.key.kind) && PreviewJob.Inv(j)
      && slot == Refinement.OfRetained(slot.key, slot.holder, j)
    case Leftovers(j) =>
      && slot.key.kind == Kind.Orphan && OrphanJob.Inv(j)
      && slot == Refinement.OfOrphan(slot.key, slot.holder, j)
    case App(j) =>
      && slot.key.kind == Kind.Uninstall && UninstallJob.Inv(j)
      && slot == Refinement.OfUninstall(slot.key, slot.holder, slot.cancelled, j)
    case Engine => slot.key.kind in {Scan, Installer, Purge, EmptyTrash}
  }

  function Launches<T>(b: Body<T>): nat {
    match b
    case Previews(j) => j.launches
    case Leftovers(j) => j.launches
    case App(_) => 0
    case Engine => 0
  }

  function Spawns(log: seq<Entry>, key: Key): nat {
    if log == [] then 0 else Spawns(log[..|log| - 1], key) + if log[|log| - 1] == Spawned(key) then 1 else 0
  }

  /** The workers the log shows for the slot are the first one and those the job launched. */
  predicate CountFits<T>(log: seq<Entry>, slot: Slot, b: Body<T>) {
    Spawns(log, slot.key) == (if HasWorker(slot.key.kind) then 1 else 0) + Launches(b)
  }

  predicate Agrees<T>(log: seq<Entry>, slot: Slot, b: Body<T>) { Fits(slot, b) && CountFits(log, slot, b) }

  predicate NeverSpawned(s: State, key: Key) { HasSlot(s.slots, key) || Spawns(s.log, key) == 0 }

  ghost predicate Agree<T>(w: World<T>) {
    && Reachable(w.s) && |w.bodies| == |w.s.slots|
    && (forall i :: 0 <= i < |w.bodies| ==> Agrees(w.s.log, w.s.slots[i], w.bodies[i]))
    && (forall key :: NeverSpawned(w.s, key))
  }

  /** The protocol admits the event of every possible act. */
  lemma EventIsEnabled<T>(w: World<T>, a: Act<T>)
    requires Agree(w) && Possible(w, a)
    ensures forall e :: e in Projected(w, a) ==> Enabled(w.s, e) && (e.Step? ==> ThreadOk(w.s, e.thread))
  {
    ReachableOk(w.s);
    match a
    case Calls(_, _) =>
    case Steps(t, _) => assert ThreadOk(w.s, t);
    case Works(i, _) => assert Agrees(w.s.log, w.s.slots[i], w.bodies[i]);
  }

  // ----- a step inside a job -----

  /** The execute call gets past the protocol's checks and starts a worker. */
  predicate Respawned(c: Call, slot: Slot, ok: bool) { c.Execute? && ok && !slot.closed && slot.work == Finished }

  /** The job side and the protocol side of one call inside slot `i`: slot, launches and answer agree. */
  predicate SidesAgree<T>(s: State, t: nat, c: Call, i: nat, b: Body<T>, op: Op<T>)
    requires t < |s.pcs| && i < |s.slots|
  {
    var n := StepInside(s, t, c, i, Answer(b, op));
    && i < |n.slots| && t < |n.pcs| && Fits(n.slots[i], Perform(b, op))
    && Launches(Perform(b, op)) == Launches(b) + (if Respawned(c, s.slots[i], Answer(b, op)) then 1 else 0)
    && (!b.Engine? ==> (Answer(b, op) <==> n.pcs[t].NeedRegistry? || (n.pcs[t].Leaving? && n.pcs[t].code == OK)))
  }

  predicate IsInside<T>(s: State, t: nat, c: Call, i: nat, b: Body<T>, op: Op<T>) {
    && t < |s.pcs| && i < |s.slots| && WellFormedCall(c) && !c.Start? && Target(c) == s.slots[i].key
    && Fits(s.slots[i], b) && Makes(c, b, op)
    && (ProtocolCancel.Cancels(c) ==> s.slots[i].cancelled)
  }

  lemma UsePreviews<T>(s: State, t: nat, c: Call, i: nat, b: Body<T>, op: Op<T>)
    requires b.Previews? && c.Use? && IsInside(s, t, c, i, b, op)
    ensures SidesAgree(s, t, c, i, b, op)
  {
    PreviewJob.NextKeeps(b.previews, op.p);
    Refinement.RetainedReadRefines(s, t, i, b.previews, Answer(b, op));
  }

  lemma ExecutePreviews<T>(s: State, t: nat, c: Call, i: nat, b: Body<T>, op: Op<T>)
    requires b.Previews? && c.Execute? && IsInside(s, t, c, i, b, op)
    ensures SidesAgree(s, t, c, i, b, op)
  {
    PreviewJob.NextKeeps(b.previews, op.p);
    Refinement.RetainedExecuteRefines(s, t, i, b.previews, op.p.check, op.p.spawnOk);
  }

  lemma ReleasePreviews<T>(s: State, t: nat, c: Call, i: nat, b: Body<T>, op: Op<T>)
    requires b.Previews? && c.Release? && IsInside(s, t, c, i, b, op)
    ensures SidesAgree(s, t, c, i, b, op)
  {
    PreviewJob.NextKeeps(b.previews, op.p);
    Refinement.RetainedReleaseRefines(s, t, i, b.previews);
  }

  lemma InsidePreviews<T>(s: State, t: nat, c: Call, i: nat, b: Body<T>, op: Op<T>)
    requires b.Previews? && IsInside(s, t, c, i, b, op)
    ensures SidesAgree(s, t, c, i, b, op)
  {
    match c
    case Use(_) => UsePreviews(s, t, c, i, b, op);
    case Execute(_) => ExecutePreviews(s, t, c, i, b, op);
    case Release(_) => ReleasePreviews(s, t, c, i, b, op);
  }

  lemma UseLeftovers<T>(s: State, t: nat, c: Call, i: nat, b: Body<T>, op: Op<T>)
    requires b.Leftovers? && c.Use? && IsInside(s, t, c, i, b, op)
    ensures SidesAgree(s, t, c, i, b, op)
  {
    OrphanJob.NextKeeps(b.leftovers, op.o);
    Refinement.OrphanReadRefines(s, t, i, b.leftovers, Answer(b, op));
  }

  lemma ExecuteLeftovers<T>(s: State, t: nat, c: Call, i: nat, b: Body<T>, op: Op<T>)
    requires b.Leftovers? && c.Execute? && IsInside(s, t, c, i, b, op)
    ensures SidesAgree(s, t, c, i, b, op)
  {
    OrphanJob.NextKeeps(b.leftovers, op.o);
    Refinement.OrphanExecuteRefines(s, t, i, b.leftovers, op.o.spawnOk);
  }

  lemma ReleaseLeftovers<T>(s: State, t: nat, c: Call, i: nat, b: Body<T>, op: Op<T>)
    requires b.Leftovers? && c.Release? && IsInside(s, t, c, i, b, op)
    ensures SidesAgree(s, t, c, i, b, op)
  {
    OrphanJob.NextKeeps(b.leftovers, op.o);
    OrphanJob.CollectKeeps(b.leftovers.(cancelled := true));
    Refinement.OrphanReleaseRefines(s, t, i, b.leftovers);
  }

  lemma CancelLeftovers<T>(s: State, t: nat, c: Call, i: nat, b: Body<T>, op: Op<T>)
    requires b.Leftovers? && c.CancelLocked? && IsInside(s, t, c, i, b, op)
    ensures SidesAgree(s, t, c, i, b, op)
  {
    OrphanJob.NextKeeps(b.leftovers, op.o);
    Refinement.OrphanCancelRefines(s, t, i, b.leftovers);
  }

  lemma InsideLeftovers<T>(s: State, t: nat, c: Call, i: nat, b: Body<T>, op: Op<T>)
    requires b.Leftovers? && IsInside(s, t, c, i, b, op)
    ensures SidesAgree(s, t, c, i, b, op)
  {
    match c
    case Use(_) => UseLeftovers(s, t, c, i, b, op);
    case Execute(_) => ExecuteLeftovers(s, t, c, i, b, op);
    case CancelLocked(_) => CancelLeftovers(s, t, c, i, b, op);
    case Release(_) => ReleaseLeftovers(s, t, c, i, b, op);
  }

  lemma InsideApp<T>(s: State, t: nat, c: Call, i: nat, b: Body<T>, op: Op<T>)
    requires b.App? && IsInside(s, t, c, i, b, op)
    ensures SidesAgree(s, t, c, i, b, op)
  {
    var j := b.app;
    if op.OnApp? { UninstallJob.CallKeeps(j, op.u); }
    if c.Release? { Refinement.UninstallReleaseRefines(s, t, i, j); }
    else if op.OnApp? { Refinement.UninstallCallRefines(s, t, i, j, op.u, Answer(b, op)); }
  }

  lemma InsideEngine<T>(s: State, t: nat, c: Call, i: nat, b: Body<T>, op: Op<T>)
    requires b.Engine? && IsInside(s, t, c, i, b, op)
    ensures SidesAgree(s, t, c, i, b, op)
  {
  }

  lemma InsideAgrees<T>(s: State, t: nat, c: Call, i: nat, b: Body<T>, op: Op<T>)
    requires IsInside(s, t, c, i, b, op)
    ensures SidesAgree(s, t, c, i, b, op)
  {
    match b
    case Previews(_) => InsidePreviews(s, t, c, i, b, op);
    case Leftovers(_) => InsideLeftovers(s, t, c, i, b, op);
    case App(_) => InsideApp(s, t, c, i, b, op);
    case Engine => InsideEngine(s, t, c, i, b, op);
  }

  // ----- what the log shows of the workers -----

  /** From `a` to `b` the log shows one more worker of `key`, if there is one, and none of any other. */
  predicate SpawnsOf(a: seq<Entry>, b: seq<Entry>, key: Option<Key>, k: Key) {
    Spawns(b, k) == Spawns(a, k) + if key == Some(k) then 1 else 0
  }

  lemma SpawnsAppend(log: seq<Entry>, e: Entry, k: Key)
    ensures SpawnsOf(log, log + [e], if e.Spawned? then Some(e.key) else None, k)
  {
    assert (log + [e])[..|log|] == log;
  }

  /** The worker that the step of thread `t` starts. */
  function SpawnedBy(s: State, t: nat, ok: bool): Option<Key>
    requires CanStep(s, t) && ThreadOk(s, t)
  {
    match s.pcs[t]
    case Inside(c, i) => if Respawned(c, s.slots[i], ok) then Some(s.slots[i].key) else None
    case _ =>
      var n := Advance(s, t, ok);
      if |n.slots| > |s.slots| && HasWorker(n.slots[|s.slots|].key.kind) then Some(n.slots[|s.slots|].key) else None
  }

  lemma InsideSpawns(s: State, t: nat, c: Call, i: nat, ok: bool, k: Key)
    requires t < |s.pcs| && i < |s.slots|
    ensures var n := StepInside(s, t, c, i, ok);
      SpawnsOf(s.log, n.log, if Respawned(c, s.slots[i], ok) then Some(s.slots[i].key) else None, k)
  {
    var n := StepInside(s, t, c, i, ok);
    if n.log != s.log {
      var e := n.log[|s.log|];
      SpawnsAppend(s.log, e, k);
      if Respawned(c, s.slots[i], ok) {
        SpawnsAppend(s.log + [e], Spawned(s.slots[i].key), k);
        assert n.log == s.log + [e] + [Spawned(s.slots[i].key)];
      } else {
        assert n.log == s.log + [e];
      }
    }
  }

  lemma InsertSpawns(s: State, c: Call, ok: bool, k: Key)
    ensures var n := Insert(s, c, ok).0;
      var key := Key(InsertedKind(c), s.next);
      SpawnsOf(s.log, n.log, if |n.slots| > |s.slots| && HasWorker(key.kind) then Some(key) else None, k)
    ensures var n := Insert(s, c, ok).0;
      |n.slots| > |s.slots| ==> n.slots[|s.slots|].key == Key(InsertedKind(c), s.next)
  {
    SpawnsAppend(s.log, Spawned(Key(InsertedKind(c), s.next)), k);
  }

  predicate LogsAnAnswer(a: seq<Entry>, b: seq<Entry>) {
    b == a || (|b| == |a| + 1 && b == a + [b[|a|]] && b[|a|].Returned?)
  }

  lemma LightLogs(s: State, t: nat, ok: bool)
    requires CanStep(s, t) && ThreadOk(s, t)
    requires !s.pcs[t].Inside? && !s.pcs[t].Registering? && !s.pcs[t].Starting?
    ensures LogsAnAnswer(s.log, Advance(s, t, ok).log) && |Advance(s, t, ok).slots| == |s.slots|
  {
  }

  lemma AnswerSpawns(a: seq<Entry>, b: seq<Entry>, k: Key)
    requires LogsAnAnswer(a, b)
    ensures SpawnsOf(a, b, None, k)
  {
    if a != b { SpawnsAppend(a, b[|a|], k); }
  }

  lemma LightSpawns(s: State, t: nat, ok: bool, k: Key)
    requires CanStep(s, t) && ThreadOk(s, t)
    requires !s.pcs[t].Inside? && !s.pcs[t].Registering? && !s.pcs[t].Starting?
    ensures |Advance(s, t, ok).slots| == |s.slots| && SpawnsOf(s.log, Advance(s, t, ok).log, None, k)
  {
    LightLogs(s, t, ok);
    AnswerSpawns(s.log, Advance(s, t, ok).log, k);
  }

  lemma StepSpawns(s: State, t: nat, ok: bool, k: Key)
    requires CanStep(s, t) && ThreadOk(s, t)
    ensures SpawnsOf(s.log, Advance(s, t, ok).log, SpawnedBy(s, t, ok), k)
  {
    match s.pcs[t]
    case Inside(c, i) => InsideSpawns(s, t, c, i, ok, k);
    case Registering(c, i) => InsertSpawns(s.(registry := None), c, ok, k);
    case Starting(c) =>
      var (m, code) := Insert(s.(registry := None), c, ok);
      InsertSpawns(s.(registry := None), c, ok, k);
      SpawnsAppend(m.log, Returned(t, c, code), k);
    case _ => LightSpawns(s, t, ok, k);
  }

  // ----- the slots a step leaves alone -----

  predicate SameButHolder(a: Slot, b: Slot) { b == a.(holder := b.holder) }

  lemma HolderFits<T>(log: seq<Entry>, a: Slot, b: Slot, body: Body<T>)
    requires SameButHolder(a, b)
    ensures Fits(a, body) ==> Fits(b, body)
    ensures CountFits(log, a, body) <==> CountFits(log, b, body)
  {
  }

  /** The step of thread `t` may touch slot `i`: it is the one it works on. */
  predicate Touches(pc: Pc, i: nat) { (pc.Found? || pc.Inside?) && pc.slot == i }

  lemma InsideElsewhere(s: State, t: nat, c: Call, j: nat, ok: bool)
    requires t < |s.pcs| && j < |s.slots|
    ensures var n := StepInside(s, t, c, j, ok);
      |n.slots| == |s.slots| && forall i :: 0 <= i < |s.slots| && i != j ==> n.slots[i] == s.slots[i]
  {
  }

  lemma InsertElsewhere(s: State, c: Call, ok: bool, i: nat)
    requires i < |s.slots|
    ensures var n := Insert(s, c, ok).0; |s.slots| <= |n.slots| <= |s.slots| + 1 && n.slots[i] == s.slots[i]
  {
  }

  lemma LightElsewhere(s: State, t: nat, ok: bool, i: nat)
    requires CanStep(s, t) && ThreadOk(s, t) && i < |s.slots| && !Touches(s.pcs[t], i)
    requires !s.pcs[t].Inside? && !s.pcs[t].Registering? && !s.pcs[t].Starting?
    ensures var n := Advance(s, t, ok); |n.slots| == |s.slots| && SameButHolder(s.slots[i], n.slots[i])
  {
  }

  lemma StepElsewhere(s: State, t: nat, ok: bool, i: nat)
    requires CanStep(s, t) && ThreadOk(s, t) && i < |s.slots| && !Touches(s.pcs[t], i)
    ensures var n := Advance(s, t, ok);
      |s.slots| <= |n.slots| && SameButHolder(s.slots[i], n.slots[i])
  {
    match s.pcs[t]
    case Inside(c, j) => InsideElsewhere(s, t, c, j, ok);
    case Registering(c, _) => InsertElsewhere(s.(registry := None), c, ok, i);
    case Starting(c) => InsertElsewhere(s.(registry := None), c, ok, i);
    case _ => LightElsewhere(s, t, ok, i);
  }

  // ----- every act keeps the agreement -----

  lemma EntersInside<T>(s: State, t: nat, c: Call, i: nat, b: Body<T>, op: Op<T>)
    requires t < |s.pcs| && i < |s.slots| && s.pcs[t] == Inside(c, i) && ThreadOk(s, t)
    requires ProtocolCancel.PcCancelled(s, s.pcs[t]) && Fits(s.slots[i], b) && Makes(c, b, op)
    ensures IsInside(s, t, c, i, b, op)
  {
  }

  lemma InsideKeepsKey(s: State, t: nat, c: Call, i: nat, ok: bool)
    requires t < |s.pcs| && i < |s.slots|
    ensures var n := StepInside(s, t, c, i, ok); |n.slots| == |s.slots| && n.slots[i].key == s.slots[i].key
  {
  }

  lemma InsideSlot<T>(s: State, t: nat, c: Call, i: nat, b: Body<T>, op: Op<T>)
    requires IsInside(s, t, c, i, b, op) && CountFits(s.log, s.slots[i], b)
    ensures var n := StepInside(s, t, c, i, Answer(b, op));
      |n.slots| == |s.slots| && Agrees(n.log, n.slots[i], Perform(b, op))
  {
    InsideAgrees(s, t, c, i, b, op);
    InsideKeepsKey(s, t, c, i, Answer(b, op));
    InsideSpawns(s, t, c, i, Answer(b, op), s.slots[i].key);
  }

  lemma FoundFits<T>(s: State, t: nat, c: Call, i: nat, b: Body<T>)
    requires t < |s.pcs| && i < |s.slots| && WellFormedCall(c) && Fits(s.slots[i], b)
    requires !c.Start? && Target(c) == s.slots[i].key
    ensures Fits(StepFound(s, t, c, i).slots[i], if ProtocolCancel.Cancels(c) then Ask(b) else b)
  {
  }

  lemma FoundSlot<T>(s: State, t: nat, c: Call, i: nat, b: Body<T>)
    requires t < |s.pcs| && i < |s.slots| && s.pcs[t] == Found(c, i) && ThreadOk(s, t) && CanStep(s, t)
    requires Agrees(s.log, s.slots[i], b)
    ensures var n := Advance(s, t, true);
      |n.slots| == |s.slots| && Agrees(n.log, n.slots[i], if ProtocolCancel.Cancels(c) then Ask(b) else b)
  {
    FoundFits(s, t, c, i, b);
    LightSpawns(s, t, true, s.slots[i].key);
  }

  /** The worker a step starts belongs to the slot it touches or to a new one. */
  lemma SpawnedElsewhere(s: State, t: nat, ok: bool, i: nat)
    requires Core(s) && CanStep(s, t) && ThreadOk(s, t) && i < |s.slots| && !Touches(s.pcs[t], i)
    ensures SpawnedBy(s, t, ok) != Some(s.slots[i].key)
  {
    assert SlotOk(s, i);
    StepContinues(s, t, ok);
    if s.pcs[t].Inside? { KeysDistinct(s, i, s.pcs[t].slot); }
  }

  lemma OtherSlot<T>(s: State, t: nat, ok: bool, i: nat, b: Body<T>)
    requires Core(s) && CanStep(s, t) && ThreadOk(s, t) && i < |s.slots| && !Touches(s.pcs[t], i)
    requires Agrees(s.log, s.slots[i], b)
    ensures var n := Advance(s, t, ok); |s.slots| <= |n.slots| && Agrees(n.log, n.slots[i], b)
  {
    var n := Advance(s, t, ok);
    StepElsewhere(s, t, ok, i);
    SpawnedElsewhere(s, t, ok, i);
    StepSpawns(s, t, ok, s.slots[i].key);
    HolderFits(n.log, s.slots[i], n.slots[i], b);
  }

  /** A step that adds a slot adds one, open and at work if its kind has a worker. */
  lemma NewSlotIs(s: State, t: nat, ok: bool)
    requires CanStep(s, t) && ThreadOk(s, t)
    ensures var n := Advance(s, t, ok);
      |n.slots| > |s.slots| ==>
        && (s.pcs[t].Registering? || s.pcs[t].Starting?) && |n.slots| == |s.slots| + 1
        && n.slots[|s.slots|] == FreshSlot(Key(InsertedKind(s.pcs[t].call), s.next), !s.pcs[t].call.Start?)
  {
    match s.pcs[t]
    case Inside(c, i) => InsideElsewhere(s, t, c, i, ok);
    case Registering(c, _) => InsertedSlot(s.(registry := None), c, ok);
    case Starting(c) => InsertedSlot(s.(registry := None), c, ok);
    case _ => LightLogs(s, t, ok);
  }

  lemma InsertedSlot(s: State, c: Call, ok: bool)
    ensures var n := Insert(s, c, ok).0;
      |n.slots| != |s.slots| ==>
        && |n.slots| == |s.slots| + 1
        && n.slots[|s.slots|] == FreshSlot(Key(InsertedKind(c), s.next), !c.Start?)
  {
  }

  lemma NewFits<T>(slot: Slot, op: Op<T>)
    requires slot == FreshSlot(slot.key, slot.derived) && (slot.derived ==> slot.key.kind in {Installer, Purge})
    ensures Fits(slot, New(slot.key.kind, op)) && Launches(New(slot.key.kind, op)) == 0
  {
  }

  lemma NewSlot<T>(s: State, t: nat, ok: bool, op: Op<T>)
    requires Core(s) && CanStep(s, t) && ThreadOk(s, t) && |Advance(s, t, ok).slots| > |s.slots|
    requires forall key :: NeverSpawned(s, key)
    ensures var n := Advance(s, t, ok);
      |n.slots| == |s.slots| + 1 && Agrees(n.log, n.slots[|s.slots|], New(n.slots[|s.slots|].key.kind, op))
  {
    NewSlotIs(s, t, ok);
    var slot := Advance(s, t, ok).slots[|s.slots|];
    NewFits(slot, op);
    InsertFresh(s, slot.key.kind);
    assert NeverSpawned(s, slot.key) && !HasSlot(s.slots, slot.key);
    StepSpawns(s, t, ok, slot.key);
  }

  lemma StillNeverSpawned(s: State, t: nat, ok: bool, key: Key)
    requires CanStep(s, t) && ThreadOk(s, t) && NeverSpawned(s, key)
    ensures NeverSpawned(Advance(s, t, ok), key)
  {
    var n := Advance(s, t, ok);
    StepContinues(s, t, ok);
    SameKeys(s.slots, n.slots, key);
    StepSpawns(s, t, ok, key);
    if SpawnedBy(s, t, ok) == Some(key) && !s.pcs[t].Inside? { assert n.slots[|s.slots|].key == key; }
  }

  lemma WorkFits<T>(slot: Slot, b: Body<T>, op: Op<T>)
    requires Fits(slot, b) && WorkerOp(b, op) && (b.Engine? ==> slot.work == Running)
    ensures Ends(b, op) ==> slot.work == Running
    ensures Fits(if Ends(b, op) then slot.(work := Finished) else slot, Perform(b, op))
    ensures Launches(Perform(b, op)) == Launches(b)
  {
    match b
    case Previews(j) =>
      PreviewJob.NextKeeps(j, op.p);
      Refinement.RetainedExitRefines(slot.key, slot.holder, j, op.p);
    case Leftovers(j) =>
      OrphanJob.NextKeeps(j, op.o);
      Refinement.OrphanExitRefines(slot.key, slot.holder, j, op.o.result);
    case App(_) =>
    case Engine =>
  }

  /** A worker's exit is logged and its slot marked; no other slot and no count changes. */
  lemma ExitAgrees<T>(w: World<T>, i: nat, b: Body<T>)
    requires |w.bodies| == |w.s.slots| && i < |w.bodies|
    requires Fits(w.s.slots[i].(work := Finished), b) && Launches(b) == Launches(w.bodies[i])
    requires forall j :: 0 <= j < |w.bodies| ==> Agrees(w.s.log, w.s.slots[j], w.bodies[j])
    ensures var log := w.s.log + [WorkerExit(w.s.slots[i].key)];
      var slots := w.s.slots[i := w.s.slots[i].(work := Finished)];
      forall j :: 0 <= j < |w.bodies| ==> Agrees(log, slots[j], w.bodies[i := b][j])
  {
    var log := w.s.log + [WorkerExit(w.s.slots[i].key)];
    var slots, bodies := w.s.slots[i := w.s.slots[i].(work := Finished)], w.bodies[i := b];
    forall j | 0 <= j < |bodies| ensures Agrees(log, slots[j], bodies[j]) {
      assert Agrees(w.s.log, w.s.slots[j], w.bodies[j]);
      SpawnsAppend(w.s.log, WorkerExit(w.s.slots[i].key), w.s.slots[j].key);
    }
  }

  lemma ExitSpawnsNothing(s: State, i: nat, key: Key)
    requires i < |s.slots| && NeverSpawned(s, key)
    ensures NeverSpawned(Record(SetSlot(s, i, s.slots[i].(work := Finished)), WorkerExit(s.slots[i].key)), key)
  {
    SameKeys(s.slots, s.slots[i := s.slots[i].(work := Finished)], key);
    SpawnsAppend(s.log, WorkerExit(s.slots[i].key), key);
  }

  lemma LastWorkKeeps<T>(w: World<T>, i: nat, op: Op<T>)
    requires Agree(w) && Possible(w, Works(i, op)) && Ends(w.bodies[i], op)
    ensures Agree(Move(w, Works(i, op)))
  {
    assert Agrees(w.s.log, w.s.slots[i], w.bodies[i]);
    WorkFits(w.s.slots[i], w.bodies[i], op);
    var n := ReachMore(w.s, WorkerDone(i));
    ExitAgrees(w, i, Perform(w.bodies[i], op));
    forall key ensures NeverSpawned(n, key) { ExitSpawnsNothing(w.s, i, key); }
  }

  lemma EarlyWorkKeeps<T>(w: World<T>, i: nat, op: Op<T>)
    requires Agree(w) && Possible(w, Works(i, op)) && !Ends(w.bodies[i], op)
    ensures Agree(Move(w, Works(i, op)))
  {
    var n := Move(w, Works(i, op));
    assert Agrees(w.s.log, w.s.slots[i], w.bodies[i]);
    WorkFits(w.s.slots[i], w.bodies[i], op);
    forall j | 0 <= j < |n.bodies| ensures Agrees(n.s.log, n.s.slots[j], n.bodies[j]) {
      assert Agrees(w.s.log, w.s.slots[j], w.bodies[j]);
    }
  }

  lemma CallsKeep<T>(w: World<T>, t: nat, c: Call)
    requires Agree(w) && Possible(w, Calls(t, c))
    ensures Agree(Move(w, Calls(t, c)))
  {
    var n := Move(w, Calls(t, c));
    var _ := ReachMore(w.s, Invoke(t, c));
    forall j | 0 <= j < |n.bodies| ensures Agrees(n.s.log, n.s.slots[j], n.bodies[j]) {
      assert Agrees(w.s.log, w.s.slots[j], w.bodies[j]);
    }
    forall key ensures NeverSpawned(n.s, key) { assert NeverSpawned(w.s, key); }
  }

  lemma BodiesGrow<T>(w: World<T>, t: nat, op: Op<T>)
    requires |w.bodies| == |w.s.slots| && CanStep(w.s, t) && ThreadOk(w.s, t) && Offers(w, t, op)
    ensures var n := Advance(w.s, t, Ok(w, t, op));
      |Bodies(w, n, t, op)| == |n.slots| && |w.bodies| <= |n.slots| <= |w.bodies| + 1
  {
    NewSlotIs(w.s, t, Ok(w, t, op));
    StepContinues(w.s, t, Ok(w, t, op));
  }

  lemma OldSlotAgrees<T>(w: World<T>, t: nat, op: Op<T>, i: nat)
    requires Core(w.s) && |w.bodies| == |w.s.slots| && CanStep(w.s, t) && ThreadOk(w.s, t) && Offers(w, t, op)
    requires ProtocolCancel.PcCancelled(w.s, w.s.pcs[t])
    requires i < |w.bodies| && Agrees(w.s.log, w.s.slots[i], w.bodies[i])
    ensures var n := Advance(w.s, t, Ok(w, t, op));
      i < |n.slots| == |Bodies(w, n, t, op)| && Agrees(n.log, n.slots[i], Bodies(w, n, t, op)[i])
  {
    BodiesGrow(w, t, op);
    if !Touches(w.s.pcs[t], i) {
      OtherSlot(w.s, t, Ok(w, t, op), i, w.bodies[i]);
    } else if w.s.pcs[t].Inside? {
      EntersInside(w.s, t, w.s.pcs[t].call, i, w.bodies[i], op);
      InsideSlot(w.s, t, w.s.pcs[t].call, i, w.bodies[i], op);
    } else {
      FoundSlot(w.s, t, w.s.pcs[t].call, i, w.bodies[i]);
    }
  }

  lemma SlotAgrees<T>(w: World<T>, t: nat, op: Op<T>, i: nat)
    requires Agree(w) && Possible(w, Steps(t, op)) && ThreadOk(w.s, t)
    ensures var n := Advance(w.s, t, Ok(w, t, op));
      var bodies := Bodies(w, n, t, op);
      |bodies| == |n.slots| && (i < |bodies| ==> Agrees(n.log, n.slots[i], bodies[i]))
  {
    ProtocolCancel.ReachableCancels(w.s);
    assert ProtocolCancel.PcCancelled(w.s, w.s.pcs[t]);
    BodiesGrow(w, t, op);
    if i < |w.bodies| {
      assert Agrees(w.s.log, w.s.slots[i], w.bodies[i]);
      OldSlotAgrees(w, t, op, i);
    } else if i == |w.bodies| < |Advance(w.s, t, Ok(w, t, op)).slots| {
      NewSlotIs(w.s, t, Ok(w, t, op));
      NewSlot(w.s, t, Ok(w, t, op), op);
    }
  }

  lemma StepsKeep<T>(w: World<T>, t: nat, op: Op<T>)
    requires Agree(w) && Possible(w, Steps(t, op))
    ensures Agree(Move(w, Steps(t, op)))
  {
    var n := ReachMore(w.s, Step(t, Ok(w, t, op)));
    var bodies := Bodies(w, n, t, op);
    SlotAgrees(w, t, op, 0);
    forall i | 0 <= i < |bodies| ensures Agrees(n.log, n.slots[i], bodies[i]) { SlotAgrees(w, t, op, i); }
    forall key ensures NeverSpawned(n, key) {
      assert NeverSpawned(w.s, key);
      StillNeverSpawned(w.s, t, Ok(w, t, op), key);
    }
    assert Move(w, Steps(t, op)) == World(n, bodies);
  }

  lemma MoveKeeps<T>(w: World<T>, a: Act<T>)
    requires Agree(w) && Possible(w, a)
    ensures Agree(Move(w, a))
  {
    match a
    case Calls(t, c) => CallsKeep(w, t, c);
    case Steps(t, op) => StepsKeep(w, t, op);
    case Works(i, op) => if Ends(w.bodies[i], op) { LastWorkKeeps(w, i, op); } else { EarlyWorkKeeps(w, i, op); }
  }
}
