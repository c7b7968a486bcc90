/**
 The process broker of the comparison scripts: two capped captures, a terminate-then-kill escalation and
 a reap that waits for both pipes to close. Chunks, clock steps and the outcome of each wait are inputs.
 */
module Broker {
  import opened Status
  import Order

  const GRACE_NS: nat := 250_000_000

  type Bytes = seq<nat>

  datatype Stream = Stdout | Stderr

  datatype Pipe = Pipe(cap: nat, buffer: Bytes, total: nat, open: bool)

  datatype Signal = Term(at: nat) | Kill(at: nat)

  /** A chunk of stdout as received: when, and everything received up to and including it. */
  datatype Receipt = Receipt(at: nat, chunk: Bytes, upTo: Bytes)

  predicate Blank(b: nat) { b == 32 || b == 9 || b == 13 || b == 10 }

  predicate HasContent(chunk: Bytes) { exists k :: 0 <= k < |chunk| && !Blank(chunk[k]) }

  /** When the output so far was first a complete document. */
  function FirstComplete(rs: seq<Receipt>, complete: Bytes -> bool): Option<nat> {
    if rs == [] then None
    else
      var earlier := FirstComplete(rs[..|rs| - 1], complete);
      if earlier.Some? then earlier else if complete(rs[|rs| - 1].upTo) then Some(rs[|rs| - 1].at) else None
  }

  /** When content last arrived. */
  function LastContent(rs: seq<Receipt>): Option<nat> {
    if rs == [] then None
    else if HasContent(rs[|rs| - 1].chunk) then Some(rs[|rs| - 1].at)
    else LastContent(rs[..|rs| - 1])
  }

  ghost predicate Captures(p: Pipe, all: Bytes) { p.buffer == Order.Take(all, p.cap) && p.total == |all| }

  /** What reading a chunk does to a pipe: all of it is counted, the head that fits is kept. */
  function Absorb(p: Pipe, chunk: Bytes): Pipe {
    var remaining: int := p.cap - |p.buffer|;
    p.(buffer := p.buffer + Order.Take(chunk, if remaining > 0 then remaining else 0), total := p.total + |chunk|)
  }

  lemma AbsorbCaptures(p: Pipe, all: Bytes, chunk: Bytes)
    requires Captures(p, all)
    ensures Captures(Absorb(p, chunk), all + chunk)
  {
  }

  lemma OneMoreReceipt(rs: seq<Receipt>, r: Receipt, complete: Bytes -> bool)
    ensures FirstComplete(rs + [r], complete) ==
      var earlier := FirstComplete(rs, complete);
      if earlier.Some? then earlier else if complete(r.upTo) then Some(r.at) else None
    ensures LastContent(rs + [r]) == if HasContent(r.chunk) then Some(r.at) else LastContent(rs)
  {
    assert (rs + [r])[..|rs|] == rs;
  }

  /** The first complete document is where it says, and there was none before. */
  lemma {:induction false} FirstCompleteIs(rs: seq<Receipt>, complete: Bytes -> bool)
    ensures FirstComplete(rs, complete).None? <==> forall k :: 0 <= k < |rs| ==> !complete(rs[k].upTo)
    ensures FirstComplete(rs, complete).Some? ==>
      exists k :: 0 <= k < |rs| && complete(rs[k].upTo) && rs[k].at == FirstComplete(rs, complete).value
                  && forall i :: 0 <= i < k ==> !complete(rs[i].upTo)
  {
    if rs != [] { FirstCompleteIs(rs[..|rs| - 1], complete); }
  }

  /** And the last content, a byte that is neither space, tab, carriage return nor newline, with none after it. */
  lemma {:induction false} LastContentIs(rs: seq<Receipt>)
    ensures LastContent(rs).None? <==> forall k :: 0 <= k < |rs| ==> OnlyBlank(rs[k].chunk)
    ensures LastContent(rs).Some? ==>
      exists k :: 0 <= k < |rs| && !OnlyBlank(rs[k].chunk) && rs[k].at == LastContent(rs).value
                  && forall i :: k < i < |rs| ==> OnlyBlank(rs[i].chunk)
  {
    if rs != [] {
      LastContentIs(rs[..|rs| - 1]);
      assert HasContent(rs[|rs| - 1].chunk) <==> !OnlyBlank(rs[|rs| - 1].chunk);
    }
  }

  predicate OnlyBlank(chunk: Bytes) { forall k :: 0 <= k < |chunk| ==> chunk[k] in {9, 10, 13, 32} }

  /** The two captures against their streams, and the two timestamps as long as nothing overflowed. */
  ghost predicate Heard(
    out: Pipe, err: Pipe, outAll: Bytes, errAll: Bytes, over: bool, first: Option<nat>, last: Option<nat>,
    receipts: seq<Receipt>, complete: Bytes -> bool)
  {
    && Captures(out, outAll) && Captures(err, errAll)
    && (over <==> out.total > out.cap || err.total > err.cap)
    && (!over ==> first == FirstComplete(receipts, complete) && last == LastContent(receipts))
  }

  lemma OutHeard(
    out: Pipe, err: Pipe, outAll: Bytes, errAll: Bytes, over: bool, first: Option<nat>, last: Option<nat>,
    receipts: seq<Receipt>, complete: Bytes -> bool, chunk: Bytes, at: nat)
    requires Heard(out, err, outAll, errAll, over, first, last, receipts, complete)
    ensures var o, rs := Absorb(out, chunk), receipts + [Receipt(at, chunk, outAll + chunk)];
      if o.total > o.cap || over then
        forall f, l :: Heard(o, err, outAll + chunk, errAll, true, f, l, rs, complete)
      else
        Heard(o, err, outAll + chunk, errAll, false,
              if first.Some? then first else if complete(o.buffer) then Some(at) else None,
              if HasContent(chunk) then Some(at) else last, rs, complete)
  {
    AbsorbCaptures(out, outAll, chunk);
    OneMoreReceipt(receipts, Receipt(at, chunk, outAll + chunk), complete);
  }

  lemma ErrHeard(
    out: Pipe, err: Pipe, outAll: Bytes, errAll: Bytes, over: bool, first: Option<nat>, last: Option<nat>,
    receipts: seq<Receipt>, complete: Bytes -> bool, chunk: Bytes)
    requires Heard(out, err, outAll, errAll, over, first, last, receipts, complete)
    ensures var e := Absorb(err, chunk);
      Heard(out, e, outAll, errAll + chunk, over || e.total > e.cap, first, last, receipts, complete)
  {
    AbsorbCaptures(err, errAll, chunk);
  }

  class Process {
    const start: nat
    const timeout: nat                  // nanoseconds
    const complete: Bytes -> bool       // decodes and parses as one JSON document; never, if not asked for
    var clock: nat
    var out: Pipe
    var err: Pipe
    var timedOut: bool
    var overflowKilled: bool
    var terminateAt: Option<nat>
    var killSent: bool
    var waited: bool
    var firstJson: Option<nat>
    var lastContent: Option<nat>
    // everything that happened
    ghost var outAll: Bytes
    ghost var errAll: Bytes
    ghost var receipts: seq<Receipt>
    ghost var signals: seq<Signal>
    ghost var reaps: nat

    ghost predicate CaptureOk()
      reads this`out, this`err, this`outAll, this`errAll, this`overflowKilled
      reads this`firstJson, this`lastContent, this`receipts
    {
      Heard(out, err, outAll, errAll, overflowKilled, firstJson, lastContent, receipts, complete)
    }

    /** At most one SIGTERM, then at most one SIGKILL, no sooner than the grace period after it. */
    ghost predicate SignalsOk()
      reads this`clock, this`timedOut, this`overflowKilled, this`terminateAt, this`killSent, this`signals
    {
      && start <= clock
      && (terminateAt.Some? <==> overflowKilled || timedOut)
      && (terminateAt.Some? ==> terminateAt.value <= clock)
      && (timedOut ==> terminateAt.Some? && terminateAt.value >= start + timeout)
      && (terminateAt.None? ==> signals == [] && !killSent)
      && (terminateAt.Some? && !killSent ==> signals == [Term(terminateAt.value)])
      && (terminateAt.Some? && killSent ==>
            && |signals| == 2 && signals[0] == Term(terminateAt.value)
            && signals[1].Kill? && signals[1].at >= terminateAt.value + GRACE_NS)
    }

    /** Reaped once, and only after both pipes closed. */
    ghost predicate ReapOk()
      reads this`waited, this`reaps, this`out, this`err
    {
      reaps == (if waited then 1 else 0) && (waited ==> !out.open && !err.open)
    }

    ghost predicate Valid()
      reads this
    {
      CaptureOk() && SignalsOk() && ReapOk()
    }

    constructor (start: nat, timeout: nat, outCap: nat, errCap: nat, complete: Bytes -> bool)
      ensures Valid() && !waited && out.cap == outCap && err.cap == errCap
      ensures this.start == start && this.timeout == timeout && this.complete == complete
      ensures outAll == [] && errAll == [] && receipts == [] && clock == start && out.open && err.open
    {
      this.start, this.timeout, this.complete, clock := start, timeout, complete, start;
      out, err := Pipe(outCap, [], 0, true), Pipe(errCap, [], 0, true);
      timedOut, overflowKilled, terminateAt, killSent, waited := false, false, None, false, false;
      firstJson, lastContent := None, None;
      outAll, errAll, receipts, signals, reaps := [], [], [], [], 0;
    }

    method Terminate(at: nat)
      requires terminateAt.None? ==> signals == [] && !killSent
      modifies this`terminateAt, this`signals
      ensures terminateAt == if old(terminateAt).None? then Some(at) else old(terminateAt)
      ensures signals == if old(terminateAt).None? then [Term(at)] else old(signals)
    {
      if terminateAt.None? {
        terminateAt := Some(at);
        signals := [Term(at)];
      }
    }

    /** One readable pipe; an empty chunk is end of file. */
    method Receive(name: Stream, chunk: Bytes, elapsed: nat)
      requires Valid() && !waited && (if name == Stdout then out.open else err.open)
      modifies this
      ensures Valid() && !waited && clock == old(clock) + elapsed
      ensures outAll == old(outAll) + if name == Stdout then chunk else []
      ensures errAll == old(errAll) + if name == Stderr then chunk else []
      ensures out.cap == old(out.cap) && err.cap == old(err.cap)
      ensures out.open == (old(out.open) && !(name == Stdout && chunk == []))
      ensures err.open == (old(err.open) && !(name == Stderr && chunk == []))
      ensures receipts == old(receipts) + if name == Stdout && chunk != [] then [Receipt(clock, chunk, outAll)] else []
    {
      clock := clock + elapsed;
      match name {
        case Stdout => if chunk == [] { EndOut(); } else { ReceiveOut(chunk); }
        case Stderr => if chunk == [] { EndErr(); } else { ReceiveErr(chunk); }
      }
    }

    method EndOut()
      requires CaptureOk()
      modifies this`out
      ensures CaptureOk() && out == old(out).(open := false)
    {
      out := out.(open := false);
    }

    method EndErr()
      requires CaptureOk()
      modifies this`err
      ensures CaptureOk() && err == old(err).(open := false)
    {
      err := err.(open := false);
    }

    method Overflow()
      requires SignalsOk()
      modifies this`overflowKilled, this`terminateAt, this`signals
      ensures SignalsOk() && overflowKilled
      ensures old(terminateAt).None? ==> terminateAt == Some(clock)
    {
      overflowKilled := true;
      Terminate(clock);
    }

    method ReceiveOut(chunk: Bytes)
      requires CaptureOk() && SignalsOk()
      modifies this`out, this`outAll, this`receipts, this`overflowKilled, this`terminateAt, this`signals
      modifies this`firstJson, this`lastContent
      ensures CaptureOk() && SignalsOk()
      ensures outAll == old(outAll) + chunk && out.cap == old(out.cap) && out.open == old(out.open)
      ensures receipts == old(receipts) + [Receipt(clock, chunk, outAll)]
    {
      OutHeard(out, err, outAll, errAll, overflowKilled, firstJson, lastContent, receipts, complete, chunk, clock);
      out, outAll := Absorb(out, chunk), outAll + chunk;
      receipts := receipts + [Receipt(clock, chunk, outAll)];
      if out.total > out.cap {
        Overflow();
      } else if !overflowKilled {
        NoteContent(chunk);
      }
    }

    method ReceiveErr(chunk: Bytes)
      requires CaptureOk() && SignalsOk()
      modifies this`err, this`errAll, this`overflowKilled, this`terminateAt, this`signals
      ensures CaptureOk() && SignalsOk()
      ensures errAll == old(errAll) + chunk && err.cap == old(err.cap) && err.open == old(err.open)
    {
      ErrHeard(out, err, outAll, errAll, overflowKilled, firstJson, lastContent, receipts, complete, chunk);
      err, errAll := Absorb(err, chunk), errAll + chunk;
      if err.total > err.cap { Overflow(); }
    }

    /** The two timestamps of useful output. */
    method NoteContent(chunk: Bytes)
      modifies this`lastContent, this`firstJson
      ensures lastContent == if HasContent(chunk) then Some(clock) else old(lastContent)
      ensures firstJson ==
        if old(firstJson).Some? then old(firstJson) else if complete(out.buffer) then Some(clock) else None
    {
      if HasContent(chunk) { lastContent := Some(clock); }
      if firstJson.None? {
        if complete(out.buffer) { firstJson := Some(clock); }
      }
    }

    /** The timeout and the escalation. */
    method Escalate()
      requires SignalsOk()
      modifies this`timedOut, this`terminateAt, this`signals, this`killSent
      ensures SignalsOk()
      // a deadline that has passed is acted upon, and not before it passes
      ensures clock - start >= timeout ==> terminateAt.Some?
      ensures terminateAt.Some? && clock - terminateAt.value >= GRACE_NS ==> killSent
      ensures old(terminateAt).None? && terminateAt.Some? ==> terminateAt == Some(clock) && clock - start >= timeout
      ensures old(terminateAt).Some? ==> terminateAt == old(terminateAt) && timedOut == old(timedOut)
    {
      if clock - start >= timeout && terminateAt.None? {
        timedOut := true;
        Terminate(clock);
      }
      if terminateAt.Some? && clock - terminateAt.value >= GRACE_NS && !killSent {
        signals := signals + [Kill(clock)];
        killSent := true;
      }
    }

    /** The rest of a round: time passes, and once both pipes are closed the child may be reaped. */
    method Tick(elapsed: nat, exited: bool)
      requires Valid() && !waited
      modifies this`clock, this`timedOut, this`terminateAt, this`signals, this`killSent, this`waited, this`reaps
      ensures Valid() && clock == old(clock) + elapsed
      ensures waited <==> exited && !out.open && !err.open
      ensures clock - start >= timeout ==> terminateAt.Some?
      ensures terminateAt.Some? && clock - terminateAt.value >= 250_000_000 ==> killSent
    {
      clock := clock + elapsed;
      Escalate();
      Reap(exited);
    }

    method Reap(exited: bool)
      requires ReapOk() && !waited
      modifies this`waited, this`reaps
      ensures ReapOk() && (waited <==> exited && !out.open && !err.open)
    {
      if !out.open && !err.open && exited {
        waited := true;
        reaps := reaps + 1;
      }
    }

    /** The `finally` of a run that was cut short: the group is killed and the child still reaped, once. */
    method Abandon()
      requires Valid()
      modifies this`signals, this`reaps
      ensures reaps == 1 && (old(waited) ==> signals == old(signals))
      ensures !old(waited) ==> signals == old(signals) + [Kill(clock)]
    {
      if !waited {
        signals := signals + [Kill(clock)];
        reaps := reaps + 1;
      }
    }
  }

  datatype Arrival = Arrival(name: Stream, chunk: Bytes, elapsed: nat)

  datatype Round = Round(arrivals: seq<Arrival>, elapsed: nat, exited: bool)

  datatype Ending = Completed | Timeout | OutputCapExceeded

  /** What the broker reports of a child it has reaped. */
  datatype Capture = Capture(
    ending: Ending, stdout: Bytes, stderr: Bytes, stdoutBytes: nat, stderrBytes: nat,
    stdoutTruncated: bool, stderrTruncated: bool, firstJson: Option<nat>, lastContent: Option<nat>)

  /** What a report promises of the streams behind it. */
  ghost predicate Faithful(c: Capture, p: Process)
    reads p
  {
    && c.stdout == Order.Take(p.outAll, p.out.cap) && c.stderr == Order.Take(p.errAll, p.err.cap)
    && c.stdoutBytes == |p.outAll| && c.stderrBytes == |p.errAll|
    && (c.stdoutTruncated <==> c.stdout != p.outAll) && (c.stderrTruncated <==> c.stderr != p.errAll)
    && (c.ending == Completed <==> p.signals == [])
    && (c.ending == Completed ==>
          && c.stdout == p.outAll && c.stderr == p.errAll
          && c.firstJson == FirstComplete(p.receipts, p.complete) && c.lastContent == LastContent(p.receipts))
    && (c.ending == OutputCapExceeded <==> c.stdoutTruncated || c.stderrTruncated)
  }

  // ----- what the rounds deliver -----

  /** Both streams as delivered up to some moment, which of them have ended, and the time. */
  datatype Line = Line(out: Bytes, err: Bytes, outOpen: bool, errOpen: bool, time: nat)

  /** An arrival on an open pipe takes its time and adds its chunk; an empty chunk ends the stream. */
  function Hear(l: Line, a: Arrival): Line {
    if a.name == Stdout then
      if !l.outOpen then l
      else l.(out := l.out + a.chunk, outOpen := a.chunk != [], time := l.time + a.elapsed)
    else
      if !l.errOpen then l
      else l.(err := l.err + a.chunk, errOpen := a.chunk != [], time := l.time + a.elapsed)
  }

  function HearAll(l: Line, arrivals: seq<Arrival>): Line {
    if arrivals == [] then l else Hear(HearAll(l, arrivals[..|arrivals| - 1]), arrivals[|arrivals| - 1])
  }

  function Play(l: Line, rounds: seq<Round>): Line {
    if rounds == [] then l
    else
      var r := rounds[|rounds| - 1];
      var heard := HearAll(Play(l, rounds[..|rounds| - 1]), r.arrivals);
      heard.(time := heard.time + r.elapsed)
  }

  /** The chunks reported of one pipe. */
  function Chunks(arrivals: seq<Arrival>, name: Stream): seq<Bytes> {
    if arrivals == [] then []
    else
      Chunks(arrivals[..|arrivals| - 1], name)
      + if arrivals[|arrivals| - 1].name == name then [arrivals[|arrivals| - 1].chunk] else []
  }

  /** All of them in a row, up to the first empty one, which is the end of file. */
  function Joined(chunks: seq<Bytes>): Bytes {
    if chunks == [] || chunks[0] == [] then [] else chunks[0] + Joined(chunks[1..])
  }

  lemma {:induction false} JoinedMore(chunks: seq<Bytes>, last: Bytes)
    ensures Joined(chunks + [last]) == if [] in chunks then Joined(chunks) else Joined(chunks) + last
  {
    if chunks == [] {
      assert [last][1..] == [] && [] + [last] == [last];
    } else {
      JoinedMore(chunks[1..], last);
      assert (chunks + [last])[1..] == chunks[1..] + [last];
    }
  }

  /** What a pipe has delivered of its chunks, and whether it is still open. */
  predicate Delivered(before: Bytes, all: Bytes, open: bool, chunks: seq<Bytes>) {
    all == before + Joined(chunks) && (open <==> [] !in chunks)
  }

  lemma OneMoreDelivered(before: Bytes, all: Bytes, open: bool, chunks: seq<Bytes>, chunk: Bytes)
    requires Delivered(before, all, open, chunks)
    ensures Delivered(before, if open then all + chunk else all, open && chunk != [], chunks + [chunk])
  {
    JoinedMore(chunks, chunk);
    if open { assert before + (Joined(chunks) + chunk) == before + Joined(chunks) + chunk; }
  }

  lemma ChunksMore(front: seq<Arrival>, a: Arrival, name: Stream)
    ensures Chunks(front + [a], name) == if a.name == name then Chunks(front, name) + [a.chunk] else Chunks(front, name)
  {
    assert (front + [a])[..|front|] == front;
    assert Chunks(front, name) + [] == Chunks(front, name);
  }

  /** What has been heard is each pipe's chunks up to its end of file, and a pipe is open until then. */
  lemma {:induction false} HeardIs(l: Line, arrivals: seq<Arrival>)
    requires l.outOpen && l.errOpen
    ensures Delivered(l.out, HearAll(l, arrivals).out, HearAll(l, arrivals).outOpen, Chunks(arrivals, Stdout))
    ensures Delivered(l.err, HearAll(l, arrivals).err, HearAll(l, arrivals).errOpen, Chunks(arrivals, Stderr))
  {
    if arrivals == [] {
      assert l.out + [] == l.out && l.err + [] == l.err;
    } else {
      var front, a := arrivals[..|arrivals| - 1], arrivals[|arrivals| - 1];
      assert arrivals == front + [a];
      HeardIs(l, front);
      ChunksMore(front, a, Stdout);
      ChunksMore(front, a, Stderr);
      var h := HearAll(l, front);
      OneMoreDelivered(l.out, h.out, h.outOpen, Chunks(front, Stdout), a.chunk);
      OneMoreDelivered(l.err, h.err, h.errOpen, Chunks(front, Stderr), a.chunk);
    }
  }

  /** Every arrival on a pipe that is open takes its time, every round its own, and nothing else does. */
  lemma TimeIs(l: Line, a: Arrival, rounds: seq<Round>, r: Round)
    ensures Hear(l, a).time == l.time + if (if a.name == Stdout then l.outOpen else l.errOpen) then a.elapsed else 0
    ensures Play(l, rounds + [r]).time == HearAll(Play(l, rounds), r.arrivals).time + r.elapsed
  {
    assert (rounds + [r])[..|rounds|] == rounds;
  }

  function AllArrivals(rounds: seq<Round>): seq<Arrival> {
    if rounds == [] then [] else AllArrivals(rounds[..|rounds| - 1]) + rounds[|rounds| - 1].arrivals
  }

  lemma {:induction false} HearOn(l: Line, a: seq<Arrival>, b: seq<Arrival>)
    ensures HearAll(l, a + b) == HearAll(HearAll(l, a), b)
  {
    if b == [] {
      assert a + b == a;
    } else {
      HearOn(l, a, b[..|b| - 1]);
      assert (a + b)[..|a + b| - 1] == a + b[..|b| - 1];
    }
  }

  lemma {:induction false} TimeApart(l: Line, k: Line, arrivals: seq<Arrival>)
    requires k == l.(time := k.time)
    ensures HearAll(k, arrivals) == HearAll(l, arrivals).(time := HearAll(k, arrivals).time)
  {
    if arrivals != [] { TimeApart(l, k, arrivals[..|arrivals| - 1]); }
  }

  /** Rounds deliver their arrivals in order. */
  lemma {:induction false} PlayIs(l: Line, rounds: seq<Round>)
    ensures Play(l, rounds) == HearAll(l, AllArrivals(rounds)).(time := Play(l, rounds).time)
  {
    if rounds != [] {
      var front, r := rounds[..|rounds| - 1], rounds[|rounds| - 1];
      PlayIs(l, front);
      TimeApart(HearAll(l, AllArrivals(front)), Play(l, front), r.arrivals);
      HearOn(l, AllArrivals(front), r.arrivals);
    }
  }

  ghost function LineOf(p: Process): Line
    reads p
  {
    Line(p.outAll, p.errAll, p.out.open, p.err.open, p.clock)
  }

  /** The child can be reaped at the end of the round: it has exited, and both streams have ended. */
  predicate Reapable(l: Line, rounds: seq<Round>, k: int) {
    0 <= k < |rounds| && rounds[k].exited && !Play(l, rounds[..k + 1]).outOpen && !Play(l, rounds[..k + 1]).errOpen
  }

  /**
   The loop, over the rounds that happen; `None` when they end before the child could be reaped, which
   is what an exception in the loop amounts to.
   */
  method RunBroker(p: Process, rounds: seq<Round>) returns (r: Option<Capture>, ghost done: nat)
    requires p.Valid() && !p.waited
    modifies p
    ensures p.reaps == 1
    // everything that arrived in the rounds up to the reap was taken in, with the time it took
    ensures done <= |rounds| && LineOf(p) == Play(old(LineOf(p)), rounds[..done])
    ensures r.Some? <==> exists k :: Reapable(old(LineOf(p)), rounds, k)
    ensures r.Some? ==> Reapable(old(LineOf(p)), rounds, done - 1)
    ensures forall k :: 0 <= k < done - 1 ==> !Reapable(old(LineOf(p)), rounds, k)
    ensures r.None? ==> done == |rounds|
    ensures r.Some? ==> p.Valid() && p.waited && !p.out.open && !p.err.open && Faithful(r.value, p)
    ensures r.Some? ==> |p.signals| <= 2 && forall i :: 0 <= i < |p.signals| ==> (p.signals[i].Term? <==> i == 0)
    ensures r.Some? && |p.signals| == 2 ==> p.signals[1].at >= p.signals[0].at + 250_000_000
  {
    var i := 0;
    ghost var first := LineOf(p);
    while !p.waited && i < |rounds|
      invariant p.Valid() && i <= |rounds|
      invariant LineOf(p) == Play(first, rounds[..i])
      invariant p.waited ==> Reapable(first, rounds, i - 1)
      invariant forall k :: 0 <= k < (if p.waited then i - 1 else i) ==> !Reapable(first, rounds, k)
      decreases |rounds| - i
    {
      PlayMore(first, rounds, i);
      PlayRound(p, rounds[i]);
      i := i + 1;
    }
    done := i;
    if !p.waited {
      p.Abandon();
      return None, done;
    }
    var c := Report(p);
    return Some(c), done;
  }

  method Report(p: Process) returns (c: Capture)
    requires p.Valid()
    ensures Faithful(c, p)
    ensures |p.signals| <= 2 && forall i :: 0 <= i < |p.signals| ==> (p.signals[i].Term? <==> i == 0)
    ensures |p.signals| == 2 ==> p.signals[1].at >= p.signals[0].at + 250_000_000
  {
    var ending := if p.overflowKilled then OutputCapExceeded else if p.timedOut then Timeout else Completed;
    return Capture(ending, p.out.buffer, p.err.buffer, p.out.total, p.err.total,
                   p.out.total > p.out.cap, p.err.total > p.err.cap, p.firstJson, p.lastContent);
  }

  lemma PlayMore(l: Line, rounds: seq<Round>, i: nat)
    requires i < |rounds|
    ensures Play(l, rounds[..i + 1]) == Play(Play(l, rounds[..i]), [rounds[i]])
  {
    assert rounds[..i + 1][..i] == rounds[..i];
    assert [rounds[i]][..0] == [];
  }

  /** One round: what is reported of the open pipes, in turn, and then the clock and the reap. */
  method PlayRound(p: Process, round: Round)
    requires p.Valid() && !p.waited
    modifies p
    ensures p.Valid()
    ensures LineOf(p) == Play(old(LineOf(p)), [round])
    ensures p.waited <==> round.exited && !p.out.open && !p.err.open
  {
    DeliverAll(p, round.arrivals);
    assert [round][..0] == [];
    p.Tick(round.elapsed, round.exited);
  }

  method DeliverAll(p: Process, arrivals: seq<Arrival>)
    requires p.Valid() && !p.waited
    modifies p
    ensures p.Valid() && !p.waited && LineOf(p) == HearAll(old(LineOf(p)), arrivals)
  {
    ghost var first := LineOf(p);
    for k := 0 to |arrivals|
      invariant p.Valid() && !p.waited
      invariant LineOf(p) == HearAll(first, arrivals[..k])
    {
      assert arrivals[..k + 1][..k] == arrivals[..k];
      Deliver(p, arrivals[k]);
    }
    assert arrivals[..|arrivals|] == arrivals;
  }

  /** Only a registered pipe is ever reported. */
  method Deliver(p: Process, a: Arrival)
    requires p.Valid() && !p.waited
    modifies p
    ensures p.Valid() && !p.waited && LineOf(p) == Hear(old(LineOf(p)), a)
  {
    match a.name {
      case Stdout => if p.out.open { p.Receive(Stdout, a.chunk, a.elapsed); }
      case Stderr => if p.err.open { p.Receive(Stderr, a.chunk, a.elapsed); }
    }
  }

  // ----- one sample -----

  datatype Failure = NoFailure | TimedOut | CapExceeded | NonzeroExit | InvalidJson | NormalizationFailed

  datatype Sample<+N> = Sample(passed: bool, failure: Failure, normalized: Option<N>)

  function RunSample<J, N>(
    c: Capture, exitCode: int, decode: Bytes -> Option<string>, parse: string -> Option<J>, normalize: J -> Option<N>
  ): Sample<N> {
    if c.ending == Timeout then Sample(false, TimedOut, None)
    else if c.ending == OutputCapExceeded || c.stdoutTruncated || c.stderrTruncated then
      Sample(false, CapExceeded, None)
    else if exitCode != 0 then Sample(false, NonzeroExit, None)
    else if decode(c.stdout).None? then Sample(false, InvalidJson, None)
    else
      var payload := parse(decode(c.stdout).value);
      if payload.None? then Sample(false, InvalidJson, None)
      else
        var normalized := normalize(payload.value);
        if normalized.None? then Sample(false, NormalizationFailed, None)
        else Sample(true, NoFailure, normalized)
  }

  /** What a sample that did not pass is called: the first reason that applies, in this order. */
  lemma SampleAnswers<J(!new), N(!new)>(
    c: Capture, exitCode: int, decode: Bytes -> Option<string>, parse: string -> Option<J>, normalize: J -> Option<N>)
    ensures var f := RunSample(c, exitCode, decode, parse, normalize).failure;
      var overflowed := c.ending == OutputCapExceeded || c.stdoutTruncated || c.stderrTruncated;
      var ran := c.ending != Timeout && !overflowed;
      var parsed := if decode(c.stdout).Some? then parse(decode(c.stdout).value) else None;
      && (f == TimedOut <==> c.ending == Timeout)
      && (f == CapExceeded <==> c.ending != Timeout && overflowed)
      && (f == NonzeroExit <==> ran && exitCode != 0)
      && (f == InvalidJson <==> ran && exitCode == 0 && parsed.None?)
      && (f == NormalizationFailed <==> ran && exitCode == 0 && parsed.Some? && normalize(parsed.value).None?)
      && (f == NoFailure <==> ran && exitCode == 0 && parsed.Some? && normalize(parsed.value).Some?)
  {
  }

  /** A passed sample was never signalled, and its value was parsed from everything the child wrote. */
  lemma PassedMeansWhole<J(!new), N(!new)>(
    p: Process, c: Capture, exitCode: int, decode: Bytes -> Option<string>, parse: string -> Option<J>,
    normalize: J -> Option<N>)
    requires Faithful(c, p)
    ensures var s := RunSample(c, exitCode, decode, parse, normalize);
      && (s.passed <==> s.failure == NoFailure) && (s.passed <==> s.normalized.Some?)
      && (s.passed <==>
            && p.signals == [] && exitCode == 0 && decode(p.outAll).Some? && parse(decode(p.outAll).value).Some?
            && normalize(parse(decode(p.outAll).value).value).Some?)
      && (s.passed ==> s.normalized == normalize(parse(decode(p.outAll).value).value))
  {
    assert c.ending == Completed || c.ending == Timeout || c.ending == OutputCapExceeded;
  }
}
