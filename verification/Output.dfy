/** Bounded output: the limited writer, rendering through it, and the probe-then-copy buffer protocol. */
module Output {
  import opened Status

  type Bytes = seq<bv8>

  function Concat(chunks: seq<Bytes>): Bytes {
    if chunks == [] then [] else Concat(chunks[..|chunks| - 1]) + chunks[|chunks| - 1]
  }

  lemma {:induction false} ConcatGrows(chunks: seq<Bytes>, i: nat)
    requires i <= |chunks|
    ensures |Concat(chunks[..i])| <= |Concat(chunks)|
    decreases |chunks|
  {
    if i < |chunks| {
      ConcatGrows(chunks[..|chunks| - 1], i);
      assert chunks[..|chunks| - 1][..i] == chunks[..i];
    } else {
      assert chunks[..i] == chunks;
    }
  }

  class LimitedBuffer {
    var bytes: Bytes
    const limit: nat
    var exceeded: bool

    ghost predicate Valid()
      reads this
    {
      |bytes| <= limit
    }

    constructor (limit: nat)
      ensures Valid() && bytes == [] && !exceeded && this.limit == limit
    {
      this.limit, bytes, exceeded := limit, [], false;
    }

    /** All of the chunk or none of it; `reserved` is whether the allocation succeeds. */
    method Write(chunk: Bytes, reserved: bool) returns (ok: bool)
      requires Valid()
      modifies this
      ensures Valid()
      ensures ok <==> |old(bytes)| + |chunk| <= limit && |old(bytes)| + |chunk| <= USIZE_MAX && reserved
      ensures bytes == if ok then old(bytes) + chunk else old(bytes)
      ensures exceeded <==> old(exceeded) || |old(bytes)| + |chunk| > limit || |old(bytes)| + |chunk| > USIZE_MAX
    {
      var size := CheckedAdd(|bytes|, |chunk|);
      if size.None? || size.value > limit {
        exceeded := true;
        return false;
      }
      if !reserved { return false; }
      bytes := bytes + chunk;
      return true;
    }
  }

  /**
   A serializer that makes these writes, stops at the first that fails, and may fail on its own after
   them. The outcome depends on the concatenation alone, never on how it was cut into writes, and an
   output is never a truncation.
   */
  method BoundedJson(chunks: seq<Bytes>, completes: bool, reserved: seq<bool>, limit: nat) returns (r: Result<Bytes>)
    requires |reserved| == |chunks| && limit <= USIZE_MAX
    ensures r.Ok? ==> r.value == Concat(chunks) && |r.value| <= limit && completes
    ensures r.Err? ==> r.code == LIMIT_EXCEEDED || r.code == INTERNAL_ERROR
    ensures r == Err(LIMIT_EXCEEDED) ==> |Concat(chunks)| > limit
    ensures r == Err(INTERNAL_ERROR) ==> !completes || false in reserved
    ensures false !in reserved && (completes || |Concat(chunks)| > limit) ==>
      r == if |Concat(chunks)| <= limit then Ok(Concat(chunks)) else Err(LIMIT_EXCEEDED)
  {
    var writer := new LimitedBuffer(limit);
    for i := 0 to |chunks|
      invariant writer.Valid() && writer.limit == limit && !writer.exceeded
      invariant writer.bytes == Concat(chunks[..i])
    {
      assert chunks[..i + 1][..i] == chunks[..i];
      ConcatGrows(chunks, i + 1);
      var ok := writer.Write(chunks[i], reserved[i]);
      if !ok {
        if writer.exceeded { return Err(LIMIT_EXCEEDED); }
        assert reserved[i] == false;
        return Err(INTERNAL_ERROR);
      }
    }
    assert chunks[..|chunks|] == chunks;
    if !completes { return Err(INTERNAL_ERROR); }
    return Ok(writer.bytes);
  }

  // ----- the caller's buffer -----

  /** One query call: checks before work, the required length, and a copy only if all of it fits. */
  method Query(bytes: Result<Bytes>, buffer: array?<bv8>, capacity: nat, limit: nat) returns (code: int, required: nat)
    requires buffer != null ==> capacity <= buffer.Length
    modifies if buffer == null then {} else {buffer}
    ensures capacity > limit || (capacity > 0 && buffer == null) ==> code == INVALID_ARGUMENT && required == 0
    ensures capacity <= limit && (capacity == 0 || buffer != null) ==>
      && (bytes.Err? ==> code == bytes.code && required == 0)
      && (bytes.Ok? ==> required == |bytes.value| && code == if capacity < |bytes.value| then BUFFER_TOO_SMALL else OK)
    // whatever is not a full copy leaves the storage as it was, and so does the copy past its end
    ensures buffer != null && code != OK ==> buffer[..] == old(buffer[..])
    ensures buffer != null && code == OK && bytes.Ok? && |bytes.value| <= capacity ==>
      buffer[..] == bytes.value + old(buffer[|bytes.value|..])
  {
    required := 0;
    if capacity > limit { return INVALID_ARGUMENT, 0; }
    if capacity > 0 && buffer == null { return INVALID_ARGUMENT, 0; }
    if bytes.Err? { return bytes.code, 0; }
    required := |bytes.value|;
    if capacity < |bytes.value| { return BUFFER_TOO_SMALL, required; }
    if |bytes.value| > 0 {
      forall k | 0 <= k < |bytes.value| { buffer[k] := bytes.value[k]; }
    }
    return OK, required;
  }

  /** Probing with no storage and copying into storage of the reported length yields exactly the output. */
  method ProbeThenCopy(bytes: Bytes, limit: nat) returns (copy: array<bv8>, probed: int, copied: int)
    ensures probed == if bytes == [] then OK else BUFFER_TOO_SMALL
    ensures copied == OK <==> |bytes| <= limit
    ensures copied == OK ==> copy[..] == bytes
  {
    var required: nat, again: nat;
    probed, required := Query(Ok(bytes), null, 0, limit);
    copy := new bv8[required];
    copied, again := Query(Ok(bytes), copy, required, limit);
  }

  // ----- the cached result of a scan -----

  /** What the terminal outcome serializes to: the writes of its document, and whether it completes. */
  datatype Document = Document(chunks: seq<Bytes>, completes: bool)

  class ScanResult {
    var outcome: Option<Document>
    var result: Option<Result<Bytes>>
    var closed: bool

    /** The cache holds a rendering of the outcome. */
    ghost predicate Valid()
      reads this
    {
      && (result.Some? ==> outcome.Some?)
      && (result.Some? && result.value.Ok? ==>
            result.value.value == Concat(outcome.value.chunks) && |result.value.value| <= MAX_RESULT_BYTES)
      && (result.Some? && result.value.Err? ==> result.value.code in {LIMIT_EXCEEDED, INTERNAL_ERROR})
    }

    constructor (outcome: Option<Document>)
      ensures Valid() && result == None && !closed && this.outcome == outcome
    {
      this.outcome, result, closed := outcome, None, false;
    }

    method ResultBytes(reserved: seq<bool>) returns (r: Result<Bytes>)
      requires Valid() && (outcome.Some? ==> |reserved| == |outcome.value.chunks|)
      modifies this`result
      ensures Valid()
      // the first rendering is the one every later call sees
      ensures old(result).Some? ==> result == old(result) && r == old(result).value
      ensures old(result).None? ==>
        if outcome.None? then r == Err(NOT_READY) && result == None else result == Some(r)
      ensures r.Ok? ==> outcome.Some? && r.value == Concat(outcome.value.chunks) && |r.value| <= 64 * 1024 * 1024
    {
      if result.None? {
        if outcome.None? { return Err(NOT_READY); }
        var rendered := BoundedJson(outcome.value.chunks, outcome.value.completes, reserved, MAX_RESULT_BYTES);
        result := Some(rendered);
      }
      return result.value;
    }

    method Fetch(buffer: array?<bv8>, capacity: nat, reserved: seq<bool>) returns (code: int, required: nat)
      requires Valid() && (outcome.Some? ==> |reserved| == |outcome.value.chunks|)
      requires buffer != null ==> capacity <= buffer.Length
      modifies this`result, if buffer == null then {} else {buffer}
      ensures Valid() && (old(result).Some? ==> result == old(result))
      // refusals, in this order: a bad buffer, a closed job, a scan that is not done
      ensures var badBuffer := capacity > 64 * 1024 * 1024 || (capacity > 0 && buffer == null);
        && (badBuffer ==> code == INVALID_ARGUMENT && required == 0 && result == old(result))
        && (!badBuffer && closed ==> code == INVALID_HANDLE && required == 0 && result == old(result))
        && (!badBuffer && !closed && outcome.None? ==> code == NOT_READY && required == 0 && result == old(result))
      ensures capacity <= MAX_RESULT_BYTES && (capacity == 0 || buffer != null) && !closed && outcome.Some? ==>
        && result.Some?
        && (result.value.Err? ==> code == result.value.code && required == 0)
        && (result.value.Ok? ==>
              && result.value.value == Concat(outcome.value.chunks) && required == |result.value.value|
              && code == if capacity < required then BUFFER_TOO_SMALL else OK)
      ensures code == OK ==> outcome.Some? && required == |Concat(outcome.value.chunks)| <= capacity
      ensures code == OK && buffer != null ==>
        buffer[..] == Concat(outcome.value.chunks) + old(buffer[..])[required..]
      ensures code != OK && buffer != null ==> buffer[..] == old(buffer[..])
    {
      if capacity > MAX_RESULT_BYTES || (capacity > 0 && buffer == null) { return INVALID_ARGUMENT, 0; }
      if closed { return INVALID_HANDLE, 0; }
      var bytes := ResultBytes(reserved);
      code, required := Query(bytes, buffer, capacity, MAX_RESULT_BYTES);
    }
  }

  /** Two calls in a row: the probe reports the length the copy then delivers, whatever the first call found cached. */
  method ProbeThenFetch(job: ScanResult, reserved: seq<bool>) returns (copy: array<bv8>, probed: int, copied: int)
    requires job.Valid() && !job.closed && job.outcome.Some? && |reserved| == |job.outcome.value.chunks|
    modifies job`result
    ensures job.Valid() && job.result.Some?
    ensures job.result.value.Ok? ==>
      && probed == (if Concat(job.outcome.value.chunks) == [] then OK else BUFFER_TOO_SMALL)
      && copied == OK && copy[..] == Concat(job.outcome.value.chunks)
    ensures job.result.value.Err? ==> probed == copied == job.result.value.code
  {
    var required: nat, again: nat;
    probed, required := job.Fetch(null, 0, reserved);
    copy := new bv8[required];
    copied, again := job.Fetch(copy, required, reserved);
  }
}
