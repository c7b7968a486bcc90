/** Status codes, machine-integer bounds and the option/result types shared by every component. */
module Status {

  datatype Option<+T> = None | Some(value: T)

  datatype Result<+T> = Ok(value: T) | Err(code: int)

  // crates/bindings/src/lib.rs:54-70
  const MAX_TASKS: nat := 4
  const MAX_RESULT_BYTES: nat := 64 * 1024 * 1024
  const OK: int := 0
  const INVALID_ARGUMENT: int := 1
  const INVALID_HANDLE: int := 4
  const LIMIT_EXCEEDED: int := 5
  const NOT_READY: int := 6
  const BUFFER_TOO_SMALL: int := 7
  const BUSY: int := 8
  const INTERNAL_ERROR: int := 9
  const QUERY_UNAVAILABLE: int := 13
  const INVALID_CANDIDATE: int := 14

  const U64_MAX: nat := 0xFFFF_FFFF_FFFF_FFFF
  const USIZE_MAX: nat := 0xFFFF_FFFF_FFFF_FFFF

  /** `u64::checked_add` / `usize::checked_add` on a 64-bit target. */
  function CheckedAdd(a: nat, b: nat): Option<nat> {
    if a + b <= U64_MAX then Some(a + b) else None
  }

  /** `saturating_add` on a 64-bit target. */
  function SaturatingAdd(a: nat, b: nat): nat {
    if a + b <= U64_MAX then a + b else U64_MAX
  }
}
