/** Option and Result, shared by every module. */
module Prelude {

  datatype Option<+T> = None | Some(value: T)

  datatype Result<+T, +E> = Ok(value: T) | Err(error: E)

  const U32_RANGE := 0x1_0000_0000
  const U64_MAX := 0xFFFF_FFFF_FFFF_FFFF

  function Min(a: nat, b: nat): nat {
    if a <= b then a else b
  }

  function Max(a: int, b: int): int {
    if a <= b then b else a
  }

  /** Saturating subtraction of instants: a clock that went backwards gives 0. */
  function Since(later: int, earlier: int): nat {
    if later <= earlier then 0 else later - earlier
  }
}
