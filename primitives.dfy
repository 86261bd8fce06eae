/** Machine integers, the error kinds of the pipeline and the result
    wrappers shared by the other modules.

    The crate is built for wasm32 in release mode, so `usize` is 32 bits
    wide and integer overflow wraps instead of panicking. */
module Primitives {

  const U8_LIMIT: int := 0x100
  const U32_LIMIT: int := 0x1_0000_0000
  /** `usize` on the wasm32 target */
  const USIZE_LIMIT: int := 0x1_0000_0000

  type U8 = x: int | 0 <= x < U8_LIMIT
  type U32 = x: int | 0 <= x < U32_LIMIT
  type USize = x: int | 0 <= x < USIZE_LIMIT

  /** `a + b` on `u32` in a release build: the carry out of bit 31 is lost. */
  function WrappingAddU32(a: U32, b: U32): (r: U32)
    ensures a + b < U32_LIMIT ==> r == a + b
    ensures U32_LIMIT <= a + b ==> r == a + b - U32_LIMIT && r < a && r < b
  {
    if a + b < U32_LIMIT then a + b else a + b - U32_LIMIT
  }

  /** `a - b` on `usize` in a release build: a borrow wraps around. */
  function WrappingSubUSize(a: USize, b: USize): (r: USize)
    ensures b <= a ==> r == a - b
    ensures a < b ==> r == a - b + USIZE_LIMIT && a < r
  {
    if b <= a then a - b else a - b + USIZE_LIMIT
  }

  /** For `0 <= d < m` the remainder of `d` by `m` is `d` itself. */
  lemma SmallRemainder(d: int, m: int)
    requires 0 <= d < m
    ensures d % m == d
  {
  }

  /** Each place where the source panics becomes one of these. */
  datatype Error =
    | DivisionByZero     // `total % freq2` with `freq2 == 0`
    | EmptyDurations     // `durations.choose(..).unwrap()` on an empty slice
    | UnsupportedFormat  // the format tag is not png, jpg, jpeg, tif or tiff
    | DecodeFailure      // the image bytes do not decode

  datatype Option<+T> = None | Some(value: T)

  datatype Result<+T> = Ok(value: T) | Err(error: Error)
}
