/**
 * The fixed-width integers the contract stores: `u128` amounts and the
 * `i32` deposit counter, with Rust's `checked_add` / `checked_sub`, which
 * report leaving the range as `None` instead of wrapping around.
 */
module Numeric {
  import opened Wrappers

  const U128_MAX: int := 0xFFFF_FFFF_FFFF_FFFF_FFFF_FFFF_FFFF_FFFF
  const I32_MIN: int := -0x8000_0000
  const I32_MAX: int := 0x7FFF_FFFF

  type U128 = x: int | 0 <= x <= U128_MAX
  type I32 = x: int | I32_MIN <= x <= I32_MAX

  function CheckedAddU128(a: U128, b: U128): Option<U128>
  {
    if a + b <= U128_MAX then Some(a + b) else None
  }

  function CheckedSubU128(a: U128, b: U128): Option<U128>
  {
    if b <= a then Some(a - b) else None
  }

  function CheckedAddI32(a: I32, b: I32): Option<I32>
  {
    if a + b <= I32_MAX && I32_MIN <= a + b then Some(a + b) else None
  }

  function CheckedSubI32(a: I32, b: I32): Option<I32>
  {
    if a - b <= I32_MAX && I32_MIN <= a - b then Some(a - b) else None
  }
}
