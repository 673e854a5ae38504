/** Rust's unsigned machine integers, as ranges of `nat`. Arithmetic is done on unbounded integers;
  * every store back into one of these types is range-checked by the verifier, which is how the model
  * makes an overflow or underflow panic of the source a proof obligation. */
module Ints {

  const U8_MAX: nat := 0xFF
  const U16_MAX: nat := 0xFFFF
  const U32_MAX: nat := 0xFFFF_FFFF

  type U8 = x: nat | x <= U8_MAX
  type U16 = x: nat | x <= U16_MAX
  type U32 = x: nat | x <= U32_MAX

  /** `u32::saturating_add`. */
  function SaturatingAdd(a: U32, b: U32): (r: U32)
    ensures a + b <= U32_MAX ==> r == a + b
    ensures a + b > U32_MAX ==> r == U32_MAX
    ensures a <= r && b <= r
  {
    if a + b <= U32_MAX then a + b else U32_MAX
  }

  /** `u32::saturating_sub`. */
  function SaturatingSub(a: U32, b: U32): (r: U32)
    ensures b <= a ==> r + b == a
    ensures a < b ==> r == 0
    ensures r <= a
  {
    if b <= a then a - b else 0
  }

  function Min(a: nat, b: nat): (r: nat)
    ensures r <= a && r <= b && (r == a || r == b)
  {
    if a <= b then a else b
  }
}
