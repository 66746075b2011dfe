/**
 * Fixed-width Rust integers as subsets of Dafny's unbounded `int`, with the
 * three conversions the modelled code relies on written out explicitly:
 * `u32::saturating_mul`, `x.max(1)` and the `i32 as u32` cast.
 */
module Ints {

  const U32_LIMIT: int := 0x1_0000_0000
  const U32_MAX: int := 0xFFFF_FFFF
  const I32_MIN: int := -0x8000_0000
  const I32_MAX: int := 0x7FFF_FFFF

  type u32 = x: int | 0 <= x < U32_LIMIT
  type i32 = x: int | I32_MIN <= x <= I32_MAX

  /** `a.saturating_mul(b)` on `u32`: the exact product, or `u32::MAX` when it does not fit. */
  function SaturatingMul(a: u32, b: u32): (r: u32)
    ensures a * b <= U32_MAX ==> r == a * b
    ensures a * b > U32_MAX ==> r == U32_MAX
    ensures r <= a * b
  {
    var p := a * b;
    assert p >= 0 by { MulNonNegative(a, b); }
    if p <= U32_MAX then p else U32_MAX
  }

  lemma MulNonNegative(a: nat, b: nat)
    ensures a * b >= 0
  {
  }

  /** `x.max(1)`: the value clamped from below to one. */
  function AtLeastOne(x: int): (r: int)
    ensures r >= 1 && r >= x
    ensures x >= 1 ==> r == x
    ensures x < 1 ==> r == 1
  {
    if x < 1 then 1 else x
  }

  /** `x as u32` for an `i32`: the two's-complement bit pattern read as unsigned. */
  function I32AsU32(x: i32): (r: u32)
    ensures (r - x) % U32_LIMIT == 0
    ensures x >= 0 ==> r == x
    ensures x < 0 ==> r >= 0x8000_0000
  {
    if x >= 0 then x else x + U32_LIMIT
  }

  /** The cast loses nothing: two different `i32` values give two different `u32` values. */
  lemma I32AsU32Injective(x: i32, y: i32)
    requires I32AsU32(x) == I32AsU32(y)
    ensures x == y
  {
  }

  /** Saturation only ever clamps: scaling a positive size by a positive factor never drops below the size. */
  lemma SaturatingMulAtLeastOperand(a: u32, b: u32)
    ensures b >= 1 ==> SaturatingMul(a, b) >= a
  {
    if b >= 1 {
      assert a * b >= a * 1;
    }
  }
}
