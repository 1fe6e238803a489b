/**
 Machine integers of the game: Rust's `i32` and `u16`, with the three kinds of
 arithmetic the game uses on them. `saturating_add`/`saturating_sub` clamp to the
 range; the plain operators `+`, `-` and unary `-` wrap around (as they do in a
 release build, where overflow checks are off); `/ 2` truncates toward zero.
 */
module Int32 {

  const I32_MIN: int := -0x8000_0000
  const I32_MAX: int := 0x7FFF_FFFF
  const I32_MODULUS: int := 0x1_0000_0000
  const U16_MODULUS: int := 0x1_0000

  type I32 = x: int | I32_MIN <= x <= I32_MAX
  type U16 = x: int | 0 <= x < U16_MODULUS

  /** The value of `v` clamped to the `i32` range. */
  function Clamp(v: int): (r: I32)
    ensures I32_MIN <= v <= I32_MAX ==> r == v
    ensures v > I32_MAX ==> r == I32_MAX
    ensures v < I32_MIN ==> r == I32_MIN
  {
    if v < I32_MIN then I32_MIN else if v > I32_MAX then I32_MAX else v
  }

  /** The `i32` congruent to `v` modulo 2^32, for `v` within one wrap of the range. */
  function Wrap(v: int): (r: I32)
    requires I32_MIN - I32_MODULUS <= v <= I32_MAX + I32_MODULUS
    ensures (r - v) % I32_MODULUS == 0
  {
    if v > I32_MAX then v - I32_MODULUS else if v < I32_MIN then v + I32_MODULUS else v
  }

  /** `a.saturating_add(b)` */
  function SatAdd(a: I32, b: I32): I32 { Clamp(a + b) }

  /** `a.saturating_sub(b)` */
  function SatSub(a: I32, b: I32): I32 { Clamp(a - b) }

  /** `a + b` without overflow checks */
  function WrapAdd(a: I32, b: I32): I32 { Wrap(a + b) }

  /** `a - b` without overflow checks */
  function WrapSub(a: I32, b: I32): I32 { Wrap(a - b) }

  /** `-a` without overflow checks: only `i32::MIN` wraps, to itself. */
  function WrapNeg(a: I32): (r: I32)
    ensures a != I32_MIN ==> r == -a
    ensures a == I32_MIN ==> r == I32_MIN
  {
    Wrap(-(a as int))
  }

  /** `a / 2` in Rust, which rounds toward zero. */
  function Half(a: I32): (r: I32)
    ensures -1 <= a - 2 * r <= 1
    ensures a >= 0 ==> 0 <= r && a - 2 * r <= 1
    ensures a < 0 ==> r <= 0 && a - 2 * r >= -1
  {
    if a >= 0 then a / 2 else -((-(a as int)) / 2)
  }

  function Min(a: I32, b: I32): I32 { if a <= b then a else b }

  function Max(a: I32, b: I32): I32 { if a >= b then a else b }

  /** `a.saturating_sub(b)` on `u16` */
  function SatSubU16(a: U16, b: U16): (r: U16)
    ensures a >= b ==> r == a - b
    ensures a < b ==> r == 0
  {
    if a >= b then a - b else 0
  }

  /** `a + n` on `u16` without overflow checks. */
  function WrapAddU16(a: U16, n: nat): U16 { (a + n) % U16_MODULUS }
}
