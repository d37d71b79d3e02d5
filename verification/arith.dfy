/**
 The fixed-width integer behaviour of the C code that the game model needs:
 32-bit unsigned values, the 16-bit ADC sample, C's truncating division, the
 conversion of an unsigned 32-bit value back to a signed `int`, and a plain
 clamp used as the reference definition for the clamping steps.
 */
module Arith {

  const Two16: int := 0x1_0000
  const Two31: int := 0x8000_0000
  const Two32: int := 0x1_0000_0000

  /** A `uint32_t` value. */
  type U32 = x: int | 0 <= x < Two32

  /** A `uint16_t` value (what `adc_read()` returns). */
  type U16 = x: int | 0 <= x < Two16

  /** `a - b` on `uint32_t`: the difference taken modulo 2^32. */
  function SubU32(a: U32, b: U32): (r: U32)
    ensures a >= b ==> r == a - b
    ensures a < b ==> r == a + Two32 - b
  {
    (a - b) % Two32
  }

  /** `a * b` on `uint32_t`: the product taken modulo 2^32. */
  function MulU32(a: U32, b: U32): (r: U32)
  {
    (a * b) % Two32
  }

  /** Conversion of an `int` to `uint32_t`. */
  function ToU32(a: int): (r: U32)
    ensures 0 <= a < Two32 ==> r == a
  {
    a % Two32
  }

  /** Conversion of a `uint32_t` to a 32-bit `int` (two's complement, as GCC does). */
  function ToInt32(a: U32): (r: int)
    ensures -Two31 <= r < Two31
    ensures a < Two31 ==> r == a
  {
    if a < Two31 then a else a - Two32
  }

  /** C's `/` on `int`: rounds toward zero, unlike Dafny's Euclidean `/`. */
  function TruncDiv(a: int, d: int): (r: int)
    requires d > 0
  {
    if a >= 0 then a / d else -((-a) / d)
  }

  /** The value in `[lo, hi]` nearest to `v`. */
  function Clamp(v: int, lo: int, hi: int): (r: int)
    requires lo <= hi
    ensures lo <= r <= hi
    ensures lo <= v <= hi ==> r == v
    ensures v < lo ==> r == lo
    ensures v > hi ==> r == hi
  {
    if v < lo then lo else if v > hi then hi else v
  }

  lemma MulLeRight(a: int, b: int, c: int)
    requires a <= b
    requires c >= 0
    ensures a * c <= b * c
  {
  }

  lemma DivLeMono(a: int, b: int, d: int)
    requires 0 <= a <= b
    requires d > 0
    ensures a / d <= b / d
  {
    if a / d > b / d {
      MulLeRight(b / d + 1, a / d, d);
    }
  }
}
