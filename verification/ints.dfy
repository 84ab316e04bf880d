/**
  Machine integers of the effects engine. Dafny integers are unbounded, so
  the C types the engine relies on are written out as subset types, and the
  one place where unsigned wrap-around matters (subtraction on `uint32_t`)
  is an explicit function.
 */
module Ints {

  const TWO_TO_THE_32: int := 0x1_0000_0000

  type uint32 = x: int | 0 <= x < TWO_TO_THE_32
  type int32 = x: int | -0x8000_0000 <= x < 0x8000_0000
  type int16 = x: int | -0x8000 <= x < 0x8000

  /** `a - b` on `uint32_t`: the mathematical difference taken modulo 2^32. */
  function Sub32(a: uint32, b: uint32): (r: uint32)
    ensures a >= b ==> r == a - b
    ensures a < b ==> r == TWO_TO_THE_32 - (b - a)
    ensures r % TWO_TO_THE_32 == (a - b) % TWO_TO_THE_32
  {
    if a >= b then a - b else TWO_TO_THE_32 + a - b
  }

  /** `x << 2` on `uint32_t`: the bits shifted out at the top are lost. */
  function Shl2(x: uint32): (r: uint32)
    ensures x < TWO_TO_THE_32 / 4 ==> r == 4 * x
    ensures r % 4 == 0
    ensures r == 4 * (x % (TWO_TO_THE_32 / 4))
  {
    (4 * x) % TWO_TO_THE_32
  }

  /**
    The engine's saturating conversion `(x <= lo) ? lo : ((x >= hi) ? hi : x)`:
    the value nearest to `x` inside `[lo, hi]`.
   */
  function Clamp(x: int, lo: int, hi: int): (r: int)
    requires lo <= hi
    ensures lo <= r <= hi
    ensures lo <= x <= hi ==> r == x
    ensures x <= lo ==> r == lo
    ensures x >= hi ==> r == hi
  {
    if x <= lo then lo else if x >= hi then hi else x
  }
}
