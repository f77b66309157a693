/** The `unsigned int` arithmetic the launcher's counters use. */
module U32Arith {

  const TWO_TO_THE_32: int := 0x1_0000_0000

  /** The values of a 32-bit `unsigned int`. */
  type U32 = x: int | 0 <= x < TWO_TO_THE_32

  /** The smaller of two counters, as `min` on unsigned values. */
  function Min(a: U32, b: U32): (r: U32)
    ensures r <= a && r <= b
    ensures r == a || r == b
  {
    if a <= b then a else b
  }

  /** `a -= b` on `unsigned int`: the difference modulo 2^32, so a subtrahend larger than
      `a` wraps around to a large value instead of going negative. */
  function SubWrap(a: U32, b: U32): (r: U32)
    ensures a >= b ==> r == a - b
    ensures a < b ==> r == TWO_TO_THE_32 - (b - a)
  {
    (a - b) % TWO_TO_THE_32
  }
}
