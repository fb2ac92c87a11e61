/** Java's fixed-width integers. A `long` that the code manipulates bit by bit
    is a `bv64` (its two's-complement bit pattern); the `int` counter, which
    the code only increments, is an integer in the 32-bit range whose
    overflow is written out. */
module JavaBits {

  /** Long.MIN_VALUE and Long.MAX_VALUE, as bit patterns. */
  const LongMin: bv64 := 0x8000_0000_0000_0000
  const LongMax: bv64 := 0x7FFF_FFFF_FFFF_FFFF

  /** Integer.MIN_VALUE and Integer.MAX_VALUE. */
  const IntMin: int := -0x8000_0000
  const IntMax: int := 0x7FFF_FFFF

  /** The values of a Java `int`. */
  type Int32 = x: int | IntMin <= x <= IntMax

  /** The signed order on Java longs: flipping the sign bit maps it onto the
      unsigned order of the bit patterns. */
  predicate SignedLe(a: bv64, b: bv64) {
    (a ^ LongMin) <= (b ^ LongMin)
  }

  predicate SignedLt(a: bv64, b: bv64) {
    (a ^ LongMin) < (b ^ LongMin)
  }

  /** Between 0 and a non-negative bound the signed and unsigned orders agree. */
  lemma NonNegativeRange(d: bv64, max: bv64)
    requires max < LongMin && SignedLe(0, d) && SignedLt(d, max)
    ensures d < max
  {
  }

  /** Java's widening of an `int` bit pattern to a `long`: the low 32 bits are
      kept and the high 32 bits are all copies of the int's sign bit (0 minus
      the sign bit is either all zeros or all ones). */
  function SignExtend(x: bv32): (r: bv64)
    ensures r & 0xFFFF_FFFF == x as bv64
    ensures x >> 31 == 0 ==> r >> 32 == 0
    ensures x >> 31 == 1 ==> r >> 32 == 0xFFFF_FFFF
  {
    (x as bv64) | ((0 - ((x >> 31) as bv64)) << 32)
  }

  /** `x++` on a Java int: one more, except that Integer.MAX_VALUE overflows
      to Integer.MIN_VALUE. */
  function Increment(x: Int32): (r: Int32)
    ensures r == x + 1 || (x == IntMax && r == IntMin)
    ensures r == IntMin <==> x == IntMax
  {
    if x == IntMax then IntMin else x + 1
  }
}
