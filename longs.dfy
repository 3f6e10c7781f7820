/** Java's 64-bit `long` and its wrap-around addition and subtraction. */
module Longs {

  const LONG_MIN: int := -0x8000_0000_0000_0000
  const LONG_MAX: int := 0x7FFF_FFFF_FFFF_FFFF
  const TWO_64: int := 0x1_0000_0000_0000_0000

  /** A value of Java type `long` (`Long.MIN_VALUE` .. `Long.MAX_VALUE`). */
  type Long = x: int | LONG_MIN <= x <= LONG_MAX

  /** Java `a + b` on longs: the mathematical sum, reduced modulo 2^64 into the long range. */
  function Add(a: Long, b: Long): (r: Long)
    ensures LONG_MIN <= a + b <= LONG_MAX ==> r == a + b
    ensures a + b > LONG_MAX ==> r == a + b - TWO_64 && r < 0
    ensures a + b < LONG_MIN ==> r == a + b + TWO_64 && r >= 0
  {
    var s := a + b;
    if s > LONG_MAX then s - TWO_64 else if s < LONG_MIN then s + TWO_64 else s
  }

  /** Java `a - b` on longs: the mathematical difference, reduced modulo 2^64 into the long range. */
  function Sub(a: Long, b: Long): (r: Long)
    ensures LONG_MIN <= a - b <= LONG_MAX ==> r == a - b
    ensures a - b > LONG_MAX ==> r == a - b - TWO_64 && r < 0
    ensures a - b < LONG_MIN ==> r == a - b + TWO_64 && r >= 0
  {
    var d := a - b;
    if d > LONG_MAX then d - TWO_64 else if d < LONG_MIN then d + TWO_64 else d
  }
}
