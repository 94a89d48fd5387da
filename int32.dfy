/** Java's 32-bit signed `int` and the wrap-around of its `+` operator. */
module Int32 {

  const MIN_VALUE: int := -0x8000_0000
  const MAX_VALUE: int := 0x7fff_ffff

  /** The values of a Java `int` (`Integer.MIN_VALUE` .. `Integer.MAX_VALUE`). */
  newtype int32 = x: int | MIN_VALUE <= x <= MAX_VALUE

  /** Reduces an unbounded integer to the `int` that Java's two's-complement arithmetic yields. */
  function Wrap(x: int): (r: int32)
    ensures (r as int - x) % 0x1_0000_0000 == 0
    ensures MIN_VALUE <= x <= MAX_VALUE ==> r as int == x
  {
    ((x - MIN_VALUE) % 0x1_0000_0000 + MIN_VALUE) as int32
  }

  /** Java's `a + b` on two `int` operands, which wraps around on overflow. */
  function Add(a: int32, b: int32): (r: int32)
    ensures MIN_VALUE <= a as int + b as int <= MAX_VALUE ==> r as int == a as int + b as int
    ensures a as int + b as int > MAX_VALUE ==> r as int == a as int + b as int - 0x1_0000_0000
    ensures a as int + b as int < MIN_VALUE ==> r as int == a as int + b as int + 0x1_0000_0000
  {
    Wrap(a as int + b as int)
  }
}
