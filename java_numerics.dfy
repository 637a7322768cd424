/** The few Java numeric conversions the signal and spectrum code relies on,
    with doubles read as exact reals and ints as mathematical integers. */
module JavaNumerics {

  const INT_MIN: int := -0x8000_0000
  const INT_MAX: int := 0x7FFF_FFFF

  function Abs(x: real): (r: real)
    ensures r >= 0.0 && (r == x || r == -x)
  {
    if x < 0.0 then -x else x
  }

  /** The cast `(int) x` of a double: rounds toward zero.  The saturation of
      the cast at the ends of the int range is not modelled. */
  function Trunc(x: real): (r: int)
    ensures x >= 0.0 ==> 0 <= r && r as real <= x < r as real + 1.0
    ensures x < 0.0 ==> r <= 0 && r as real - 1.0 < x <= r as real
  {
    if x >= 0.0 then x.Floor else -((-x).Floor)
  }

  /** The double remainder `x % 1.0`: the fractional part, carrying the sign
      of the dividend.  The two bounds and the integrality of `x - r` pin the
      result down uniquely. */
  function RemOne(x: real): (r: real)
    ensures (x - r).Floor as real == x - r
    ensures x >= 0.0 ==> 0.0 <= r < 1.0
    ensures x < 0.0 ==> -1.0 < r <= 0.0
  {
    x - Trunc(x) as real
  }

  /** Two's-complement wrap-around of an int result to 32 bits. */
  function WrapInt32(x: int): (r: int)
    ensures INT_MIN <= r <= INT_MAX
    ensures (x - r) % 0x1_0000_0000 == 0
    ensures INT_MIN <= x <= INT_MAX ==> r == x
  {
    (x - INT_MIN) % 0x1_0000_0000 + INT_MIN
  }
}
