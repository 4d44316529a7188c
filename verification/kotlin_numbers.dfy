/** The numeric conversions the pipeline relies on: Kotlin's `Float.toInt()`,
    applied to the result of a floating-point division that may divide by zero.
    Finite floats are modelled as exact reals; rounding of the float
    operations themselves is not modelled. */
module KotlinNumbers {

  const IntMin: int := -0x8000_0000
  const IntMax: int := 0x7FFF_FFFF

  /** A float value: a finite number or one of IEEE 754's special values. */
  datatype FloatValue = Finite(v: real) | PositiveInfinity | NegativeInfinity | NaN

  /** IEEE 754 division of two finite values. A zero divisor gives an infinity
      signed like the dividend, or NaN for 0/0 (signed zeros are not modelled). */
  function Divide(n: real, d: real): (q: FloatValue)
    ensures d != 0.0 ==> q.Finite? && q.v * d == n
    ensures d == 0.0 ==> (q.PositiveInfinity? <==> n > 0.0) && (q.NegativeInfinity? <==> n < 0.0)
    ensures d == 0.0 ==> (q.NaN? <==> n == 0.0)
  {
    if d != 0.0 then Finite(n / d)
    else if n > 0.0 then PositiveInfinity
    else if n < 0.0 then NegativeInfinity
    else NaN
  }

  /** Rounds toward zero, as a JVM float-to-int conversion does. */
  function TruncTowardZero(x: real): (r: int)
    ensures 0.0 <= x ==> 0 <= r && r as real <= x < r as real + 1.0
    ensures x < 0.0 ==> r <= 0 && r as real - 1.0 < x <= r as real
  {
    if x >= 0.0 then x.Floor else -((-x).Floor)
  }

  /** `Float.toInt()`: NaN becomes 0, values beyond the `Int` range saturate
      at its bounds, everything else is truncated toward zero. */
  function ToInt(f: FloatValue): (r: int)
    ensures IntMin <= r <= IntMax
    ensures f.NaN? ==> r == 0
    ensures f.PositiveInfinity? ==> r == IntMax
    ensures f.NegativeInfinity? ==> r == IntMin
    ensures f.Finite? && IntMin as real <= f.v < IntMax as real + 1.0 ==> r == TruncTowardZero(f.v)
    ensures f.Finite? && f.v >= IntMax as real ==> r == IntMax
    ensures f.Finite? && f.v <= IntMin as real ==> r == IntMin
  {
    match f
    case NaN => 0
    case PositiveInfinity => IntMax
    case NegativeInfinity => IntMin
    case Finite(x) =>
      var t := TruncTowardZero(x);
      if t > IntMax then IntMax else if t < IntMin then IntMin else t
  }
}
