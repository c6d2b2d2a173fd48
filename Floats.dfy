/**
 * Kotlin `Float` results of the divisions and multiplications the components perform.
 * Finite values are exact reals (no rounding), and the three IEEE 754 special values
 * are kept, because the components compare their targets against `Float.POSITIVE_INFINITY`
 * (`Dp.Infinity.value`) and that comparison lets the other two through.
 * Zero is unsigned: every zero is `+0`.
 */
module Floats {

  datatype Float32 = Finite(value: real) | PositiveInfinity | NegativeInfinity | NaN {

    predicate IsInfinite() {
      PositiveInfinity? || NegativeInfinity?
    }

    /** -1, 0 or +1; NaN has no sign and reports 0. */
    function Sign(): int {
      match this
      case Finite(v) => if v > 0.0 then 1 else if v < 0.0 then -1 else 0
      case PositiveInfinity => 1
      case NegativeInfinity => -1
      case NaN => 0
    }
  }

  const Zero: Float32 := Finite(0.0)

  /** The infinity whose sign is `s` (`s` is +1 or -1). */
  function InfinityOfSign(s: int): (r: Float32)
    requires s == 1 || s == -1
    ensures r.IsInfinite() && r.Sign() == s
  {
    if s == 1 then PositiveInfinity else NegativeInfinity
  }

  /** IEEE 754 multiplication without rounding. */
  function Mul(a: Float32, b: Float32): (r: Float32)
    ensures r.Finite? <==> a.Finite? && b.Finite?
    ensures r.NaN? <==> a.NaN? || b.NaN? || (a.IsInfinite() && b == Zero) || (a == Zero && b.IsInfinite())
    ensures a.Finite? && b.Finite? ==> r.value == a.value * b.value
    ensures r.IsInfinite() ==> r.Sign() == a.Sign() * b.Sign()
  {
    if a.NaN? || b.NaN? then NaN
    else if a.Finite? && b.Finite? then Finite(a.value * b.value)
    else if a.Sign() == 0 || b.Sign() == 0 then NaN
    else InfinityOfSign(a.Sign() * b.Sign())
  }

  /** IEEE 754 division without rounding: a non-zero number over zero is an infinity of its sign, 0/0 is NaN. */
  function Div(a: Float32, b: Float32): (r: Float32)
    ensures r.Finite? <==> a.Finite? && ((b.Finite? && b.value != 0.0) || b.IsInfinite())
    ensures r.NaN? <==> a.NaN? || b.NaN? || (a == Zero && b == Zero) || (a.IsInfinite() && b.IsInfinite())
    ensures r == PositiveInfinity <==> b.Finite? && ((a.Finite? && a.value > 0.0 && b.value == 0.0) || (a == PositiveInfinity && b.value >= 0.0) || (a == NegativeInfinity && b.value < 0.0))
    ensures a.Finite? && b.Finite? && b.value != 0.0 ==> r.value == a.value / b.value
    ensures a.Finite? && b.IsInfinite() ==> r == Zero
    ensures r.IsInfinite() ==> r.Sign() == a.Sign() * (if b.Finite? && b.value < 0.0 then -1 else 1)
  {
    if a.NaN? || b.NaN? then NaN
    else if a.Finite? && b.Finite? then
      if b.value != 0.0 then Finite(a.value / b.value)
      else if a.value == 0.0 then NaN
      else InfinityOfSign(a.Sign())
    else if a.Finite? then Zero
    else if b.IsInfinite() then NaN
    else InfinityOfSign(if b.value < 0.0 then -a.Sign() else a.Sign())
  }

  const IntMin: int := -0x8000_0000
  const IntMax: int := 0x7FFF_FFFF

  /** Truncation of a real toward zero. */
  function Truncate(x: real): (n: int)
    ensures 0.0 <= x ==> 0 <= n && n as real <= x < n as real + 1.0
    ensures x < 0.0 ==> n <= 0 && n as real - 1.0 < x <= n as real
  {
    if x >= 0.0 then x.Floor else -((-x).Floor)
  }

  /** Kotlin's `Float.toInt()`: NaN becomes 0, out-of-range values saturate, the rest truncate toward zero. */
  function ToInt(f: Float32): (n: int)
    ensures IntMin <= n <= IntMax
    ensures f.NaN? ==> n == 0
    ensures f == PositiveInfinity ==> n == IntMax
    ensures f == NegativeInfinity ==> n == IntMin
    ensures f.Finite? && IntMin as real <= f.value < IntMax as real + 1.0 ==> n == Truncate(f.value)
    ensures f.Finite? && f.value >= IntMax as real + 1.0 ==> n == IntMax
    ensures f.Finite? && f.value < IntMin as real ==> n == IntMin
  {
    match f
    case NaN => 0
    case PositiveInfinity => IntMax
    case NegativeInfinity => IntMin
    case Finite(v) =>
      var t := Truncate(v);
      if t < IntMin then IntMin else if t > IntMax then IntMax else t
  }

  /** Scaling a non-negative length by a fraction keeps it between 0 and the length. */
  lemma ScaleWithin(h: real, t: real)
    requires 0.0 <= h && 0.0 <= t <= 1.0
    ensures 0.0 <= h * t <= h
  {
  }
}
