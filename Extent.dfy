/**
 * The value-to-extent formulas that the components share, written once: the sweep of the
 * circular components, the label value read back from an animated sweep, the bar width of
 * the linear components and the progress read back from it, and the infinity guard placed
 * in front of every animated target. All of them compute in Kotlin `Float`.
 */
module Extent {
  import opened Floats

  const FullCircle: real := 360.0

  /** `(current * 360) / maximum`: the sweep, in degrees, a circular component animates to. */
  function SweepTarget(current: real, maximum: real): Float32 {
    Div(Finite(current * FullCircle), Finite(maximum))
  }

  /** `(animated / 360) * maximum`: the value a circular component shows for an animated sweep. */
  function LabelValue(animated: Float32, maximum: real): Float32 {
    Mul(Div(animated, Finite(FullCircle)), Finite(maximum))
  }

  /** `if (target != Infinity.value) target else 0F`, in front of every `animateFloatAsState`. */
  function AnimationTarget(target: Float32): Float32 {
    if target != PositiveInfinity then target else Zero
  }

  /** `maxWidth.value.toInt()`: the measured width in whole dp. */
  function MeasuredWidth(widthDp: real): int {
    ToInt(Finite(widthDp))
  }

  /** `(current * width) / maximum`: the width, in dp, a bar animates to. */
  function BarTarget(current: real, width: int, maximum: real): Float32 {
    Div(Finite(current * width as real), Finite(maximum))
  }

  /** `bar * maximum / width`: the progress value read back from a bar width. */
  function BarProgress(bar: Float32, maximum: real, width: int): Float32 {
    Div(Mul(bar, Finite(maximum)), Finite(width as real))
  }

  /** For a valid range the sweep is a finite angle within one turn, in proportion to current/maximum. */
  lemma SweepWithinCircle(current: real, maximum: real)
    requires 0.0 <= current <= maximum && 0.0 < maximum
    ensures SweepTarget(current, maximum).Finite?
    ensures 0.0 <= SweepTarget(current, maximum).value <= FullCircle
    ensures SweepTarget(current, maximum).value / FullCircle == current / maximum
  {
    var r := current * FullCircle / maximum;
    assert r <= FullCircle by {
      assert current * FullCircle <= maximum * FullCircle;
    }
  }

  /** With a zero maximum the sweep is not finite: +inf for a positive value, NaN for zero, -inf for a negative one. */
  lemma SweepOfZeroMaximum(current: real)
    ensures current > 0.0 ==> SweepTarget(current, 0.0) == PositiveInfinity
    ensures current == 0.0 ==> SweepTarget(current, 0.0) == NaN
    ensures current < 0.0 ==> SweepTarget(current, 0.0) == NegativeInfinity
  {
  }

  /** Reading the label back from the target sweep gives the current value again. */
  lemma LabelAtTarget(current: real, maximum: real)
    requires maximum != 0.0
    ensures LabelValue(SweepTarget(current, maximum), maximum) == Finite(current)
  {
    var s := current * FullCircle / maximum;
    assert s / FullCircle * maximum == current by {
      assert s / FullCircle == current / maximum;
    }
  }

  /** The label value grows with the animated sweep, so it climbs to the current value as the sweep does. */
  lemma LabelValueMonotonic(a: real, b: real, maximum: real)
    requires a <= b && 0.0 <= maximum
    ensures LabelValue(Finite(a), maximum).value <= LabelValue(Finite(b), maximum).value
  {
    assert a / FullCircle <= b / FullCircle;
    MulMonotonic(a / FullCircle, b / FullCircle, maximum);
  }

  lemma MulMonotonic(x: real, y: real, m: real)
    requires x <= y && 0.0 <= m
    ensures x * m <= y * m
  {
  }

  /** The guard never hands +inf to the animation, leaves every other value alone, and is idempotent. */
  lemma GuardRemovesOnlyPositiveInfinity(target: Float32)
    ensures AnimationTarget(target) != PositiveInfinity
    ensures target != PositiveInfinity ==> AnimationTarget(target) == target
    ensures AnimationTarget(AnimationTarget(target)) == AnimationTarget(target)
    ensures AnimationTarget(target).Finite? <==> target.Finite? || target == PositiveInfinity
  {
  }

  /** For a valid range on a measured bar the target width lies within the bar. */
  lemma BarWithinWidth(current: real, width: int, maximum: real)
    requires 0.0 <= current <= maximum && 0.0 < maximum && 0 <= width
    ensures BarTarget(current, width, maximum).Finite?
    ensures 0.0 <= BarTarget(current, width, maximum).value <= width as real
  {
    var w := width as real;
    var q := current * w / maximum;
    assert q * maximum == current * w;
    assert (w - q) * maximum == maximum * w - current * w;
    assert current * w <= maximum * w;
    NonNegativeFactor(q, maximum);
    NonNegativeFactor(w - q, maximum);
  }

  lemma NonNegativeFactor(a: real, b: real)
    requires 0.0 < b && 0.0 <= a * b
    ensures 0.0 <= a
  {
  }

  /** Round trip: the progress read back from the target width is the current value. */
  lemma BarRoundTrip(current: real, width: int, maximum: real)
    requires 0 < width && maximum != 0.0
    ensures BarProgress(BarTarget(current, width, maximum), maximum, width) == Finite(current)
  {
    var w := width as real;
    var bar := current * w / maximum;
    assert bar * maximum == current * w;
    assert bar * maximum / w == current;
  }

  /** An unmeasured bar (width 0) gives target 0 and a NaN progress, which the guard lets through. */
  lemma BarOfZeroWidth(current: real, maximum: real)
    requires maximum != 0.0
    ensures BarTarget(current, 0, maximum) == Zero
    ensures BarProgress(BarTarget(current, 0, maximum), maximum, 0) == NaN
    ensures AnimationTarget(BarProgress(BarTarget(current, 0, maximum), maximum, 0)) == NaN
  {
  }

  /** With a zero maximum a positive value makes the bar target +inf and its progress NaN. */
  lemma BarOfZeroMaximum(current: real, width: int)
    requires 0.0 < current && 0 < width
    ensures BarTarget(current, width, 0.0) == PositiveInfinity
    ensures BarProgress(BarTarget(current, width, 0.0), 0.0, width) == NaN
  {
    assert current * width as real > 0.0;
  }
}
