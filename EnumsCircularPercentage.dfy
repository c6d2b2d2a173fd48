/**
 * The `CircularPercentage` kept in the `enums` package: a ring and a stroked arc with
 * default inputs 70 of 100, no assertions, and a label with a `%` suffix computed from the
 * target sweep rather than the animated one. The target is computed once, keyed on `Unit`.
 */
module EnumsCircularPercentage {
  import opened Wrappers
  import opened Floats
  import opened Extent
  import opened Graphics
  import Decimal
  import CircularPercentage

  const DefaultCurrentValue: real := 70.0
  const DefaultMaximumValue: real := 100.0

  /** `"${(percentage / 360 * maximumValue).toInt()}%"`. */
  function PercentLabel(percentage: Float32, maximumValue: real): (text: string)
    ensures |text| > 1 && text[|text| - 1] == '%'
    ensures Decimal.ParseInt(text[..|text| - 1]) == Some(ToInt(LabelValue(percentage, maximumValue)))
  {
    var n := ToInt(LabelValue(percentage, maximumValue));
    Decimal.IntToStringRoundTrip(n);
    var text := Decimal.IntToString(n) + "%";
    assert text[..|text| - 1] == Decimal.IntToString(n);
    text
  }

  /** The remembered state of one component in the composition. */
  class EnumsCircularPercentageState {
    var percentage: Float32  // the target sweep
    var launched: bool       // whether the `LaunchedEffect(Unit)` has run

    constructor ()
      ensures percentage == Zero && !launched
    {
      percentage, launched := Zero, false;
    }

    /** One composition: nothing is checked; the `Unit`-keyed effect runs on the first composition only. */
    method Compose(currentValue: real, maximumValue: real)
      modifies this
      ensures launched
      ensures percentage == if old(launched) then old(percentage) else SweepTarget(currentValue, maximumValue)
    {
      if !launched {
        percentage := SweepTarget(currentValue, maximumValue);
        launched := true;
      }
    }

    function ProgressTarget(): Float32
      reads this
    {
      AnimationTarget(percentage)
    }

    /** The centre text, from the target: it shows the final number from the first frame after the effect. */
    function CenterText(maximumValue: real): string
      reads this
    {
      PercentLabel(percentage, maximumValue)
    }
  }

  /** For values within the range the target lies within one turn. */
  lemma TargetWithinCircle(currentValue: real, maximumValue: real)
    requires 0.0 <= currentValue <= maximumValue && 0.0 < maximumValue
    ensures AnimationTarget(SweepTarget(currentValue, maximumValue)).Finite?
    ensures 0.0 <= AnimationTarget(SweepTarget(currentValue, maximumValue)).value <= FullCircle
  {
    SweepWithinCircle(currentValue, maximumValue);
  }

  /** The label reads the current value from the target at once, truncated, whatever the animation shows. */
  lemma LabelShowsCurrentValue(currentValue: real, maximumValue: real)
    requires 0.0 <= currentValue < IntMax as real && maximumValue != 0.0
    ensures Decimal.ParseInt(PercentLabel(SweepTarget(currentValue, maximumValue), maximumValue)[..|PercentLabel(SweepTarget(currentValue, maximumValue), maximumValue)| - 1])
      == Some(currentValue.Floor)
  {
    LabelAtTarget(currentValue, maximumValue);
  }

  /** The defaults 70 of 100 give a 252 degree sweep and the label "70%". */
  lemma Defaults()
    ensures SweepTarget(DefaultCurrentValue, DefaultMaximumValue) == Finite(252.0)
    ensures PercentLabel(SweepTarget(DefaultCurrentValue, DefaultMaximumValue), DefaultMaximumValue) == "70%"
  {
    LabelAtTarget(DefaultCurrentValue, DefaultMaximumValue);
    assert ToInt(Finite(70.0)) == 70;
    assert Decimal.IntToString(70) == "70";
  }

  /**
   * One component from its first composition to rest: before the effect the label reads
   * "0%"; after it the label reads the truncated current value with a `%`, and the stroked
   * indicator (the same arc as in `CircularPercentage`) settles on `current*360/max`.
   */
  method ShowAtRest(currentValue: real, maximumValue: real) returns (before: string, text: string, arc: Arc)
    requires 0.0 <= currentValue <= maximumValue && 0.0 < maximumValue
    requires currentValue < IntMax as real
    ensures before == "0%"
    ensures text == Decimal.IntToString(currentValue.Floor) + "%"
    ensures arc == CircularPercentage.IndicatorArc(Finite(currentValue * FullCircle / maximumValue))
  {
    var state := new EnumsCircularPercentageState();
    assert LabelValue(state.percentage, maximumValue) == Finite(0.0);
    assert Decimal.IntToString(0) == "0";
    before := state.CenterText(maximumValue);
    state.Compose(currentValue, maximumValue);
    SweepWithinCircle(currentValue, maximumValue);
    LabelAtTarget(currentValue, maximumValue);
    arc := CircularPercentage.IndicatorArc(state.ProgressTarget());
    text := state.CenterText(maximumValue);
  }
}
