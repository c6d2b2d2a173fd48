/**
 * `CirclePercentage`: a background ring and a filled sector from twelve o'clock whose sweep
 * animates to `current * 360 / maximum`, with the value read back from the animated sweep
 * shown truncated in the centre. Unlike the other circular components, the target is
 * recomputed by an effect keyed on the current value.
 */
module CirclePercentage {
  import opened Wrappers
  import opened Floats
  import opened Asserts
  import opened Extent
  import opened Graphics
  import Decimal
  import CircularPercentage

  /** The default arguments of the size, the animation duration and the background stroke width. */
  const DefaultCircleSize: int := 100
  const DefaultPercentageAnimationDuration: int := 1500
  const DefaultCircleStrokeBackgroundWidth: real := 10.0

  /** The assertions at the top of the composable; the last one requires a visible background ring. */
  function Validate(currentPercentage: real, maxPercentage: real, percentageAnimationDuration: int, circleSize: int, circleStrokeBackgroundWidth: real): (r: Outcome)
    ensures r.Pass? <==> 0.0 <= currentPercentage <= maxPercentage && 0 <= percentageAnimationDuration && 0 <= circleSize && 0.0 < circleStrokeBackgroundWidth
    ensures currentPercentage < 0.0 ==> r == Fail("Current value must be greater than or equal to 0")
    ensures 0.0 <= currentPercentage <= maxPercentage && 0 <= percentageAnimationDuration && 0 <= circleSize && circleStrokeBackgroundWidth <= 0.0
      ==> r == Fail("Circle stroke background width must be greater than 0")
  {
    var checks := [
      Assertion(currentPercentage >= 0.0, "Current value must be greater than or equal to 0"),
      Assertion(currentPercentage <= maxPercentage, "Current value must be less than or equal to maximum value"),
      Assertion(percentageAnimationDuration >= 0, "Percentage animation duration must be greater than or equal to 0"),
      Assertion(circleSize >= 0, "Circular size must be greater than or equal to 0"),
      Assertion(circleStrokeBackgroundWidth > 0.0, "Circle stroke background width must be greater than 0")
    ];
    assert (forall j :: 0 <= j < |checks| ==> checks[j].holds) <==> checks[0].holds && checks[1].holds && checks[2].holds && checks[3].holds && checks[4].holds;
    assert !checks[0].holds ==> FirstFailure(checks) == 0;
    assert checks[0].holds && checks[1].holds && checks[2].holds && checks[3].holds && !checks[4].holds ==> FirstFailure(checks) == 4;
    RunAsserts(checks)
  }

  /** This validator is the stroked-ring one plus the background stroke check, and nothing else. */
  lemma StricterThanCircular(current: real, maximum: real, duration: int, size: int, strokeWidth: real)
    ensures Validate(current, maximum, duration, size, strokeWidth).Pass?
      <==> CircularPercentage.Validate(current, maximum, duration, size).Pass? && 0.0 < strokeWidth
  {
  }

  /** The indicator: a filled sector (`useCenter = true`) starting at -90 degrees. */
  function IndicatorArc(progressAnimation: Float32): (arc: Arc)
    ensures arc.startAngle == -90.0 && arc.sweepAngle == progressAnimation && arc.useCenter
  {
    Arc(-90.0, progressAnimation, true)
  }

  /** The remembered state of one `CirclePercentage` in the composition. */
  class CirclePercentageState {
    var percentage: Float32        // the target sweep
    var actualPercentage: Float32  // the value read back on the last frame
    var effectKey: Option<real>    // the current value the effect last ran for

    constructor ()
      ensures percentage == Zero && actualPercentage == Zero && effectKey == None
    {
      percentage, actualPercentage, effectKey := Zero, Zero, None;
    }

    /** The target handed to `animateFloatAsState`, behind the infinity guard. */
    function ProgressTarget(): Float32
      reads this
    {
      AnimationTarget(percentage)
    }

    /**
     * One composition: the assertions, then the effect keyed on the current value, which
     * recomputes the target whenever that value differs from the one it last ran for.
     * A change of the maximum alone does not rerun it.
     */
    method Compose(currentPercentage: real, maxPercentage: real, percentageAnimationDuration: int, circleSize: int, circleStrokeBackgroundWidth: real)
      returns (outcome: Outcome)
      modifies this`percentage, this`effectKey
      ensures outcome == Validate(currentPercentage, maxPercentage, percentageAnimationDuration, circleSize, circleStrokeBackgroundWidth)
      ensures outcome.Fail? ==> percentage == old(percentage) && effectKey == old(effectKey)
      ensures outcome.Pass? ==> effectKey == Some(currentPercentage)
      ensures outcome.Pass? ==> percentage == if old(effectKey) == Some(currentPercentage) then old(percentage) else SweepTarget(currentPercentage, maxPercentage)
    {
      outcome := Validate(currentPercentage, maxPercentage, percentageAnimationDuration, circleSize, circleStrokeBackgroundWidth);
      if outcome.Pass? && effectKey != Some(currentPercentage) {
        percentage := SweepTarget(currentPercentage, maxPercentage);
        effectKey := Some(currentPercentage);
      }
    }

    /** One frame of the canvas: the value is read back from the animated sweep, then the sector is drawn. */
    method Draw(progressAnimation: Float32, maxPercentage: real) returns (arc: Arc)
      modifies this`actualPercentage
      ensures actualPercentage == LabelValue(progressAnimation, maxPercentage)
      ensures arc == IndicatorArc(progressAnimation)
    {
      actualPercentage := LabelValue(progressAnimation, maxPercentage);
      arc := IndicatorArc(progressAnimation);
    }

    /** The centre text: the last value read back, truncated. */
    function CenterText(): string
      reads this
    {
      Decimal.IntToString(ToInt(actualPercentage))
    }
  }

  /** Accepted inputs with a positive maximum give a finite target within one turn. */
  lemma AcceptedTargetWithinCircle(currentPercentage: real, maxPercentage: real, percentageAnimationDuration: int, circleSize: int, circleStrokeBackgroundWidth: real)
    requires Validate(currentPercentage, maxPercentage, percentageAnimationDuration, circleSize, circleStrokeBackgroundWidth).Pass?
    requires maxPercentage != 0.0
    ensures AnimationTarget(SweepTarget(currentPercentage, maxPercentage)).Finite?
    ensures 0.0 <= AnimationTarget(SweepTarget(currentPercentage, maxPercentage)).value <= FullCircle
  {
    SweepWithinCircle(currentPercentage, maxPercentage);
  }

  /** Every change of the current value moves the target: two successive values give the targets of each. */
  method ComposeTwice(first: real, second: real, maxPercentage: real) returns (targets: seq<Float32>)
    requires 0.0 <= first <= maxPercentage && 0.0 <= second <= maxPercentage
    ensures targets == [SweepTarget(first, maxPercentage), SweepTarget(second, maxPercentage)]
  {
    var state := new CirclePercentageState();
    var outcome := state.Compose(first, maxPercentage, 1500, 100, 10.0);
    targets := [state.percentage];
    outcome := state.Compose(second, maxPercentage, 1500, 100, 10.0);
    targets := targets + [state.percentage];
  }

  /** With the default arguments, the validator accepts exactly the values within the range. */
  lemma DefaultsAccepted(currentPercentage: real, maxPercentage: real)
    ensures Validate(currentPercentage, maxPercentage, DefaultPercentageAnimationDuration, DefaultCircleSize, DefaultCircleStrokeBackgroundWidth).Pass?
      <==> 0.0 <= currentPercentage <= maxPercentage
  {
  }

  /**
   * At rest on the target of accepted input, the filled sector starts at twelve o'clock and covers
   * `current / max` of the disc, ending at most at 270 degrees.
   */
  lemma RestingSectorWithinTurn(currentPercentage: real, maxPercentage: real, percentageAnimationDuration: int, circleSize: int, circleStrokeBackgroundWidth: real)
    requires Validate(currentPercentage, maxPercentage, percentageAnimationDuration, circleSize, circleStrokeBackgroundWidth).Pass?
    requires maxPercentage != 0.0
    ensures var arc := IndicatorArc(AnimationTarget(SweepTarget(currentPercentage, maxPercentage)));
      && arc.startAngle == -90.0 && arc.useCenter && arc.sweepAngle.Finite?
      && (arc.sweepAngle.value) / FullCircle == currentPercentage / maxPercentage
      && -90.0 <= arc.startAngle + arc.sweepAngle.value <= 270.0
  {
    SweepWithinCircle(currentPercentage, maxPercentage);
  }

  /**
   * A component composed with a first value and then a second, drawn with the sweep at rest on
   * the second value's target, shows the second value truncated.
   */
  method ShowSecondAtRest(first: real, second: real, maxPercentage: real) returns (text: string, arc: Arc)
    requires 0.0 <= first <= maxPercentage && 0.0 <= second <= maxPercentage && 0.0 < maxPercentage
    requires second < IntMax as real
    ensures text == Decimal.IntToString(second.Floor)
    ensures arc == IndicatorArc(Finite(second * FullCircle / maxPercentage))
  {
    DefaultsAccepted(first, maxPercentage);
    DefaultsAccepted(second, maxPercentage);
    var state := new CirclePercentageState();
    var outcome := state.Compose(first, maxPercentage, DefaultPercentageAnimationDuration, DefaultCircleSize, DefaultCircleStrokeBackgroundWidth);
    assert state.effectKey == Some(first) && state.percentage == SweepTarget(first, maxPercentage);
    outcome := state.Compose(second, maxPercentage, DefaultPercentageAnimationDuration, DefaultCircleSize, DefaultCircleStrokeBackgroundWidth);
    assert state.percentage == SweepTarget(second, maxPercentage);
    arc := state.Draw(state.ProgressTarget(), maxPercentage);
    CircularPercentage.LabelAtRest(second, maxPercentage);
    SweepWithinCircle(second, maxPercentage);
    text := state.CenterText();
  }
}
