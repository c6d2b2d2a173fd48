/**
 * `CircularPercentage`: a background ring and a stroked arc from twelve o'clock whose sweep
 * animates to `current * 360 / maximum`, with the value read back from the animated sweep
 * shown truncated in the centre. The target is computed once, by an effect keyed on `Unit`.
 */
module CircularPercentage {
  import opened Floats
  import opened Asserts
  import opened Extent
  import opened Graphics
  import Decimal

  /** The default arguments of the size and of the animation duration. */
  const DefaultCircularSize: int := 100
  const DefaultPercentageAnimationDuration: int := 1500

  /** The assertions at the top of the composable. There is no check of the maximum or of the stroke widths. */
  function Validate(currentPercentage: real, maximumPercentage: real, percentageAnimationDuration: int, circularSize: int): (r: Outcome)
    ensures r.Pass? <==> 0.0 <= currentPercentage <= maximumPercentage && 0 <= percentageAnimationDuration && 0 <= circularSize
    ensures currentPercentage < 0.0 ==> r == Fail("Current value must be greater than or equal to 0")
    ensures 0.0 <= currentPercentage && maximumPercentage < currentPercentage ==> r == Fail("Current value must be less than or equal to maximum value")
  {
    var checks := [
      Assertion(currentPercentage >= 0.0, "Current value must be greater than or equal to 0"),
      Assertion(currentPercentage <= maximumPercentage, "Current value must be less than or equal to maximum value"),
      Assertion(percentageAnimationDuration >= 0, "Percentage animation duration must be greater than or equal to 0"),
      Assertion(circularSize >= 0, "Circular size must be greater than or equal to 0")
    ];
    assert (forall j :: 0 <= j < |checks| ==> checks[j].holds) <==> checks[0].holds && checks[1].holds && checks[2].holds && checks[3].holds;
    assert !checks[0].holds ==> FirstFailure(checks) == 0;
    assert checks[0].holds && !checks[1].holds ==> FirstFailure(checks) == 1;
    RunAsserts(checks)
  }

  /** The indicator: a stroked (open, `useCenter = false`) arc starting at -90 degrees. */
  function IndicatorArc(progressAnimation: Float32): (arc: Arc)
    ensures arc.startAngle == -90.0 && arc.sweepAngle == progressAnimation && !arc.useCenter
  {
    Arc(-90.0, progressAnimation, false)
  }

  /** The remembered state of one `CircularPercentage` in the composition. */
  class CircularPercentageState {
    var percentage: Float32        // the target sweep
    var actualPercentage: Float32  // the value read back on the last frame
    var launched: bool             // whether the `LaunchedEffect(Unit)` has run

    constructor ()
      ensures percentage == Zero && actualPercentage == Zero && !launched
    {
      percentage, actualPercentage, launched := Zero, Zero, false;
    }

    /** The target handed to `animateFloatAsState`, behind the infinity guard. */
    function ProgressTarget(): Float32
      reads this
    {
      AnimationTarget(percentage)
    }

    /**
     * One composition: the assertions, then the effect keyed on `Unit`, which computes the
     * target on the first successful composition and never again.
     */
    method Compose(currentPercentage: real, maximumPercentage: real, percentageAnimationDuration: int, circularSize: int)
      returns (outcome: Outcome)
      modifies this`percentage, this`launched
      ensures outcome == Validate(currentPercentage, maximumPercentage, percentageAnimationDuration, circularSize)
      ensures outcome.Fail? ==> percentage == old(percentage) && launched == old(launched)
      ensures outcome.Pass? ==> launched
      ensures outcome.Pass? ==> percentage == if old(launched) then old(percentage) else SweepTarget(currentPercentage, maximumPercentage)
    {
      outcome := Validate(currentPercentage, maximumPercentage, percentageAnimationDuration, circularSize);
      if outcome.Pass? && !launched {
        percentage := SweepTarget(currentPercentage, maximumPercentage);
        launched := true;
      }
    }

    /** One frame of the canvas: the value is read back from the animated sweep, then the arc is drawn. */
    method Draw(progressAnimation: Float32, maximumPercentage: real) returns (arc: Arc)
      modifies this`actualPercentage
      ensures actualPercentage == LabelValue(progressAnimation, maximumPercentage)
      ensures arc == IndicatorArc(progressAnimation)
    {
      actualPercentage := LabelValue(progressAnimation, maximumPercentage);
      arc := IndicatorArc(progressAnimation);
    }

    /** The centre text: the last value read back, truncated. */
    function CenterText(): string
      reads this
    {
      Decimal.IntToString(ToInt(actualPercentage))
    }
  }

  /** Accepted inputs with a positive maximum give a finite target within one turn. */
  lemma AcceptedTargetWithinCircle(currentPercentage: real, maximumPercentage: real, percentageAnimationDuration: int, circularSize: int)
    requires Validate(currentPercentage, maximumPercentage, percentageAnimationDuration, circularSize).Pass?
    requires maximumPercentage != 0.0
    ensures AnimationTarget(SweepTarget(currentPercentage, maximumPercentage)).Finite?
    ensures 0.0 <= AnimationTarget(SweepTarget(currentPercentage, maximumPercentage)).value <= FullCircle
  {
    SweepWithinCircle(currentPercentage, maximumPercentage);
  }

  /** The validator admits a zero maximum with a zero value; the target is then NaN, which the guard lets through. */
  lemma AcceptedZeroMaximumIsNaN(percentageAnimationDuration: int, circularSize: int)
    requires 0 <= percentageAnimationDuration && 0 <= circularSize
    ensures Validate(0.0, 0.0, percentageAnimationDuration, circularSize).Pass?
    ensures AnimationTarget(SweepTarget(0.0, 0.0)) == NaN
  {
  }

  /** Once the sweep has settled on its target, the centre shows the current value truncated. */
  lemma LabelAtRest(currentPercentage: real, maximumPercentage: real)
    requires 0.0 <= currentPercentage <= maximumPercentage && 0.0 < maximumPercentage
    requires currentPercentage < IntMax as real
    ensures ToInt(LabelValue(AnimationTarget(SweepTarget(currentPercentage, maximumPercentage)), maximumPercentage)) == currentPercentage.Floor
  {
    SweepWithinCircle(currentPercentage, maximumPercentage);
    LabelAtTarget(currentPercentage, maximumPercentage);
  }

  /** The preview's inputs: 50 of 100 sweeps half the circle and settles on the label "50". */
  lemma PreviewHalfCircle()
    ensures Validate(50.0, 100.0, 1500, 100).Pass?
    ensures SweepTarget(50.0, 100.0) == Finite(180.0)
    ensures Decimal.IntToString(ToInt(LabelValue(Finite(180.0), 100.0))) == "50"
  {
  }

  /** The target is computed once: a later current value does not move it. */
  method ComposeTwice(first: real, second: real, maximumPercentage: real) returns (targets: seq<Float32>)
    requires 0.0 <= first <= maximumPercentage && 0.0 <= second <= maximumPercentage
    ensures targets == [SweepTarget(first, maximumPercentage), SweepTarget(first, maximumPercentage)]
  {
    var state := new CircularPercentageState();
    var outcome := state.Compose(first, maximumPercentage, 1500, 100);
    targets := [state.percentage];
    outcome := state.Compose(second, maximumPercentage, 1500, 100);
    targets := targets + [state.percentage];
  }

  /** With the default size and duration, the validator accepts exactly the values within the range. */
  lemma DefaultsAccepted(currentPercentage: real, maximumPercentage: real)
    ensures Validate(currentPercentage, maximumPercentage, DefaultPercentageAnimationDuration, DefaultCircularSize).Pass?
      <==> 0.0 <= currentPercentage <= maximumPercentage
  {
  }

  /**
   * At rest on the target of accepted input, the stroked arc starts at twelve o'clock and ends
   * `current / max` of a turn further round, at most at 270 degrees (twelve o'clock again).
   */
  lemma RestingArcWithinTurn(currentPercentage: real, maximumPercentage: real, percentageAnimationDuration: int, circularSize: int)
    requires Validate(currentPercentage, maximumPercentage, percentageAnimationDuration, circularSize).Pass?
    requires maximumPercentage != 0.0
    ensures var arc := IndicatorArc(AnimationTarget(SweepTarget(currentPercentage, maximumPercentage)));
      && arc.startAngle == -90.0 && !arc.useCenter && arc.sweepAngle.Finite?
      && (arc.sweepAngle.value) / FullCircle == currentPercentage / maximumPercentage
      && -90.0 <= arc.startAngle + arc.sweepAngle.value <= 270.0
  {
    SweepWithinCircle(currentPercentage, maximumPercentage);
  }

  /**
   * A fresh component composed once with accepted input and drawn with the sweep at rest on
   * its target shows the current value, truncated, and draws the resting arc.
   */
  method ShowAtRest(currentPercentage: real, maximumPercentage: real) returns (text: string, arc: Arc)
    requires 0.0 <= currentPercentage <= maximumPercentage && 0.0 < maximumPercentage
    requires currentPercentage < IntMax as real
    ensures text == Decimal.IntToString(currentPercentage.Floor)
    ensures arc == IndicatorArc(Finite(currentPercentage * FullCircle / maximumPercentage))
  {
    var state := new CircularPercentageState();
    var outcome := state.Compose(currentPercentage, maximumPercentage, DefaultPercentageAnimationDuration, DefaultCircularSize);
    arc := state.Draw(state.ProgressTarget(), maximumPercentage);
    LabelAtRest(currentPercentage, maximumPercentage);
    SweepWithinCircle(currentPercentage, maximumPercentage);
    text := state.CenterText();
  }
}
