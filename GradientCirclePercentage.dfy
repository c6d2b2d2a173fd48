/**
 * `GradientCirclePercentage`: a disc filled with a vertical linear gradient whose end point
 * follows the animated value. The container is turned upside down so that the gradient
 * rises from the bottom, and the text box inside it is turned again so that the text reads
 * upright. The target is computed once, by an effect keyed on `Unit`.
 */
module GradientCirclePercentage {
  import opened Floats
  import opened Asserts
  import opened Extent
  import Decimal
  import CircularPercentage

  /** The default arguments of the size and of the animation duration. */
  const DefaultCircularSize: int := 100
  const DefaultPercentageAnimationDuration: int := 1500

  /** The assertions at the top of the composable; the colour list is not checked. */
  function Validate(currentPercentage: real, maxPercentage: real, percentageAnimationDuration: int, circularSize: int): (r: Outcome)
    ensures r.Pass? <==> 0.0 <= currentPercentage <= maxPercentage && 0 <= percentageAnimationDuration && 0 <= circularSize
    ensures currentPercentage < 0.0 ==> r == Fail("Current value must be greater than or equal to 0")
  {
    var checks := [
      Assertion(currentPercentage >= 0.0, "Current value must be greater than or equal to 0"),
      Assertion(currentPercentage <= maxPercentage, "Current value must be less than or equal to maximum value"),
      Assertion(percentageAnimationDuration >= 0, "Percentage animation duration must be greater than or equal to 0"),
      Assertion(circularSize >= 0, "Circular size must be greater than or equal to 0")
    ];
    assert (forall j :: 0 <= j < |checks| ==> checks[j].holds) <==> checks[0].holds && checks[1].holds && checks[2].holds && checks[3].holds;
    assert !checks[0].holds ==> FirstFailure(checks) == 0;
    RunAsserts(checks)
  }

  /** The gradient component asserts exactly what the stroked-ring component asserts, with the same messages. */
  lemma SameAssertionsAsCircular(current: real, maximum: real, duration: int, size: int)
    ensures Validate(current, maximum, duration, size) == CircularPercentage.Validate(current, maximum, duration, size)
  {
  }

  /** `size.height * (actualPercentage / maxPercentage)`: the y of the gradient's end point, in the canvas' own frame. */
  function GradientEndY(height: real, actualPercentage: Float32, maxPercentage: real): Float32 {
    Mul(Finite(height), Div(actualPercentage, Finite(maxPercentage)))
  }

  const ContainerRotation: real := 180.0  // `rotate(180f)` on the outer box
  const TextRotation: real := 180.0       // `rotate(180f)` on the box around the text

  /** An angle reduced to one turn, [0, 360). */
  function NormalizeDegrees(angle: real): (r: real)
    ensures 0.0 <= r < FullCircle
    ensures (angle - r) / FullCircle == ((angle - r) / FullCircle).Floor as real
  {
    angle - FullCircle * (angle / FullCircle).Floor as real
  }

  /** Under a half turn about the centre, a canvas y maps to `height - y` on screen. */
  function ScreenY(canvasY: real, height: real): real
  {
    height - canvasY
  }

  /** The remembered state of one `GradientCirclePercentage` in the composition. */
  class GradientCirclePercentageState {
    var percentage: Float32        // the target sweep, in degrees
    var actualPercentage: Float32  // the value read back on the last frame
    var launched: bool             // whether the `LaunchedEffect(Unit)` has run

    constructor ()
      ensures percentage == Zero && actualPercentage == Zero && !launched
    {
      percentage, actualPercentage, launched := Zero, Zero, false;
    }

    /** The target handed to `animateFloatAsState`, behind the infinity guard. */
    function ProgressTarget(): Float32
      reads this
    {
      AnimationTarget(percentage)
    }

    /** One composition: the assertions, then the `Unit`-keyed effect, which runs on the first successful composition only. */
    method Compose(currentPercentage: real, maxPercentage: real, percentageAnimationDuration: int, circularSize: int)
      returns (outcome: Outcome)
      modifies this`percentage, this`launched
      ensures outcome == Validate(currentPercentage, maxPercentage, percentageAnimationDuration, circularSize)
      ensures outcome.Fail? ==> percentage == old(percentage) && launched == old(launched)
      ensures outcome.Pass? ==> launched
      ensures outcome.Pass? ==> percentage == if old(launched) then old(percentage) else SweepTarget(currentPercentage, maxPercentage)
    {
      outcome := Validate(currentPercentage, maxPercentage, percentageAnimationDuration, circularSize);
      if outcome.Pass? && !launched {
        percentage := SweepTarget(currentPercentage, maxPercentage);
        launched := true;
      }
    }

    /** One frame of the canvas: the value is read back, then the gradient's end point is placed. */
    method Draw(progressAnimation: Float32, maxPercentage: real, height: real) returns (endY: Float32)
      modifies this`actualPercentage
      ensures actualPercentage == LabelValue(progressAnimation, maxPercentage)
      ensures endY == GradientEndY(height, actualPercentage, maxPercentage)
    {
      actualPercentage := LabelValue(progressAnimation, maxPercentage);
      endY := GradientEndY(height, actualPercentage, maxPercentage);
    }

    /** The centre text: the last value read back, truncated. */
    function CenterText(): string
      reads this
    {
      Decimal.IntToString(ToInt(actualPercentage))
    }
  }

  /** Accepted inputs with a positive maximum give a finite target within one turn. */
  lemma AcceptedTargetWithinCircle(currentPercentage: real, maxPercentage: real, percentageAnimationDuration: int, circularSize: int)
    requires Validate(currentPercentage, maxPercentage, percentageAnimationDuration, circularSize).Pass?
    requires maxPercentage != 0.0
    ensures AnimationTarget(SweepTarget(currentPercentage, maxPercentage)).Finite?
    ensures 0.0 <= AnimationTarget(SweepTarget(currentPercentage, maxPercentage)).value <= FullCircle
  {
    SameAssertionsAsCircular(currentPercentage, maxPercentage, percentageAnimationDuration, circularSize);
    CircularPercentage.AcceptedTargetWithinCircle(currentPercentage, maxPercentage, percentageAnimationDuration, circularSize);
  }

  /** The gradient's end sits at the animated fraction of a turn of the height, inside the canvas for a sweep within one turn. */
  lemma GradientEndFollowsSweep(height: real, sweep: real, maxPercentage: real)
    requires maxPercentage != 0.0
    ensures GradientEndY(height, LabelValue(Finite(sweep), maxPercentage), maxPercentage) == Finite(height * sweep / FullCircle)
    ensures 0.0 <= height && 0.0 <= sweep <= FullCircle ==> 0.0 <= height * sweep / FullCircle <= height
  {
    var q := sweep / FullCircle;
    assert LabelValue(Finite(sweep), maxPercentage) == Finite(q * maxPercentage);
    CancelFactor(q, maxPercentage);
    assert Div(Finite(q * maxPercentage), Finite(maxPercentage)) == Finite(q);
    assert height * q == height * sweep / FullCircle;
    if 0.0 <= height && 0.0 <= sweep <= FullCircle {
      ScaleWithin(height, q);
    }
  }

  lemma CancelFactor(q: real, m: real)
    requires m != 0.0
    ensures q * m / m == q
  {
    assert (q * m / m) * m == q * m;
  }

  /** On screen the canvas is upside down, so the gradient starts at the bottom edge and rises; the text's two half turns cancel. */
  lemma UpsideDownCanvasUprightText(height: real, endY: real)
    ensures NormalizeDegrees(ContainerRotation) == 180.0
    ensures NormalizeDegrees(ContainerRotation + TextRotation) == 0.0
    ensures ScreenY(0.0, height) == height
    ensures 0.0 <= endY ==> ScreenY(endY, height) <= height
  {
    assert (ContainerRotation / FullCircle).Floor == 0;
    assert ((ContainerRotation + TextRotation) / FullCircle).Floor == 1;
  }

  /** With the default size and duration, the validator accepts exactly the values within the range. */
  lemma DefaultsAccepted(currentPercentage: real, maxPercentage: real)
    ensures Validate(currentPercentage, maxPercentage, DefaultPercentageAnimationDuration, DefaultCircularSize).Pass?
      <==> 0.0 <= currentPercentage <= maxPercentage
  {
  }

  /**
   * A fresh component composed once with accepted input and drawn with the sweep at rest on its
   * target shows the current value, truncated, and ends the gradient at `current / max` of the
   * height, within the canvas.
   */
  method ShowAtRest(currentPercentage: real, maxPercentage: real, height: real) returns (text: string, endY: Float32)
    requires 0.0 <= currentPercentage <= maxPercentage && 0.0 < maxPercentage && 0.0 <= height
    requires currentPercentage < IntMax as real
    ensures text == Decimal.IntToString(currentPercentage.Floor)
    ensures endY == Finite(height * (currentPercentage / maxPercentage))
    ensures 0.0 <= endY.value <= height
  {
    var state := new GradientCirclePercentageState();
    var outcome := state.Compose(currentPercentage, maxPercentage, DefaultPercentageAnimationDuration, DefaultCircularSize);
    SweepWithinCircle(currentPercentage, maxPercentage);
    var sweep := currentPercentage * FullCircle / maxPercentage;
    assert state.ProgressTarget() == Finite(sweep);
    endY := state.Draw(state.ProgressTarget(), maxPercentage, height);
    GradientEndFollowsSweep(height, sweep, maxPercentage);
    assert sweep / FullCircle == currentPercentage / maxPercentage;
    assert height * sweep / FullCircle == height * (sweep / FullCircle);
    ScaleWithin(height, currentPercentage / maxPercentage);
    CircularPercentage.LabelAtRest(currentPercentage, maxPercentage);
    text := state.CenterText();
  }
}
