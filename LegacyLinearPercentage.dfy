/**
 * The earlier `LinearPercentage(currentValue, maximumValue, progressAnimationDuration)`
 * overload: the same bar formulas as the newer component, with no assertions at all,
 * fixed styling, and both side labels always shown.
 */
module LegacyLinearPercentage {
  import opened Floats
  import opened Extent
  import opened Graphics
  import Decimal
  import LinearPercentage

  /** The two labels of the row, always both: the truncated animated progress in red, the truncated maximum in green. */
  function RowLabels(actualProgressAnimation: Float32, maximumValue: real): (labels: (Label, Label))
    ensures labels.0.style.color == Red && labels.1.style.color == Green
    ensures Decimal.ParseInt(labels.0.text).Some? && Decimal.ParseInt(labels.0.text).value == ToInt(actualProgressAnimation)
    ensures Decimal.ParseInt(labels.1.text).Some? && Decimal.ParseInt(labels.1.text).value == ToInt(Finite(maximumValue))
  {
    Decimal.IntToStringRoundTrip(ToInt(actualProgressAnimation));
    Decimal.IntToStringRoundTrip(ToInt(Finite(maximumValue)));
    (Label(Decimal.IntToString(ToInt(actualProgressAnimation)), TextStyle(Red)),
     Label(Decimal.IntToString(ToInt(Finite(maximumValue))), TextStyle(Green)))
  }

  /** The remembered state of one legacy linear bar in the composition. */
  class LegacyLinearPercentageState {
    var progress: Float32        // the target bar width, in dp
    var actualProgress: Float32  // the progress value read back from it
    var maxWidth: real           // the measured bar width, in dp
    var launched: bool           // whether the `LaunchedEffect(Unit)` has run

    constructor ()
      ensures progress == Zero && actualProgress == Zero && maxWidth == 0.0 && !launched
    {
      progress, actualProgress, maxWidth, launched := Zero, Zero, 0.0, false;
    }

    /** `onGloballyPositioned`: records the measured width of the background bar. */
    method OnGloballyPositioned(widthDp: real)
      modifies this`maxWidth
      ensures maxWidth == widthDp
    {
      maxWidth := widthDp;
    }

    /** One composition: nothing is checked; the `Unit`-keyed effect runs on the first composition only. */
    method Compose(currentValue: real, maximumValue: real)
      modifies this`progress, this`actualProgress, this`launched
      ensures launched
      ensures old(launched) ==> progress == old(progress) && actualProgress == old(actualProgress)
      ensures !old(launched) ==>
        progress == BarTarget(currentValue, MeasuredWidth(maxWidth), maximumValue)
        && actualProgress == BarProgress(progress, maximumValue, MeasuredWidth(maxWidth))
    {
      if !launched {
        var width := MeasuredWidth(maxWidth);
        progress := BarTarget(currentValue, width, maximumValue);
        actualProgress := BarProgress(progress, maximumValue, width);
        launched := true;
      }
    }

    function BarAnimationTarget(): Float32
      reads this
    {
      LinearPercentage.ProgressTarget(progress)
    }

    function LabelAnimationTarget(): Float32
      reads this
    {
      LinearPercentage.ActualProgressTarget(progress, actualProgress)
    }
  }

  /** Round trip on a measured bar, for any value (nothing is validated here). */
  lemma LabelTargetIsCurrentValue(currentValue: real, maximumValue: real, width: int)
    requires maximumValue != 0.0 && 0 < width
    ensures LinearPercentage.ActualProgressTarget(BarTarget(currentValue, width, maximumValue),
              BarProgress(BarTarget(currentValue, width, maximumValue), maximumValue, width)) == Finite(currentValue)
  {
    BarRoundTrip(currentValue, width, maximumValue);
  }

  /** Without validation a negative value over a zero maximum gives a -inf bar target, which the guard lets through. */
  lemma NegativeInfinityPassesGuard(currentValue: real, width: int)
    requires currentValue < 0.0 && 0 < width
    ensures LinearPercentage.ProgressTarget(BarTarget(currentValue, width, 0.0)) == NegativeInfinity
    ensures LinearPercentage.ActualProgressTarget(BarTarget(currentValue, width, 0.0),
              BarProgress(BarTarget(currentValue, width, 0.0), 0.0, width)) == NaN
  {
    assert currentValue * width as real < 0.0;
  }

  /**
   * A fresh bar measured before its effect runs, composed once with any value in range: the bar
   * animates to a width within the bar and, once the label animation rests, the red label reads
   * the current value truncated and the green one the maximum truncated.
   */
  method ShowAtRest(currentValue: real, maximumValue: real, widthDp: real) returns (bar: Float32, labels: (Label, Label))
    requires 0.0 <= currentValue <= maximumValue && 0.0 < maximumValue && maximumValue < IntMax as real
    requires 0 < MeasuredWidth(widthDp)
    ensures bar.Finite? && 0.0 <= bar.value <= MeasuredWidth(widthDp) as real
    ensures labels.0 == Label(Decimal.IntToString(currentValue.Floor), TextStyle(Red))
    ensures labels.1 == Label(Decimal.IntToString(maximumValue.Floor), TextStyle(Green))
  {
    var state := new LegacyLinearPercentageState();
    state.OnGloballyPositioned(widthDp);
    state.Compose(currentValue, maximumValue);
    BarWithinWidth(currentValue, MeasuredWidth(widthDp), maximumValue);
    LabelTargetIsCurrentValue(currentValue, maximumValue, MeasuredWidth(widthDp));
    bar := state.BarAnimationTarget();
    labels := RowLabels(state.LabelAnimationTarget(), maximumValue);
  }
}
