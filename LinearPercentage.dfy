/**
 * `LinearPercentage`: a horizontal bar whose indicator width animates to
 * `current * W / maximum`, W being the measured bar width in whole dp, with optional side
 * labels chosen by a `LeftAndRightText` selector. Both targets are computed once, by an
 * effect keyed on `Unit`, from the width measured by then.
 */
module LinearPercentage {
  import opened Wrappers
  import opened Floats
  import opened Asserts
  import opened Extent
  import opened Graphics
  import Decimal
  import Enums

  /** The default arguments of the animation duration and of the label selector. */
  const DefaultPercentageAnimationDuration: int := 1500
  const DefaultLeftAndRightText: Enums.LeftAndRightText := Enums.None

  /** The assertions at the top of the composable. */
  function Validate(currentPercentage: real, maxPercentage: real, percentageAnimationDuration: int): (r: Outcome)
    ensures r.Pass? <==> 0.0 <= currentPercentage <= maxPercentage && 0 <= percentageAnimationDuration
    ensures currentPercentage < 0.0 ==> r == Fail("Current value must be greater than or equal to 0")
    ensures 0.0 <= currentPercentage && maxPercentage < currentPercentage ==> r == Fail("Current value must be less than or equal to maximum value")
  {
    var checks := [
      Assertion(currentPercentage >= 0.0, "Current value must be greater than or equal to 0"),
      Assertion(currentPercentage <= maxPercentage, "Current value must be less than or equal to maximum value"),
      Assertion(percentageAnimationDuration >= 0, "Percentage animation duration must be greater than or equal to 0"),
      Assertion(maxPercentage >= 0.0, "Maximum value must be greater than or equal to 0"),
      Assertion(maxPercentage >= currentPercentage, "Maximum value must be greater than or equal to current value")
    ];
    assert (forall j :: 0 <= j < |checks| ==> checks[j].holds) <==> checks[0].holds && checks[1].holds && checks[2].holds && checks[3].holds && checks[4].holds;
    assert !checks[0].holds ==> FirstFailure(checks) == 0;
    assert checks[0].holds && !checks[1].holds ==> FirstFailure(checks) == 1;
    RunAsserts(checks)
  }

  /** The last two assertions never fire: the first two already imply them. */
  lemma LastAssertionsNeverFail(currentPercentage: real, maxPercentage: real, percentageAnimationDuration: int)
    ensures Validate(currentPercentage, maxPercentage, percentageAnimationDuration) != Fail("Maximum value must be greater than or equal to 0")
    ensures Validate(currentPercentage, maxPercentage, percentageAnimationDuration) != Fail("Maximum value must be greater than or equal to current value")
  {
  }

  /** The bar's animated target: the width target behind the infinity guard. */
  function ProgressTarget(percentage: Float32): Float32 {
    AnimationTarget(percentage)
  }

  /** The label's animated target: the progress value, guarded by a test of the width target, not of itself. */
  function ActualProgressTarget(percentage: Float32, actualProgress: Float32): Float32 {
    if percentage != PositiveInfinity then actualProgress else Zero
  }

  /** `startTextStyle ?: TextStyle(color = Color.Black)`, and likewise for the end style. */
  function StyleOrBlack(style: Option<TextStyle>): (s: TextStyle)
    ensures style.Some? ==> s == style.value
    ensures style.None? ==> s.color == Black
  {
    style.GetOr(TextStyle(Black))
  }

  /** `LeftText`: the animated progress, truncated. */
  function LeftText(actualProgressAnimation: Float32, startTextStyle: Option<TextStyle>): Label {
    Label(Decimal.IntToString(ToInt(actualProgressAnimation)), StyleOrBlack(startTextStyle))
  }

  /** `RightText`: the maximum, truncated. */
  function RightText(maximumValue: real, endTextStyle: Option<TextStyle>): Label {
    Label(Decimal.IntToString(ToInt(Finite(maximumValue))), StyleOrBlack(endTextStyle))
  }

  datatype SideLabels = SideLabels(left: Option<Label>, right: Option<Label>)

  /** The labels of the row: the left one for LEFT_ONLY and BOTH, the right one for RIGHT_ONLY and BOTH. */
  function RowLabels(mode: Enums.LeftAndRightText, actualProgressAnimation: Float32, maxPercentage: real,
                     startTextStyle: Option<TextStyle>, endTextStyle: Option<TextStyle>): SideLabels
  {
    SideLabels(
      if Enums.ShowsLeft(mode) then Some(LeftText(actualProgressAnimation, startTextStyle)) else None,
      if Enums.ShowsRight(mode) then Some(RightText(maxPercentage, endTextStyle)) else None)
  }

  /** The remembered state of one `LinearPercentage` in the composition. */
  class LinearPercentageState {
    var percentage: Float32      // the target bar width, in dp
    var actualProgress: Float32  // the progress value read back from it
    var maxWidth: real           // the measured bar width, in dp
    var launched: bool           // whether the `LaunchedEffect(Unit)` has run

    constructor ()
      ensures percentage == Zero && actualProgress == Zero && maxWidth == 0.0 && !launched
    {
      percentage, actualProgress, maxWidth, launched := Zero, Zero, 0.0, false;
    }

    /** `onGloballyPositioned`: records the measured width of the background bar. */
    method OnGloballyPositioned(widthDp: real)
      modifies this`maxWidth
      ensures maxWidth == widthDp
    {
      maxWidth := widthDp;
    }

    /** One composition: the assertions, then the `Unit`-keyed effect, which runs on the first successful composition only. */
    method Compose(currentPercentage: real, maxPercentage: real, percentageAnimationDuration: int) returns (outcome: Outcome)
      modifies this`percentage, this`actualProgress, this`launched
      ensures outcome == Validate(currentPercentage, maxPercentage, percentageAnimationDuration)
      ensures outcome.Fail? || old(launched) ==>
        percentage == old(percentage) && actualProgress == old(actualProgress) && launched == old(launched)
      ensures outcome.Pass? && !old(launched) ==> (
        && launched
        && percentage == BarTarget(currentPercentage, MeasuredWidth(maxWidth), maxPercentage)
        && actualProgress == BarProgress(percentage, maxPercentage, MeasuredWidth(maxWidth)))
    {
      outcome := Validate(currentPercentage, maxPercentage, percentageAnimationDuration);
      if outcome.Pass? && !launched {
        var width := MeasuredWidth(maxWidth);
        percentage := BarTarget(currentPercentage, width, maxPercentage);
        actualProgress := BarProgress(percentage, maxPercentage, width);
        launched := true;
      }
    }

    function BarAnimationTarget(): Float32
      reads this
    {
      ProgressTarget(percentage)
    }

    function LabelAnimationTarget(): Float32
      reads this
    {
      ActualProgressTarget(percentage, actualProgress)
    }
  }

  /** Accepted inputs on a measured bar: the bar settles within the bar and the label on the current value. */
  lemma AcceptedTargetsOnMeasuredBar(currentPercentage: real, maxPercentage: real, percentageAnimationDuration: int, width: int)
    requires Validate(currentPercentage, maxPercentage, percentageAnimationDuration).Pass?
    requires maxPercentage != 0.0 && 0 < width
    ensures ProgressTarget(BarTarget(currentPercentage, width, maxPercentage)).Finite?
    ensures 0.0 <= ProgressTarget(BarTarget(currentPercentage, width, maxPercentage)).value <= width as real
    ensures ActualProgressTarget(BarTarget(currentPercentage, width, maxPercentage),
                                 BarProgress(BarTarget(currentPercentage, width, maxPercentage), maxPercentage, width)) == Finite(currentPercentage)
  {
    BarWithinWidth(currentPercentage, width, maxPercentage);
    BarRoundTrip(currentPercentage, width, maxPercentage);
  }

  /** A zero maximum with a positive value: the progress read back is NaN, yet both targets become 0 because the guard tests the width target. */
  lemma InfiniteWidthZeroesBothTargets(currentPercentage: real, width: int)
    requires 0.0 < currentPercentage && 0 < width
    ensures BarProgress(BarTarget(currentPercentage, width, 0.0), 0.0, width) == NaN
    ensures ProgressTarget(BarTarget(currentPercentage, width, 0.0)) == Zero
    ensures ActualProgressTarget(BarTarget(currentPercentage, width, 0.0), BarProgress(BarTarget(currentPercentage, width, 0.0), 0.0, width)) == Zero
  {
    BarOfZeroMaximum(currentPercentage, width);
  }

  /** The labels follow the selector, and their texts read back as the truncated progress and maximum. */
  lemma RowLabelsFollowSelector(mode: Enums.LeftAndRightText, actualProgressAnimation: Float32, maxPercentage: real,
                                startTextStyle: Option<TextStyle>, endTextStyle: Option<TextStyle>)
    ensures RowLabels(mode, actualProgressAnimation, maxPercentage, startTextStyle, endTextStyle).left.Some? <==> mode == Enums.LeftOnly || mode == Enums.Both
    ensures RowLabels(mode, actualProgressAnimation, maxPercentage, startTextStyle, endTextStyle).right.Some? <==> mode == Enums.RightOnly || mode == Enums.Both
    ensures mode == Enums.None ==> RowLabels(mode, actualProgressAnimation, maxPercentage, startTextStyle, endTextStyle) == SideLabels(None, None)
    ensures Decimal.ParseInt(LeftText(actualProgressAnimation, startTextStyle).text) == Some(ToInt(actualProgressAnimation))
    ensures Decimal.ParseInt(RightText(maxPercentage, endTextStyle).text) == Some(ToInt(Finite(maxPercentage)))
  {
    Decimal.IntToStringRoundTrip(ToInt(actualProgressAnimation));
    Decimal.IntToStringRoundTrip(ToInt(Finite(maxPercentage)));
  }

  /** The example app: 50 of 100 with both labels shows "50" on the left and "100" on the right, in the given styles. */
  lemma ExampleAppLabels(startStyle: TextStyle, endStyle: TextStyle)
    ensures RowLabels(Enums.Both, Finite(50.0), 100.0, Some(startStyle), Some(endStyle))
      == SideLabels(Some(Label("50", startStyle)), Some(Label("100", endStyle)))
  {
    assert ToInt(Finite(50.0)) == 50 && ToInt(Finite(100.0)) == 100;
    assert Decimal.NatToString(10) == "10";
    assert Decimal.IntToString(100) == "100";
    assert Decimal.IntToString(50) == "50";
    assert LeftText(Finite(50.0), Some(startStyle)) == Label("50", startStyle);
    assert RightText(100.0, Some(endStyle)) == Label("100", endStyle);
  }

  /** A 200 dp bar with 25 of 50 animates to 100 dp. */
  lemma QuarterOfFiftyOnTwoHundred()
    ensures BarTarget(25.0, MeasuredWidth(200.0), 50.0) == Finite(100.0)
  {
  }

  /** By default the row has no side labels; with the default duration the validator accepts exactly the values within the range. */
  lemma Defaults(currentPercentage: real, maxPercentage: real, actualProgressAnimation: Float32,
                 startTextStyle: Option<TextStyle>, endTextStyle: Option<TextStyle>)
    ensures RowLabels(DefaultLeftAndRightText, actualProgressAnimation, maxPercentage, startTextStyle, endTextStyle) == SideLabels(None, None)
    ensures Validate(currentPercentage, maxPercentage, DefaultPercentageAnimationDuration).Pass? <==> 0.0 <= currentPercentage <= maxPercentage
  {
  }

  /**
   * A fresh component whose bar is measured before its effect runs, composed once with accepted
   * input: the bar animates to a width within the bar, and once the label animation rests on
   * its target the left label, when the selector shows it, reads the current value truncated.
   */
  method ShowAtRest(currentPercentage: real, maxPercentage: real, widthDp: real, mode: Enums.LeftAndRightText,
                    startTextStyle: Option<TextStyle>, endTextStyle: Option<TextStyle>) returns (bar: Float32, labels: SideLabels)
    requires 0.0 <= currentPercentage <= maxPercentage && 0.0 < maxPercentage && currentPercentage < IntMax as real
    requires 0 < MeasuredWidth(widthDp)
    ensures bar.Finite? && 0.0 <= bar.value <= MeasuredWidth(widthDp) as real
    ensures labels.left.Some? <==> Enums.ShowsLeft(mode)
    ensures labels.left.Some? ==> labels.left.value.text == Decimal.IntToString(currentPercentage.Floor)
    ensures labels.right.Some? <==> Enums.ShowsRight(mode)
    ensures labels.right.Some? ==> labels.right.value == RightText(maxPercentage, endTextStyle)
  {
    var state := new LinearPercentageState();
    state.OnGloballyPositioned(widthDp);
    var outcome := state.Compose(currentPercentage, maxPercentage, DefaultPercentageAnimationDuration);
    AcceptedTargetsOnMeasuredBar(currentPercentage, maxPercentage, DefaultPercentageAnimationDuration, MeasuredWidth(widthDp));
    bar := state.BarAnimationTarget();
    assert state.LabelAnimationTarget() == Finite(currentPercentage);
    labels := RowLabels(mode, state.LabelAnimationTarget(), maxPercentage, startTextStyle, endTextStyle);
  }
}
