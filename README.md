# PercentagesWithAnimationCompose, modelled in Dafny

A Dafny model of the decision logic inside the Jetpack Compose percentage indicators:

- the circular, filled-circle, gradient, wave, linear and legacy linear composables;
- the enums variant of the circular indicator;
- the `LeftAndRightText` selector.

The arithmetic, guards and validators that the composables keep in their bodies become functions over reals. Kotlin `Float` results that can be infinite or NaN are modelled by `Floats.Float32`.

The component's remembered state becomes a class, one per composable:

- one method per composition, which runs the `assert` block and then the effects;
- one method per canvas frame;
- an effect keyed on `Unit` is a `launched` flag;
- an effect keyed on a value remembers that key.

The wave boundary builder `drawWave` is an imperative loop. It appends path commands to a `Graphics.Path` object, and is proved against a specification function describing the whole outline.

Modules:

- `Floats`: IEEE-style `Float` values (finite, +inf, -inf, NaN), multiplication, division, truncating `toInt()`.
- `Decimal`: `Int.toString()` and its inverse parser, with the round trip.
- `Asserts`: a block of Kotlin `assert` calls; the first failing message aborts the composable.
- `Animation`: the animation requests handed to `Animatable`/`animateFloatAsState` (targets, durations, easings) and the value they settle on.
- `Graphics`: path commands and a mutable `Path`, arcs, colours, text styles, labels.
- `Extent`: the shared value-to-extent mappings and the `!= Infinity.value` guard.
- One module per composable: `CircularPercentage`, `CirclePercentage`, `GradientCirclePercentage`, `LinearPercentage`, `LegacyLinearPercentage` (the file `Linear_Percentage.kt`), `EnumsCircularPercentage`, `WavePercentage`.
- `Enums`: the `LeftAndRightText` selector.

Two behaviours of the code are easy to miss:

- The guard in front of every animation compares the target with `Dp.Infinity.value`, i.e. positive infinity only. Negative infinity and NaN pass through it.
  - With `max = 0` and `current = 0`, the validators accept, and the sweep target is NaN (`CircularPercentage.AcceptedZeroMaximumIsNaN`).
  - A width still 0 when the linear effect runs gives a NaN label target (`Extent.BarOfZeroWidth`).
  - The unvalidated legacy bar hands -inf to the animation for a negative value and `max = 0` (`LegacyLinearPercentage.NegativeInfinityPassesGuard`).
- Not every label shows the animated value:
  - The enums variant's label is computed from the target, so it shows the final number at once (`EnumsCircularPercentage.LabelShowsCurrentValue`).
  - The wave label shows the value set by the fill animation's frame callback.

## Model

| member | source | states |
|---|---|---|
| Floats.Mul | PercentagesWithAnimationCompose/src/main/java/com/nicos/percentageswithanimationcompose/CircularPercentage.kt:79 | The product is finite iff both factors are; it is NaN iff a factor is NaN or an infinity meets a zero; an infinite product has the sign of the product of the factors' signs; the finite value is the real product. |
| Floats.Div | PercentagesWithAnimationCompose/src/main/java/com/nicos/percentageswithanimationcompose/CircularPercentage.kt:103 | The quotient is finite iff the dividend is finite and the divisor is a non-zero finite value or infinite; a finite value over an infinity is 0. It is NaN iff 0/0, inf/inf or a NaN operand. An infinite quotient has the dividend's sign, flipped by a negative divisor, so it is +inf exactly for a positive dividend over 0 or a matching-sign infinity; the finite value is the real quotient. |
| Floats.Truncate | PercentagesWithAnimationCompose/src/main/java/com/nicos/percentageswithanimationcompose/CircularPercentage.kt:98 | The integer part, toward zero: within one unit of the value, on the side of 0. |
| Floats.ToInt | PercentagesWithAnimationCompose/src/main/java/com/nicos/percentageswithanimationcompose/CircularPercentage.kt:98 | `Float.toInt()`: NaN gives 0, +inf and finite values at or above 2^31 give Int.MAX_VALUE, -inf and finite values below -2^31 give Int.MIN_VALUE, results stay in Int range, and in-range finite values truncate toward zero. |
| Decimal.NatToString | PercentagesWithAnimationCompose/src/main/java/com/nicos/percentageswithanimationcompose/CircularPercentage.kt:98 | Decimal digits of a natural: non-empty, all digits, no leading zero. |
| Decimal.IntToString | PercentagesWithAnimationCompose/src/main/java/com/nicos/percentageswithanimationcompose/CircularPercentage.kt:98 | `Int.toString()`: non-empty, starting with '-' exactly for negative numbers. |
| Decimal.NatToStringRoundTrip | PercentagesWithAnimationCompose/src/main/java/com/nicos/percentageswithanimationcompose/CircularPercentage.kt:98 | Reading back the digits of a natural gives the natural. |
| Decimal.IntToStringRoundTrip | PercentagesWithAnimationCompose/src/main/java/com/nicos/percentageswithanimationcompose/CircularPercentage.kt:98 | Parsing the text of any integer gives that integer, so a label determines the number it shows. |
| Asserts.FirstFailure | PercentagesWithAnimationCompose/src/main/java/com/nicos/percentageswithanimationcompose/CircularPercentage.kt:60-63 | The index of the first failing assertion: every earlier one holds, and the one at the index fails. |
| Asserts.RunAsserts | PercentagesWithAnimationCompose/src/main/java/com/nicos/percentageswithanimationcompose/CircularPercentage.kt:60-63 | A block of assertions passes iff all hold. Otherwise it fails with the message of the first failing one. |
| Animation.SettleOnLast | PercentagesWithAnimationCompose/src/main/java/com/nicos/percentageswithanimationcompose/WavePercentage.kt:100-107 | A finite sequence of snaps and animations, run to completion, ends on the value of its last step. |
| Animation.SettleNeverWithRepeat | PercentagesWithAnimationCompose/src/main/java/com/nicos/percentageswithanimationcompose/WavePercentage.kt:135-144 | A sequence containing an infinitely repeating animation never settles. |
| Graphics.Path.MoveTo | PercentagesWithAnimationCompose/src/main/java/com/nicos/percentageswithanimationcompose/WavePercentage.kt:212 | Appends exactly one `moveTo` to the path and changes nothing else. |
| Graphics.Path.QuadraticTo | PercentagesWithAnimationCompose/src/main/java/com/nicos/percentageswithanimationcompose/WavePercentage.kt:223 | Appends exactly one `quadraticTo` with the given control and end points. |
| Graphics.Path.LineTo | PercentagesWithAnimationCompose/src/main/java/com/nicos/percentageswithanimationcompose/WavePercentage.kt:231-232 | Appends exactly one `lineTo`. |
| Graphics.Path.Close | PercentagesWithAnimationCompose/src/main/java/com/nicos/percentageswithanimationcompose/WavePercentage.kt:233 | Appends `close`. |
| Graphics.Path.Reset | PercentagesWithAnimationCompose/src/main/java/com/nicos/percentageswithanimationcompose/WavePercentage.kt:170 | Empties the reused path. |
| Enums.ModeFor | PercentagesWithAnimationCompose/src/main/java/com/nicos/percentageswithanimationcompose/enums/LeftAndRightText.kt:6-26 | For every pair (left shown, right shown) there is a selector value showing exactly that pair. |
| Enums.ModesAreVisibilityPairs | PercentagesWithAnimationCompose/src/main/java/com/nicos/percentageswithanimationcompose/enums/LeftAndRightText.kt:7-25 | LEFT_ONLY, RIGHT_ONLY, BOTH and NONE are exactly the four visibility pairs (left only, right only, both, neither), one-to-one. |
| Extent.SweepWithinCircle | PercentagesWithAnimationCompose/src/main/java/com/nicos/percentageswithanimationcompose/CircularPercentage.kt:103 | For 0 <= current <= max with max > 0, the target sweep `current*360/max` is finite, lies in [0, 360], and is the same fraction of a turn as current is of max. |
| Extent.SweepOfZeroMaximum | PercentagesWithAnimationCompose/src/main/java/com/nicos/percentageswithanimationcompose/CircularPercentage.kt:103 | With max = 0 the sweep is +inf for a positive value, NaN for 0 and -inf for a negative value. |
| Extent.LabelAtTarget | PercentagesWithAnimationCompose/src/main/java/com/nicos/percentageswithanimationcompose/CircularPercentage.kt:79 | Round trip: the label value `(sweep/360)*max` read back at the target sweep is exactly current, for any non-zero max. |
| Extent.LabelValueMonotonic | PercentagesWithAnimationCompose/src/main/java/com/nicos/percentageswithanimationcompose/CircularPercentage.kt:79 | For a non-negative max the label value grows with the animated sweep. |
| Extent.GuardRemovesOnlyPositiveInfinity | PercentagesWithAnimationCompose/src/main/java/com/nicos/percentageswithanimationcompose/CircularPercentage.kt:69 | The animation target is never +inf, +inf becomes 0, every other value passes unchanged, and the guard is idempotent. |
| Extent.BarWithinWidth | PercentagesWithAnimationCompose/src/main/java/com/nicos/percentageswithanimationcompose/LinearPercentage.kt:144 | For 0 <= current <= max with max > 0, the bar target `current*W/max` is finite and lies in [0, W]. |
| Extent.BarRoundTrip | PercentagesWithAnimationCompose/src/main/java/com/nicos/percentageswithanimationcompose/LinearPercentage.kt:144-145 | Round trip: `(current*W/max)*max/W` is exactly current for W > 0 and max != 0. |
| Extent.BarOfZeroWidth | PercentagesWithAnimationCompose/src/main/java/com/nicos/percentageswithanimationcompose/LinearPercentage.kt:144-145 | An unmeasured width 0 gives bar target 0 and a NaN actual progress, which the guard leaves in place. |
| Extent.BarOfZeroMaximum | PercentagesWithAnimationCompose/src/main/java/com/nicos/percentageswithanimationcompose/LinearPercentage.kt:144-145 | With max = 0 a positive value gives bar target +inf and a NaN actual progress. |
| CircularPercentage.Validate | PercentagesWithAnimationCompose/src/main/java/com/nicos/percentageswithanimationcompose/CircularPercentage.kt:60-63 | Accepts iff 0 <= current <= max, duration >= 0 and size >= 0. A negative value fails with the first message. A value over max fails with the second. |
| CircularPercentage.CircularPercentageState.Compose | PercentagesWithAnimationCompose/src/main/java/com/nicos/percentageswithanimationcompose/CircularPercentage.kt:60-104 | A failed assertion leaves the state unchanged. The first accepted composition sets the target to `current*360/max`; later ones never change it. |
| CircularPercentage.CircularPercentageState.Draw | PercentagesWithAnimationCompose/src/main/java/com/nicos/percentageswithanimationcompose/CircularPercentage.kt:79-95 | Each frame stores `(animated/360)*max` as the shown value and draws the indicator arc of the animated sweep. |
| CircularPercentage.AcceptedTargetWithinCircle | PercentagesWithAnimationCompose/src/main/java/com/nicos/percentageswithanimationcompose/CircularPercentage.kt:60-103 | Accepted inputs with a non-zero max give a finite guarded target in [0, 360]. |
| CircularPercentage.AcceptedZeroMaximumIsNaN | PercentagesWithAnimationCompose/src/main/java/com/nicos/percentageswithanimationcompose/CircularPercentage.kt:60-103 | The validator accepts current = max = 0, and the target is then NaN, which the guard does not replace. |
| CircularPercentage.LabelAtRest | PercentagesWithAnimationCompose/src/main/java/com/nicos/percentageswithanimationcompose/CircularPercentage.kt:79-103 | Once the sweep rests on its target, the centre number is the current value truncated. |
| CircularPercentage.PreviewHalfCircle | PercentagesWithAnimationCompose/src/main/java/com/nicos/percentageswithanimationcompose/CircularPercentage.kt:107-118 | The preview's 50 of 100 is accepted, sweeps 180 degrees and settles on the text "50". |
| CircularPercentage.ComposeTwice | PercentagesWithAnimationCompose/src/main/java/com/nicos/percentageswithanimationcompose/CircularPercentage.kt:102-104 | Composing with a second value after a first leaves the target at the first value's sweep. |
| CircularPercentage.DefaultsAccepted | PercentagesWithAnimationCompose/src/main/java/com/nicos/percentageswithanimationcompose/CircularPercentage.kt:52-63 | With the default size 100 and duration 1500 the assertions accept exactly 0 <= current <= max. |
| CircularPercentage.RestingArcWithinTurn | PercentagesWithAnimationCompose/src/main/java/com/nicos/percentageswithanimationcompose/CircularPercentage.kt:60-103 | For accepted inputs with max != 0 the resting arc is stroked, starts at -90 degrees, sweeps the fraction current/max of a turn and ends between -90 and 270 degrees. |
| CircularPercentage.ShowAtRest | PercentagesWithAnimationCompose/src/main/java/com/nicos/percentageswithanimationcompose/CircularPercentage.kt:52-104 | A fresh component with the default arguments, composed with 0 <= current <= max (max > 0) and drawn at the resting sweep, shows the truncated current value and draws the stroked arc of `current*360/max`. |
| CirclePercentage.Validate | PercentagesWithAnimationCompose/src/main/java/com/nicos/percentageswithanimationcompose/CirclePercentage.kt:58-62 | Accepts iff 0 <= current <= max, duration >= 0, size >= 0 and background stroke width > 0. A non-positive stroke width, with the rest valid, fails with its own message. |
| CirclePercentage.StricterThanCircular | PercentagesWithAnimationCompose/src/main/java/com/nicos/percentageswithanimationcompose/CirclePercentage.kt:58-62 | The validator accepts exactly what the stroked-ring validator accepts, with a positive stroke width on top. |
| CirclePercentage.CirclePercentageState.Compose | PercentagesWithAnimationCompose/src/main/java/com/nicos/percentageswithanimationcompose/CirclePercentage.kt:58-101 | A failed assertion leaves the state unchanged. An accepted composition recomputes the target whenever current differs from the key the effect last ran for, and records the new key. |
| CirclePercentage.CirclePercentageState.Draw | PercentagesWithAnimationCompose/src/main/java/com/nicos/percentageswithanimationcompose/CirclePercentage.kt:77-92 | Each frame stores `(animated/360)*max` and draws the filled sector of the animated sweep. |
| CirclePercentage.AcceptedTargetWithinCircle | PercentagesWithAnimationCompose/src/main/java/com/nicos/percentageswithanimationcompose/CirclePercentage.kt:58-100 | Accepted inputs with a non-zero max give a finite guarded target in [0, 360]. |
| CirclePercentage.ComposeTwice | PercentagesWithAnimationCompose/src/main/java/com/nicos/percentageswithanimationcompose/CirclePercentage.kt:99-101 | Two successive values give each value's own sweep as the target. |
| CirclePercentage.DefaultsAccepted | PercentagesWithAnimationCompose/src/main/java/com/nicos/percentageswithanimationcompose/CirclePercentage.kt:51-62 | With the default size 100, duration 1500 and stroke width 10 the assertions accept exactly 0 <= current <= max. |
| CirclePercentage.RestingSectorWithinTurn | PercentagesWithAnimationCompose/src/main/java/com/nicos/percentageswithanimationcompose/CirclePercentage.kt:58-100 | For accepted inputs with max != 0 the resting indicator is a filled sector from -90 degrees covering the fraction current/max of a turn, ending between -90 and 270 degrees. |
| CirclePercentage.ShowSecondAtRest | PercentagesWithAnimationCompose/src/main/java/com/nicos/percentageswithanimationcompose/CirclePercentage.kt:58-101 | A component composed with one value and then another, drawn at the resting sweep, shows the second value truncated and the sector of the second value's sweep. |
| GradientCirclePercentage.Validate | PercentagesWithAnimationCompose/src/main/java/com/nicos/percentageswithanimationcompose/GradientCirclePercentage.kt:55-58 | Accepts iff 0 <= current <= max, duration >= 0 and size >= 0; a negative value fails with the first message. |
| GradientCirclePercentage.SameAssertionsAsCircular | PercentagesWithAnimationCompose/src/main/java/com/nicos/percentageswithanimationcompose/GradientCirclePercentage.kt:55-58 | The assertion block is the stroked ring's, outcome for outcome. |
| GradientCirclePercentage.NormalizeDegrees | PercentagesWithAnimationCompose/src/main/java/com/nicos/percentageswithanimationcompose/GradientCirclePercentage.kt:74-95 | Reduces an angle to [0, 360), differing from it by whole turns. |
| GradientCirclePercentage.GradientCirclePercentageState.Compose | PercentagesWithAnimationCompose/src/main/java/com/nicos/percentageswithanimationcompose/GradientCirclePercentage.kt:55-105 | A failed assertion leaves the state unchanged. The first accepted composition sets the target to `current*360/max`; later ones never change it. |
| GradientCirclePercentage.GradientCirclePercentageState.Draw | PercentagesWithAnimationCompose/src/main/java/com/nicos/percentageswithanimationcompose/GradientCirclePercentage.kt:77-85 | Each frame stores `(animated/360)*max` and returns the gradient end y `height*(actual/max)` computed from it. |
| GradientCirclePercentage.AcceptedTargetWithinCircle | PercentagesWithAnimationCompose/src/main/java/com/nicos/percentageswithanimationcompose/GradientCirclePercentage.kt:55-104 | Accepted inputs with a non-zero max give a finite guarded target in [0, 360]. |
| GradientCirclePercentage.GradientEndFollowsSweep | PercentagesWithAnimationCompose/src/main/java/com/nicos/percentageswithanimationcompose/GradientCirclePercentage.kt:77-83 | The gradient's end y is `height*sweep/360` and lies within [0, height] for a sweep within one turn. |
| GradientCirclePercentage.UpsideDownCanvasUprightText | PercentagesWithAnimationCompose/src/main/java/com/nicos/percentageswithanimationcompose/GradientCirclePercentage.kt:74-95 | The container is turned half a turn, and the text's two half turns add to a whole turn (upright). On screen, canvas y 0 is the bottom edge. |
| GradientCirclePercentage.DefaultsAccepted | PercentagesWithAnimationCompose/src/main/java/com/nicos/percentageswithanimationcompose/GradientCirclePercentage.kt:51-58 | With the default size 100 and duration 1500 the assertions accept exactly 0 <= current <= max. |
| GradientCirclePercentage.ShowAtRest | PercentagesWithAnimationCompose/src/main/java/com/nicos/percentageswithanimationcompose/GradientCirclePercentage.kt:55-105 | A fresh component composed with 0 <= current <= max (max > 0) and drawn at the resting sweep shows the truncated value and ends its gradient at `height*(current/max)`, within [0, height]. |
| LinearPercentage.Validate | PercentagesWithAnimationCompose/src/main/java/com/nicos/percentageswithanimationcompose/LinearPercentage.kt:77-81 | Accepts iff 0 <= current <= max and duration >= 0. A negative value fails with the first message. A value over max fails with the second. |
| LinearPercentage.LastAssertionsNeverFail | PercentagesWithAnimationCompose/src/main/java/com/nicos/percentageswithanimationcompose/LinearPercentage.kt:77-81 | The assertions on the maximum are implied by the first two, so their messages never appear. |
| LinearPercentage.StyleOrBlack | PercentagesWithAnimationCompose/src/main/java/com/nicos/percentageswithanimationcompose/LinearPercentage.kt:165-186 | A given text style is used as is; a missing one becomes black text. |
| LinearPercentage.LinearPercentageState.OnGloballyPositioned | PercentagesWithAnimationCompose/src/main/java/com/nicos/percentageswithanimationcompose/LinearPercentage.kt:124-128 | Records the measured width of the background bar. |
| LinearPercentage.LinearPercentageState.Compose | PercentagesWithAnimationCompose/src/main/java/com/nicos/percentageswithanimationcompose/LinearPercentage.kt:77-146 | A failed assertion leaves the state unchanged. The first accepted composition sets the bar target to `current*W/max` and the actual progress to `target*max/W`, with W the truncated measured width; later ones change nothing. |
| LinearPercentage.AcceptedTargetsOnMeasuredBar | PercentagesWithAnimationCompose/src/main/java/com/nicos/percentageswithanimationcompose/LinearPercentage.kt:77-146 | On a measured bar, accepted inputs give a guarded bar target within [0, W] and a guarded label target equal to current. |
| LinearPercentage.InfiniteWidthZeroesBothTargets | PercentagesWithAnimationCompose/src/main/java/com/nicos/percentageswithanimationcompose/LinearPercentage.kt:89-145 | When the bar target is +inf (max = 0), both animations receive 0: the label guard tests the bar target, not the NaN actual progress. |
| LinearPercentage.RowLabelsFollowSelector | PercentagesWithAnimationCompose/src/main/java/com/nicos/percentageswithanimationcompose/LinearPercentage.kt:112-188 | The left label is present iff LEFT_ONLY or BOTH, the right iff RIGHT_ONLY or BOTH, NONE gives neither. The texts parse back to the truncated animated progress and the truncated max. |
| LinearPercentage.ExampleAppLabels | PercentagesWithAnimationCompose/src/main/java/com/nicos/percentageswithanimationcompose/LinearPercentage.kt:155-188 | With BOTH, an animated 50 and max 100, the row shows "50" and "100" in the given styles. |
| LinearPercentage.QuarterOfFiftyOnTwoHundred | PercentagesWithAnimationCompose/src/main/java/com/nicos/percentageswithanimationcompose/LinearPercentage.kt:144 | A value of 25 of 50 on a bar measured at 200 gets a 100 wide target. |
| LinearPercentage.Defaults | PercentagesWithAnimationCompose/src/main/java/com/nicos/percentageswithanimationcompose/LinearPercentage.kt:64-81 | With the default duration 1500 the assertions accept exactly 0 <= current <= max; the default selector NONE shows neither side label. |
| LinearPercentage.ShowAtRest | PercentagesWithAnimationCompose/src/main/java/com/nicos/percentageswithanimationcompose/LinearPercentage.kt:77-188 | On a bar measured before the effect runs, an accepted value settles the bar within [0, W]; the left label is present iff the selector shows it and reads the truncated current value, the right iff shown and reads the maximum. |
| LegacyLinearPercentage.RowLabels | PercentagesWithAnimationCompose/src/main/java/com/nicos/percentageswithanimationcompose/Linear_Percentage.kt:73-110 | Both labels are always shown, left in red and right in green. Their texts parse back to the truncated animated progress and the truncated maximum. |
| LegacyLinearPercentage.LegacyLinearPercentageState.OnGloballyPositioned | PercentagesWithAnimationCompose/src/main/java/com/nicos/percentageswithanimationcompose/Linear_Percentage.kt:87-91 | Records the measured width of the background bar. |
| LegacyLinearPercentage.LegacyLinearPercentageState.Compose | PercentagesWithAnimationCompose/src/main/java/com/nicos/percentageswithanimationcompose/Linear_Percentage.kt:39-115 | With no checks of any input, the first composition sets the bar target and the actual progress, and no later composition changes them. |
| LegacyLinearPercentage.LabelTargetIsCurrentValue | PercentagesWithAnimationCompose/src/main/java/com/nicos/percentageswithanimationcompose/Linear_Percentage.kt:57-114 | On a measured bar with a non-zero maximum the label animation targets the current value. |
| LegacyLinearPercentage.NegativeInfinityPassesGuard | PercentagesWithAnimationCompose/src/main/java/com/nicos/percentageswithanimationcompose/Linear_Percentage.kt:49-114 | A negative value with maximum 0 hands -inf to the bar animation and NaN to the label one. |
| LegacyLinearPercentage.ShowAtRest | PercentagesWithAnimationCompose/src/main/java/com/nicos/percentageswithanimationcompose/Linear_Percentage.kt:39-115 | On a bar measured before the effect runs, 0 <= current <= max (max > 0) settles the bar within [0, W] and shows the truncated current value in red and the truncated maximum in green. |
| EnumsCircularPercentage.PercentLabel | PercentagesWithAnimationCompose/src/main/java/com/nicos/percentageswithanimationcompose/enums/CircularPercentage.kt:63-66 | The label ends in '%' and what precedes it parses back to `trunc(percentage/360*max)`. |
| EnumsCircularPercentage.EnumsCircularPercentageState.Compose | PercentagesWithAnimationCompose/src/main/java/com/nicos/percentageswithanimationcompose/enums/CircularPercentage.kt:68-70 | The first composition sets the target to `current*360/max`; later ones never change it. |
| EnumsCircularPercentage.TargetWithinCircle | PercentagesWithAnimationCompose/src/main/java/com/nicos/percentageswithanimationcompose/enums/CircularPercentage.kt:36-69 | For 0 <= current <= max with max > 0 the guarded target is finite and in [0, 360]. |
| EnumsCircularPercentage.LabelShowsCurrentValue | PercentagesWithAnimationCompose/src/main/java/com/nicos/percentageswithanimationcompose/enums/CircularPercentage.kt:64-69 | The label is computed from the target, so it shows the truncated current value from the first frame. |
| EnumsCircularPercentage.Defaults | PercentagesWithAnimationCompose/src/main/java/com/nicos/percentageswithanimationcompose/enums/CircularPercentage.kt:29-69 | The defaults 70 of 100 sweep 252 degrees and label "70%". |
| EnumsCircularPercentage.ShowAtRest | PercentagesWithAnimationCompose/src/main/java/com/nicos/percentageswithanimationcompose/enums/CircularPercentage.kt:34-70 | Before the effect the label reads "0%"; after the first composition it reads the truncated current value with `%`, and the indicator settles on the stroked arc of `current*360/max`. |
| WavePercentage.Validate | PercentagesWithAnimationCompose/src/main/java/com/nicos/percentageswithanimationcompose/WavePercentage.kt:73-78 | Accepts iff 0 <= current <= max, size >= 0, both durations >= 0 and the continuous duration > 0 (strict). A negative value fails with the first message; a non-positive continuous duration, with the rest valid, fails with its own. |
| WavePercentage.KotlinDiv | PercentagesWithAnimationCompose/src/main/java/com/nicos/percentageswithanimationcompose/WavePercentage.kt:117-124 | Kotlin's integer division by a positive divisor, truncating toward zero: the quotient bounds for both signs. |
| WavePercentage.PercentageRestartsFromZero | PercentagesWithAnimationCompose/src/main/java/com/nicos/percentageswithanimationcompose/WavePercentage.kt:98-108 | Whatever was shown, the fill first snaps to 0 and then settles on the current value. |
| WavePercentage.SplashPulse | PercentagesWithAnimationCompose/src/main/java/com/nicos/percentageswithanimationcompose/WavePercentage.kt:112-129 | The splash rises to a fifth of the amplitude, then returns to 0. Its two stages each last `duration / 2`, so together they run the whole duration when it is even and one millisecond less when it is odd. |
| WavePercentage.OscillatorRunsUntilStopped | PercentagesWithAnimationCompose/src/main/java/com/nicos/percentageswithanimationcompose/WavePercentage.kt:132-149 | The phase oscillator toward 2 pi repeats forever; the stop request settles the phase on 0. |
| WavePercentage.DrawWave | PercentagesWithAnimationCompose/src/main/java/com/nicos/percentageswithanimationcompose/WavePercentage.kt:197-235 | The loop appends exactly the wave outline to the path: commands before it are kept. |
| WavePercentage.FillWithinCanvas | PercentagesWithAnimationCompose/src/main/java/com/nicos/percentageswithanimationcompose/WavePercentage.kt:205-208 | For 0 <= v <= max with max > 0 the fraction `1 - v/max` is in [0, 1] and the level in [0, height]. It is 0 when full and the height when empty. |
| WavePercentage.SamplesSpanWidth | PercentagesWithAnimationCompose/src/main/java/com/nicos/percentageswithanimationcompose/WavePercentage.kt:214-219 | Sample 0 is at x = 0, sample 30 at the width, samples move strictly right and samples 0..30 stay within the width. |
| WavePercentage.SampleWithinAmplitude | PercentagesWithAnimationCompose/src/main/java/com/nicos/percentageswithanimationcompose/WavePercentage.kt:211-221 | With `sin` in [-1, 1], every sample and the starting point lie within the amplitude of the level. |
| WavePercentage.StartIsFirstSample | PercentagesWithAnimationCompose/src/main/java/com/nicos/percentageswithanimationcompose/WavePercentage.kt:211-225 | The first `moveTo` and the `moveTo` of sample 0 go to the same point. |
| WavePercentage.CurvesInOrder | PercentagesWithAnimationCompose/src/main/java/com/nicos/percentageswithanimationcompose/WavePercentage.kt:218-229 | The curves appended by the loop are, in order, the curves to samples 1..n. |
| WavePercentage.OutlineShape | PercentagesWithAnimationCompose/src/main/java/com/nicos/percentageswithanimationcompose/WavePercentage.kt:211-233 | The outline has 35 commands: two `moveTo` to sample 0, exactly 30 `quadraticTo` (none elsewhere), the last ending at the right edge, then `lineTo(width, 0)`, `lineTo(0, 0)` and `close`. |
| WavePercentage.CurveThroughMidpoint | PercentagesWithAnimationCompose/src/main/java/com/nicos/percentageswithanimationcompose/WavePercentage.kt:223 | Each curve's control point is the midpoint of the two samples it joins, and it ends on the second. |
| WavePercentage.CurvesWithinBand | PercentagesWithAnimationCompose/src/main/java/com/nicos/percentageswithanimationcompose/WavePercentage.kt:211-229 | With `sin` in [-1, 1], every control and end point lies within the canvas width and within the amplitude of the level. |
| WavePercentage.WavePercentageState.Compose | PercentagesWithAnimationCompose/src/main/java/com/nicos/percentageswithanimationcompose/WavePercentage.kt:73-150 | A failed assertion leaves the state unchanged. A change of current restarts the fill (snap to 0, then tween) and the splash. A change of "shown < max" starts the oscillator or, at the maximum, drops the base amplitude to 0 and stops the phase. |
| WavePercentage.WavePercentageState.OnPercentageFrame | PercentagesWithAnimationCompose/src/main/java/com/nicos/percentageswithanimationcompose/WavePercentage.kt:104-107 | The shown value follows the fill animation's value. |
| WavePercentage.WavePercentageState.DrawFrame | PercentagesWithAnimationCompose/src/main/java/com/nicos/percentageswithanimationcompose/WavePercentage.kt:170-178 | The reused path is reset and then holds exactly the outline for the shown value, with amplitude equal to the base plus the splash. |
| WavePercentage.NoSplashWhenFull | PercentagesWithAnimationCompose/src/main/java/com/nicos/percentageswithanimationcompose/WavePercentage.kt:114-147 | Every splash launched once the base amplitude is 0 targets 0 at both stages and peaks at 0. |
| WavePercentage.Defaults | PercentagesWithAnimationCompose/src/main/java/com/nicos/percentageswithanimationcompose/WavePercentage.kt:63-150 | With the default arguments the assertions accept exactly 0 <= current <= max; the splash peaks at 2 with two 250 ms halves; the phase takes 2000 ms per turn. |
| WavePercentage.FlatWhenFull | PercentagesWithAnimationCompose/src/main/java/com/nicos/percentageswithanimationcompose/WavePercentage.kt:205-221 | A full disc with amplitude 0 has its level at y = 0 and every sample of the boundary on it: the wave is flat along the top. |
| WavePercentage.ShowAtRest | PercentagesWithAnimationCompose/src/main/java/com/nicos/percentageswithanimationcompose/WavePercentage.kt:63-186 | A fresh component with the default arguments, settled on 0 <= current <= max (max > 0) and recomposed, shows the truncated value; it keeps the oscillator below the maximum and stops it at the maximum; the settled frame draws the 35-command outline with amplitude 10 below the maximum and 0 at it. |

## Left out

- The Compose animation engine: `Animatable`, `animateFloatAsState`, `tween`, the easing curves and `infiniteRepeatable`. Only the requests handed to it (targets, durations, easings, repeat) and the value a finished request settles on are modelled. Frame-by-frame interpolation is not. The animated values reach `Draw`/`DrawFrame` as parameters.
- Coroutines and effect scheduling (`LaunchedEffect`, `scope.launch`): effects run to completion, in source order, during `Compose`. Interleavings between the wave component's concurrent coroutines are not modelled.
- WavePercentage.WavePercentageState.Compose: the splash reads the base amplitude as it was when the composition began. The source's coroutines read it later, and may see the 0 written by the oscillator effect.
- Rendering and layout: `Canvas`, circle, arc and path drawing, clipping to the disc, `Brush.linearGradient` colours, modifiers, padding, rows and boxes. Only the parameters of the indicator arc, the gradient end point and the wave path are modelled.
- Density conversion in `onGloballyPositioned`: the measured width arrives in dp.
- The `remember` cache of the wave path keyed on frequency, amplitude and maximum: the path is reset and rebuilt each frame either way.
- Floating point: values are exact reals. Results that overflow to infinity or NaN come only from division by zero and the products that follow. There is no rounding, no signed zero and no overflow of large finite values. `Float` and `Double` are not distinguished in `drawWave`.
- `sin` is a parameter of `drawWave` known only to range over [-1, 1].
- WavePercentage.DrawWave: requires a canvas of positive width and a non-zero maximum. The NaN geometry with width 0 or maximum 0 is not modelled.
- DrawFrame (WavePercentage.WavePercentageState.DrawFrame): requires a positive width and a non-zero maximum, as `DrawWave` does. The assertions accept current = max = 0, and the frame drawn then (NaN fill level and NaN samples) is not modelled.
- Asserts.RunAsserts and every `Compose` method: Kotlin `assert` calls are modelled as enabled. On Android they are disabled by default, so a bad input then goes unchecked. When they are enabled, a failure throws `AssertionError`, which the model shows as a `Fail` outcome with the state unchanged.
- Default arguments not listed in the model: the legacy bar's `progressAnimationDuration` 1500 (the legacy duration is not modelled), the enums circle's `circularSize` 200 and `percentageAnimationDuration` 1500 (neither reaches any modelled value), paddings, colours and text styles.
- The `ShowAtRest` scenarios of the two linear bars: the bar's width is measured before the `Unit` effect runs. With the width still 0, `Extent.BarOfZeroWidth` applies instead.
- Text styles are reduced to their colour. Font size, alignment and padding are left out.
- The example app (`MainActivity.kt`), the build file and the `@Preview` functions. Their inputs appear only in `CircularPercentage.PreviewHalfCircle` and `LinearPercentage.ExampleAppLabels`.
