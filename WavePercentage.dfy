/**
 * `WavePercentage`: a disc filled from the bottom by a wavy liquid level. Three effects
 * drive it: the fill value restarts from 0 on every change of the current value, a
 * two-stage "splash" raises and lowers the wave amplitude on every such change, and a
 * continuous phase oscillator runs while the shown value is below the maximum. Each frame
 * the wave boundary is rebuilt by `DrawWave` from 31 samples of a sine joined by
 * midpoint quadratic curves, and closed along the top of the canvas.
 */
module WavePercentage {
  import opened Wrappers
  import opened Floats
  import opened Asserts
  import opened Animation
  import opened Graphics
  import Decimal

  /** Kotlin's `PI` (a `Double`), as an exact real. */
  const PI: real := 3.141592653589793

  /** Number of intervals the wave is sampled over; there are `NumPoints + 1` samples. */
  const NumPoints: int := 30

  // The composable's default arguments.
  const DefaultCircularSize: int := 100
  const DefaultPercentageAnimationDuration: int := 1500
  const DefaultWaveFrequency: real := 1.5
  const DefaultWaveAmplitude: real := 10.0
  const DefaultWaveAnimationDuration: int := 500
  const DefaultContinuousWaveAnimationDuration: int := 2000

  /** The assertions at the top of the composable; only the oscillator period must be strictly positive. */
  function Validate(currentPercentage: real, maxPercentage: real, circularSize: int, percentageAnimationDuration: int,
                    waveAnimationDuration: int, continuousWaveAnimationDuration: int): (r: Outcome)
    ensures r.Pass? <==>
      && 0.0 <= currentPercentage <= maxPercentage
      && 0 <= circularSize && 0 <= percentageAnimationDuration && 0 <= waveAnimationDuration
      && 0 < continuousWaveAnimationDuration
    ensures currentPercentage < 0.0 ==> r == Fail("Current value must be greater than or equal to 0")
    ensures 0.0 <= currentPercentage <= maxPercentage && 0 <= circularSize && 0 <= percentageAnimationDuration
      && 0 <= waveAnimationDuration && continuousWaveAnimationDuration <= 0
      ==> r == Fail("Continuous wave animation duration must be greater than 0")
  {
    var checks := [
      Assertion(currentPercentage >= 0.0, "Current value must be greater than or equal to 0"),
      Assertion(currentPercentage <= maxPercentage, "Current value must be less than or equal to maximum value"),
      Assertion(circularSize >= 0, "Circular size must be greater than or equal to 0"),
      Assertion(percentageAnimationDuration >= 0, "Percentage animation duration must be greater than or equal to 0"),
      Assertion(waveAnimationDuration >= 0, "Wave animation duration must be greater than or equal to 0"),
      Assertion(continuousWaveAnimationDuration > 0, "Continuous wave animation duration must be greater than 0")
    ];
    assert (forall j :: 0 <= j < |checks| ==> checks[j].holds)
      <==> checks[0].holds && checks[1].holds && checks[2].holds && checks[3].holds && checks[4].holds && checks[5].holds;
    assert !checks[0].holds ==> FirstFailure(checks) == 0;
    assert checks[0].holds && checks[1].holds && checks[2].holds && checks[3].holds && checks[4].holds && !checks[5].holds
      ==> FirstFailure(checks) == 5;
    RunAsserts(checks)
  }

  // ---------------------------------------------------------------------------------------
  // The animations requested on a change of the current value and of "below the maximum"

  /** Kotlin's `Int` division by a positive divisor, which truncates toward zero. */
  function KotlinDiv(a: int, b: int): (q: int)
    requires 0 < b
    ensures 0 <= a ==> 0 <= q && q * b <= a < (q + 1) * b
    ensures a < 0 ==> q <= 0 && (q - 1) * b < a <= q * b
  {
    if a >= 0 then
      DivBounds(a, b);
      a / b
    else
      DivBounds(-a, b);
      var p := (-a) / b;
      assert -p * b == -(p * b) && (-p - 1) * b == -((p + 1) * b);
      -p
  }

  lemma DivBounds(a: int, b: int)
    requires 0 <= a && 0 < b
    ensures 0 <= a / b && (a / b) * b <= a < (a / b + 1) * b
  {
    var q, r := a / b, a % b;
    assert a == q * b + r && 0 <= r < b;
    assert (q + 1) * b == q * b + b;
  }

  /** The fill value: snap to 0, then tween to the current value. */
  function PercentageSteps(currentPercentage: real, percentageAnimationDuration: int): seq<Step> {
    [SnapTo(0.0), AnimateTo(currentPercentage, DefaultTween(percentageAnimationDuration))]
  }

  /** The splash: up to a fifth of the amplitude with an ease-in, back to 0 with an ease-out, each over half the duration. */
  function SplashSteps(waveAmplitude: real, waveAnimationDuration: int): seq<Step> {
    [AnimateTo(0.2 * waveAmplitude, Tween(KotlinDiv(waveAnimationDuration, 2), EaseInQuad)),
     AnimateTo(0.0, Tween(KotlinDiv(waveAnimationDuration, 2), EaseOutQuad))]
  }

  /** The phase while the shown value is below the maximum: 0 to 2 pi, linearly, restarting forever. */
  function OscillatorSteps(continuousWaveAnimationDuration: int): seq<Step> {
    [AnimateTo(2.0 * PI, RepeatRestart(Tween(continuousWaveAnimationDuration, LinearEasing)))]
  }

  /** The phase once the shown value has reached the maximum: back to 0 with the default spring. */
  function StopSteps(): seq<Step> {
    [AnimateTo(0.0, DefaultSpring)]
  }

  /** Whatever value the fill had, it first drops to 0 and then settles on the current value. */
  lemma PercentageRestartsFromZero(currentPercentage: real, percentageAnimationDuration: int, shown: real)
    ensures Settle(PercentageSteps(currentPercentage, percentageAnimationDuration)[..1], shown) == Some(0.0)
    ensures Settle(PercentageSteps(currentPercentage, percentageAnimationDuration), shown) == Some(currentPercentage)
  {
    SettleOnLast(PercentageSteps(currentPercentage, percentageAnimationDuration)[..1], shown);
    SettleOnLast(PercentageSteps(currentPercentage, percentageAnimationDuration), shown);
  }

  /** The splash peaks at a fifth of the amplitude and ends at 0; its two halves last the duration, less one odd millisecond. */
  lemma SplashPulse(waveAmplitude: real, waveAnimationDuration: int, start: real)
    requires 0 <= waveAnimationDuration
    ensures Settle(SplashSteps(waveAmplitude, waveAnimationDuration)[..1], start) == Some(0.2 * waveAmplitude)
    ensures Settle(SplashSteps(waveAmplitude, waveAnimationDuration), start) == Some(0.0)
    ensures var half := SplashSteps(waveAmplitude, waveAnimationDuration)[0].spec.durationMillis;
      half == SplashSteps(waveAmplitude, waveAnimationDuration)[1].spec.durationMillis
      && waveAnimationDuration - 1 <= 2 * half <= waveAnimationDuration
      && (waveAnimationDuration % 2 == 0 ==> 2 * half == waveAnimationDuration)
  {
    SettleOnLast(SplashSteps(waveAmplitude, waveAnimationDuration)[..1], start);
    SettleOnLast(SplashSteps(waveAmplitude, waveAnimationDuration), start);
  }

  /** The oscillator never settles; stopping it settles the phase on 0. */
  lemma OscillatorRunsUntilStopped(continuousWaveAnimationDuration: int, phase: real)
    ensures Settle(OscillatorSteps(continuousWaveAnimationDuration), phase) == None
    ensures Settle(StopSteps(), phase) == Some(0.0)
  {
    SettleNeverWithRepeat(OscillatorSteps(continuousWaveAnimationDuration), phase, 0);
    SettleOnLast(StopSteps(), phase);
  }

  // ---------------------------------------------------------------------------------------
  // The wave boundary

  /** `sin` is not modelled beyond its range. */
  ghost predicate SineBounded(sin: real -> real) {
    forall t :: -1.0 <= sin(t) <= 1.0
  }

  /** `sin` applied to an angle, as a value that does not depend on the heap. */
  function Sine(sin: real -> real, angle: real): real {
    sin(angle)
  }

  /** The inputs of one `drawWave` call: the canvas size and the five arguments it takes. */
  datatype WaveFrame = WaveFrame(
    width: real, height: real,
    actualPercentageToShow: real, waveFrequency: real, waveAmplitude: real, wavePhase: real, maxPercentage: real)

  /** A canvas with some width, and a maximum that can be divided by. */
  predicate Drawable(f: WaveFrame) {
    0.0 < f.width && f.maxPercentage != 0.0
  }

  /** `1 - shown / maximum`: the empty part of the disc, measured from the top. */
  function NormalizedPercentage(f: WaveFrame): real
    requires Drawable(f)
  {
    1.0 - f.actualPercentageToShow / f.maxPercentage
  }

  /** The y of the still liquid level (the canvas' y grows downwards). */
  function FillHeight(f: WaveFrame): real
    requires Drawable(f)
  {
    f.height * NormalizedPercentage(f)
  }

  function Step(f: WaveFrame): real
    requires Drawable(f)
  {
    f.width / NumPoints as real
  }

  function SampleX(f: WaveFrame, i: int): real
    requires Drawable(f)
  {
    i as real * Step(f)
  }

  /** The phase of the sine at horizontal offset `dx` from the centre of the canvas. */
  function WaveAngle(f: WaveFrame, dx: real): real
    requires Drawable(f)
  {
    f.waveFrequency / f.width * 2.0 * PI * dx + PI / 2.0 + f.wavePhase
  }

  /** The height of the wave at horizontal offset `dx` from the centre of the canvas. */
  function WaveHeight(f: WaveFrame, sin: real -> real, dx: real): real
    requires Drawable(f)
  {
    FillHeight(f) + f.waveAmplitude * Sine(sin, WaveAngle(f, dx))
  }

  function SampleY(f: WaveFrame, sin: real -> real, i: int): real
    requires Drawable(f)
  {
    WaveHeight(f, sin, SampleX(f, i) - f.width / 2.0)
  }

  /** The y of the first `moveTo`, written in the source with `-centerX` in place of `x - centerX`. */
  function StartY(f: WaveFrame, sin: real -> real): real
    requires Drawable(f)
  {
    WaveHeight(f, sin, -(f.width / 2.0))
  }

  /** The curve from sample `i - 1` to sample `i`. */
  function Curve(f: WaveFrame, sin: real -> real, i: int): PathCommand
    requires Drawable(f)
  {
    QuadraticTo(SampleX(f, i - 1) + Step(f) / 2.0, (SampleY(f, sin, i) + SampleY(f, sin, i - 1)) / 2.0, SampleX(f, i), SampleY(f, sin, i))
  }

  /** The curves to samples 1 .. n, in order. */
  function Curves(f: WaveFrame, sin: real -> real, n: nat): seq<PathCommand>
    requires Drawable(f)
  {
    if n == 0 then [] else Curves(f, sin, n - 1) + [Curve(f, sin, n)]
  }

  /** The commands appended once the loop has run for samples 0 .. i - 1. */
  function Emitted(f: WaveFrame, sin: real -> real, i: nat): seq<PathCommand>
    requires Drawable(f)
  {
    [MoveTo(0.0, StartY(f, sin))] + if i == 0 then [] else [MoveTo(SampleX(f, 0), SampleY(f, sin, 0))] + Curves(f, sin, i - 1)
  }

  /** The whole boundary `drawWave` appends. */
  function WaveOutline(f: WaveFrame, sin: real -> real): seq<PathCommand>
    requires Drawable(f)
  {
    Emitted(f, sin, NumPoints + 1) + [LineTo(f.width, 0.0), LineTo(0.0, 0.0), Close]
  }

  /** `drawWave`: appends the wave boundary to `path`, sample by sample. */
  method DrawWave(path: Path, f: WaveFrame, sin: real -> real)
    requires Drawable(f)
    modifies path
    ensures path.commands == old(path.commands) + WaveOutline(f, sin)
  {
    var normalizedPercentage := 1.0 - f.actualPercentageToShow / f.maxPercentage;
    var fillHeightFromBottom := f.height * normalizedPercentage;
    var centerX := f.width / 2.0;
    var previousY := fillHeightFromBottom + f.waveAmplitude * Sine(sin, WaveAngle(f, -centerX));
    assert fillHeightFromBottom == FillHeight(f);
    assert previousY == StartY(f, sin);
    path.MoveTo(0.0, previousY);

    var step := f.width / NumPoints as real;
    var previousX := 0.0;
    for i := 0 to NumPoints + 1
      invariant path.commands == old(path.commands) + Emitted(f, sin, i)
      invariant previousX == if i == 0 then 0.0 else SampleX(f, i - 1)
      invariant previousY == if i == 0 then StartY(f, sin) else SampleY(f, sin, i - 1)
    {
      var x := i as real * step;
      var y := fillHeightFromBottom + f.waveAmplitude * Sine(sin, WaveAngle(f, x - centerX));
      // The product with the sine is nonlinear, so name the sine and relate
      // y to the sample height one step at a time.
      ghost var s := Sine(sin, WaveAngle(f, x - centerX));
      assert y == fillHeightFromBottom + f.waveAmplitude * s;
      assert WaveHeight(f, sin, x - centerX) == FillHeight(f) + f.waveAmplitude * s;
      assert x - centerX == SampleX(f, i) - f.width / 2.0;
      assert y == SampleY(f, sin, i);
      if i > 0 {
        path.QuadraticTo(previousX + step / 2.0, (y + previousY) / 2.0, x, y);
        assert Emitted(f, sin, i + 1) == Emitted(f, sin, i) + [Curve(f, sin, i)];
      } else {
        path.MoveTo(x, y);
      }
      previousY := y;
      previousX := x;
    }

    path.LineTo(f.width, 0.0);
    path.LineTo(0.0, 0.0);
    path.Close();
  }

  /** For a shown value within the range the liquid level lies within the canvas: at the bottom when empty, at the top when full. */
  lemma FillWithinCanvas(f: WaveFrame)
    requires Drawable(f) && 0.0 < f.maxPercentage && 0.0 <= f.height
    requires 0.0 <= f.actualPercentageToShow <= f.maxPercentage
    ensures 0.0 <= NormalizedPercentage(f) <= 1.0
    ensures 0.0 <= FillHeight(f) <= f.height
    ensures f.actualPercentageToShow == f.maxPercentage ==> FillHeight(f) == 0.0
    ensures f.actualPercentageToShow == 0.0 ==> FillHeight(f) == f.height
  {
    var q := f.actualPercentageToShow / f.maxPercentage;
    assert 0.0 <= q <= 1.0 by {
      assert q * f.maxPercentage == f.actualPercentageToShow;
    }
    ScaleWithin(f.height, 1.0 - q);
  }

  /** The samples start at the left edge, end at the right edge and move strictly to the right. */
  lemma SamplesSpanWidth(f: WaveFrame, i: int, j: int)
    requires Drawable(f)
    ensures SampleX(f, 0) == 0.0 && SampleX(f, NumPoints) == f.width
    ensures i < j ==> SampleX(f, i) < SampleX(f, j)
    ensures 0 <= i <= NumPoints ==> 0.0 <= SampleX(f, i) <= f.width
  {
    var s := Step(f);
    assert s * NumPoints as real == f.width;
    if i < j {
      assert (j as real - i as real) * s > 0.0;
    }
    if 0 <= i <= NumPoints {
      assert i as real * s <= NumPoints as real * s;
    }
  }

  /** Every sample lies within the amplitude of the liquid level. */
  lemma SampleWithinAmplitude(f: WaveFrame, sin: real -> real, i: int)
    requires Drawable(f) && SineBounded(sin)
    ensures FillHeight(f) - Abs(f.waveAmplitude) <= SampleY(f, sin, i) <= FillHeight(f) + Abs(f.waveAmplitude)
    ensures FillHeight(f) - Abs(f.waveAmplitude) <= StartY(f, sin) <= FillHeight(f) + Abs(f.waveAmplitude)
  {
    var dx := SampleX(f, i) - f.width / 2.0;
    var s := Sine(sin, WaveAngle(f, dx));
    ScaledSineWithin(f.waveAmplitude, s);
    assert SampleY(f, sin, i) == WaveHeight(f, sin, dx) == FillHeight(f) + f.waveAmplitude * s;
    var s0 := Sine(sin, WaveAngle(f, -(f.width / 2.0)));
    ScaledSineWithin(f.waveAmplitude, s0);
    assert StartY(f, sin) == WaveHeight(f, sin, -(f.width / 2.0)) == FillHeight(f) + f.waveAmplitude * s0;
  }

  function Abs(x: real): real {
    if x < 0.0 then -x else x
  }

  lemma ScaledSineWithin(amplitude: real, s: real)
    requires -1.0 <= s <= 1.0
    ensures -Abs(amplitude) <= amplitude * s <= Abs(amplitude)
  {
    if amplitude < 0.0 {
      assert (-amplitude) * s <= -amplitude && (-amplitude) * s >= amplitude;
    } else {
      assert amplitude * s <= amplitude && amplitude * s >= -amplitude;
    }
  }

  /** The first `moveTo` and the `moveTo` of sample 0 go to the same point. */
  lemma StartIsFirstSample(f: WaveFrame, sin: real -> real)
    requires Drawable(f)
    ensures StartY(f, sin) == SampleY(f, sin, 0) && SampleX(f, 0) == 0.0
  {
    assert SampleX(f, 0) - f.width / 2.0 == -(f.width / 2.0);
  }

  lemma {:induction false} CurvesInOrder(f: WaveFrame, sin: real -> real, n: nat)
    requires Drawable(f)
    ensures |Curves(f, sin, n)| == n
    ensures forall k :: 0 <= k < n ==> Curves(f, sin, n)[k] == Curve(f, sin, k + 1)
  {
    if n > 0 {
      CurvesInOrder(f, sin, n - 1);
    }
  }

  /**
   * The shape of the boundary: two `moveTo` to the first sample, exactly 30 `quadraticTo`
   * (one per pair of consecutive samples), then two `lineTo` to the top corners and `close`.
   */
  lemma OutlineShape(f: WaveFrame, sin: real -> real)
    requires Drawable(f)
    ensures |WaveOutline(f, sin)| == NumPoints + 5
    ensures WaveOutline(f, sin)[0] == MoveTo(0.0, SampleY(f, sin, 0))
    ensures WaveOutline(f, sin)[1] == MoveTo(0.0, SampleY(f, sin, 0))
    ensures forall k :: 2 <= k < NumPoints + 2 ==> WaveOutline(f, sin)[k] == Curve(f, sin, k - 1)
    ensures forall k :: 0 <= k < |WaveOutline(f, sin)| ==> (WaveOutline(f, sin)[k].QuadraticTo? <==> 2 <= k < NumPoints + 2)
    ensures WaveOutline(f, sin)[NumPoints + 1].endX == f.width
    ensures WaveOutline(f, sin)[NumPoints + 2] == LineTo(f.width, 0.0)
    ensures WaveOutline(f, sin)[NumPoints + 3] == LineTo(0.0, 0.0)
    ensures WaveOutline(f, sin)[NumPoints + 4] == Close
  {
    CurvesInOrder(f, sin, NumPoints);
    StartIsFirstSample(f, sin);
    SamplesSpanWidth(f, 0, 0);
    var o := WaveOutline(f, sin);
    var c := Curves(f, sin, NumPoints);
    assert o == [MoveTo(0.0, StartY(f, sin)), MoveTo(SampleX(f, 0), SampleY(f, sin, 0))] + c + [LineTo(f.width, 0.0), LineTo(0.0, 0.0), Close];
    assert forall k :: 2 <= k < NumPoints + 2 ==> o[k] == c[k - 2];
  }

  /** Each curve's control point is the midpoint of the two samples it joins, and it ends at the second. */
  lemma CurveThroughMidpoint(f: WaveFrame, sin: real -> real, i: int)
    requires Drawable(f) && 1 <= i <= NumPoints
    ensures Curve(f, sin, i).controlX == (SampleX(f, i - 1) + SampleX(f, i)) / 2.0
    ensures Curve(f, sin, i).controlY == (SampleY(f, sin, i - 1) + SampleY(f, sin, i)) / 2.0
    ensures Curve(f, sin, i).endX == SampleX(f, i) && Curve(f, sin, i).endY == SampleY(f, sin, i)
  {
    assert SampleX(f, i) == SampleX(f, i - 1) + Step(f);
  }

  /** Every curve of the boundary stays within the canvas' width and within the amplitude of the liquid level. */
  lemma CurvesWithinBand(f: WaveFrame, sin: real -> real, i: int)
    requires Drawable(f) && SineBounded(sin) && 1 <= i <= NumPoints
    ensures 0.0 <= Curve(f, sin, i).controlX <= f.width && 0.0 <= Curve(f, sin, i).endX <= f.width
    ensures FillHeight(f) - Abs(f.waveAmplitude) <= Curve(f, sin, i).controlY <= FillHeight(f) + Abs(f.waveAmplitude)
    ensures FillHeight(f) - Abs(f.waveAmplitude) <= Curve(f, sin, i).endY <= FillHeight(f) + Abs(f.waveAmplitude)
  {
    CurveThroughMidpoint(f, sin, i);
    SamplesSpanWidth(f, i - 1, i);
    SamplesSpanWidth(f, i, i);
    SampleWithinAmplitude(f, sin, i - 1);
    SampleWithinAmplitude(f, sin, i);
  }

  // ---------------------------------------------------------------------------------------
  // The component's remembered state

  class WavePercentageState {
    var actualPercentageToShow: real  // the fill value shown and drawn
    var waveAmplitude: real           // the base amplitude, set to 0 once the disc is full
    var percentageSteps: seq<Step>    // the request running on the fill value
    var amplitudeSteps: seq<Step>     // the request running on the splash amplitude
    var phaseSteps: seq<Step>         // the request running on the phase
    var currentKey: Option<real>      // the key of the two effects keyed on the current value
    var belowMaxKey: Option<bool>     // the key of the oscillator effect

    constructor (waveAmplitude: real)
      ensures actualPercentageToShow == 0.0 && this.waveAmplitude == waveAmplitude
      ensures percentageSteps == [] && amplitudeSteps == [] && phaseSteps == []
      ensures currentKey == None && belowMaxKey == None
    {
      actualPercentageToShow, this.waveAmplitude := 0.0, waveAmplitude;
      percentageSteps, amplitudeSteps, phaseSteps := [], [], [];
      currentKey, belowMaxKey := None, None;
    }

    /**
     * One composition: the assertions, then the three effects in order. The two keyed on
     * the current value restart the fill and the splash when it changes; the one keyed on
     * `actualPercentageToShow < maxPercentage` starts the oscillator, or stops it and drops
     * the base amplitude to 0, when that comparison changes.
     */
    method Compose(currentPercentage: real, maxPercentage: real, circularSize: int, percentageAnimationDuration: int,
                   waveAnimationDuration: int, continuousWaveAnimationDuration: int) returns (outcome: Outcome)
      modifies this
      ensures outcome == Validate(currentPercentage, maxPercentage, circularSize, percentageAnimationDuration,
                                  waveAnimationDuration, continuousWaveAnimationDuration)
      ensures actualPercentageToShow == old(actualPercentageToShow)
      ensures outcome.Fail? ==>
        && waveAmplitude == old(waveAmplitude) && currentKey == old(currentKey) && belowMaxKey == old(belowMaxKey)
        && percentageSteps == old(percentageSteps) && amplitudeSteps == old(amplitudeSteps) && phaseSteps == old(phaseSteps)
      ensures outcome.Pass? ==> currentKey == Some(currentPercentage)
      ensures outcome.Pass? ==> belowMaxKey == Some(actualPercentageToShow < maxPercentage)
      ensures outcome.Pass? ==>
        if old(currentKey) == Some(currentPercentage) then
          percentageSteps == old(percentageSteps) && amplitudeSteps == old(amplitudeSteps)
        else
          percentageSteps == PercentageSteps(currentPercentage, percentageAnimationDuration)
          && amplitudeSteps == SplashSteps(old(waveAmplitude), waveAnimationDuration)
      ensures outcome.Pass? ==>
        if old(belowMaxKey) == Some(actualPercentageToShow < maxPercentage) then
          phaseSteps == old(phaseSteps) && waveAmplitude == old(waveAmplitude)
        else if actualPercentageToShow < maxPercentage then
          phaseSteps == OscillatorSteps(continuousWaveAnimationDuration) && waveAmplitude == old(waveAmplitude)
        else
          phaseSteps == StopSteps() && waveAmplitude == 0.0
    {
      outcome := Validate(currentPercentage, maxPercentage, circularSize, percentageAnimationDuration,
                          waveAnimationDuration, continuousWaveAnimationDuration);
      if outcome.Fail? {
        return;
      }
      if currentKey != Some(currentPercentage) {
        percentageSteps := PercentageSteps(currentPercentage, percentageAnimationDuration);
        amplitudeSteps := SplashSteps(waveAmplitude, waveAnimationDuration);
        currentKey := Some(currentPercentage);
      }
      var belowMax := actualPercentageToShow < maxPercentage;
      if belowMaxKey != Some(belowMax) {
        if belowMax {
          phaseSteps := OscillatorSteps(continuousWaveAnimationDuration);
        } else {
          waveAmplitude := 0.0;
          phaseSteps := StopSteps();
        }
        belowMaxKey := Some(belowMax);
      }
    }

    /** The fill animation's frame callback (and its final assignment): the shown value follows it. */
    method OnPercentageFrame(value: real)
      modifies this`actualPercentageToShow
      ensures actualPercentageToShow == value
    {
      actualPercentageToShow := value;
    }

    /** The amplitude handed to `drawWave`: the base amplitude plus the animated splash. */
    function DrawAmplitude(splash: real): real
      reads this
    {
      waveAmplitude + splash
    }

    /** One frame of the clipped canvas: the reused path is reset and the boundary rebuilt from the current state. */
    method DrawFrame(path: Path, width: real, height: real, waveFrequency: real, splash: real, phase: real,
                     maxPercentage: real, sin: real -> real)
      requires 0.0 < width && maxPercentage != 0.0
      modifies path
      ensures path.commands == WaveOutline(WaveFrame(width, height, actualPercentageToShow, waveFrequency,
                                                     DrawAmplitude(splash), phase, maxPercentage), sin)
    {
      path.Reset();
      DrawWave(path, WaveFrame(width, height, actualPercentageToShow, waveFrequency, waveAmplitude + splash, phase, maxPercentage), sin);
    }

    /** The centre text: the shown value, truncated. */
    function CenterText(): string
      reads this
    {
      Decimal.IntToString(ToInt(Finite(actualPercentageToShow)))
    }
  }

  /** Once the base amplitude is 0, every splash launched afterwards targets 0 at both stages. */
  lemma NoSplashWhenFull(waveAnimationDuration: int, start: real)
    ensures forall k :: 0 <= k < |SplashSteps(0.0, waveAnimationDuration)| ==> SplashSteps(0.0, waveAnimationDuration)[k].target == 0.0
    ensures Settle(SplashSteps(0.0, waveAnimationDuration)[..1], start) == Some(0.0)
  {
    SettleOnLast(SplashSteps(0.0, waveAnimationDuration)[..1], start);
  }

  /**
   * With the default arguments the assertions accept exactly the values within the range;
   * the splash peaks at 2 and each of its halves lasts 250 ms; the phase takes 2 s per turn.
   */
  lemma Defaults(currentPercentage: real, maxPercentage: real, start: real)
    ensures Validate(currentPercentage, maxPercentage, DefaultCircularSize, DefaultPercentageAnimationDuration,
                     DefaultWaveAnimationDuration, DefaultContinuousWaveAnimationDuration).Pass?
      <==> 0.0 <= currentPercentage <= maxPercentage
    ensures Settle(SplashSteps(DefaultWaveAmplitude, DefaultWaveAnimationDuration)[..1], start) == Some(2.0)
    ensures SplashSteps(DefaultWaveAmplitude, DefaultWaveAnimationDuration)[0].spec.durationMillis == 250
    ensures SplashSteps(DefaultWaveAmplitude, DefaultWaveAnimationDuration)[1].spec.durationMillis == 250
    ensures OscillatorSteps(DefaultContinuousWaveAnimationDuration)[0].spec.iteration.durationMillis == 2000
  {
    SplashPulse(DefaultWaveAmplitude, DefaultWaveAnimationDuration, start);
  }

  /** A full disc with no splash left draws a flat boundary along the top of the canvas. */
  lemma FlatWhenFull(f: WaveFrame, sin: real -> real, i: int)
    requires Drawable(f) && f.actualPercentageToShow == f.maxPercentage && f.waveAmplitude == 0.0
    ensures FillHeight(f) == 0.0
    ensures SampleY(f, sin, i) == 0.0 && StartY(f, sin) == 0.0
  {
    assert NormalizedPercentage(f) == 0.0;
  }

  /**
   * One component with the default arguments, from its first composition to rest: the fill
   * restarts from 0 and settles on the current value, the splash settles on 0, and the next
   * composition keeps the oscillator running when the value is below the maximum or stops
   * it and drops the base amplitude when it is not. The settled frame shows the truncated
   * value and draws the boundary with the resulting amplitude.
   */
  method ShowAtRest(currentPercentage: real, maxPercentage: real, width: real, height: real, phase: real, sin: real -> real)
    returns (text: string, phaseSteps: seq<Step>, outline: seq<PathCommand>)
    requires 0.0 <= currentPercentage <= maxPercentage && 0.0 < maxPercentage
    requires currentPercentage < IntMax as real && 0.0 < width
    ensures text == Decimal.IntToString(currentPercentage.Floor)
    ensures phaseSteps == if currentPercentage < maxPercentage then OscillatorSteps(DefaultContinuousWaveAnimationDuration) else StopSteps()
    ensures outline == WaveOutline(WaveFrame(width, height, currentPercentage, DefaultWaveFrequency,
                                             if currentPercentage < maxPercentage then DefaultWaveAmplitude else 0.0,
                                             phase, maxPercentage), sin)
    ensures |outline| == NumPoints + 5
  {
    var state := new WavePercentageState(DefaultWaveAmplitude);
    var outcome := state.Compose(currentPercentage, maxPercentage, DefaultCircularSize, DefaultPercentageAnimationDuration,
                                 DefaultWaveAnimationDuration, DefaultContinuousWaveAnimationDuration);
    Defaults(currentPercentage, maxPercentage, 0.0);
    PercentageRestartsFromZero(currentPercentage, DefaultPercentageAnimationDuration, 0.0);
    SplashPulse(DefaultWaveAmplitude, DefaultWaveAnimationDuration, 0.0);
    var shown := Settle(state.percentageSteps, 0.0);
    var splash := Settle(state.amplitudeSteps, 0.0);
    state.OnPercentageFrame(shown.value);
    outcome := state.Compose(currentPercentage, maxPercentage, DefaultCircularSize, DefaultPercentageAnimationDuration,
                             DefaultWaveAnimationDuration, DefaultContinuousWaveAnimationDuration);
    phaseSteps := state.phaseSteps;
    text := state.CenterText();
    var path := new Path();
    state.DrawFrame(path, width, height, DefaultWaveFrequency, splash.value, phase, maxPercentage, sin);
    outline := path.commands;
    OutlineShape(WaveFrame(width, height, currentPercentage, DefaultWaveFrequency, state.DrawAmplitude(splash.value),
                           phase, maxPercentage), sin);
  }
}
