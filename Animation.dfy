/**
 * What the components hand to the animation engine. The engine itself (the timed
 * interpolation and the easing curves) is not modelled: a component's request is a list
 * of steps issued to one animated value, and `Settle` is the value it holds once every
 * step has run to completion.
 */
module Animation {
  import opened Wrappers

  datatype Easing = FastOutSlowIn | EaseInQuad | EaseOutQuad | LinearEasing

  datatype AnimationSpec =
    | Tween(durationMillis: int, easing: Easing)
    | RepeatRestart(iteration: AnimationSpec)   // `infiniteRepeatable(..., RepeatMode.Restart)`
    | DefaultSpring                             // `animateTo` without an explicit spec

  datatype Step = SnapTo(value: real) | AnimateTo(target: real, spec: AnimationSpec)

  /** `tween(durationMillis = d)` without an easing argument uses `FastOutSlowInEasing`. */
  function DefaultTween(durationMillis: int): AnimationSpec {
    Tween(durationMillis, FastOutSlowIn)
  }

  /** The value held after all `steps`, starting from `start`; `None` if some step never finishes. */
  function Settle(steps: seq<Step>, start: real): Option<real> {
    if steps == [] then Some(start)
    else match steps[0]
      case SnapTo(v) => Settle(steps[1..], v)
      case AnimateTo(t, spec) => if spec.RepeatRestart? then None else Settle(steps[1..], t)
  }

  /** A finite request settles on its last step's value, whatever value it started from. */
  lemma {:induction false} SettleOnLast(steps: seq<Step>, start: real)
    requires |steps| > 0
    requires forall k :: 0 <= k < |steps| ==> !(steps[k].AnimateTo? && steps[k].spec.RepeatRestart?)
    ensures Settle(steps, start) == Some(if steps[|steps| - 1].SnapTo? then steps[|steps| - 1].value else steps[|steps| - 1].target)
  {
    if |steps| > 1 {
      var next := if steps[0].SnapTo? then steps[0].value else steps[0].target;
      SettleOnLast(steps[1..], next);
    }
  }

  /** A request holding an endless step never settles. */
  lemma {:induction false} SettleNeverWithRepeat(steps: seq<Step>, start: real, k: nat)
    requires k < |steps| && steps[k].AnimateTo? && steps[k].spec.RepeatRestart?
    ensures Settle(steps, start) == None
  {
    if k > 0 {
      var next := if steps[0].SnapTo? then steps[0].value else steps[0].target;
      if !(steps[0].AnimateTo? && steps[0].spec.RepeatRestart?) {
        SettleNeverWithRepeat(steps[1..], next, k - 1);
      }
    }
  }
}
