/** The four-valued selector of the side labels of the linear bar. */
module Enums {

  datatype LeftAndRightText = LeftOnly | RightOnly | Both | None

  /** The left label is shown for LEFT_ONLY and BOTH. */
  predicate ShowsLeft(mode: LeftAndRightText) {
    mode == LeftOnly || mode == Both
  }

  /** The right label is shown for RIGHT_ONLY and BOTH. */
  predicate ShowsRight(mode: LeftAndRightText) {
    mode == RightOnly || mode == Both
  }

  /** The selector that shows exactly the requested labels. */
  function ModeFor(left: bool, right: bool): (mode: LeftAndRightText)
    ensures ShowsLeft(mode) == left && ShowsRight(mode) == right
  {
    if left && right then Both else if left then LeftOnly else if right then RightOnly else None
  }

  /** Each of the four selectors is the one and only selector for its pair of visible labels. */
  lemma ModesAreVisibilityPairs(mode: LeftAndRightText)
    ensures ModeFor(ShowsLeft(mode), ShowsRight(mode)) == mode
    ensures mode == LeftOnly <==> ShowsLeft(mode) && !ShowsRight(mode)
    ensures mode == RightOnly <==> !ShowsLeft(mode) && ShowsRight(mode)
    ensures mode == Both <==> ShowsLeft(mode) && ShowsRight(mode)
    ensures mode == None <==> !ShowsLeft(mode) && !ShowsRight(mode)
  {
  }
}
