/**
 * The quantity stepper next to each dish: a click on its minus or plus
 * button moves the displayed quantity by one, never below 1 and never
 * above 99. The displayed text is read with `parseInt`; text that does not
 * parse counts as 1.
 */
module Stepper {
  import opened Wrappers

  const MinQuantity := 1
  const MaxQuantity := 99

  /** The classes of the clicked stepper button that the handler looks at. */
  datatype Button = Button(minus: bool, plus: bool)

  /** The quantity the handler starts from: the parsed number, or 1 when parsing failed. */
  function Current(parsed: Option<int>): int {
    match parsed
    case None => MinQuantity
    case Some(v) => v
  }

  /**
   * `handleQuantityClick`: the quantity written back to the display. A
   * button with the `minus` class decrements (it is checked first), one
   * with only `plus` increments, any other button leaves the quantity as read.
   */
  function Step(parsed: Option<int>, b: Button): (r: int)
    ensures b.minus ==> r >= MinQuantity && (r < Current(parsed) || r == MinQuantity)
    ensures b.minus ==> (r == Current(parsed) - 1 <==> Current(parsed) > MinQuantity)
    ensures !b.minus && b.plus ==> r <= MaxQuantity && (r > Current(parsed) || r == MaxQuantity)
    ensures !b.minus && b.plus ==> (r == Current(parsed) + 1 <==> Current(parsed) < MaxQuantity)
    ensures !b.minus && !b.plus ==> r == Current(parsed)
    ensures MinQuantity <= Current(parsed) <= MaxQuantity ==> MinQuantity <= r <= MaxQuantity
  {
    var q := Current(parsed);
    if b.minus then
      if q - 1 > MinQuantity then q - 1 else MinQuantity
    else if b.plus then
      if q + 1 < MaxQuantity then q + 1 else MaxQuantity
    else
      q
  }

  /** A click on a stepper whose text does not parse acts as a click on a stepper showing 1. */
  lemma UnparsableCountsAsOne(b: Button)
    ensures Step(None, b) == Step(Some(MinQuantity), b)
  {
  }

  /** From a quantity in range, one click changes it by at most one. */
  lemma StepMovesByAtMostOne(q: int, b: Button)
    requires MinQuantity <= q <= MaxQuantity
    ensures -1 <= Step(Some(q), b) - q <= 1
  {
  }

  /** At the bounds the stepper saturates: minus at 1 stays 1, plus at 99 stays 99. */
  lemma StepSaturates()
    ensures Step(Some(MinQuantity), Button(true, false)) == MinQuantity
    ensures Step(Some(MaxQuantity), Button(false, true)) == MaxQuantity
    ensures Step(None, Button(true, false)) == MinQuantity
  {
  }

  /** Minus then plus returns to the start unless the start was already 1. */
  lemma PlusUndoesMinus(q: int)
    requires MinQuantity < q <= MaxQuantity
    ensures Step(Some(Step(Some(q), Button(true, false))), Button(false, true)) == q
  {
  }

  /** Plus then minus returns to the start unless the start was already 99. */
  lemma MinusUndoesPlus(q: int)
    requires MinQuantity <= q < MaxQuantity
    ensures Step(Some(Step(Some(q), Button(false, true))), Button(true, false)) == q
  {
  }

  /**
   * The quantity after a run of clicks on one stepper, each reading back the
   * number the previous click wrote. This is the quantity the next click
   * would read, not necessarily the displayed text: with no clicks and
   * unparsable text it is 1, while the page still shows the text, since
   * nothing has been written yet.
   */
  function StepAll(parsed: Option<int>, clicks: seq<Button>): int
    decreases |clicks|
  {
    if |clicks| == 0 then Current(parsed)
    else StepAll(Some(Step(parsed, clicks[0])), clicks[1..])
  }

  /** Starting from a quantity in range (or unparsable text) every run of clicks stays in range. */
  lemma {:induction false} StepAllStaysInRange(parsed: Option<int>, clicks: seq<Button>)
    requires MinQuantity <= Current(parsed) <= MaxQuantity
    ensures MinQuantity <= StepAll(parsed, clicks) <= MaxQuantity
    decreases |clicks|
  {
    if |clicks| > 0 {
      StepAllStaysInRange(Some(Step(parsed, clicks[0])), clicks[1..]);
    }
  }
}
