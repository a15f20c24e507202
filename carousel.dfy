/**
 * Paging arithmetic of the "popular dishes" carousel: how far one click of
 * the previous/next control scrolls, and the clamped offset it scrolls to.
 * Widths and offsets are whole pixels; the smooth `scrollTo` request itself
 * is not part of the model, only the position handed to it.
 */
module Carousel {
  import opened Wrappers

  /** Step used while no card has been rendered yet. */
  const DefaultStep := 320
  /** Gap between two cards, added to the first card's width. */
  const CardGap := 20

  datatype Direction = Next | Prev

  /** `computeScrollAmount`: the rendered width of the first card plus the gap, or the default. */
  function ScrollAmount(firstCardWidth: Option<nat>): (amt: int)
    ensures firstCardWidth.None? ==> amt == DefaultStep
    ensures firstCardWidth.Some? ==> amt == firstCardWidth.value + CardGap
    ensures amt >= CardGap
  {
    match firstCardWidth
    case None => DefaultStep
    case Some(w) => w + CardGap
  }

  /** The furthest the slider can scroll: content width minus visible width. */
  function MaxScroll(scrollWidth: int, clientWidth: int): int {
    scrollWidth - clientWidth
  }

  /** `x` forced into the interval `[lo, hi]`. */
  function Clamp(x: int, lo: int, hi: int): (r: int)
    requires lo <= hi
    ensures lo <= r <= hi
    ensures lo <= x <= hi ==> r == x
    ensures x < lo ==> r == lo
    ensures x > hi ==> r == hi
  {
    if x < lo then lo else if x > hi then hi else x
  }

  /**
   * `scroll(direction)`: the offset handed to `scrollTo`. "Next" moves right
   * by one step but not past the end; "Prev" moves left by one step but not
   * before the start.
   */
  function ScrollTarget(scrollLeft: int, scrollWidth: int, clientWidth: int,
                        firstCardWidth: Option<nat>, dir: Direction): (pos: int)
    ensures dir == Next ==> pos <= MaxScroll(scrollWidth, clientWidth)
    ensures dir == Next ==> pos <= scrollLeft + ScrollAmount(firstCardWidth)
    ensures dir == Next && scrollLeft <= MaxScroll(scrollWidth, clientWidth) ==> pos >= scrollLeft
    ensures dir == Prev ==> pos >= 0
    ensures dir == Prev ==> pos >= scrollLeft - ScrollAmount(firstCardWidth)
    ensures dir == Prev && scrollLeft >= 0 ==> pos <= scrollLeft
  {
    var amt := ScrollAmount(firstCardWidth);
    var maxScroll := MaxScroll(scrollWidth, clientWidth);
    match dir
    case Next =>
      if scrollLeft + amt < maxScroll then scrollLeft + amt else maxScroll
    case Prev =>
      if scrollLeft - amt > 0 then scrollLeft - amt else 0
  }

  /**
   * From any offset inside the scrollable range, both directions land on the
   * current offset moved by one step and clamped to `[0, scrollWidth - clientWidth]`.
   */
  lemma ScrollIsClamped(scrollLeft: int, scrollWidth: int, clientWidth: int,
                        firstCardWidth: Option<nat>, dir: Direction)
    requires 0 <= scrollLeft <= MaxScroll(scrollWidth, clientWidth)
    ensures var amt := ScrollAmount(firstCardWidth);
      var delta := if dir == Next then amt else -amt;
      ScrollTarget(scrollLeft, scrollWidth, clientWidth, firstCardWidth, dir)
        == Clamp(scrollLeft + delta, 0, MaxScroll(scrollWidth, clientWidth))
  {
  }

  /** Inside the scrollable range, "next" stays put exactly at the right end. */
  lemma NextMovesUnlessAtEnd(scrollLeft: int, scrollWidth: int, clientWidth: int,
                             firstCardWidth: Option<nat>)
    requires 0 <= scrollLeft <= MaxScroll(scrollWidth, clientWidth)
    ensures ScrollTarget(scrollLeft, scrollWidth, clientWidth, firstCardWidth, Next) == scrollLeft
        <==> scrollLeft == MaxScroll(scrollWidth, clientWidth)
  {
  }

  /** Inside the scrollable range, "prev" stays put exactly at the left end. */
  lemma PrevMovesUnlessAtStart(scrollLeft: int, scrollWidth: int, clientWidth: int,
                               firstCardWidth: Option<nat>)
    requires 0 <= scrollLeft <= MaxScroll(scrollWidth, clientWidth)
    ensures ScrollTarget(scrollLeft, scrollWidth, clientWidth, firstCardWidth, Prev) == scrollLeft
        <==> scrollLeft == 0
  {
  }

  /** A "next" that was not cut short by the right end is undone by one "prev". */
  lemma PrevUndoesNext(scrollLeft: int, scrollWidth: int, clientWidth: int,
                       firstCardWidth: Option<nat>)
    requires 0 <= scrollLeft
    requires scrollLeft + ScrollAmount(firstCardWidth) <= MaxScroll(scrollWidth, clientWidth)
    ensures var after := ScrollTarget(scrollLeft, scrollWidth, clientWidth, firstCardWidth, Next);
      ScrollTarget(after, scrollWidth, clientWidth, firstCardWidth, Prev) == scrollLeft
  {
  }

  /**
   * The offset after a run of clicks, each recomputed from the previous
   * click's target. This is the settled offset when every smooth scroll ends
   * before the next click. A click during the animation, or after a touch
   * drag, starts from some other offset instead; since ScrollIsClamped holds
   * from any offset inside the range, the range result below holds then too.
   */
  function ScrollAll(scrollLeft: int, scrollWidth: int, clientWidth: int,
                     firstCardWidth: Option<nat>, clicks: seq<Direction>): int
    decreases |clicks|
  {
    if |clicks| == 0 then scrollLeft
    else
      ScrollAll(ScrollTarget(scrollLeft, scrollWidth, clientWidth, firstCardWidth, clicks[0]),
                scrollWidth, clientWidth, firstCardWidth, clicks[1..])
  }

  /** Any run of clicks that starts inside the scrollable range stays inside it. */
  lemma {:induction false} ScrollAllStaysInRange(scrollLeft: int, scrollWidth: int, clientWidth: int,
                                                 firstCardWidth: Option<nat>, clicks: seq<Direction>)
    requires 0 <= scrollLeft <= MaxScroll(scrollWidth, clientWidth)
    ensures 0 <= ScrollAll(scrollLeft, scrollWidth, clientWidth, firstCardWidth, clicks)
               <= MaxScroll(scrollWidth, clientWidth)
    decreases |clicks|
  {
    if |clicks| > 0 {
      var next := ScrollTarget(scrollLeft, scrollWidth, clientWidth, firstCardWidth, clicks[0]);
      ScrollIsClamped(scrollLeft, scrollWidth, clientWidth, firstCardWidth, clicks[0]);
      ScrollAllStaysInRange(next, scrollWidth, clientWidth, firstCardWidth, clicks[1..]);
    }
  }
}
