/** The arithmetic of the properties carousel (script.js, initCarousel): the
    breakpoint rule, the gap fallback, the layout and offset formulas, the index
    clamp and the swipe test. Pixel widths read from the DOM are integers; the
    card width and the offsets derived from it are JavaScript numbers and are
    idealised here as exact reals. */
module CarouselRules {

  /** What JavaScript's parseInt gives for the track's computed gap: an integer,
      or NaN when the text does not start with a number (a gap of "normal"). */
  datatype ParsedInt = NaN | Int(value: int)

  /** Which way a finished touch moves the carousel. */
  datatype Swipe = NoSwipe | SwipeNext | SwipePrev

  const DesktopWidth: int := 1024
  const TabletWidth: int := 768
  const DefaultGap: int := 24
  const SwipeThreshold: real := 50.0

  /** Math.max on integers. */
  function MathMax(a: int, b: int): (r: int)
    ensures r >= a && r >= b
    ensures r == a || r == b
  {
    if a >= b then a else b
  }

  /** Math.min on integers. */
  function MathMin(a: int, b: int): (r: int)
    ensures r <= a && r <= b
    ensures r == a || r == b
  {
    if a <= b then a else b
  }

  /** The largest first-visible index: the last slide shows the last card,
      unless there are fewer cards than places, when only slide 0 exists. */
  function MaxIndex(cardCount: nat, cardsVisible: int): (m: nat)
    ensures cardCount >= cardsVisible ==> m + cardsVisible == cardCount
    ensures cardCount < cardsVisible ==> m == 0
  {
    MathMax(0, cardCount - cardsVisible)
  }

  /** The index goToSlide stores: the requested index pulled into [0, hi]. */
  function Clamp(index: int, hi: nat): (r: nat)
    ensures r <= hi
    ensures 0 <= index <= hi ==> r == index
    ensures index < 0 ==> r == 0
    ensures index > hi ==> r == hi
  {
    MathMin(MathMax(0, index), hi)
  }

  /** Absolute value on reals (Math.abs). */
  function Abs(x: real): (r: real)
    ensures r >= 0.0
    ensures r == x || r == -x
  {
    if x < 0.0 then -x else x
  }

  /** Cards shown side by side for a viewport width (window.innerWidth). */
  function CardsVisibleFor(viewportWidth: int): (v: int)
    ensures 1 <= v <= 3
    ensures v == 3 <==> viewportWidth >= DesktopWidth
    ensures v == 1 <==> viewportWidth < TabletWidth
  {
    if viewportWidth >= DesktopWidth then 3
    else if viewportWidth >= TabletWidth then 2
    else 1
  }

  /** `parseInt(gap) || 24`: a parsed gap of 0 or NaN is falsy and gives way to 24. */
  function EffectiveGap(parsed: ParsedInt): (g: int)
    ensures g != 0
    ensures parsed.Int? && parsed.value != 0 ==> g == parsed.value
    ensures parsed == NaN || parsed == Int(0) ==> g == DefaultGap
  {
    if parsed.Int? && parsed.value != 0 then parsed.value else DefaultGap
  }

  /** Width given to every card: the container shared by `cardsVisible` cards
      and the `cardsVisible - 1` gaps between them. */
  function CardWidth(containerWidth: int, gap: int, cardsVisible: int): (w: real)
    requires cardsVisible >= 1
    ensures cardsVisible as real * w + gap as real * (cardsVisible - 1) as real == containerWidth as real
  {
    (containerWidth - gap * (cardsVisible - 1)) as real / cardsVisible as real
  }

  /** The distance the track is translated left when `index` is the first visible
      card: for any slide, the left edge of that card in the flex row. */
  function Offset(index: int, cardWidth: real, gap: int): (o: real)
    ensures index >= 0 ==> o == CardLeft(index, cardWidth, gap)
  {
    StepsReachCardLeft(index, cardWidth, gap);
    index as real * (cardWidth + gap as real)
  }

  /** Left edge of card k in a row of cards of width `cardWidth` separated by `gap`,
      built card by card: the layout the track's flexbox produces while the width is
      not negative (a negative flex-basis is invalid CSS, and the browser drops it). */
  function CardLeft(k: nat, cardWidth: real, gap: int): real
  {
    if k == 0 then 0.0 else CardLeft(k - 1, cardWidth, gap) + cardWidth + gap as real
  }

  /** k steps of one card and one gap reach the left edge of card k. */
  lemma {:induction false} StepsReachCardLeft(k: int, cardWidth: real, gap: int)
    ensures k >= 0 ==> k as real * (cardWidth + gap as real) == CardLeft(k, cardWidth, gap)
    decreases if k > 0 then k else 0
  {
    if k > 0 {
      StepsReachCardLeft(k - 1, cardWidth, gap);
      calc {
        k as real * (cardWidth + gap as real);
        (k - 1) as real * (cardWidth + gap as real) + (cardWidth + gap as real);
        CardLeft(k - 1, cardWidth, gap) + cardWidth + gap as real;
      }
    }
  }

  /** With the card width of the layout rule, the cards index .. index + cardsVisible - 1
      exactly fill the container once the track is translated by the offset of index:
      the right edge of the last of them lands on the container's right edge. */
  lemma WindowFillsContainer(containerWidth: int, gap: int, cardsVisible: int, index: nat)
    requires cardsVisible >= 1
    ensures var w := CardWidth(containerWidth, gap, cardsVisible);
            CardLeft(index + cardsVisible - 1, w, gap) + w - Offset(index, w, gap) == containerWidth as real
  {
    var w := CardWidth(containerWidth, gap, cardsVisible);
    var step := w + gap as real;
    StepsReachCardLeft(index + cardsVisible - 1, w, gap);
    calc {
      CardLeft(index + cardsVisible - 1, w, gap) + w - Offset(index, w, gap);
      (index + cardsVisible - 1) as real * step + w - index as real * step;
      (cardsVisible - 1) as real * step + w;
      cardsVisible as real * w + gap as real * (cardsVisible - 1) as real;
      containerWidth as real;
    }
  }

  /** A card of the layout rule is never negative exactly when the container holds the gaps. */
  lemma CardWidthNonNegative(containerWidth: int, gap: int, cardsVisible: int)
    requires cardsVisible >= 1
    ensures CardWidth(containerWidth, gap, cardsVisible) >= 0.0 <==> containerWidth >= gap * (cardsVisible - 1)
  {
  }

  /** The swipe test of handleSwipe: a touch moved more than the threshold
      (strictly) goes forward when it moved left and back when it moved right. */
  function SwipeOf(startX: real, endX: real): (s: Swipe)
    ensures s == SwipeNext <==> startX - endX > SwipeThreshold
    ensures s == SwipePrev <==> endX - startX > SwipeThreshold
  {
    var diff := startX - endX;
    if Abs(diff) > SwipeThreshold then
      if diff > 0.0 then SwipeNext else SwipePrev
    else NoSwipe
  }

  /** The point of [0, hi] that Clamp picks is the one nearest the requested index. */
  lemma ClampIsNearest(index: int, hi: nat, j: int)
    requires 0 <= j <= hi
    ensures MathMax(Clamp(index, hi) - index, index - Clamp(index, hi))
         <= MathMax(j - index, index - j)
  {
  }

  /** A wider viewport never shows fewer cards. */
  lemma CardsVisibleMonotone(narrow: int, wide: int)
    requires narrow <= wide
    ensures CardsVisibleFor(narrow) <= CardsVisibleFor(wide)
  {
  }

  /** Reversing a touch reverses its direction. */
  lemma SwipeReversed(startX: real, endX: real)
    ensures SwipeOf(startX, endX) == SwipeNext <==> SwipeOf(endX, startX) == SwipePrev
    ensures SwipeOf(startX, endX) == NoSwipe <==> SwipeOf(endX, startX) == NoSwipe
  {
  }
}
