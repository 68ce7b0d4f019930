/** The carousel's navigation as a state machine on values: the closure state
    that decides which card is first on screen, the events that change it, and
    what each event does. Every index change goes through goToSlide's clamp. */
module CarouselNav {
  import opened CarouselRules

  /** The number of cards (fixed), the breakpoint's visible count and currentIndex. */
  datatype Nav = Nav(cardCount: nat, cardsVisible: int, index: int)

  /** What the user or the window can do: click a dot (or call goToSlide),
      press next or prev, finish a touch, or let a resize settle. */
  datatype Event =
    | GoTo(target: int)
    | Next
    | Prev
    | Touch(startX: real, endX: real)
    | Resize(viewportWidth: int)

  /** The state invariant: a breakpoint value of cardsVisible and an index in range. */
  predicate InRange(s: Nav)
  {
    1 <= s.cardsVisible <= 3 && 0 <= s.index <= MaxIndex(s.cardCount, s.cardsVisible)
  }

  /** goToSlide: the index becomes the target clamped to the valid slides. */
  function GoToSlide(s: Nav, target: int): (t: Nav)
    requires 1 <= s.cardsVisible <= 3
    ensures InRange(t)
    ensures t.cardCount == s.cardCount && t.cardsVisible == s.cardsVisible
    ensures 0 <= target <= MaxIndex(s.cardCount, s.cardsVisible) <==> t.index == target
  {
    s.(index := Clamp(target, MaxIndex(s.cardCount, s.cardsVisible)))
  }

  /** The effect of one event. Next, Prev and a long enough swipe go one slide
      forward or back through goToSlide; a settled resize recomputes the
      breakpoint and goes back to slide 0. */
  function Apply(s: Nav, e: Event): (t: Nav)
    requires 1 <= s.cardsVisible <= 3
    ensures InRange(s) || !e.Touch? ==> InRange(t)
    ensures !(e.Touch? && SwipeOf(e.startX, e.endX) == NoSwipe) ==> InRange(t)
    ensures t.cardCount == s.cardCount
    ensures !e.Resize? ==> t.cardsVisible == s.cardsVisible
  {
    match e
    case GoTo(target) => GoToSlide(s, target)
    case Next => GoToSlide(s, s.index + 1)
    case Prev => GoToSlide(s, s.index - 1)
    case Touch(startX, endX) =>
      (match SwipeOf(startX, endX)
       case SwipeNext => GoToSlide(s, s.index + 1)
       case SwipePrev => GoToSlide(s, s.index - 1)
       case NoSwipe => s)
    case Resize(viewportWidth) => GoToSlide(s.(cardsVisible := CardsVisibleFor(viewportWidth)), 0)
  }

  /** The state after a sequence of events, in order. */
  function Run(s: Nav, events: seq<Event>): Nav
    requires 1 <= s.cardsVisible <= 3
    decreases |events|
  {
    if events == [] then s else Run(Apply(s, events[0]), events[1..])
  }

  /** n copies of one event. */
  function Repeat(e: Event, n: nat): (es: seq<Event>)
    ensures |es| == n
  {
    if n == 0 then [] else [e] + Repeat(e, n - 1)
  }

  /** A dot click or goToSlide(i) lands on a valid slide, and on the valid slide
      nearest to i: no slide in [0, max(0, cardCount - cardsVisible)] is closer. */
  lemma GoToPicksNearestSlide(s: Nav, target: int, j: int)
    requires 1 <= s.cardsVisible <= 3
    requires 0 <= j <= MaxIndex(s.cardCount, s.cardsVisible)
    ensures var t := Apply(s, GoTo(target));
            0 <= t.index <= MaxIndex(s.cardCount, s.cardsVisible) &&
            MathMax(t.index - target, target - t.index) <= MathMax(j - target, target - j)
  {
    ClampIsNearest(target, MaxIndex(s.cardCount, s.cardsVisible), j);
  }

  /** Clicking the dot of the current slide changes nothing, and a second
      goToSlide with the same target changes nothing after the first. */
  lemma GoToIdempotent(s: Nav, target: int)
    requires 1 <= s.cardsVisible <= 3
    ensures InRange(s) ==> Apply(s, GoTo(s.index)) == s
    ensures Apply(Apply(s, GoTo(target)), GoTo(target)) == Apply(s, GoTo(target))
  {
  }

  /** Next on the last slide and Prev on the first are no-ops. */
  lemma EndsAreNoOps(s: Nav)
    requires InRange(s)
    ensures s.index == MaxIndex(s.cardCount, s.cardsVisible) ==> Apply(s, Next) == s
    ensures s.index == 0 ==> Apply(s, Prev) == s
  {
  }

  /** Next and Prev undo each other away from the ends. */
  lemma NextPrevRoundTrip(s: Nav)
    requires InRange(s)
    ensures s.index < MaxIndex(s.cardCount, s.cardsVisible) ==> Apply(Apply(s, Next), Prev) == s
    ensures s.index > 0 ==> Apply(Apply(s, Prev), Next) == s
  {
  }

  /** A touch that moves at most the threshold (50 px exactly included) changes nothing;
      a longer one acts as Next when it moved left and as Prev when it moved right. */
  lemma TouchActsAsButton(s: Nav, startX: real, endX: real)
    requires 1 <= s.cardsVisible <= 3
    ensures Abs(startX - endX) <= SwipeThreshold ==> Apply(s, Touch(startX, endX)) == s
    ensures startX - endX > SwipeThreshold ==> Apply(s, Touch(startX, endX)) == Apply(s, Next)
    ensures endX - startX > SwipeThreshold ==> Apply(s, Touch(startX, endX)) == Apply(s, Prev)
  {
  }

  /** A settled resize always ends on slide 0 with the new breakpoint's card count,
      whatever the index was. */
  lemma ResizeResets(s: Nav, viewportWidth: int)
    requires 1 <= s.cardsVisible <= 3
    ensures Apply(s, Resize(viewportWidth)) == Nav(s.cardCount, CardsVisibleFor(viewportWidth), 0)
  {
  }

  /** Recomputing the breakpoint alone would not keep the index in range: some
      state in range (three cards on a phone, at index 2) falls out of range when
      a desktop width is applied without the reset to slide 0. */
  lemma BreakpointAloneLeavesRange()
    ensures exists s: Nav, w: int :: InRange(s) && !InRange(s.(cardsVisible := CardsVisibleFor(w)))
  {
    var s := Nav(3, CardsVisibleFor(500), 2);
    assert InRange(s) && !InRange(s.(cardsVisible := CardsVisibleFor(1200)));
  }

  /** No path bypasses the clamp: from a state in range, every sequence of events
      ends in range, with the same number of cards. */
  lemma {:induction false} RunKeepsInRange(s: Nav, events: seq<Event>)
    requires InRange(s)
    ensures InRange(Run(s, events))
    ensures Run(s, events).cardCount == s.cardCount
    decreases |events|
  {
    if events != [] {
      RunKeepsInRange(Apply(s, events[0]), events[1..]);
    }
  }

  /** While there is no resize, the breakpoint does not change. */
  lemma {:induction false} RunKeepsBreakpoint(s: Nav, events: seq<Event>)
    requires 1 <= s.cardsVisible <= 3
    requires forall k :: 0 <= k < |events| ==> !events[k].Resize?
    ensures Run(s, events).cardsVisible == s.cardsVisible
    decreases |events|
  {
    if events != [] {
      RunKeepsBreakpoint(Apply(s, events[0]), events[1..]);
    }
  }

  /** Pressing next n times walks n slides forward and stops at the last slide. */
  lemma {:induction false} NextWalksToLast(s: Nav, n: nat)
    requires InRange(s)
    ensures Run(s, Repeat(Next, n)).index == MathMin(s.index + n, MaxIndex(s.cardCount, s.cardsVisible))
    ensures Run(s, Repeat(Next, n)).cardsVisible == s.cardsVisible
    decreases n
  {
    if n > 0 {
      assert Repeat(Next, n)[0] == Next && Repeat(Next, n)[1..] == Repeat(Next, n - 1);
      NextWalksToLast(Apply(s, Next), n - 1);
    }
  }

  /** Pressing prev n times walks n slides back and stops at slide 0. */
  lemma {:induction false} PrevWalksToFirst(s: Nav, n: nat)
    requires InRange(s)
    ensures Run(s, Repeat(Prev, n)).index == MathMax(s.index - n, 0)
    ensures Run(s, Repeat(Prev, n)).cardsVisible == s.cardsVisible
    decreases n
  {
    if n > 0 {
      assert Repeat(Prev, n)[0] == Prev && Repeat(Prev, n)[1..] == Repeat(Prev, n - 1);
      PrevWalksToFirst(Apply(s, Prev), n - 1);
    }
  }

  /** In range, the visible cards never run past the last card; with fewer cards
      than places the carousel stays on slide 0. */
  lemma VisibleWithinCards(s: Nav)
    requires InRange(s)
    ensures s.cardCount >= s.cardsVisible ==> s.index + s.cardsVisible <= s.cardCount
    ensures s.cardCount < s.cardsVisible ==> s.index == 0
  {
  }
}
