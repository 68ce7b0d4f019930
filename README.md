# Properties carousel of the landing page, in Dafny

This project models the properties carousel that `initCarousel` in `script.js` sets up: a
horizontal track of property cards with prev/next buttons, a row of dots taken from the markup,
touch swiping and a debounced window-resize handler. The carousel keeps three closure
variables: `currentIndex` (the first visible card), `cardWidth` and `cardsVisible`. It
redraws by translating the track and marking active the dot whose position equals
`currentIndex`, if there is one (with fewer dots than slide positions no dot is active on
the later slides). Every index change goes
through `goToSlide`, which clamps the requested index into `[0, max(0, cards - cardsVisible)]`.

Three modules:

- `CarouselRules` (`carousel_rules.dfy`) holds the pure rules as functions. These are the
  breakpoint rule (1, 2 or 3 visible cards), the `|| 24` gap fallback, the card-width and
  offset formulas, the clamp and the swipe test. Beside them are lemmas that relate them to
  independent definitions. One is `CardLeft`, the left edge of card k in a flex row, built
  card by card. It is the browser's layout only while the card width is not negative,
  because a negative flex-basis is invalid CSS and is dropped. Another is the nearest
  point of the valid range.
- `CarouselNav` (`carousel_nav.dfy`) holds the navigation as a state machine on values.
  The state is `Nav(cardCount, cardsVisible, index)`. The events are a dot click or
  `goToSlide`, next, prev, a finished touch and a settled resize. `Apply` gives the effect of
  one event and `Run` the effect of a sequence of events. The lemmas state the carousel's
  promises: clamping, idempotence, no-ops at the ends, the swipe threshold, the reset on
  resize, and that no sequence of events leaves the valid range.
- `CarouselWidget` (`carousel.dfy`) holds the widget itself as a class. The closure variables
  are fields. The cards' flex-basis and the dots' `active` class are arrays that the methods
  overwrite in loops. Each navigation method's `ensures` ties the new state to
  `Apply(old state, event)`, so the lemmas of `CarouselNav` hold of the class.

The values the source reads from the DOM are method parameters. These are
`window.innerWidth`, `carousel.offsetWidth`, the result of `parseInt` on the track's computed
gap (`ParsedInt`: an integer or `NaN`) and a touch's `screenX`. Pixel widths read from the DOM
are integers. `cardWidth`, the offset and `screenX` are JavaScript numbers, and the model
treats them as exact reals.

`cardWidth` is negative when the container is narrower than the gaps between the visible
cards: −16 for a container of width 0, three cards and a 24 px gap. `CardWidthNonNegative`
states exactly when it is non-negative.

## Model

| member | source | states |
|---|---|---|
| `CarouselRules.MaxIndex` | script.js:112 | the last slide shows the last card (`m + cardsVisible == cardCount`) when there are at least `cardsVisible` cards, and is 0 otherwise |
| `CarouselRules.Clamp` | script.js:113 | the stored index is in `[0, hi]`: it is the request when that is in range, 0 below the range and `hi` above it |
| `CarouselRules.ClampIsNearest` | script.js:113 | the clamped index is the point of `[0, hi]` nearest to the requested index |
| `CarouselRules.CardsVisibleFor` | script.js:84-90 | the number of visible cards is always 1, 2 or 3; it is 3 exactly when the width is at least 1024, and 1 exactly when it is below 768 |
| `CarouselRules.CardsVisibleMonotone` | script.js:84-90 | a wider viewport never shows fewer cards |
| `CarouselRules.EffectiveGap` | script.js:101 | the gap used is never 0; a parsed non-zero gap is used as is, and a parsed 0 or NaN falls back to 24 |
| `CarouselRules.CardWidth` | script.js:92 | `cardsVisible` cards of the computed width plus `cardsVisible - 1` gaps fill the container exactly |
| `CarouselRules.CardWidthNonNegative` | script.js:92 | the card width is non-negative exactly when the container is at least as wide as the gaps between the visible cards |
| `CarouselRules.Offset` | script.js:102 | for every slide index, the offset `index * (cardWidth + gap)` is the left edge of that card in the flex row built card by card (`CardLeft`) |
| `CarouselRules.StepsReachCardLeft` | script.js:102 | k steps of one card width and one gap reach the left edge of card k, by induction over the cards |
| `CarouselRules.WindowFillsContainer` | script.js:92-102 | at any index, the `cardsVisible` cards from that index span exactly the container width once the track is translated by the offset |
| `CarouselRules.SwipeOf` | script.js:146-157 | a touch means next exactly when it moved left by more than 50, and prev exactly when it moved right by more than 50 |
| `CarouselRules.SwipeReversed` | script.js:146-157 | reversing a touch swaps next and prev and keeps a no-op a no-op |
| `CarouselNav.GoToSlide` | script.js:111-115 | after goToSlide the index is in range, cards and breakpoint are unchanged, and the index equals the target exactly when the target is a valid slide |
| `CarouselNav.Apply` | script.js:111-166 | every event keeps the card count and, apart from a resize, the breakpoint; every event except a touch of at most 50 lands in range from any state, and such a touch keeps a state in range |
| `CarouselNav.GoToPicksNearestSlide` | script.js:111-113 | goToSlide(i), `min(max(0, i), max(0, cardCount - cardsVisible))`, lands on a valid slide, and no valid slide is nearer to i than the one it lands on |
| `CarouselNav.GoToIdempotent` | script.js:111-115 | goToSlide(currentIndex) changes nothing in range, and a second goToSlide(i) after goToSlide(i) changes nothing |
| `CarouselNav.EndsAreNoOps` | script.js:117-123 | goNext on the last slide and goPrev on slide 0 leave the state unchanged |
| `CarouselNav.NextPrevRoundTrip` | script.js:117-123 | away from the ends, goPrev undoes goNext and goNext undoes goPrev |
| `CarouselNav.TouchActsAsButton` | script.js:146-157 | a touch of at most 50 (50 included) is a no-op; a longer leftward touch is goNext and a longer rightward touch is goPrev |
| `CarouselNav.ResizeResets` | script.js:163-166 | a settled resize always ends on slide 0 with the new breakpoint's visible count, whatever the previous index |
| `CarouselNav.BreakpointAloneLeavesRange` | script.js:163-166 | there is a state in range that recomputing the breakpoint without the reset leaves past the last slide (witness: 3 cards, index 2, phone then desktop) |
| `CarouselNav.RunKeepsInRange` | script.js:111-166 | from a state in range, every sequence of clicks, touches and resizes ends in range with the same cards |
| `CarouselNav.RunKeepsBreakpoint` | script.js:111-157 | a sequence of events without a resize never changes `cardsVisible` |
| `CarouselNav.NextWalksToLast` | script.js:117-119 | n presses of next move n slides forward and stop at the last slide |
| `CarouselNav.PrevWalksToFirst` | script.js:121-123 | n presses of prev move n slides back and stop at slide 0 |
| `CarouselNav.VisibleWithinCards` | script.js:112 | in range, the visible cards never run past the last card; with fewer cards than places the index is 0 |
| `CarouselWidget.Carousel.constructor` | script.js:169-171 | initial setup from index 0: the breakpoint and card width of the layout rule, every card sized, the track and dots drawn for slide 0 |
| `CarouselWidget.Carousel.CalculateDimensions` | script.js:79-98 | sets the breakpoint and the card width by the rules and writes that width to every card; the index is untouched |
| `CarouselWidget.Carousel.UpdateCarousel` | script.js:100-109 | the track offset is `currentIndex * (cardWidth + gap)` with the gap fallback, and dot k is active exactly when k == currentIndex |
| `CarouselWidget.Carousel.GoToSlide` | script.js:111-115 | the new state is `Apply(old, GoTo(index))`, the widget is valid and redrawn; when the widget was valid and drawn with the same gap, goToSlide(currentIndex) leaves the offset and dots as they were |
| `CarouselWidget.Carousel.GoNext` | script.js:117-119 | the new state is `Apply(old, Next)`, valid and redrawn |
| `CarouselWidget.Carousel.GoPrev` | script.js:121-123 | the new state is `Apply(old, Prev)`, valid and redrawn |
| `CarouselWidget.Carousel.TouchStart` | script.js:137-139 | the touch's start position is recorded |
| `CarouselWidget.Carousel.HandleSwipe` | script.js:146-157 | the new state is `Apply(old, Touch(start, end))`; a short touch leaves index, offset and dots unchanged, a long one redraws |
| `CarouselWidget.Carousel.TouchEnd` | script.js:141-144 | records the end position, then acts as handleSwipe: the new state is `Apply(old, Touch(start, end))`; a touch of at most 50 leaves index, offset and dots unchanged, a longer one leaves the widget valid and redrawn with the current gap |
| `CarouselWidget.Carousel.OnResizeSettled` | script.js:163-166 | the new state is `Apply(old, Resize(width))`: new breakpoint and card width, index 0, valid and redrawn |
| `CarouselWidget.InitCarousel` | script.js:64-171 | no widget when the carousel elements are missing or there are no cards; otherwise a new, valid, drawn widget with new card and dot arrays, on slide 0, with the breakpoint and card width of the layout rule and both touch positions 0 |

Dot clicks (script.js:129-131) call goToSlide with the dot's position. They are the
`GoTo(k)` event and `Carousel.GoToSlide(k, gap)`. The buttons (script.js:126-127) are
`GoPrev` and `GoNext`. `NineCardsOnDesktop` walks through one scenario against the class
contracts: nine cards at a viewport of 1280, goToSlide(10) gives 6,
goToSlide(-3) gives 0, a 60 px leftward touch moves one slide and a 20 px touch does nothing.

## Left out

- The navigation scroll class, the mobile menu, smooth anchor scrolling, scroll reveal,
  the animated counters and the contact form (the rest of `script.js`). They are DOM
  wiring, timers, `IntersectionObserver` or floating-point animation, and they share no
  state with the carousel.
- The debounce itself (`clearTimeout`/`setTimeout`, script.js:160-167). Timing is not
  modelled. `OnResizeSettled` is the callback that finally runs, and a burst of resizes is
  one `Resize` event.
- Reading the computed style and formatting CSS strings (`parseInt(getComputedStyle(track).gap)`,
  `` `0 0 ${cardWidth}px` ``, `` `translateX(-${offset}px)` ``). The gap arrives already parsed as
  `ParsedInt`. A card's flex-basis and the track transform are stored as the numbers they
  are built from.
- Floating point. `cardWidth`, offsets and `screenX` are exact reals, so JavaScript's
  rounding of the division at script.js:92 and of the offset product is not modelled.
- The event-listener registration (`addEventListener`, `{ passive: true }`) and the DOM
  lookups. Which elements exist is reduced to `InitCarousel`'s `elementsFound` flag and its
  card and dot counts.
