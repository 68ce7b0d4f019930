/** The carousel widget of initCarousel (script.js): the closure variables
    become fields, the card elements' flex-basis and the dot elements' 'active'
    class become arrays, and each inner arrow function becomes a method. Values
    the source reads from the DOM (window.innerWidth, carousel.offsetWidth, the
    parsed gap of the track, a touch's screenX) are parameters. */
module CarouselWidget {
  import opened CarouselRules
  import opened CarouselNav

  class Carousel {
    const cardCount: nat          // cards.length
    const cardFlex: array<real>   // flex-basis, in px, of each card element
    const dots: array<bool>       // whether each dot element has the 'active' class
    var cardsVisible: int
    var cardWidth: real
    var currentIndex: int
    var trackOffset: real         // the track is drawn at translateX(-trackOffset px)
    var touchStartX: real
    var touchEndX: real

    /** The navigation state the widget holds. */
    ghost function NavState(): Nav
      reads this
    {
      Nav(cardCount, cardsVisible, currentIndex)
    }

    /** One flex-basis per card, all equal to cardWidth, and a breakpoint value
        of cardsVisible: what calculateDimensions establishes. */
    ghost predicate Sized()
      reads this, cardFlex
    {
      cardFlex.Length == cardCount &&
      1 <= cardsVisible <= 3 &&
      forall k :: 0 <= k < cardFlex.Length ==> cardFlex[k] == cardWidth
    }

    /** The object invariant: sized, and the index within the valid slides. */
    ghost predicate Valid()
      reads this, cardFlex
    {
      Sized() && InRange(NavState())
    }

    /** What updateCarousel draws for a parsed gap: the track offset of the
        current index, and exactly the dot at currentIndex active. */
    ghost predicate Rendered(gap: ParsedInt)
      reads this, dots
    {
      trackOffset == Offset(currentIndex, cardWidth, EffectiveGap(gap)) &&
      forall k :: 0 <= k < dots.Length ==> dots[k] == (k == currentIndex)
    }

    /** The closure's initial state (index 0, width 0, one card visible)
        followed by the initial calculateDimensions and updateCarousel. */
    constructor (cardCount: nat, dotCount: nat, viewportWidth: int, containerWidth: int, gap: ParsedInt)
      ensures Valid() && Rendered(gap)
      ensures fresh(cardFlex) && fresh(dots)
      ensures this.cardCount == cardCount && dots.Length == dotCount
      ensures currentIndex == 0
      ensures cardsVisible == CardsVisibleFor(viewportWidth)
      ensures cardWidth == CardWidth(containerWidth, EffectiveGap(gap), cardsVisible)
      ensures touchStartX == 0.0 && touchEndX == 0.0
    {
      this.cardCount := cardCount;
      cardFlex := new real[cardCount];
      dots := new bool[dotCount];
      currentIndex := 0;
      cardWidth := 0.0;
      cardsVisible := 1;
      trackOffset := 0.0;
      touchStartX := 0.0;
      touchEndX := 0.0;
      new;
      CalculateDimensions(viewportWidth, containerWidth, gap);
      UpdateCarousel(gap);
    }

    /** calculateDimensions: the breakpoint rule, the layout rule, and the new
        width written to every card. The index is left as it was. */
    method CalculateDimensions(viewportWidth: int, containerWidth: int, gap: ParsedInt)
      requires cardFlex.Length == cardCount
      modifies this`cardsVisible, this`cardWidth, cardFlex
      ensures Sized()
      ensures cardsVisible == CardsVisibleFor(viewportWidth)
      ensures cardWidth == CardWidth(containerWidth, EffectiveGap(gap), cardsVisible)
    {
      cardsVisible := CardsVisibleFor(viewportWidth);
      cardWidth := CardWidth(containerWidth, EffectiveGap(gap), cardsVisible);
      var k := 0;
      while k < cardFlex.Length
        invariant 0 <= k <= cardFlex.Length
        invariant forall j :: 0 <= j < k ==> cardFlex[j] == cardWidth
        modifies cardFlex
      {
        cardFlex[k] := cardWidth;
        k := k + 1;
      }
    }

    /** updateCarousel: translate the track to the current index and mark the
        dot at that index, and only that one, active. */
    method UpdateCarousel(gap: ParsedInt)
      modifies this`trackOffset, dots
      ensures Rendered(gap)
    {
      trackOffset := Offset(currentIndex, cardWidth, EffectiveGap(gap));
      var k := 0;
      while k < dots.Length
        invariant 0 <= k <= dots.Length
        invariant forall j :: 0 <= j < k ==> dots[j] == (j == currentIndex)
        modifies dots
      {
        dots[k] := k == currentIndex;
        k := k + 1;
      }
    }

    /** goToSlide: the sole mutator of currentIndex. */
    method GoToSlide(index: int, gap: ParsedInt)
      requires Sized()
      modifies this`currentIndex, this`trackOffset, dots
      ensures Valid() && Rendered(gap)
      ensures NavState() == Apply(old(NavState()), GoTo(index))
      ensures old(Valid() && Rendered(gap)) && index == old(currentIndex) ==>
                trackOffset == old(trackOffset) && dots[..] == old(dots[..])
    {
      var maxIndex := MaxIndex(cardCount, cardsVisible);
      currentIndex := Clamp(index, maxIndex);
      UpdateCarousel(gap);
    }

    /** goNext: the next-button handler. */
    method GoNext(gap: ParsedInt)
      requires Sized()
      modifies this`currentIndex, this`trackOffset, dots
      ensures Valid() && Rendered(gap)
      ensures NavState() == Apply(old(NavState()), Next)
    {
      GoToSlide(currentIndex + 1, gap);
    }

    /** goPrev: the prev-button handler. */
    method GoPrev(gap: ParsedInt)
      requires Sized()
      modifies this`currentIndex, this`trackOffset, dots
      ensures Valid() && Rendered(gap)
      ensures NavState() == Apply(old(NavState()), Prev)
    {
      GoToSlide(currentIndex - 1, gap);
    }

    /** The touchstart listener: remember where the touch began. */
    method TouchStart(screenX: real)
      modifies this`touchStartX
      ensures touchStartX == screenX
    {
      touchStartX := screenX;
    }

    /** handleSwipe: a touch longer than the threshold acts as next or prev;
        a shorter one leaves everything as it was. */
    method HandleSwipe(gap: ParsedInt)
      requires Sized()
      modifies this`currentIndex, this`trackOffset, dots
      ensures Sized()
      ensures NavState() == Apply(old(NavState()), Touch(touchStartX, touchEndX))
      ensures SwipeOf(touchStartX, touchEndX) == NoSwipe ==>
                currentIndex == old(currentIndex) && trackOffset == old(trackOffset) && dots[..] == old(dots[..])
      ensures SwipeOf(touchStartX, touchEndX) != NoSwipe ==> Valid() && Rendered(gap)
    {
      var diff := touchStartX - touchEndX;
      if Abs(diff) > SwipeThreshold {
        if diff > 0.0 {
          GoNext(gap);
        } else {
          GoPrev(gap);
        }
      }
    }

    /** The touchend listener: remember where the touch ended, then handleSwipe. */
    method TouchEnd(screenX: real, gap: ParsedInt)
      requires Sized()
      modifies this`touchEndX, this`currentIndex, this`trackOffset, dots
      ensures Sized() && touchEndX == screenX
      ensures NavState() == Apply(old(NavState()), Touch(touchStartX, screenX))
      ensures SwipeOf(touchStartX, screenX) == NoSwipe ==>
                currentIndex == old(currentIndex) && trackOffset == old(trackOffset) && dots[..] == old(dots[..])
      ensures SwipeOf(touchStartX, screenX) != NoSwipe ==> Valid() && Rendered(gap)
      ensures old(Valid() && Rendered(gap)) ==> Valid() && Rendered(gap)
    {
      touchEndX := screenX;
      HandleSwipe(gap);
    }

    /** The body of the debounced resize timer: recompute the layout, then go
        back to slide 0 whatever the index and the new breakpoint. */
    method OnResizeSettled(viewportWidth: int, containerWidth: int, gap: ParsedInt)
      requires Sized()
      modifies this`cardsVisible, this`cardWidth, this`currentIndex, this`trackOffset, cardFlex, dots
      ensures Valid() && Rendered(gap)
      ensures NavState() == Apply(old(NavState()), Resize(viewportWidth))
      ensures currentIndex == 0
      ensures cardWidth == CardWidth(containerWidth, EffectiveGap(gap), cardsVisible)
    {
      CalculateDimensions(viewportWidth, containerWidth, gap);
      GoToSlide(0, gap);
    }
  }

  /** initCarousel: nothing is set up when the carousel or its track is missing
      or there are no cards; otherwise the widget starts on slide 0. */
  method InitCarousel(elementsFound: bool, cardCount: nat, dotCount: nat,
                      viewportWidth: int, containerWidth: int, gap: ParsedInt)
    returns (c: Carousel?)
    ensures c == null <==> !elementsFound || cardCount == 0
    ensures c != null ==> fresh(c) && c.Valid() && c.Rendered(gap) && c.currentIndex == 0
    ensures c != null ==> fresh(c.cardFlex) && fresh(c.dots)
    ensures c != null ==> c.cardCount == cardCount && c.dots.Length == dotCount
    ensures c != null ==> c.cardsVisible == CardsVisibleFor(viewportWidth)
    ensures c != null ==> c.cardWidth == CardWidth(containerWidth, EffectiveGap(gap), c.cardsVisible)
    ensures c != null ==> c.touchStartX == 0.0 && c.touchEndX == 0.0
  {
    if !elementsFound || cardCount == 0 {
      return null;
    }
    c := new Carousel(cardCount, dotCount, viewportWidth, containerWidth, gap);
  }

  /** Nine cards and seven dots at a viewport of 1280: slide requests, then a long and a short touch. */
  method NineCardsOnDesktop()
  {
    var c := new Carousel(9, 7, 1280, 1200, Int(24));
    assert c.cardsVisible == 3;
    c.GoToSlide(10, Int(24));
    assert c.currentIndex == 6;
    c.GoToSlide(-3, Int(24));
    assert c.currentIndex == 0;
    c.TouchStart(300.0);
    c.TouchEnd(240.0, Int(24));
    assert c.currentIndex == 1;
    c.TouchStart(300.0);
    c.TouchEnd(280.0, Int(24));
    assert c.currentIndex == 1;
  }
}
