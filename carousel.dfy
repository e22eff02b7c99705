/** The hero carousel (src/components/hero-carousel.tsx): a cyclic slide
    index over the three hero slides, advanced by the arrow keys while the
    carousel has focus, by its prev/next buttons and indicators, and by an
    autoplay interval that exists only while it is neither hovered nor focused. */
module Carousel {
  import opened Keys

  /** `heroContent.length`: only the number of slides matters here. */
  const SlideCount: int := 3

  predicate IsSlide(i: int) {
    0 <= i < SlideCount
  }

  /** JavaScript's `%`: the remainder truncates toward zero, so it takes the
      sign of the dividend (Dafny's `%` is Euclidean). */
  function JsRemainder(a: int, n: int): (r: int)
    requires n > 0
    ensures a >= 0 ==> 0 <= r < n
    ensures a < 0 ==> -n < r <= 0
  {
    if a >= 0 then a % n else -((-a) % n)
  }

  /** `nextSlide`'s update: `(prev + 1) % heroContent.length`. */
  function NextSlide(prev: int): int {
    JsRemainder(prev + 1, SlideCount)
  }

  /** `prevSlide`'s update: `(prev - 1 + heroContent.length) % heroContent.length`. */
  function PrevSlide(prev: int): int {
    JsRemainder(prev - 1 + SlideCount, SlideCount)
  }

  /** Both updates stay on a slide, and agree with the mathematical modulus;
      on the JavaScript operator this needs the index to be a slide. */
  lemma SlideStepsInRange(i: int)
    requires IsSlide(i)
    ensures IsSlide(NextSlide(i)) && NextSlide(i) == (i + 1) % SlideCount
    ensures IsSlide(PrevSlide(i)) && PrevSlide(i) == (i - 1) % SlideCount
  {
  }

  /** From the last slide, next wraps to the first; from the first, prev
      wraps to the last. */
  lemma SlideStepsWrap()
    ensures NextSlide(SlideCount - 1) == 0
    ensures PrevSlide(0) == SlideCount - 1
  {
  }

  /** `prevSlide` undoes `nextSlide` and vice versa. */
  lemma NextPrevInverse(i: int)
    requires IsSlide(i)
    ensures PrevSlide(NextSlide(i)) == i
    ensures NextSlide(PrevSlide(i)) == i
  {
  }

  /** n applications of `nextSlide`. */
  function NextTimes(i: int, n: nat): int {
    if n == 0 then i else NextSlide(NextTimes(i, n - 1))
  }

  /** n applications of `prevSlide`. */
  function PrevTimes(i: int, n: nat): int {
    if n == 0 then i else PrevSlide(PrevTimes(i, n - 1))
  }

  /** Taking the remainder first does not change the next or previous residue. */
  lemma ModuloShift(x: int)
    ensures ((x % SlideCount) + 1) % SlideCount == (x + 1) % SlideCount
    ensures ((x % SlideCount) - 1) % SlideCount == (x - 1) % SlideCount
  {
  }

  /** n nexts from slide i give (i + n) mod 3; n prevs give (i - n) mod 3. */
  lemma {:induction false} StepsAreModular(i: int, n: nat)
    requires IsSlide(i)
    ensures NextTimes(i, n) == (i + n) % SlideCount
    ensures PrevTimes(i, n) == (i - n) % SlideCount
  {
    if n > 0 {
      StepsAreModular(i, n - 1);
      SlideStepsInRange(NextTimes(i, n - 1));
      SlideStepsInRange(PrevTimes(i, n - 1));
      ModuloShift(i + n - 1);
      ModuloShift(i - n + 1);
    }
  }

  datatype CarouselState = CarouselState(
    currentSlide: int,
    isHovered: bool,
    isCarouselFocused: bool,
    propIsFocused: bool,    // the `isFocused` prop the effect last saw
    autoplayArmed: bool)    // an autoplay interval is scheduled

  /** The condition under which the autoplay effect schedules an interval. */
  predicate AutoplayWanted(s: CarouselState) {
    !s.isHovered && !s.isCarouselFocused
  }

  predicate Consistent(s: CarouselState) {
    IsSlide(s.currentSlide) && s.autoplayArmed == AutoplayWanted(s)
  }

  /** The autoplay effect on `[isHovered, isCarouselFocused]`: clear any
      interval and schedule a fresh one when the condition holds. */
  function Rearm(s: CarouselState): CarouselState {
    s.(autoplayArmed := AutoplayWanted(s))
  }

  function AfterKey(s: CarouselState, key: Key): CarouselState {
    match key
    case ArrowLeft => if s.isCarouselFocused then s.(currentSlide := PrevSlide(s.currentSlide)) else s
    case ArrowRight => if s.isCarouselFocused then s.(currentSlide := NextSlide(s.currentSlide)) else s
    case _ => s
  }

  /** The interval firing: it runs `nextSlide`; with no interval scheduled
      nothing fires. */
  function AfterTick(s: CarouselState): CarouselState {
    if s.autoplayArmed then s.(currentSlide := NextSlide(s.currentSlide)) else s
  }

  function AfterHover(s: CarouselState, hovered: bool): CarouselState {
    Rearm(s.(isHovered := hovered))
  }

  /** The container's `onFocus` (true) and `onBlur` (false). */
  function AfterHostFocus(s: CarouselState, focused: bool): CarouselState {
    Rearm(s.(isCarouselFocused := focused))
  }

  /** The effect on the `isFocused` prop: when set, focus the container and
      set `isCarouselFocused`; when cleared, do nothing. */
  function PropEffect(s: CarouselState): CarouselState {
    if s.propIsFocused then AfterHostFocus(s, true) else s
  }

  function AfterPropChange(s: CarouselState, prop: bool): CarouselState {
    if prop == s.propIsFocused then s else PropEffect(s.(propIsFocused := prop))
  }

  /** Indicator `i` sets the slide; indicators exist for the slides only. */
  function AfterIndicatorClick(s: CarouselState, i: int): CarouselState
    requires IsSlide(i)
  {
    s.(currentSlide := i)
  }

  /** The chevron buttons run `prevSlide`/`nextSlide` without a focus gate. */
  function AfterChevronClick(s: CarouselState, forward: bool): CarouselState {
    s.(currentSlide := if forward then NextSlide(s.currentSlide) else PrevSlide(s.currentSlide))
  }

  /** Mounting: slide 0, not hovered, not focused, the autoplay effect
      schedules its interval, then the prop effect runs. */
  function Mounted(prop: bool): CarouselState {
    PropEffect(CarouselState(0, false, false, prop, true))
  }

  datatype CarouselEvent =
    | KeyPressed(key: Key)
    | Tick
    | Hovered(hovered: bool)
    | HostFocus(focused: bool)
    | PropChanged(prop: bool)
    | IndicatorClicked(index: int)
    | ChevronClicked(forward: bool)

  predicate Possible(e: CarouselEvent) {
    e.IndicatorClicked? ==> IsSlide(e.index)
  }

  function AfterEvent(s: CarouselState, e: CarouselEvent): CarouselState
    requires Possible(e)
  {
    match e
    case KeyPressed(k) => AfterKey(s, k)
    case Tick => AfterTick(s)
    case Hovered(h) => AfterHover(s, h)
    case HostFocus(f) => AfterHostFocus(s, f)
    case PropChanged(p) => AfterPropChange(s, p)
    case IndicatorClicked(i) => AfterIndicatorClick(s, i)
    case ChevronClicked(f) => AfterChevronClick(s, f)
  }

  function AfterEvents(s: CarouselState, es: seq<CarouselEvent>): CarouselState
    requires forall i :: 0 <= i < |es| ==> Possible(es[i])
  {
    if es == [] then s else AfterEvent(AfterEvents(s, es[..|es| - 1]), es[|es| - 1])
  }

  lemma MountedIsConsistent(prop: bool)
    ensures Consistent(Mounted(prop))
    ensures Mounted(prop).currentSlide == 0 && Mounted(prop).isCarouselFocused == prop
  {
  }

  /** Every event keeps the slide a slide and the interval scheduled exactly
      when the carousel is neither hovered nor focused. */
  lemma EventKeepsConsistent(s: CarouselState, e: CarouselEvent)
    requires Consistent(s) && Possible(e)
    ensures Consistent(AfterEvent(s, e))
  {
    SlideStepsInRange(s.currentSlide);
  }

  lemma {:induction false} EventsKeepConsistent(s: CarouselState, es: seq<CarouselEvent>)
    requires Consistent(s)
    requires forall i :: 0 <= i < |es| ==> Possible(es[i])
    ensures Consistent(AfterEvents(s, es))
  {
    if es != [] {
      EventsKeepConsistent(s, es[..|es| - 1]);
      EventKeepsConsistent(AfterEvents(s, es[..|es| - 1]), es[|es| - 1]);
    }
  }

  /** The arrow keys move the slide if and only if the carousel has focus. */
  lemma ArrowsGatedByFocus(s: CarouselState)
    requires Consistent(s)
    ensures AfterKey(s, ArrowLeft) != s <==> s.isCarouselFocused
    ensures AfterKey(s, ArrowRight) != s <==> s.isCarouselFocused
    ensures s.isCarouselFocused ==>
      AfterKey(s, ArrowRight).currentSlide == (s.currentSlide + 1) % SlideCount &&
      AfterKey(s, ArrowLeft).currentSlide == (s.currentSlide - 1) % SlideCount
  {
    SlideStepsInRange(s.currentSlide);
  }

  /** An autoplay tick changes the slide if and only if the carousel is
      neither hovered nor focused; when it does, it is `nextSlide`. */
  lemma AutoplayOnlyWhenIdle(s: CarouselState)
    requires Consistent(s)
    ensures AfterTick(s) != s <==> !s.isHovered && !s.isCarouselFocused
    ensures AfterTick(s) != s ==> AfterTick(s).currentSlide == NextSlide(s.currentSlide)
  {
    SlideStepsInRange(s.currentSlide);
  }

  /** The prop turning on sets `isCarouselFocused` and stops autoplay; the
      prop turning off leaves it set. Only a blur clears it: every other event
      keeps a focused carousel focused. */
  lemma PropOnlyEverFocuses(s: CarouselState)
    requires Consistent(s)
    ensures !s.propIsFocused ==> AfterPropChange(s, true).isCarouselFocused && !AfterPropChange(s, true).autoplayArmed
    ensures AfterPropChange(s, false).isCarouselFocused == s.isCarouselFocused
    ensures !AfterHostFocus(s, false).isCarouselFocused
    ensures forall e :: Possible(e) && s.isCarouselFocused && e != HostFocus(false) ==> AfterEvent(s, e).isCarouselFocused
  {
  }

  /** The carousel as an object whose handlers update its fields. */
  class HeroCarousel {
    var currentSlide: int
    var isHovered: bool
    var isCarouselFocused: bool
    var propIsFocused: bool
    var autoplayArmed: bool

    function State(): CarouselState
      reads this
    {
      CarouselState(currentSlide, isHovered, isCarouselFocused, propIsFocused, autoplayArmed)
    }

    predicate Valid()
      reads this
    {
      Consistent(State())
    }

    constructor (prop: bool)
      ensures Valid() && State() == Mounted(prop)
    {
      currentSlide, isHovered, isCarouselFocused, propIsFocused, autoplayArmed := 0, false, false, prop, true;
      new;
      if propIsFocused {
        HostFocus(true);
      }
    }

    /** `nextSlide()`. */
    method Next()
      requires Valid()
      modifies this
      ensures Valid() && State() == old(State()).(currentSlide := NextSlide(old(currentSlide)))
    {
      SlideStepsInRange(currentSlide);
      currentSlide := JsRemainder(currentSlide + 1, SlideCount);
    }

    /** `prevSlide()`. */
    method Prev()
      requires Valid()
      modifies this
      ensures Valid() && State() == old(State()).(currentSlide := PrevSlide(old(currentSlide)))
    {
      SlideStepsInRange(currentSlide);
      currentSlide := JsRemainder(currentSlide - 1 + SlideCount, SlideCount);
    }

    /** The autoplay effect. */
    method SyncAutoplay()
      requires IsSlide(currentSlide)
      modifies this
      ensures Valid() && State() == Rearm(old(State()))
    {
      autoplayArmed := !isHovered && !isCarouselFocused;
    }

    method OnKey(key: Key)
      requires Valid()
      modifies this
      ensures Valid() && State() == AfterKey(old(State()), key)
    {
      match key {
        case ArrowLeft =>
          if isCarouselFocused { Prev(); }
        case ArrowRight =>
          if isCarouselFocused { Next(); }
        case _ =>
      }
    }

    method OnTick()
      requires Valid()
      modifies this
      ensures Valid() && State() == AfterTick(old(State()))
    {
      if autoplayArmed {
        Next();
      }
    }

    /** `onMouseEnter` (true) and `onMouseLeave` (false). */
    method Hover(hovered: bool)
      requires Valid()
      modifies this
      ensures Valid() && State() == AfterHover(old(State()), hovered)
    {
      isHovered := hovered;
      SyncAutoplay();
    }

    /** `onFocus` (true) and `onBlur` (false) of the container. */
    method HostFocus(focused: bool)
      requires IsSlide(currentSlide)
      modifies this
      ensures Valid() && State() == AfterHostFocus(old(State()), focused)
    {
      isCarouselFocused := focused;
      SyncAutoplay();
    }

    method SetPropIsFocused(prop: bool)
      requires Valid()
      modifies this
      ensures Valid() && State() == AfterPropChange(old(State()), prop)
    {
      if prop == propIsFocused {
        return;
      }
      propIsFocused := prop;
      if propIsFocused {
        HostFocus(true);
      }
    }

    method ClickIndicator(i: int)
      requires Valid() && IsSlide(i)
      modifies this
      ensures Valid() && State() == AfterIndicatorClick(old(State()), i)
    {
      currentSlide := i;
    }

    method ClickChevron(forward: bool)
      requires Valid()
      modifies this
      ensures Valid() && State() == AfterChevronClick(old(State()), forward)
    {
      if forward {
        Next();
      } else {
        Prev();
      }
    }
  }
}
