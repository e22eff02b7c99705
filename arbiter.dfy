/** The home page (src/pages/Index.tsx): the section arbitrator.
    `currentSection` selects which of the four stacked regions owns the
    vertical d-pad (0 nav bar, 1 hero carousel, 2 app grid, 3 recommended row),
    four focus flags mirror the regions, and `isAIOpen` says whether the
    voice-assistant overlay is open, in which case the arbitrator's key
    configuration is disabled. */
module SectionArbiter {
  import opened Keys

  /** The bottom section; sections run over 0..LastSection. */
  const LastSection: int := 3

  datatype Arbiter = Arbiter(
    isAIOpen: bool,
    currentSection: int,
    navFocused: bool,
    carouselFocused: bool,
    appsFocused: bool,
    recommendedFocused: bool)

  predicate InRange(a: Arbiter) {
    0 <= a.currentSection <= LastSection
  }

  /** The focus flag of section `k`. */
  function FocusFlag(a: Arbiter, k: int): bool {
    if k == 0 then a.navFocused
    else if k == 1 then a.carouselFocused
    else if k == 2 then a.appsFocused
    else if k == 3 then a.recommendedFocused
    else false
  }

  /** How many of the four focus flags are set. */
  function FlagCount(a: Arbiter): nat {
    (if a.navFocused then 1 else 0) + (if a.carouselFocused then 1 else 0) +
    (if a.appsFocused then 1 else 0) + (if a.recommendedFocused then 1 else 0)
  }

  /** The `isFocused` prop handed to the region of section `k`. */
  function RegionIsFocused(a: Arbiter, k: int): bool {
    a.currentSection == k
  }

  /** How many of the sections 0..n-1 receive `isFocused = true`. */
  function FocusedRegionCount(a: Arbiter, n: nat): nat {
    if n == 0 then 0
    else FocusedRegionCount(a, n - 1) + (if RegionIsFocused(a, n - 1) then 1 else 0)
  }

  function ClearFlags(a: Arbiter): Arbiter {
    a.(navFocused := false, carouselFocused := false, appsFocused := false, recommendedFocused := false)
  }

  /** The state of the page when it mounts. */
  function Initial(): Arbiter {
    Arbiter(false, 0, false, false, false, false)
  }

  /** The ArrowDown handler: one section down unless already at the bottom. */
  function AfterArrowDown(a: Arbiter): Arbiter {
    if a.currentSection < LastSection
    then ClearFlags(a.(currentSection := a.currentSection + 1))
    else a
  }

  /** The ArrowUp handler: one section up unless already at the top. */
  function AfterArrowUp(a: Arbiter): Arbiter {
    if a.currentSection > 0
    then ClearFlags(a.(currentSection := a.currentSection - 1))
    else a
  }

  /** A key press delivered to the page's configuration, which handles only
      the vertical arrows and is disabled while the overlay is open. */
  function AfterKey(a: Arbiter, key: Key): Arbiter {
    if a.isAIOpen then a
    else match key
      case ArrowDown => AfterArrowDown(a)
      case ArrowUp => AfterArrowUp(a)
      case _ => a
  }

  /** The deferred effect on `currentSection`: set the flag of the current
      section and clear the others; a section outside 0..3 matches no branch. */
  function AfterSettle(a: Arbiter): Arbiter {
    if a.currentSection == 0 then a.(navFocused := true, carouselFocused := false, appsFocused := false, recommendedFocused := false)
    else if a.currentSection == 1 then a.(navFocused := false, carouselFocused := true, appsFocused := false, recommendedFocused := false)
    else if a.currentSection == 2 then a.(navFocused := false, carouselFocused := false, appsFocused := true, recommendedFocused := false)
    else if a.currentSection == 3 then a.(navFocused := false, carouselFocused := false, appsFocused := false, recommendedFocused := true)
    else a
  }

  /** The `onFocusChange` callback handed to the region of section `k`. */
  function AfterFocusChange(a: Arbiter, k: int, focused: bool): Arbiter {
    if k == 0 then a.(navFocused := focused)
    else if k == 1 then a.(carouselFocused := focused)
    else if k == 2 then a.(appsFocused := focused)
    else if k == 3 then a.(recommendedFocused := focused)
    else a
  }

  /** The nav bar's `onAIClick` callback. */
  function AfterOpenAI(a: Arbiter): Arbiter {
    a.(isAIOpen := true)
  }

  /** The overlay's `onClose` callback. */
  function AfterCloseAI(a: Arbiter): Arbiter {
    a.(isAIOpen := false)
  }

  /** The page after a sequence of key presses, oldest first. */
  function AfterKeys(a: Arbiter, keys: seq<Key>): Arbiter {
    if keys == [] then a else AfterKey(AfterKeys(a, keys[..|keys| - 1]), keys[|keys| - 1])
  }

  lemma InitialState()
    ensures InRange(Initial()) && !Initial().isAIOpen && Initial().currentSection == 0
    ensures FlagCount(Initial()) == 0
  {
  }

  /** One key press keeps the section within 0..3, moves it by at most one,
      and any actual move clears all four flags and leaves the overlay alone. */
  lemma KeyStep(a: Arbiter, key: Key)
    requires InRange(a)
    ensures InRange(AfterKey(a, key))
    ensures AfterKey(a, key).isAIOpen == a.isAIOpen
    ensures -1 <= AfterKey(a, key).currentSection - a.currentSection <= 1
    ensures AfterKey(a, key).currentSection != a.currentSection ==> FlagCount(AfterKey(a, key)) == 0
    ensures AfterKey(a, key).currentSection == a.currentSection ==> AfterKey(a, key) == a
  {
  }

  /** Under any sequence of key presses the section stays within 0..3. */
  lemma {:induction false} KeysStayInRange(a: Arbiter, keys: seq<Key>)
    requires InRange(a)
    ensures InRange(AfterKeys(a, keys))
    ensures AfterKeys(a, keys).isAIOpen == a.isAIOpen
  {
    if keys != [] {
      KeysStayInRange(a, keys[..|keys| - 1]);
      KeyStep(AfterKeys(a, keys[..|keys| - 1]), keys[|keys| - 1]);
    }
  }

  /** Each key press moves the section by at most one, so after a run of key
      presses it lies within |keys| of where it started. */
  lemma {:induction false} KeysMoveAtMostOnePerPress(a: Arbiter, keys: seq<Key>)
    requires InRange(a)
    ensures a.currentSection - |keys| <= AfterKeys(a, keys).currentSection <= a.currentSection + |keys|
  {
    if keys != [] {
      KeysMoveAtMostOnePerPress(a, keys[..|keys| - 1]);
      KeysStayInRange(a, keys[..|keys| - 1]);
      KeyStep(AfterKeys(a, keys[..|keys| - 1]), keys[|keys| - 1]);
    }
  }

  /** ArrowDown at the bottom and ArrowUp at the top leave everything unchanged. */
  lemma EdgesAreNoOps(a: Arbiter)
    ensures a.currentSection == LastSection ==> AfterKey(a, ArrowDown) == a
    ensures a.currentSection == 0 ==> AfterKey(a, ArrowUp) == a
  {
  }

  /** Below the bottom, ArrowDown moves exactly one section down and clears
      every flag; above the top, ArrowUp moves exactly one up. */
  lemma ArrowsMoveWhenEnabled(a: Arbiter)
    requires InRange(a) && !a.isAIOpen
    ensures a.currentSection < LastSection ==>
      AfterKey(a, ArrowDown).currentSection == a.currentSection + 1 && FlagCount(AfterKey(a, ArrowDown)) == 0
    ensures a.currentSection > 0 ==>
      AfterKey(a, ArrowUp).currentSection == a.currentSection - 1 && FlagCount(AfterKey(a, ArrowUp)) == 0
  {
  }

  /** While the overlay is open no sequence of key presses changes the page. */
  lemma {:induction false} OverlayFreezesSections(a: Arbiter, keys: seq<Key>)
    requires a.isAIOpen
    ensures AfterKeys(a, keys) == a
  {
    if keys != [] {
      OverlayFreezesSections(a, keys[..|keys| - 1]);
    }
  }

  /** After the settle step exactly one flag is set: the current section's. */
  lemma SettleFocusesExactlyOne(a: Arbiter)
    requires InRange(a)
    ensures FlagCount(AfterSettle(a)) == 1
    ensures forall k :: 0 <= k <= LastSection ==> (FocusFlag(AfterSettle(a), k) <==> k == a.currentSection)
    ensures AfterSettle(a).currentSection == a.currentSection && AfterSettle(a).isAIOpen == a.isAIOpen
  {
  }

  /** Exactly one region receives `isFocused = true`, the current section's. */
  lemma {:induction false} ExactlyOneRegionFocused(a: Arbiter)
    requires InRange(a)
    ensures FocusedRegionCount(a, LastSection + 1) == 1
    ensures forall k :: 0 <= k <= LastSection ==> (RegionIsFocused(a, k) <==> k == a.currentSection)
  {
    assert FocusedRegionCount(a, 0) == 0;
    assert FocusedRegionCount(a, 1) == (if a.currentSection == 0 then 1 else 0);
    assert FocusedRegionCount(a, 2) == (if a.currentSection <= 1 then 1 else 0);
    assert FocusedRegionCount(a, 3) == (if a.currentSection <= 2 then 1 else 0);
  }

  /** Opening and closing the overlay toggle only `isAIOpen`: the section and
      the flags survive, and the arbitrator resumes where it was. */
  lemma OverlayTogglesOnlyItsFlag(a: Arbiter)
    ensures AfterOpenAI(a).isAIOpen && !AfterCloseAI(a).isAIOpen
    ensures AfterCloseAI(AfterOpenAI(a)) == a.(isAIOpen := false)
    ensures AfterOpenAI(a).currentSection == a.currentSection == AfterCloseAI(a).currentSection
    ensures forall k :: FocusFlag(AfterOpenAI(a), k) == FocusFlag(a, k) == FocusFlag(AfterCloseAI(a), k)
  {
  }

  /** The page as an object whose key handlers and effects update its fields. */
  class Index {
    var isAIOpen: bool
    var currentSection: int
    var navFocused: bool
    var carouselFocused: bool
    var appsFocused: bool
    var recommendedFocused: bool

    function State(): Arbiter
      reads this
    {
      Arbiter(isAIOpen, currentSection, navFocused, carouselFocused, appsFocused, recommendedFocused)
    }

    predicate Valid()
      reads this
    {
      InRange(State())
    }

    constructor ()
      ensures Valid() && State() == Initial()
      ensures !isAIOpen && currentSection == 0
      ensures !navFocused && !carouselFocused && !appsFocused && !recommendedFocused
    {
      isAIOpen := false;
      currentSection := 0;
      navFocused, carouselFocused, appsFocused, recommendedFocused := false, false, false, false;
    }

    /** A key press through the page's configuration (`disabled: isAIOpen`). */
    method OnKey(key: Key)
      requires Valid()
      modifies this
      ensures Valid() && State() == AfterKey(old(State()), key)
    {
      if isAIOpen {
        return;
      }
      match key {
        case ArrowDown =>
          if currentSection < LastSection {
            currentSection := currentSection + 1;
            navFocused, carouselFocused, appsFocused, recommendedFocused := false, false, false, false;
          }
        case ArrowUp =>
          if currentSection > 0 {
            currentSection := currentSection - 1;
            navFocused, carouselFocused, appsFocused, recommendedFocused := false, false, false, false;
          }
        case _ =>
      }
    }

    /** The deferred focus effect on `currentSection` firing. */
    method Settle()
      requires Valid()
      modifies this
      ensures Valid() && State() == AfterSettle(old(State()))
      ensures FlagCount(State()) == 1 && FocusFlag(State(), currentSection)
    {
      SettleFocusesExactlyOne(State());
      if currentSection == 0 {
        navFocused, carouselFocused, appsFocused, recommendedFocused := true, false, false, false;
      } else if currentSection == 1 {
        navFocused, carouselFocused, appsFocused, recommendedFocused := false, true, false, false;
      } else if currentSection == 2 {
        navFocused, carouselFocused, appsFocused, recommendedFocused := false, false, true, false;
      } else if currentSection == 3 {
        navFocused, carouselFocused, appsFocused, recommendedFocused := false, false, false, true;
      }
    }

    /** The `onFocusChange` callback of the region of section `k`. */
    method OnFocusChange(k: int, focused: bool)
      requires Valid()
      modifies this
      ensures Valid() && State() == AfterFocusChange(old(State()), k, focused)
    {
      if k == 0 {
        navFocused := focused;
      } else if k == 1 {
        carouselFocused := focused;
      } else if k == 2 {
        appsFocused := focused;
      } else if k == 3 {
        recommendedFocused := focused;
      }
    }

    /** `onAIClick` handed to the nav bar. */
    method OpenAI()
      requires Valid()
      modifies this
      ensures Valid() && State() == AfterOpenAI(old(State()))
    {
      isAIOpen := true;
    }

    /** `onClose` handed to the overlay. */
    method CloseAI()
      requires Valid()
      modifies this
      ensures Valid() && State() == AfterCloseAI(old(State()))
    {
      isAIOpen := false;
    }
  }
}
