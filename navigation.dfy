/** The top navigation bar (src/components/tv-navigation.tsx): four tab
    buttons followed by the AI button, a cursor `focusedIndex` over them, the
    selected `activeTab`, and `isFocused`, which gates every key handler. */
module Navigation {
  import opened Keys

  datatype NavItem = NavItem(id: string, labelText: string, active: bool)

  const NavItems: seq<NavItem> := [
    NavItem("home", "Home", true),
    NavItem("library", "Library", false),
    NavItem("apps", "Apps", false),
    NavItem("settings", "Settings", false)
  ]

  /** What a slot of `buttonRefs` holds once the bar has rendered. */
  datatype ButtonRef = TabButton(item: int) | AIButton

  /** `buttonRefs` after rendering: one tab button per nav item, then the AI
      button, registered at index `|NavItems|`. */
  function MountedRefs(): seq<ButtonRef> {
    seq(|NavItems|, i => TabButton(i)) + [AIButton]
  }

  predicate IsNavId(id: string) {
    exists i :: 0 <= i < |NavItems| && NavItems[i].id == id
  }

  datatype NavState = NavState(
    activeTab: string,
    focusedIndex: int,
    isFocused: bool,
    propIsFocused: bool,     // the `isFocused` prop the effect last saw
    buttonRefs: seq<ButtonRef>,
    aiClicks: nat)           // calls of the `onAIClick` callback

  /** The index of the last registered button. */
  function LastIndex(s: NavState): int {
    |s.buttonRefs| - 1
  }

  /** The bar's invariant: all buttons registered, the cursor on one of
      them, and the active tab one of the nav items' ids. */
  predicate Consistent(s: NavState) {
    s.buttonRefs == MountedRefs() && 0 <= s.focusedIndex <= LastIndex(s) && IsNavId(s.activeTab)
  }

  function Max(a: int, b: int): int { if a < b then b else a }
  function Min(a: int, b: int): int { if a < b then a else b }

  /** `handleFocus(index)`, run when button `index` gains host focus. */
  function AfterFocus(s: NavState, index: int): NavState {
    s.(focusedIndex := index, isFocused := true)
  }

  /** `buttonRefs.current[index]?.focus()`: focuses the button, if registered. */
  function AfterFocusButton(s: NavState, index: int): NavState {
    if 0 <= index < |s.buttonRefs| then AfterFocus(s, index) else s
  }

  function AfterArrowLeft(s: NavState): NavState {
    if !s.isFocused then s
    else
      var newIndex := Max(0, s.focusedIndex - 1);
      AfterFocusButton(s.(focusedIndex := newIndex), newIndex)
  }

  function AfterArrowRight(s: NavState): NavState {
    if !s.isFocused then s
    else
      var newIndex := Min(|s.buttonRefs| - 1, s.focusedIndex + 1);
      AfterFocusButton(s.(focusedIndex := newIndex), newIndex)
  }

  /** Enter on the last button calls `onAIClick`; on a tab button it selects
      that tab; `navItems[focusedIndex]?.id` is undefined elsewhere. */
  function AfterEnter(s: NavState): NavState {
    if !s.isFocused then s
    else if s.focusedIndex == |s.buttonRefs| - 1 then s.(aiClicks := s.aiClicks + 1)
    else if 0 <= s.focusedIndex < |NavItems| then s.(activeTab := NavItems[s.focusedIndex].id)
    else s
  }

  /** A key press through the bar's configuration (`disabled: false`). */
  function AfterKey(s: NavState, key: Key): NavState {
    match key
    case ArrowLeft => AfterArrowLeft(s)
    case ArrowRight => AfterArrowRight(s)
    case Enter => AfterEnter(s)
    case _ => s
  }

  /** `handleTabClick(tabId, index)`. */
  function AfterTabClick(s: NavState, tabId: string, index: int): NavState {
    s.(activeTab := tabId, focusedIndex := index, isFocused := true)
  }

  /** A click on the AI button calls `onAIClick`. */
  function AfterAIButtonClick(s: NavState): NavState {
    s.(aiClicks := s.aiClicks + 1)
  }

  /** `handleBlur`'s delayed check: the bar loses focus unless host focus
      has landed on one of its buttons. */
  function AfterBlurCheck(s: NavState, focusOnNavButton: bool): NavState {
    if focusOnNavButton then s else s.(isFocused := false)
  }

  /** The effect on the `isFocused` prop: when set, focus button 0 (which
      runs `handleFocus(0)`) and set `isFocused`; when cleared, clear it. */
  function PropEffect(s: NavState): NavState {
    if s.propIsFocused && |s.buttonRefs| > 0 then AfterFocusButton(s, 0).(isFocused := true)
    else if !s.propIsFocused then s.(isFocused := false)
    else s
  }

  /** The parent changing the `isFocused` prop; the effect runs only on a change. */
  function AfterPropChange(s: NavState, prop: bool): NavState {
    if prop == s.propIsFocused then s else PropEffect(s.(propIsFocused := prop))
  }

  /** The bar right after mounting: initial state, then the prop effect. */
  function Mounted(prop: bool): NavState {
    PropEffect(NavState("home", 0, false, prop, MountedRefs(), 0))
  }

  /** Everything that can happen to the bar. A click names a rendered tab. */
  datatype NavEvent =
    | KeyPressed(key: Key)
    | TabClicked(index: int)
    | AIButtonClicked
    | ButtonFocused(index: int)
    | BlurChecked(focusOnNavButton: bool)
    | PropChanged(prop: bool)

  predicate Possible(e: NavEvent) {
    && (e.TabClicked? ==> 0 <= e.index < |NavItems|)
    && (e.ButtonFocused? ==> 0 <= e.index <= |NavItems|)
  }

  function AfterEvent(s: NavState, e: NavEvent): NavState
    requires Possible(e)
  {
    match e
    case KeyPressed(key) => AfterKey(s, key)
    case TabClicked(i) => AfterTabClick(s, NavItems[i].id, i)
    case AIButtonClicked => AfterAIButtonClick(s)
    case ButtonFocused(i) => AfterFocus(s, i)
    case BlurChecked(b) => AfterBlurCheck(s, b)
    case PropChanged(p) => AfterPropChange(s, p)
  }

  function AfterEvents(s: NavState, es: seq<NavEvent>): NavState
    requires forall i :: 0 <= i < |es| ==> Possible(es[i])
  {
    if es == [] then s else AfterEvent(AfterEvents(s, es[..|es| - 1]), es[|es| - 1])
  }

  /** n presses of ArrowRight. */
  function AfterRights(s: NavState, n: nat): NavState {
    if n == 0 then s else AfterArrowRight(AfterRights(s, n - 1))
  }

  /** The AI button is the last slot, right after the four tab buttons. */
  lemma AIButtonIsLast()
    ensures |MountedRefs()| == |NavItems| + 1 == 5
    ensures MountedRefs()[|NavItems|] == AIButton
    ensures forall i :: 0 <= i < |NavItems| ==> MountedRefs()[i] == TabButton(i)
  {
  }

  lemma MountedIsValid(prop: bool)
    ensures Consistent(Mounted(prop))
    ensures Mounted(prop).activeTab == "home" && Mounted(prop).focusedIndex == 0
    ensures Mounted(prop).isFocused == prop
  {
    assert NavItems[0].id == "home";
  }

  /** Every event keeps the cursor within 0..4 and the active tab a nav id. */
  lemma EventKeepsValid(s: NavState, e: NavEvent)
    requires Consistent(s) && Possible(e)
    ensures Consistent(AfterEvent(s, e))
  {
    AIButtonIsLast();
    match e
    case KeyPressed(Enter) =>
      if s.isFocused && s.focusedIndex != LastIndex(s) {
        assert NavItems[s.focusedIndex].id == AfterEvent(s, e).activeTab;
      }
    case TabClicked(i) =>
      assert NavItems[i].id == AfterEvent(s, e).activeTab;
    case _ =>
  }

  /** Under any sequence of events the bar stays valid; in particular
      `focusedIndex` stays within [0, |NavItems|]. */
  lemma {:induction false} EventsKeepValid(s: NavState, es: seq<NavEvent>)
    requires Consistent(s)
    requires forall i :: 0 <= i < |es| ==> Possible(es[i])
    ensures Consistent(AfterEvents(s, es))
    ensures 0 <= AfterEvents(s, es).focusedIndex <= |NavItems|
  {
    if es != [] {
      EventsKeepValid(s, es[..|es| - 1]);
      EventKeepsValid(AfterEvents(s, es[..|es| - 1]), es[|es| - 1]);
    }
    AIButtonIsLast();
  }

  /** The cursor saturates: ArrowLeft at 0 and ArrowRight at the AI slot
      change nothing. */
  lemma EdgesAreNoOps(s: NavState)
    requires Consistent(s)
    ensures s.focusedIndex == 0 ==> AfterKey(s, ArrowLeft) == s
    ensures s.focusedIndex == |NavItems| ==> AfterKey(s, ArrowRight) == s
  {
    AIButtonIsLast();
  }

  /** With the bar unfocused no key changes anything. */
  lemma UnfocusedIgnoresKeys(s: NavState, key: Key)
    requires !s.isFocused
    ensures AfterKey(s, key) == s
  {
  }

  /** n ArrowRight presses from cursor i land on min(i + n, last). */
  lemma {:induction false} RightsSaturate(s: NavState, n: nat)
    requires Consistent(s) && s.isFocused
    ensures AfterRights(s, n) == s.(focusedIndex := Min(s.focusedIndex + n, LastIndex(s)))
  {
    AIButtonIsLast();
    if n > 0 {
      RightsSaturate(s, n - 1);
    }
  }

  /** Five ArrowRight presses from the first tab reach the AI button. */
  lemma FiveRightsReachAI(s: NavState)
    requires Consistent(s) && s.isFocused && s.focusedIndex == 0
    ensures AfterRights(s, 5).focusedIndex == |NavItems|
    ensures AfterRights(s, 5).buttonRefs == MountedRefs()
    ensures AfterRights(s, 5).buttonRefs[AfterRights(s, 5).focusedIndex] == AIButton
  {
    RightsSaturate(s, 5);
    AIButtonIsLast();
  }

  /** Enter on the AI slot calls `onAIClick` and keeps the tab; Enter on a
      tab slot selects that tab and calls nothing. */
  lemma EnterActs(s: NavState)
    requires Consistent(s) && s.isFocused
    ensures s.focusedIndex == |NavItems| ==>
      AfterKey(s, Enter) == s.(aiClicks := s.aiClicks + 1)
    ensures s.focusedIndex < |NavItems| ==>
      AfterKey(s, Enter) == s.(activeTab := NavItems[s.focusedIndex].id)
  {
    AIButtonIsLast();
  }

  /** Losing the prop clears `isFocused` and keeps the cursor; gaining it
      focuses button 0, so the cursor restarts at the first tab instead of
      being remembered. A prop that does not change runs no effect. */
  lemma PropResetsCursor(s: NavState)
    requires Consistent(s)
    ensures s.propIsFocused ==> !AfterPropChange(s, false).isFocused
    ensures AfterPropChange(s, false).focusedIndex == s.focusedIndex
    ensures AfterPropChange(s, s.propIsFocused) == s
    ensures !s.propIsFocused ==>
      AfterPropChange(s, true).isFocused && AfterPropChange(s, true).focusedIndex == 0
    ensures AfterPropChange(s, true).activeTab == s.activeTab
  {
  }

  /** The bar as an object whose handlers update its fields. */
  class TVNavigation {
    var activeTab: string
    var focusedIndex: int
    var isFocused: bool
    var propIsFocused: bool
    var buttonRefs: seq<ButtonRef>
    ghost var aiClicks: nat

    ghost function State(): NavState
      reads this
    {
      NavState(activeTab, focusedIndex, isFocused, propIsFocused, buttonRefs, aiClicks)
    }

    ghost predicate Valid()
      reads this
    {
      Consistent(State())
    }

    /** Mounting: render registers a ref per nav item and then the AI
        button's at `|NavItems|`; the prop effect runs once. */
    constructor (prop: bool)
      ensures Valid() && State() == Mounted(prop)
    {
      var refs: seq<ButtonRef> := [];
      for i := 0 to |NavItems|
        invariant refs == seq(i, j => TabButton(j))
      {
        refs := refs + [TabButton(i)];
      }
      refs := refs + [AIButton];
      activeTab, focusedIndex, isFocused, propIsFocused, buttonRefs, aiClicks := "home", 0, false, prop, refs, 0;
      new;
      if propIsFocused && |buttonRefs| > 0 {
        focusedIndex, isFocused := 0, true;
      } else if !propIsFocused {
        isFocused := false;
      }
      MountedIsValid(prop);
    }

    method FocusButton(index: int)
      requires Valid()
      modifies this
      ensures Valid() && State() == AfterFocusButton(old(State()), index)
    {
      if 0 <= index < |buttonRefs| {
        focusedIndex, isFocused := index, true;
      }
    }

    /** A key press through the bar's configuration. */
    method OnKey(key: Key)
      requires Valid()
      modifies this
      ensures Valid() && State() == AfterKey(old(State()), key)
    {
      ghost var s := State();
      match key {
        case ArrowLeft =>
          if !isFocused { return; }
          var newIndex := Max(0, focusedIndex - 1);
          focusedIndex := newIndex;
          FocusButton(newIndex);
        case ArrowRight =>
          if !isFocused { return; }
          var newIndex := Min(|buttonRefs| - 1, focusedIndex + 1);
          focusedIndex := newIndex;
          FocusButton(newIndex);
        case Enter =>
          if !isFocused { return; }
          if focusedIndex == |buttonRefs| - 1 {
            aiClicks := aiClicks + 1;
          } else if 0 <= focusedIndex < |NavItems| {
            activeTab := NavItems[focusedIndex].id;
          }
        case _ =>
      }
      EventKeepsValid(s, KeyPressed(key));
    }

    method HandleTabClick(tabId: string, index: int)
      requires Valid() && 0 <= index < |NavItems| && tabId == NavItems[index].id
      modifies this
      ensures Valid() && State() == AfterTabClick(old(State()), tabId, index)
    {
      ghost var s := State();
      activeTab := tabId;
      focusedIndex := index;
      isFocused := true;
      EventKeepsValid(s, TabClicked(index));
    }

    /** `handleFocus(index)`: button `index` gained host focus. */
    method HandleFocus(index: int)
      requires Valid() && 0 <= index <= |NavItems|
      modifies this
      ensures Valid() && State() == AfterFocus(old(State()), index)
    {
      ghost var s := State();
      focusedIndex, isFocused := index, true;
      EventKeepsValid(s, ButtonFocused(index));
    }

    method ClickAIButton()
      requires Valid()
      modifies this
      ensures Valid() && State() == AfterAIButtonClick(old(State()))
    {
      aiClicks := aiClicks + 1;
    }

    method HandleBlur(focusOnNavButton: bool)
      requires Valid()
      modifies this
      ensures Valid() && State() == AfterBlurCheck(old(State()), focusOnNavButton)
    {
      if !focusOnNavButton {
        isFocused := false;
      }
    }

    method SetPropIsFocused(prop: bool)
      requires Valid()
      modifies this
      ensures Valid() && State() == AfterPropChange(old(State()), prop)
    {
      ghost var s := State();
      if prop == propIsFocused {
        return;
      }
      propIsFocused := prop;
      if propIsFocused && |buttonRefs| > 0 {
        FocusButton(0);
        isFocused := true;
      } else if !propIsFocused {
        isFocused := false;
      }
      EventKeepsValid(s, PropChanged(prop));
    }
  }
}
