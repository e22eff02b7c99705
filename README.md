# TV home screen navigation: a Dafny model

This project models the navigation core of a TV-style (d-pad) media home
screen. The rendered page is React. Under it sit four small state machines
that the key handlers and effects change one step at a time:

- **Section arbitrator** (`src/pages/Index.tsx`): `currentSection` picks
  which of the four stacked regions owns the vertical arrows. The regions are
  0 nav bar, 1 hero carousel, 2 app grid and 3 recommended row. Four focus
  flags mirror the regions. `isAIOpen` disables the arbitrator while the
  voice overlay is open.
- **Nav bar** (`src/components/tv-navigation.tsx`): a saturating cursor
  `focusedIndex` over four tab buttons plus a trailing AI button. It also
  holds the selected `activeTab` and an `isFocused` flag that gates every
  key handler.
- **Hero carousel** (`src/components/hero-carousel.tsx`): a cyclic slide
  index over three slides. It moves on arrow keys while focused, on chevron
  and indicator clicks, and on an autoplay interval. The interval exists only
  while the carousel is neither hovered nor focused.
- **Voice overlay** (`src/components/ai-overlay.tsx`): recording
  start/stop/reset and close. It holds at most one live-audio session object.

Each component is one module. The module has a value-level state datatype and
pure step functions (`AfterKey`, `AfterClose`, …), which are the
specification. A class with the component's own fields has one method per
handler or effect. Each method is proved to move the object's `State()`
exactly as the step function says (`ensures State() == AfterX(old(State()))`)
and to keep the component's invariant. Lemmas about the step functions state
the properties, both for single steps and for any sequence of events
(`AfterEvents`, `AfterKeys`).

The live-audio session is abstract. A `LiveSession` object has only a ghost
`alive` flag, and every call on it requires `alive`. The overlay keeps a
ghost log `calls` of the calls it makes on sessions. `Replay` reads that log
as a small automaton: no session, live, or misused. The overlay's invariant
says the log never reaches "misused". So no call ever reaches a destroyed or
missing session, and no second session is built while one is live.
`ConstructDestroyBalance` turns this into counts: every session except the
live one was destroyed exactly once.

Key delivery is a direct method call. A configuration whose `disabled` flag
is set does not receive the key. Callbacks to the parent (`onAIClick`,
`onClose`) are counted in the component's state (`aiClicks`, `closeCalls`).

Where the code differs from what a reader of the design might expect, the
model follows the code:

- When the nav bar regains section focus it focuses button 0, which runs
  `handleFocus(0)`. So the cursor restarts at the first tab instead of being
  remembered (`Navigation.PropResetsCursor`).
- `handleClose` destroys the session without calling `stopRecording` first,
  even while recording (`Overlay.CloseWhileRecordingSkipsStop`).
- `handleClose` resets `status` and `error` only when a session is present.
  With no session it only calls `onClose` (`Overlay.CloseWithoutSessionKeepsText`).
- `resetSession` has no recording guard. Only the reset button is disabled
  while recording (`Overlay.AIOverlay.Click`).
- Setting `isOpen` to true while it is already true runs no effect. So after
  `handleClose` and before the parent closes the overlay, it stays open with
  no session (`Overlay.OpenBuildsAtMostOnce` promises a session only when
  opening from closed).
- Only the page's key configuration is gated by the overlay (`disabled:
  isAIOpen`). The nav bar and the carousel register theirs with `disabled:
  false`. So while the overlay is open, a focused nav bar still moves its
  cursor on ArrowLeft/ArrowRight and still sets `activeTab` on Enter, and a
  focused carousel still changes slide, behind the overlay
  (`Navigation.AfterKey` and `Carousel.AfterKey` have no overlay gate).

## Model

| member | source | states |
|---|---|---|
| SectionArbiter.InitialState | src/pages/Index.tsx:10-15 | The page starts at section 0 with the overlay closed and all four focus flags false. |
| SectionArbiter.KeyStep | src/pages/Index.tsx:19-40 | One key press keeps the section in [0, 3] and moves it by at most one. Any actual move clears all four flags. No move means no change at all. `isAIOpen` is never touched. |
| SectionArbiter.KeysStayInRange | src/pages/Index.tsx:19-38 | Under any sequence of key presses, `currentSection` stays within [0, 3]. |
| SectionArbiter.KeysMoveAtMostOnePerPress | src/pages/Index.tsx:20-21 | After n key presses the section is within n of where it started. |
| SectionArbiter.EdgesAreNoOps | src/pages/Index.tsx:20-30 | ArrowDown at section 3 and ArrowUp at section 0 leave the whole state unchanged (saturation). |
| SectionArbiter.ArrowsMoveWhenEnabled | src/pages/Index.tsx:19-38 | With the overlay closed, ArrowDown below the bottom moves exactly one section down and clears every flag. ArrowUp above the top moves exactly one up. |
| SectionArbiter.OverlayFreezesSections | src/pages/Index.tsx:40 | While `isAIOpen` is true, no sequence of key presses changes any part of the page state. |
| SectionArbiter.SettleFocusesExactlyOne | src/pages/Index.tsx:44-71 | After the settle step exactly one flag is true, the one indexed by `currentSection`. The section and `isAIOpen` are unchanged. |
| SectionArbiter.ExactlyOneRegionFocused | src/pages/Index.tsx:84-103 | Exactly one of the four regions receives `isFocused = true`, region k exactly when `currentSection == k`. |
| SectionArbiter.OverlayTogglesOnlyItsFlag | src/pages/Index.tsx:82-111 | `onAIClick` sets and `onClose` clears `isAIOpen`. Neither touches the section or the flags, so closing after opening restores the page. |
| SectionArbiter.Index.constructor | src/pages/Index.tsx:10-15 | The object starts at section 0, overlay closed, all flags false. |
| SectionArbiter.Index.OnKey | src/pages/Index.tsx:18-41 | The ArrowUp/ArrowDown handlers behind the `disabled: isAIOpen` gate move the object as `AfterKey` does and keep the section in range. |
| SectionArbiter.Index.Settle | src/pages/Index.tsx:44-74 | The deferred effect leaves exactly one flag set, the current section's. |
| SectionArbiter.Index.OnFocusChange | src/pages/Index.tsx:83-104 | A region's `onFocusChange` callback sets only that region's flag. |
| SectionArbiter.Index.OpenAI | src/pages/Index.tsx:82 | `onAIClick` sets `isAIOpen` and nothing else. |
| SectionArbiter.Index.CloseAI | src/pages/Index.tsx:111 | `onClose` clears `isAIOpen` and nothing else. |
| Navigation.AIButtonIsLast | src/components/tv-navigation.tsx:95-133 | After render there are five refs: the tab buttons at 0..3 and the AI button at index `navItems.length` = 4, the last slot. |
| Navigation.MountedIsValid | src/components/tv-navigation.tsx:21-35 | On mount the tab is "home" and the cursor is 0. The prop effect makes `isFocused` equal to the prop. |
| Navigation.EventKeepsValid | src/components/tv-navigation.tsx:41-75 | Every key, click, focus, blur and prop event keeps `focusedIndex` in [0, 4] and `activeTab` one of the four nav ids. |
| Navigation.EventsKeepValid | src/components/tv-navigation.tsx:44-50 | Under any sequence of events `focusedIndex` stays within [0, navItems.length]. |
| Navigation.EdgesAreNoOps | src/components/tv-navigation.tsx:44-50 | ArrowLeft at 0 and ArrowRight at 4 change nothing (saturating, not wrapping). |
| Navigation.UnfocusedIgnoresKeys | src/components/tv-navigation.tsx:43-55 | With `isFocused` false, ArrowLeft, ArrowRight and Enter change nothing. |
| Navigation.RightsSaturate | src/components/tv-navigation.tsx:48-52 | n ArrowRight presses from cursor i land on min(i + n, 4), with nothing else changed. |
| Navigation.FiveRightsReachAI | src/components/tv-navigation.tsx:50-133 | Five ArrowRight presses from 0 land on 4, the AI button's slot. |
| Navigation.EnterActs | src/components/tv-navigation.tsx:54-61 | Enter on the last slot calls `onAIClick` once and keeps `activeTab`. Enter on slot i < 4 sets `activeTab` to `navItems[i].id` and calls nothing. |
| Navigation.PropResetsCursor | src/components/tv-navigation.tsx:28-35 | The prop turning false clears `isFocused` and keeps the cursor. The prop turning true sets `isFocused` and resets `focusedIndex` to 0 through `handleFocus(0)` (line 106). An unchanged prop runs no effect. |
| Navigation.TVNavigation.constructor | src/components/tv-navigation.tsx:21-35 | Rendering registers one ref per nav item, then the AI ref at `navItems.length`. The mount effect then runs, giving the `Mounted` state. |
| Navigation.TVNavigation.FocusButton | src/components/tv-navigation.tsx:46 | `buttonRefs.current[i]?.focus()` runs `handleFocus(i)` when button i is registered, and does nothing otherwise. |
| Navigation.TVNavigation.OnKey | src/components/tv-navigation.tsx:41-64 | The arrow and Enter handlers move the object as `AfterKey` does and keep the bar's invariant. |
| Navigation.TVNavigation.HandleTabClick | src/components/tv-navigation.tsx:66-70 | A tab click sets `activeTab = id`, `focusedIndex = i` and `isFocused = true` together. |
| Navigation.TVNavigation.HandleFocus | src/components/tv-navigation.tsx:72-75 | Host focus on button i sets the cursor to i and `isFocused`. |
| Navigation.TVNavigation.ClickAIButton | src/components/tv-navigation.tsx:134 | A click on the AI button calls `onAIClick`. |
| Navigation.TVNavigation.HandleBlur | src/components/tv-navigation.tsx:77-85 | The delayed blur check clears `isFocused` unless focus is on a nav button. |
| Navigation.TVNavigation.SetPropIsFocused | src/components/tv-navigation.tsx:28-35 | A change of the `isFocused` prop runs the effect, and the bar stays valid. |
| Carousel.JsRemainder | src/components/hero-carousel.tsx:57-61 | JavaScript's `%` is in [0, n) for a non-negative dividend and in (-n, 0] for a negative one. |
| Carousel.SlideStepsInRange | src/components/hero-carousel.tsx:56-62 | From any slide, `nextSlide` and `prevSlide` yield a slide in [0, 2]. They equal (i + 1) mod 3 and (i - 1) mod 3. |
| Carousel.SlideStepsWrap | src/components/hero-carousel.tsx:57-61 | From slide 2, next gives 0. From slide 0, prev gives 2. |
| Carousel.NextPrevInverse | src/components/hero-carousel.tsx:56-62 | `prevSlide` after `nextSlide` is the identity on slides, and so is the reverse order. |
| Carousel.StepsAreModular | src/components/hero-carousel.tsx:57-61 | k nexts from slide s give (s + k) mod 3. k prevs give (s - k) mod 3. |
| Carousel.MountedIsConsistent | src/components/hero-carousel.tsx:40-50 | On mount the slide is 0 and `isCarouselFocused` equals the prop. The invariant holds. |
| Carousel.EventKeepsConsistent | src/components/hero-carousel.tsx:64-90 | Every event keeps the slide in [0, 2]. An autoplay interval is scheduled exactly when the carousel is neither hovered nor focused. |
| Carousel.EventsKeepConsistent | src/components/hero-carousel.tsx:74-79 | The same holds under any sequence of events. |
| Carousel.ArrowsGatedByFocus | src/components/hero-carousel.tsx:64-72 | ArrowLeft and ArrowRight each change the state if and only if `isCarouselFocused`. When they do, they give (i - 1) mod 3 and (i + 1) mod 3. |
| Carousel.AutoplayOnlyWhenIdle | src/components/hero-carousel.tsx:74-79 | A tick changes the slide if and only if `!isHovered && !isCarouselFocused`. When it does, the change is `nextSlide`. |
| Carousel.PropOnlyEverFocuses | src/components/hero-carousel.tsx:45-50 | The prop turning true sets `isCarouselFocused` and disarms autoplay. The prop turning false leaves the flag alone. Only a blur (line 90) clears it: every other possible event (tick, hover, key, click, prop change) keeps a focused carousel focused. |
| Carousel.HeroCarousel.constructor | src/components/hero-carousel.tsx:40-50 | Mounting gives the `Mounted` state. |
| Carousel.HeroCarousel.Next | src/components/hero-carousel.tsx:56-58 | `nextSlide` changes only the slide, to `NextSlide` of the old one, and keeps it in range. |
| Carousel.HeroCarousel.Prev | src/components/hero-carousel.tsx:60-62 | `prevSlide` changes only the slide, to `PrevSlide` of the old one, and keeps it in range. |
| Carousel.HeroCarousel.SyncAutoplay | src/components/hero-carousel.tsx:74-79 | The autoplay effect arms the interval exactly when the carousel is neither hovered nor focused. |
| Carousel.HeroCarousel.OnKey | src/components/hero-carousel.tsx:64-72 | The arrow handlers, gated on `isCarouselFocused`, move the object as `AfterKey` does. |
| Carousel.HeroCarousel.OnTick | src/components/hero-carousel.tsx:76 | The interval fires `nextSlide` only while armed. |
| Carousel.HeroCarousel.Hover | src/components/hero-carousel.tsx:87-88 | Mouse enter and leave set `isHovered` and re-run the autoplay effect. |
| Carousel.HeroCarousel.HostFocus | src/components/hero-carousel.tsx:89-90 | Container focus and blur set `isCarouselFocused` and re-run the autoplay effect. |
| Carousel.HeroCarousel.SetPropIsFocused | src/components/hero-carousel.tsx:45-50 | A change of the prop runs the focus effect, and the invariant holds. |
| Carousel.HeroCarousel.ClickIndicator | src/components/hero-carousel.tsx:188-197 | Clicking indicator i, a slide index, sets `currentSlide = i`. |
| Carousel.HeroCarousel.ClickChevron | src/components/hero-carousel.tsx:166-181 | The chevron buttons run `prevSlide`/`nextSlide` with no focus gate. |
| Overlay.ReplayAppend | src/components/ai-overlay.tsx:20 | Appending a call to the session log advances the phase by that one call and counts it once. |
| Overlay.ConstructDestroyBalance | src/components/ai-overlay.tsx:38-75 | A log that never misuses a session has as many constructions as destroys, plus one while a session is live. So each session is destroyed exactly once, and at most one session is live. |
| Overlay.MountedIsConsistent | src/components/ai-overlay.tsx:17-20 | Mounting starts with "Ready to speak", no error, not recording, and builds a session exactly when mounted open. |
| Overlay.ReleasedIsConsistent | src/components/ai-overlay.tsx:40-46 | Destroying the live session and dropping the reference keeps the log and the reference in step. |
| Overlay.EventKeepsConsistent | src/components/ai-overlay.tsx:23-87 | Every event keeps the reference non-null exactly when the log has a live session, and recording implies a session. So no call reaches a destroyed or missing session, and no second session is built. |
| Overlay.EventsKeepConsistent | src/components/ai-overlay.tsx:38-75 | Under any sequence of events, constructions = destroys + (1 if a session is held). |
| Overlay.OpenBuildsAtMostOnce | src/components/ai-overlay.tsx:59-64 | Opening twice without a close equals opening once. Opening from closed builds exactly one session. |
| Overlay.CloseTwiceDestroysOnce | src/components/ai-overlay.tsx:38-48 | `handleClose` destroys a present session and resets `isRecording`, `status` and `error`. It always calls `onClose`. A second call destroys nothing and only calls `onClose` again. |
| Overlay.CloseWithoutSessionKeepsText | src/components/ai-overlay.tsx:40-47 | With a null reference, `handleClose` only calls `onClose`. `status` and `error` are left as they were. |
| Overlay.CloseWhileRecordingSkipsStop | src/components/ai-overlay.tsx:40-42 | Closing while recording appends only a destroy to the log. No `stopRecording` call comes first. |
| Overlay.RecordingGuards | src/components/ai-overlay.tsx:23-36 | `startRecording` acts if and only if there is a session and no recording. It then clears `error`, starts, and sets `isRecording`. `stopRecording` acts if and only if recording. It then stops and clears `isRecording`. |
| Overlay.EnterToggles | src/components/ai-overlay.tsx:77-87 | While open with a session, Enter flips `isRecording` by a stop or a start call. While closed, no key changes anything. |
| Overlay.ResetKeepsSession | src/components/ai-overlay.tsx:50-56 | `resetSession` is a no-op without a session. Otherwise it issues a reset, clears `isRecording` and `error`, and builds or destroys nothing. |
| Overlay.ErrorShownInPlaceOfStatus | src/components/ai-overlay.tsx:62-182 | The displayed text is a non-empty `error`, else `status`. A session error leaves recording and the session alone. |
| Overlay.LiveSession.Destroy | src/components/ai-overlay.tsx:41 | Destroying a session ends it. Every session call requires a session that is not yet destroyed. |
| Overlay.AIOverlay.constructor | src/components/ai-overlay.tsx:17-64 | Mounting gives the `Mounted` state with a fresh session when open. |
| Overlay.AIOverlay.StartRecording | src/components/ai-overlay.tsx:23-29 | `startRecording` moves the object as `AfterStart` does and keeps the same session. |
| Overlay.AIOverlay.StopRecording | src/components/ai-overlay.tsx:31-36 | `stopRecording` moves the object as `AfterStop` does and keeps the same session. |
| Overlay.AIOverlay.Release | src/components/ai-overlay.tsx:40-46 | Destroys the held session, so it is no longer alive, nulls the reference and resets the display. |
| Overlay.AIOverlay.HandleClose | src/components/ai-overlay.tsx:38-48 | `handleClose` moves the object as `AfterClose` does. The destroy is guarded by the null check. |
| Overlay.AIOverlay.ResetSession | src/components/ai-overlay.tsx:50-56 | `resetSession` moves the object as `AfterReset` does and keeps the same session object. |
| Overlay.AIOverlay.SetIsOpen | src/components/ai-overlay.tsx:59-75 | A change of `isOpen` runs the previous effect's cleanup and then the effect. A new session is a fresh object. |
| Overlay.AIOverlay.RunOpenEffect | src/components/ai-overlay.tsx:59-64 | The effect builds a fresh session only when open and none is held. |
| Overlay.AIOverlay.OnStatusChange | src/components/ai-overlay.tsx:62 | The session's status callback sets `status` only. |
| Overlay.AIOverlay.OnError | src/components/ai-overlay.tsx:63 | The session's error callback sets `error` only. |
| Overlay.AIOverlay.Toggle | src/components/ai-overlay.tsx:79-85 | Stop when recording, else start. |
| Overlay.AIOverlay.OnKey | src/components/ai-overlay.tsx:77-87 | Escape closes and Enter toggles, both behind the `disabled: !isOpen` gate. |
| Overlay.AIOverlay.Click | src/components/ai-overlay.tsx:89-158 | Backdrop and close button close, the record button toggles, and the reset button is disabled while recording. Nothing is clickable while closed. |

## Left out

- JSX rendering, styling, tooltips, icons and the slide contents: presentation only. Of the slides, only their number, 3, is kept.
- The keyboard hook `useKeyboardNavigation` is not part of this model. A key press is a direct call of one component's handlers, and that configuration's `disabled` flag gates it. Several configurations receiving the same key (for example the nav bar and the carousel both seeing ArrowLeft) are not composed into one system.
- The wiring between components is modelled at each end, not as one composed object. This covers the `onFocusChange` reports into the page's flags (`Index.OnFocusChange`), the `isFocused` props (`RegionIsFocused`), and `onAIClick`/`onClose` (`aiClicks`, `closeCalls`, `Index.OpenAI`, `Index.CloseAI`).
- React's render scheduling is not modelled. Each handler runs atomically on the latest state, so stale closures seen by two key presses before a re-render are not modelled.
- Timers are not modelled in time: the 100 ms settle timeout, the 10 ms blur check and the 6000 ms autoplay interval are explicit steps (`Settle`, `HandleBlur`, `OnTick`). A cancelled settle timeout is simply a step that is not taken.
- Host focus is not modelled. `document.activeElement` and the native click fired by Enter on a focused button are outside the model. The blur check takes "focus is on a nav button" as a parameter. What causes host focus (mouse, pointer, the browser's own focus moves) is not modelled. Its effect on a button is, as the `ButtonFocused` event and `HandleFocus`.
- The `GeminiLiveAudio` internals (audio capture, transport, `@/lib/gemini-live-audio`) are not part of this model. The session is an object with a lifecycle flag, and its calls are logged. Its status and error callbacks are the methods `OnStatusChange` and `OnError`. A failing `startRecording` is not modelled, and the call is atomic (the `await` is dropped).
- The effect cleanup on unmount is not modelled: the page never unmounts the overlay.
- `AppGrid` and `ContentRow` are not part of this model. Only their `isFocused` props are modelled.
