/** The voice-assistant overlay (src/components/ai-overlay.tsx). While open it
    owns Enter (toggle recording) and Escape (close). It holds at most one
    live-audio session object, built by the open effect and torn down by
    `handleClose`. The session is abstract: only the calls made on it are
    recorded, in the ghost log `calls`. */
module Overlay {
  import opened Keys

  const ReadyText: string := "Ready to speak"

  /** A call the overlay makes on a session object. */
  datatype SessionCall = Construct | Start | Stop | Reset | Destroy

  /** Where a log of session calls leaves the session reference: empty, holding
      a live session, or misused (a call with no live session, or a second
      session built while one lives). */
  datatype Phase = NoSession | Live | Misused

  function NextPhase(p: Phase, c: SessionCall): Phase {
    match p
    case NoSession => if c == Construct then Live else Misused
    case Live => if c == Construct then Misused else if c == Destroy then NoSession else Live
    case Misused => Misused
  }

  function Replay(calls: seq<SessionCall>): Phase {
    if calls == [] then NoSession else NextPhase(Replay(calls[..|calls| - 1]), calls[|calls| - 1])
  }

  function Count(calls: seq<SessionCall>, c: SessionCall): nat {
    if calls == [] then 0
    else Count(calls[..|calls| - 1], c) + (if calls[|calls| - 1] == c then 1 else 0)
  }

  lemma ReplayAppend(calls: seq<SessionCall>, c: SessionCall)
    ensures Replay(calls + [c]) == NextPhase(Replay(calls), c)
    ensures Count(calls + [c], c) == Count(calls, c) + 1
    ensures forall d :: d != c ==> Count(calls + [d], c) == Count(calls, c)
  {
    assert (calls + [c])[..|calls|] == calls;
    forall d | d != c
      ensures Count(calls + [d], c) == Count(calls, c)
    {
      assert (calls + [d])[..|calls|] == calls;
    }
  }

  /** A log that never misuses the session has built exactly one more session
      than it destroyed while a session lives, and as many otherwise: every
      session but the live one was destroyed, and exactly once. */
  lemma {:induction false} ConstructDestroyBalance(calls: seq<SessionCall>)
    requires Replay(calls) != Misused
    ensures Count(calls, Construct) == Count(calls, Destroy) + (if Replay(calls) == Live then 1 else 0)
  {
    if calls != [] {
      var init := calls[..|calls| - 1];
      assert Replay(init) != Misused;
      ConstructDestroyBalance(init);
    }
  }

  datatype OverlayState = OverlayState(
    isOpen: bool,
    hasSession: bool,            // `geminiLiveRef.current` is not null
    isRecording: bool,
    status: string,
    error: string,
    calls: seq<SessionCall>,     // every call made on a session, oldest first
    closeCalls: nat)             // calls of the `onClose` callback

  /** The overlay's invariant: the reference holds a session exactly when the
      log leaves one live, and recording implies a session. */
  predicate Consistent(s: OverlayState) {
    Replay(s.calls) == (if s.hasSession then Live else NoSession) &&
    (s.isRecording ==> s.hasSession)
  }

  /** The text shown under the record button: `error || status`. */
  function DisplayText(s: OverlayState): string {
    if s.error != "" then s.error else s.status
  }

  /** Destroy the session, drop the reference, reset the display. */
  function Released(s: OverlayState): OverlayState {
    s.(hasSession := false, calls := s.calls + [Destroy], isRecording := false, status := ReadyText, error := "")
  }

  /** `startRecording`, taken as atomic. */
  function AfterStart(s: OverlayState): OverlayState {
    if !s.hasSession || s.isRecording then s
    else s.(error := "", calls := s.calls + [Start], isRecording := true)
  }

  /** `stopRecording`. */
  function AfterStop(s: OverlayState): OverlayState {
    if !s.hasSession || !s.isRecording then s
    else s.(calls := s.calls + [Stop], isRecording := false)
  }

  /** `handleClose`: release a present session, then always call `onClose`. */
  function AfterClose(s: OverlayState): OverlayState {
    var t := if s.hasSession then Released(s) else s;
    t.(closeCalls := t.closeCalls + 1)
  }

  /** `resetSession`. */
  function AfterReset(s: OverlayState): OverlayState {
    if !s.hasSession then s
    else s.(calls := s.calls + [Reset], isRecording := false, error := "")
  }

  /** The body of the effect on `isOpen`: build a session when open and none exists. */
  function OpenEffect(s: OverlayState): OverlayState {
    if s.isOpen && !s.hasSession then s.(hasSession := true, calls := s.calls + [Construct]) else s
  }

  /** The cleanup of the previous run of that effect, which sees the previous
      `isOpen`: it releases a session only if the overlay was closed. */
  function OpenCleanup(s: OverlayState, wasOpen: bool): OverlayState {
    if !wasOpen && s.hasSession then Released(s) else s
  }

  /** The parent changing the `isOpen` prop: cleanup, then the effect. */
  function AfterOpenChange(s: OverlayState, open: bool): OverlayState {
    if open == s.isOpen then s else OpenEffect(OpenCleanup(s, s.isOpen).(isOpen := open))
  }

  /** Mounting with the given `isOpen`. */
  function Mounted(open: bool): OverlayState {
    OpenEffect(OverlayState(open, false, false, ReadyText, "", [], 0))
  }

  /** The session's `onStatusChange` callback. */
  function AfterStatus(s: OverlayState, text: string): OverlayState {
    s.(status := text)
  }

  /** The session's `onError` callback. */
  function AfterError(s: OverlayState, text: string): OverlayState {
    s.(error := text)
  }

  /** Enter toggles recording. */
  function AfterToggle(s: OverlayState): OverlayState {
    if s.isRecording then AfterStop(s) else AfterStart(s)
  }

  /** A key press through the overlay's configuration (`disabled: !isOpen`). */
  function AfterKey(s: OverlayState, key: Key): OverlayState {
    if !s.isOpen then s
    else match key
      case Escape => AfterClose(s)
      case Enter => AfterToggle(s)
      case _ => s
  }

  /** The clickable parts of the open overlay. */
  datatype Control = Backdrop | ResetButton | CloseButton | RecordButton

  /** A click; nothing is rendered while closed, and the reset button is
      disabled while recording. */
  function AfterClick(s: OverlayState, c: Control): OverlayState {
    if !s.isOpen then s
    else match c
      case Backdrop => AfterClose(s)
      case CloseButton => AfterClose(s)
      case ResetButton => if s.isRecording then s else AfterReset(s)
      case RecordButton => AfterToggle(s)
  }

  datatype OverlayEvent =
    | OpenChanged(open: bool)
    | KeyPressed(key: Key)
    | Clicked(control: Control)
    | StatusReported(text: string)
    | ErrorReported(text: string)

  function AfterEvent(s: OverlayState, e: OverlayEvent): OverlayState {
    match e
    case OpenChanged(o) => AfterOpenChange(s, o)
    case KeyPressed(k) => AfterKey(s, k)
    case Clicked(c) => AfterClick(s, c)
    case StatusReported(t) => AfterStatus(s, t)
    case ErrorReported(t) => AfterError(s, t)
  }

  function AfterEvents(s: OverlayState, es: seq<OverlayEvent>): OverlayState {
    if es == [] then s else AfterEvent(AfterEvents(s, es[..|es| - 1]), es[|es| - 1])
  }

  lemma MountedIsConsistent(open: bool)
    ensures Consistent(Mounted(open))
    ensures Mounted(open).hasSession == open && Count(Mounted(open).calls, Construct) == (if open then 1 else 0)
    ensures !Mounted(open).isRecording && DisplayText(Mounted(open)) == ReadyText
  {
    ReplayAppend([], Construct);
  }

  lemma ReleasedIsConsistent(s: OverlayState)
    requires Consistent(s) && s.hasSession
    ensures Consistent(Released(s))
  {
    ReplayAppend(s.calls, Destroy);
  }

  /** Every event keeps the reference and the log in step: no call ever
      reaches a destroyed or missing session, and no second session is built
      while one lives. */
  lemma EventKeepsConsistent(s: OverlayState, e: OverlayEvent)
    requires Consistent(s)
    ensures Consistent(AfterEvent(s, e))
  {
    ReplayAppend(s.calls, Construct);
    ReplayAppend(s.calls, Start);
    ReplayAppend(s.calls, Stop);
    ReplayAppend(s.calls, Reset);
    ReplayAppend(s.calls, Destroy);
    if e.OpenChanged? && e.open != s.isOpen && !s.isOpen && s.hasSession {
      ReleasedIsConsistent(s);
      ReplayAppend(Released(s).calls, Construct);
    }
  }

  lemma {:induction false} EventsKeepConsistent(s: OverlayState, es: seq<OverlayEvent>)
    requires Consistent(s)
    ensures Consistent(AfterEvents(s, es))
    ensures Count(AfterEvents(s, es).calls, Construct) ==
            Count(AfterEvents(s, es).calls, Destroy) + (if AfterEvents(s, es).hasSession then 1 else 0)
  {
    if es != [] {
      EventsKeepConsistent(s, es[..|es| - 1]);
      EventKeepsConsistent(AfterEvents(s, es[..|es| - 1]), es[|es| - 1]);
    }
    ConstructDestroyBalance(AfterEvents(s, es).calls);
  }

  /** Opening builds a session only when none exists: opening again without a
      close changes nothing, so repeated opens build exactly one session. */
  lemma OpenBuildsAtMostOnce(s: OverlayState)
    requires Consistent(s)
    ensures AfterOpenChange(AfterOpenChange(s, true), true) == AfterOpenChange(s, true)
    ensures !s.isOpen ==> AfterOpenChange(s, true).hasSession
    ensures s.isOpen ==> AfterOpenChange(s, true) == s
    ensures !s.isOpen ==> Count(AfterOpenChange(s, true).calls, Construct) == Count(s.calls, Construct) + 1
  {
    ReplayAppend(s.calls, Construct);
    ReplayAppend(s.calls, Destroy);
    ReplayAppend(s.calls + [Destroy], Construct);
  }

  /** Closing releases a present session once, resets the display, and calls
      `onClose`; a second close finds no session and only calls `onClose` again. */
  lemma CloseTwiceDestroysOnce(s: OverlayState)
    requires Consistent(s)
    ensures !AfterClose(s).hasSession && AfterClose(s).closeCalls == s.closeCalls + 1
    ensures s.hasSession ==>
      AfterClose(s).calls == s.calls + [Destroy] && !AfterClose(s).isRecording &&
      AfterClose(s).status == ReadyText && AfterClose(s).error == "" && DisplayText(AfterClose(s)) == ReadyText
    ensures AfterClose(AfterClose(s)) == AfterClose(s).(closeCalls := s.closeCalls + 2)
    ensures Count(AfterClose(AfterClose(s)).calls, Destroy) == Count(s.calls, Destroy) + (if s.hasSession then 1 else 0)
  {
    ReplayAppend(s.calls, Destroy);
  }

  /** With no session, `handleClose` leaves status and error as they are. */
  lemma CloseWithoutSessionKeepsText(s: OverlayState)
    requires !s.hasSession
    ensures AfterClose(s) == s.(closeCalls := s.closeCalls + 1)
  {
  }

  /** Closing while recording destroys the session without a `stopRecording`
      call: the destroy follows the start directly in the log. */
  lemma CloseWhileRecordingSkipsStop(s: OverlayState)
    requires Consistent(s) && s.isRecording
    ensures AfterClose(s).calls == s.calls + [Destroy]
    ensures Count(AfterClose(s).calls, Stop) == Count(s.calls, Stop)
  {
    ReplayAppend(s.calls, Destroy);
  }

  /** The guards of `startRecording` and `stopRecording`. */
  lemma RecordingGuards(s: OverlayState)
    requires Consistent(s)
    ensures AfterStart(s) != s <==> s.hasSession && !s.isRecording
    ensures AfterStart(s) != s ==> AfterStart(s).isRecording && AfterStart(s).error == "" && AfterStart(s).calls == s.calls + [Start]
    ensures AfterStop(s) != s <==> s.isRecording
    ensures AfterStop(s) != s ==> !AfterStop(s).isRecording && AfterStop(s).calls == s.calls + [Stop]
  {
  }

  /** While open with a session, Enter flips `isRecording`; while closed, no
      key does anything. */
  lemma EnterToggles(s: OverlayState, key: Key)
    requires Consistent(s)
    ensures s.isOpen && s.hasSession ==> AfterKey(s, Enter).isRecording == !s.isRecording
    ensures s.isOpen && s.hasSession ==> AfterKey(s, Enter).calls == s.calls + [if s.isRecording then Stop else Start]
    ensures !s.isOpen ==> AfterKey(s, key) == s
  {
  }

  /** `resetSession` keeps the same session: no session is built or
      destroyed, only a reset is issued. */
  lemma ResetKeepsSession(s: OverlayState)
    requires Consistent(s)
    ensures AfterReset(s).hasSession == s.hasSession
    ensures !s.hasSession ==> AfterReset(s) == s
    ensures s.hasSession ==> AfterReset(s).calls == s.calls + [Reset] && !AfterReset(s).isRecording && AfterReset(s).error == ""
    ensures Count(AfterReset(s).calls, Construct) == Count(s.calls, Construct)
    ensures Count(AfterReset(s).calls, Destroy) == Count(s.calls, Destroy)
  {
    ReplayAppend(s.calls, Reset);
  }

  /** A non-empty error is what is shown, in place of the status, and
      reporting it leaves recording and the session alone. */
  lemma ErrorShownInPlaceOfStatus(s: OverlayState, text: string)
    ensures text != "" ==> DisplayText(AfterError(s, text)) == text
    ensures DisplayText(AfterError(s, "")) == s.status
    ensures AfterError(s, text).isRecording == s.isRecording && AfterError(s, text).calls == s.calls
  {
  }

  /** The live-audio session, reduced to its lifecycle. Its calls demand a
      session that has not been destroyed. */
  class LiveSession {
    ghost var alive: bool

    constructor ()
      ensures alive
    {
      alive := true;
    }

    method StartRecording()
      requires alive
    {
    }

    method StopRecording()
      requires alive
    {
    }

    method Reset()
      requires alive
    {
    }

    method Destroy()
      requires alive
      modifies this
      ensures !alive
    {
      alive := false;
    }
  }

  /** The overlay as an object whose handlers update its fields. */
  class AIOverlay {
    var isOpen: bool
    var isRecording: bool
    var status: string
    var error: string
    var geminiLive: LiveSession?
    ghost var calls: seq<SessionCall>
    ghost var closeCalls: nat

    ghost function State(): OverlayState
      reads this
    {
      OverlayState(isOpen, geminiLive != null, isRecording, status, error, calls, closeCalls)
    }

    ghost predicate Valid()
      reads this, geminiLive
    {
      Consistent(State()) && (geminiLive != null ==> geminiLive.alive)
    }

    constructor (open: bool)
      ensures Valid() && State() == Mounted(open)
      ensures geminiLive != null ==> fresh(geminiLive)
    {
      isOpen, isRecording, status, error, geminiLive := open, false, ReadyText, "", null;
      calls, closeCalls := [], 0;
      if open {
        geminiLive := new LiveSession();
        calls := calls + [Construct];
      }
      MountedIsConsistent(open);
    }

    method StartRecording()
      requires Valid()
      modifies this
      ensures Valid() && State() == AfterStart(old(State())) && geminiLive == old(geminiLive)
    {
      if geminiLive == null || isRecording {
        return;
      }
      error := "";
      geminiLive.StartRecording();
      calls := calls + [Start];
      isRecording := true;
      ReplayAppend(old(calls), Start);
    }

    method StopRecording()
      requires Valid()
      modifies this
      ensures Valid() && State() == AfterStop(old(State())) && geminiLive == old(geminiLive)
    {
      if geminiLive == null || !isRecording {
        return;
      }
      geminiLive.StopRecording();
      calls := calls + [Stop];
      isRecording := false;
      ReplayAppend(old(calls), Stop);
    }

    /** Destroy the session, drop the reference and reset the display. */
    method Release()
      requires Valid() && geminiLive != null
      modifies this, geminiLive
      ensures Valid() && State() == Released(old(State())) && !old(geminiLive).alive
    {
      ReleasedIsConsistent(State());
      geminiLive.Destroy();
      geminiLive := null;
      calls := calls + [Destroy];
      isRecording := false;
      status := ReadyText;
      error := "";
    }

    method HandleClose()
      requires Valid()
      modifies this, geminiLive
      ensures Valid() && State() == AfterClose(old(State()))
    {
      if geminiLive != null {
        Release();
      }
      closeCalls := closeCalls + 1;
    }

    method ResetSession()
      requires Valid()
      modifies this
      ensures Valid() && State() == AfterReset(old(State())) && geminiLive == old(geminiLive)
    {
      if geminiLive == null {
        return;
      }
      geminiLive.Reset();
      calls := calls + [Reset];
      isRecording := false;
      error := "";
      ReplayAppend(old(calls), Reset);
    }

    /** The parent changing `isOpen`: the previous effect's cleanup, then the effect. */
    method SetIsOpen(open: bool)
      requires Valid()
      modifies this, geminiLive
      ensures Valid() && State() == AfterOpenChange(old(State()), open)
      ensures geminiLive != null && geminiLive != old(geminiLive) ==> fresh(geminiLive)
    {
      if open == isOpen {
        return;
      }
      if !isOpen && geminiLive != null {
        Release();
      }
      ghost var cleaned := State().(isOpen := open);
      isOpen := open;
      assert State() == cleaned;
      RunOpenEffect();
    }

    /** The body of the effect on `isOpen`. */
    method RunOpenEffect()
      requires Valid()
      modifies this
      ensures Valid() && State() == OpenEffect(old(State()))
      ensures geminiLive != null && geminiLive != old(geminiLive) ==> fresh(geminiLive)
    {
      if isOpen && geminiLive == null {
        ReplayAppend(calls, Construct);
        geminiLive := new LiveSession();
        calls := calls + [Construct];
      }
    }

    method OnStatusChange(text: string)
      requires Valid()
      modifies this
      ensures Valid() && State() == AfterStatus(old(State()), text)
    {
      status := text;
    }

    method OnError(text: string)
      requires Valid()
      modifies this
      ensures Valid() && State() == AfterError(old(State()), text)
    {
      error := text;
    }

    method Toggle()
      requires Valid()
      modifies this
      ensures Valid() && State() == AfterToggle(old(State()))
    {
      if isRecording {
        StopRecording();
      } else {
        StartRecording();
      }
    }

    method OnKey(key: Key)
      requires Valid()
      modifies this, geminiLive
      ensures Valid() && State() == AfterKey(old(State()), key)
    {
      if !isOpen {
        return;
      }
      match key {
        case Escape => HandleClose();
        case Enter => Toggle();
        case _ =>
      }
    }

    method Click(c: Control)
      requires Valid()
      modifies this, geminiLive
      ensures Valid() && State() == AfterClick(old(State()), c)
    {
      if !isOpen {
        return;
      }
      match c {
        case Backdrop => HandleClose();
        case CloseButton => HandleClose();
        case ResetButton =>
          if !isRecording {
            ResetSession();
          }
        case RecordButton => Toggle();
      }
    }
  }
}
