/**
 * The idle and fullscreen controller (`useScreensaverControls`, and the same
 * mouse handler inline in the page): a mouse move shows the controls and
 * (re)arms one hide timer of 3000 ms; the fullscreen flag follows the
 * browser's `fullscreenchange` events and the outcome of the toggle's request.
 *
 * Time is explicit: the state carries the clock in milliseconds and the
 * deadline of the one pending hide timer, and `AfterAdvance` lets the clock
 * run, firing the timer when its deadline is reached.
 */
module ScreensaverControls {
  import opened Wrappers

  const HideDelay: int := 3000

  /**
   * The clock, the two state cells, the deadline of the pending hide timer
   * (`mouseTimeoutRef`) and whether the document listeners are attached.
   */
  datatype ControlsState = ControlsState(now: int, showControls: bool, isFullscreen: bool, hideAt: Option<int>, listening: bool)

  /** The state the hook mounts in: controls hidden, not fullscreen, no timer, listeners attached. */
  function Mounted(now: int): ControlsState {
    ControlsState(now, false, false, None, true)
  }

  /**
   * `handleMouseMove`: show the controls, cancel the pending timer and arm a
   * new one 3000 ms from now. Once the listeners are gone a move does nothing.
   */
  function AfterMouseMove(s: ControlsState): (t: ControlsState)
    ensures s.listening ==> t == s.(showControls := true, hideAt := Some(s.now + HideDelay))
    ensures !s.listening ==> t == s
  {
    if s.listening then s.(showControls := true, hideAt := Some(s.now + HideDelay)) else s
  }

  /** The clock runs to `time`; a timer whose deadline has come hides the controls. */
  function AfterAdvance(s: ControlsState, time: int): (t: ControlsState)
    requires time >= s.now
    ensures t.now == time && t.isFullscreen == s.isFullscreen && t.listening == s.listening
    ensures s.hideAt.Some? && s.hideAt.value <= time ==> !t.showControls && t.hideAt == None
    ensures !(s.hideAt.Some? && s.hideAt.value <= time) ==> t.showControls == s.showControls && t.hideAt == s.hideAt
  {
    if s.hideAt.Some? && s.hideAt.value <= time then s.(now := time, showControls := false, hideAt := None)
    else s.(now := time)
  }

  /**
   * `handleFullscreenChange`: while attached, the flag becomes whether the
   * document has a fullscreen element, whatever the toggle did before.
   */
  function AfterFullscreenChange(s: ControlsState, hasFullscreenElement: bool): (t: ControlsState)
    ensures s.listening ==> t == s.(isFullscreen := hasFullscreenElement)
    ensures !s.listening ==> t == s
  {
    if s.listening then s.(isFullscreen := hasFullscreenElement) else s
  }

  /** The request the toggle makes: enter when not fullscreen, exit when fullscreen. */
  datatype FullscreenRequest = Enter | Exit

  function ToggleRequest(isFullscreen: bool): (r: FullscreenRequest)
    ensures r == Enter <==> !isFullscreen
  {
    if isFullscreen then Exit else Enter
  }

  /**
   * `toggleFullscreen`: when the browser offers the call, the request is made;
   * the flag changes only if the request resolves, and a rejection is
   * swallowed with the flag unchanged.
   */
  function AfterToggle(s: ControlsState, apiAvailable: bool, resolves: bool): (t: ControlsState)
    ensures apiAvailable && resolves ==> t == s.(isFullscreen := ToggleRequest(s.isFullscreen) == Enter)
    ensures !(apiAvailable && resolves) ==> t == s
  {
    if !s.isFullscreen then
      (if apiAvailable && resolves then s.(isFullscreen := true) else s)
    else
      (if apiAvailable && resolves then s.(isFullscreen := false) else s)
  }

  /** Cleanup: the listeners go and the pending timer is cancelled. */
  function AfterCleanup(s: ControlsState): (t: ControlsState)
    ensures !t.listening && t.hideAt == None
    ensures t.now == s.now && t.showControls == s.showControls && t.isFullscreen == s.isFullscreen
  {
    s.(listening := false, hideAt := None)
  }

  /**
   * What holds between events: the controls are shown exactly while a hide
   * timer is pending, and that timer is due within the next 3000 ms.
   */
  ghost predicate Inv(s: ControlsState) {
    (s.showControls <==> s.hideAt.Some?) && (s.hideAt.Some? ==> s.now < s.hideAt.value <= s.now + HideDelay)
  }

  // ---------------------------------------------------------------------------
  // Runs of events

  /** A mouse move, or the clock running on by `ms` milliseconds. */
  datatype Event = MouseMove | Wait(ms: nat)

  function Step(s: ControlsState, e: Event): ControlsState {
    match e
    case MouseMove => AfterMouseMove(s)
    case Wait(ms) => AfterAdvance(s, s.now + ms)
  }

  /** The state after the events, in order (defined from the last event back). */
  function Run(s: ControlsState, events: seq<Event>): ControlsState
    decreases |events|
  {
    if events == [] then s else Step(Run(s, events[..|events| - 1]), events[|events| - 1])
  }

  /** Milliseconds since the last mouse move of the run; `None` when there was none. */
  function SinceLastMove(events: seq<Event>): (d: Option<nat>)
    decreases |events|
  {
    if events == [] then None
    else match events[|events| - 1]
      case MouseMove => Some(0)
      case Wait(ms) =>
        match SinceLastMove(events[..|events| - 1])
        case None => None
        case Some(k) => Some(k + ms)
  }

  /**
   * The last mouse move wins: while the listeners are attached, after any run
   * that contains a move the controls are shown exactly when less than 3000 ms
   * have passed since the last move, and the one pending timer is due 3000 ms
   * after that move. Earlier moves' timers never hide the controls early.
   */
  lemma {:induction false} LastMoveWins(s: ControlsState, events: seq<Event>)
    requires s.listening && Inv(s)
    ensures Inv(Run(s, events)) && Run(s, events).listening
    ensures SinceLastMove(events).Some? ==>
      var k := SinceLastMove(events).value; var t := Run(s, events);
      && (t.showControls <==> k < HideDelay)
      && (k < HideDelay ==> t.hideAt == Some(t.now - k + HideDelay))
    decreases |events|
  {
    if events != [] {
      var prefix := events[..|events| - 1];
      LastMoveWins(s, prefix);
    }
  }

  /** Without a move, the controls hide for good once the pending timer is due. */
  lemma QuietHides(s: ControlsState, ms: nat)
    requires Inv(s) && ms >= HideDelay
    ensures !AfterAdvance(s, s.now + ms).showControls
  {
  }

  // ---------------------------------------------------------------------------
  // The hook's cells

  class Controls {
    var now: int
    var showControls: bool
    var isFullscreen: bool
    var hideAt: Option<int>
    var listening: bool

    function State(): ControlsState
      reads this
    {
      ControlsState(now, showControls, isFullscreen, hideAt, listening)
    }

    constructor (clock: int)
      ensures State() == Mounted(clock)
    {
      now := clock;
      showControls := false;
      isFullscreen := false;
      hideAt := None;
      listening := true;
    }

    method HandleMouseMove()
      modifies this
      ensures State() == AfterMouseMove(old(State()))
    {
      if listening {
        showControls := true;
        hideAt := Some(now + HideDelay);
      }
    }

    method AdvanceTo(time: int)
      requires time >= now
      modifies this
      ensures State() == AfterAdvance(old(State()), time)
    {
      if hideAt.Some? && hideAt.value <= time {
        showControls := false;
        hideAt := None;
      }
      now := time;
    }

    method HandleFullscreenChange(hasFullscreenElement: bool)
      modifies this
      ensures State() == AfterFullscreenChange(old(State()), hasFullscreenElement)
    {
      if listening {
        isFullscreen := hasFullscreenElement;
      }
    }

    /** Returns the request made to the browser, if it offers the call. */
    method ToggleFullscreen(apiAvailable: bool, resolves: bool) returns (request: Option<FullscreenRequest>)
      modifies this
      ensures State() == AfterToggle(old(State()), apiAvailable, resolves)
      ensures request == if apiAvailable then Some(ToggleRequest(old(isFullscreen))) else None
    {
      request := None;
      if !isFullscreen {
        if apiAvailable {
          request := Some(Enter);
          if resolves {
            isFullscreen := true;
          }
        }
      } else {
        if apiAvailable {
          request := Some(Exit);
          if resolves {
            isFullscreen := false;
          }
        }
      }
    }

    method Cleanup()
      modifies this
      ensures State() == AfterCleanup(old(State()))
    {
      listening := false;
      hideAt := None;
    }
  }
}
