/**
 * The Pomodoro countdown: a work phase of 25 minutes and a break of 5 minutes,
 * alternating for ever. Once a second the interval callback ticks the countdown;
 * the user can pause/resume and reset. The same machine appears twice in the
 * source, in the `usePomodoroTimer` hook and inline in the page component, with
 * the same durations and the same tick body.
 */
module Pomodoro {
  import opened TimeFormat

  const WorkDuration: int := 25 * 60
  const BreakDuration: int := 5 * 60

  /** The four state cells: seconds left, phase, phase changes so far, paused. */
  datatype TimerState = TimerState(pomodoroTime: int, isBreak: bool, cycle: nat, isPaused: bool)

  /** The state the hook starts in: a full work phase, cycle 0, running. */
  const Initial: TimerState := TimerState(WorkDuration, false, 0, false)

  /** Duration of a freshly started phase. */
  function PhaseDuration(isBreak: bool): int {
    if isBreak then BreakDuration else WorkDuration
  }

  /**
   * One interval callback. Paused: nothing. Otherwise, with more than one
   * second left the countdown drops by one; at one second or less the phase
   * flips, the cycle counter goes up by one and the countdown restarts at the
   * new phase's duration. The pause flag is never touched.
   */
  function AfterTick(s: TimerState): (t: TimerState)
    ensures t.isPaused == s.isPaused
    ensures s.isPaused ==> t == s
    ensures !s.isPaused && s.pomodoroTime > 1 ==>
      t.pomodoroTime == s.pomodoroTime - 1 && t.isBreak == s.isBreak && t.cycle == s.cycle
    ensures !s.isPaused && s.pomodoroTime <= 1 ==>
      t.isBreak == !s.isBreak && t.cycle == s.cycle + 1
      && t.pomodoroTime == (if t.isBreak then 300 else 1500)
  {
    if s.isPaused then s
    else if s.pomodoroTime <= 1 then
      var newIsBreak := !s.isBreak;
      TimerState(PhaseDuration(newIsBreak), newIsBreak, s.cycle + 1, s.isPaused)
    else s.(pomodoroTime := s.pomodoroTime - 1)
  }

  /** `resetPomodoro`: back to the initial state, whatever the state was. */
  function AfterReset(s: TimerState): (t: TimerState)
    ensures t.pomodoroTime == 1500 && !t.isBreak && t.cycle == 0 && !t.isPaused
  {
    Initial
  }

  /** `togglePause`: flips the pause flag and nothing else. */
  function AfterTogglePause(s: TimerState): (t: TimerState)
    ensures t.isPaused == !s.isPaused
    ensures t.pomodoroTime == s.pomodoroTime && t.isBreak == s.isBreak && t.cycle == s.cycle
  {
    s.(isPaused := !s.isPaused)
  }

  /**
   * What holds of every state reachable from the initial one: the countdown is
   * within one second and a full work phase (a break never exceeds its own
   * five minutes), and the counter is odd exactly during a break.
   */
  ghost predicate Valid(s: TimerState) {
    && 1 <= s.pomodoroTime <= WorkDuration
    && (s.isBreak ==> s.pomodoroTime <= BreakDuration)
    && (s.cycle % 2 == 1 <==> s.isBreak)
  }

  lemma InitialValid()
    ensures Valid(Initial)
  {
  }

  lemma TickValid(s: TimerState)
    requires Valid(s)
    ensures Valid(AfterTick(s))
  {
  }

  /** Reset is idempotent and ends in the initial state. */
  lemma ResetIdempotent(s: TimerState)
    ensures AfterReset(AfterReset(s)) == AfterReset(s) == Initial
  {
  }

  /** Toggling the pause twice restores the state exactly. */
  lemma TogglePauseTwice(s: TimerState)
    ensures AfterTogglePause(AfterTogglePause(s)) == s
  {
  }

  // ---------------------------------------------------------------------------
  // Runs of events

  /** What can happen to the timer: a tick, the reset button, the pause button. */
  datatype Event = TickEvent | ResetEvent | PauseEvent

  function Step(s: TimerState, e: Event): TimerState {
    match e
    case TickEvent => AfterTick(s)
    case ResetEvent => AfterReset(s)
    case PauseEvent => AfterTogglePause(s)
  }

  /** The state after the events happen in order. */
  function Run(s: TimerState, events: seq<Event>): TimerState
    decreases |events|
  {
    if events == [] then s else Run(Step(s, events[0]), events[1..])
  }

  /**
   * Under any sequence of ticks, resets and pause toggles from a valid state
   * (in particular the initial one) the state stays valid: the countdown stays
   * in [1, 1500] and never reaches 0, and the counter's parity tracks the phase.
   */
  lemma {:induction false} RunValid(s: TimerState, events: seq<Event>)
    requires Valid(s)
    ensures Valid(Run(s, events))
    decreases |events|
  {
    if events != [] {
      var t := Step(s, events[0]);
      assert Valid(t) by {
        match events[0]
        case TickEvent => TickValid(s);
        case ResetEvent => InitialValid();
        case PauseEvent =>
      }
      RunValid(t, events[1..]);
    }
  }

  /** Every state reachable from the start satisfies the invariant. */
  lemma ReachableValid(events: seq<Event>)
    ensures var s := Run(Initial, events);
      1 <= s.pomodoroTime <= 1500 && (s.cycle % 2 == 1 <==> s.isBreak)
  {
    InitialValid();
    RunValid(Initial, events);
  }

  function Ticks(n: nat): (ts: seq<Event>)
    ensures |ts| == n && forall i :: 0 <= i < n ==> ts[i] == TickEvent
  {
    if n == 0 then [] else [TickEvent] + Ticks(n - 1)
  }

  /** While paused, any number of ticks leaves the state exactly as it was. */
  lemma {:induction false} PausedTicksFreeze(s: TimerState, n: nat)
    requires s.isPaused
    ensures Run(s, Ticks(n)) == s
  {
    if n > 0 {
      assert Ticks(n)[1..] == Ticks(n - 1);
      PausedTicksFreeze(s, n - 1);
    }
  }

  /** Running, `k` ticks with more than `k` seconds left count down by exactly `k`. */
  lemma {:induction false} CountDown(s: TimerState, k: nat)
    requires !s.isPaused && s.pomodoroTime > k
    ensures Run(s, Ticks(k)) == s.(pomodoroTime := s.pomodoroTime - k)
    decreases k
  {
    if k > 0 {
      assert Ticks(k)[1..] == Ticks(k - 1);
      var t := AfterTick(s);
      CountDown(t, k - 1);
    }
  }

  /**
   * From the start, 1500 ticks complete the work phase: the timer is in its
   * first break with the counter at 1 and five minutes on the clock.
   */
  lemma FirstBreak()
    ensures Run(Initial, Ticks(1500)) == TimerState(300, true, 1, false)
  {
    CountDown(Initial, 1499);
    RunAppend(Initial, Ticks(1499), [TickEvent]);
    assert Ticks(1500) == Ticks(1499) + [TickEvent];
  }

  lemma {:induction false} RunAppend(s: TimerState, a: seq<Event>, b: seq<Event>)
    ensures Run(s, a + b) == Run(Run(s, a), b)
    decreases |a|
  {
    if a != [] {
      assert (a + b)[0] == a[0] && (a + b)[1..] == a[1..] + b;
      RunAppend(Step(s, a[0]), a[1..], b);
    } else {
      assert a + b == b;
    }
  }

  /**
   * The displayed cycle number advances exactly when a break ends: a tick that
   * moves from break to work raises it by one, every other tick keeps it.
   */
  lemma DisplayCycleOnTick(s: TimerState)
    requires Valid(s)
    ensures var t := AfterTick(s);
      DisplayCycle(t.cycle) == if s.isBreak && !t.isBreak then DisplayCycle(s.cycle) + 1 else DisplayCycle(s.cycle)
  {
  }

  // ---------------------------------------------------------------------------
  // The hook's state cells

  /** The four `useState` cells of the timer and the callbacks that set them. */
  class PomodoroTimer {
    var pomodoroTime: int
    var isBreak: bool
    var cycle: nat
    var isPaused: bool

    function State(): TimerState
      reads this
    {
      TimerState(pomodoroTime, isBreak, cycle, isPaused)
    }

    constructor ()
      ensures State() == Initial
    {
      pomodoroTime := WorkDuration;
      isBreak := false;
      cycle := 0;
      isPaused := false;
    }

    /** The interval callback, run once a second. */
    method Tick()
      modifies this
      ensures State() == AfterTick(old(State()))
    {
      if !isPaused {
        var prev := pomodoroTime;
        if prev <= 1 {
          var newIsBreak := !isBreak;
          isBreak := newIsBreak;
          cycle := cycle + 1;
          pomodoroTime := if newIsBreak then BreakDuration else WorkDuration;
        } else {
          pomodoroTime := prev - 1;
        }
      }
    }

    method ResetPomodoro()
      modifies this
      ensures State() == AfterReset(old(State()))
    {
      pomodoroTime := WorkDuration;
      isBreak := false;
      cycle := 0;
      isPaused := false;
    }

    method TogglePause()
      modifies this
      ensures State() == AfterTogglePause(old(State()))
    {
      isPaused := !isPaused;
    }
  }
}
