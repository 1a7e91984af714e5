/** The Pomodoro timer: a two-mode countdown (25 minutes of work, 5 of
    break) driven by a once-a-second tick, with a counter of completed work
    sessions.  The transitions are given as functions on TimerState; the
    class Timer holds the four state fields the widget keeps and its
    methods are proved to perform exactly those transitions. */
module Pomodoro {
  import opened Text

  datatype Mode = Work | Break

  const WorkDuration: nat := 25 * 60
  const BreakDuration: nat := 5 * 60

  /** The full length of a mode, in seconds. */
  function Duration(m: Mode): nat {
    if m == Work then WorkDuration else BreakDuration
  }

  datatype TimerState = TimerState(mode: Mode, timeLeft: int, isRunning: bool, sessions: nat)

  /** The invariant every reachable state keeps: the countdown is positive
      and never above the full length of the current mode. */
  predicate Inv(s: TimerState) {
    1 <= s.timeLeft <= Duration(s.mode)
  }

  /** The state the widget starts in. */
  function Initial(): (s: TimerState)
    ensures Inv(s)
    ensures s.mode == Work && s.timeLeft == 1500 && !s.isRunning && s.sessions == 0
  {
    TimerState(Work, WorkDuration, false, 0)
  }

  /** What happens when the countdown runs out: the timer stops, the mode
      flips, the countdown is set to the new mode's full length, and a
      finished work period (and only that) counts one more session. */
  function AfterComplete(s: TimerState): (r: TimerState)
    ensures !r.isRunning && r.mode != s.mode && r.timeLeft == Duration(r.mode)
    ensures r.sessions == if s.mode == Work then s.sessions + 1 else s.sessions
    ensures Inv(r)
  {
    if s.mode == Work then TimerState(Break, BreakDuration, false, s.sessions + 1)
    else TimerState(Work, WorkDuration, false, s.sessions)
  }

  /** One second of the interval: nothing happens unless the timer runs with
      time left; from more than one second left it counts down by one;
      from one second (or less) left it completes instead. */
  function AfterTick(s: TimerState): (r: TimerState)
    ensures !(s.isRunning && s.timeLeft > 0) ==> r == s
    ensures s.isRunning && s.timeLeft > 1 ==> r == s.(timeLeft := s.timeLeft - 1)
    ensures s.isRunning && 0 < s.timeLeft <= 1 ==> r == AfterComplete(s)
    ensures Inv(s) ==> Inv(r)
    ensures r.sessions == s.sessions || r.sessions == s.sessions + 1
  {
    if s.isRunning && s.timeLeft > 0 then
      if s.timeLeft <= 1 then AfterComplete(s) else s.(timeLeft := s.timeLeft - 1)
    else s
  }

  /** Start or pause: only the running flag changes. */
  function AfterToggle(s: TimerState): (r: TimerState)
    ensures r.isRunning != s.isRunning
    ensures r.(isRunning := s.isRunning) == s
    ensures Inv(s) ==> Inv(r)
  {
    s.(isRunning := !s.isRunning)
  }

  /** Reset: the timer stops and the current mode starts over; mode and
      sessions stay as they were. */
  function AfterReset(s: TimerState): (r: TimerState)
    ensures r.mode == s.mode && r.sessions == s.sessions
    ensures !r.isRunning && r.timeLeft == Duration(s.mode)
    ensures Inv(r)
  {
    TimerState(s.mode, Duration(s.mode), false, s.sessions)
  }

  /** Choosing a mode: whatever the timer was doing, it stops and shows the
      full length of the chosen mode; sessions stay as they were. */
  function AfterSwitchMode(s: TimerState, m: Mode): (r: TimerState)
    ensures r.mode == m && !r.isRunning && r.timeLeft == Duration(m)
    ensures r.sessions == s.sessions
    ensures Inv(r)
  {
    TimerState(m, Duration(m), false, s.sessions)
  }

  // ----- The countdown over many seconds -----

  /** The state after `n` ticks of the interval. */
  function Ticks(s: TimerState, n: nat): TimerState {
    if n == 0 then s else AfterTick(Ticks(s, n - 1))
  }

  /** While fewer seconds have passed than were left, a running timer just
      counts down, one second per tick. */
  lemma {:induction false} TicksCountDown(s: TimerState, k: nat)
    requires s.isRunning && k < s.timeLeft
    ensures Ticks(s, k) == s.(timeLeft := s.timeLeft - k)
  {
    if k > 0 {
      TicksCountDown(s, k - 1);
    }
  }

  /** A running timer with `t` seconds left completes on exactly the
      `t`-th tick. */
  lemma {:induction false} TicksComplete(s: TimerState)
    requires s.isRunning && s.timeLeft >= 1
    ensures Ticks(s, s.timeLeft) == AfterComplete(s)
  {
    TicksCountDown(s, s.timeLeft - 1);
  }

  /** A stopped timer ignores the interval. */
  lemma {:induction false} StoppedTicksIdle(s: TimerState, n: nat)
    requires !s.isRunning
    ensures Ticks(s, n) == s
  {
    if n > 0 {
      StoppedTicksIdle(s, n - 1);
    }
  }

  /** Starting a fresh work period and letting 1500 seconds pass ends in a
      stopped five-minute break with one more session counted; any further
      ticks change nothing. */
  lemma WorkPeriodCompletes(sessions: nat, extra: nat)
    ensures Ticks(TimerState(Work, 1500, true, sessions), 1500 + extra)
            == TimerState(Break, 300, false, sessions + 1)
  {
    var s := TimerState(Work, 1500, true, sessions);
    TicksComplete(s);
    StoppedTicksIdle(AfterComplete(s), extra);
    TicksShift(s, 1500, extra);
  }

  /** Ticks compose: `m` ticks after `n` ticks are `n + m` ticks. */
  lemma {:induction false} TicksShift(s: TimerState, n: nat, m: nat)
    ensures Ticks(s, n + m) == Ticks(Ticks(s, n), m)
  {
    if m > 0 {
      TicksShift(s, n, m - 1);
    }
  }

  // ----- Any sequence of user actions and ticks -----

  datatype Event = TickEvent | ToggleEvent | ResetEvent | SwitchEvent(to: Mode)

  function Apply(s: TimerState, e: Event): TimerState {
    match e
    case TickEvent => AfterTick(s)
    case ToggleEvent => AfterToggle(s)
    case ResetEvent => AfterReset(s)
    case SwitchEvent(m) => AfterSwitchMode(s, m)
  }

  function Run(s: TimerState, events: seq<Event>): TimerState
    decreases |events|
  {
    if events == [] then s else Run(Apply(s, events[0]), events[1..])
  }

  /** Whatever the user does, the countdown stays between one second and
      the full length of the current mode, and the session count never
      goes down. */
  lemma {:induction false} RunPreservesInv(s: TimerState, events: seq<Event>)
    requires Inv(s)
    ensures Inv(Run(s, events))
    ensures Run(s, events).sessions >= s.sessions
    decreases |events|
  {
    if events != [] {
      RunPreservesInv(Apply(s, events[0]), events[1..]);
    }
  }

  /** Every state reachable from the initial one satisfies the invariant. */
  lemma ReachableStatesValid(events: seq<Event>)
    ensures Inv(Run(Initial(), events))
  {
    RunPreservesInv(Initial(), events);
  }

  // ----- The display -----

  /** `Math.floor(timeLeft / 60)`; Dafny's `/` with a positive divisor
      rounds down as `Math.floor` does. */
  function Minutes(timeLeft: int): (m: int)
    ensures m * 60 <= timeLeft < m * 60 + 60
  {
    timeLeft / 60
  }

  /** `timeLeft % 60`, JavaScript's remainder: for a non-negative countdown
      the seconds past the whole minutes; otherwise zero or negative. */
  function Seconds(timeLeft: int): (s: int)
    ensures timeLeft >= 0 ==> 0 <= s < 60 && Minutes(timeLeft) * 60 + s == timeLeft
    ensures timeLeft < 0 ==> -60 < s <= 0
  {
    JsRem(timeLeft, 60)
  }

  /** The clock face: minutes and seconds, each padded to two digits with
      zeros, separated by a colon. */
  function ClockFace(timeLeft: int): (f: string)
    ensures |f| >= 5
  {
    PadStart(IntToString(Minutes(timeLeft)), 2, '0') + ":" + PadStart(IntToString(Seconds(timeLeft)), 2, '0')
  }

  /** For every countdown below 100 minutes (so for every reachable one)
      the clock face is "mm:ss", whose fields read back as the whole
      minutes and the remaining seconds of the countdown. */
  lemma ClockFaceReadsBack(timeLeft: int)
    requires 0 <= timeLeft < 6000
    ensures var f := ClockFace(timeLeft);
            |f| == 5 && f[2] == ':' && AllDigits(f[..2]) && AllDigits(f[3..])
            && ParseNat(f[..2]) == timeLeft / 60 && ParseNat(f[3..]) == timeLeft % 60
  {
    var mm: nat := timeLeft / 60;
    var ss: nat := timeLeft % 60;
    assert Minutes(timeLeft) == mm && Seconds(timeLeft) == ss;
    var a := PadStart(NatToString(mm), 2, '0');
    var b := PadStart(NatToString(ss), 2, '0');
    assert ClockFace(timeLeft) == a + ":" + b;
    TwoDigits(mm);
    TwoDigits(ss);
    ColonBetween(a, b);
  }

  /** Two two-character fields around a colon can be cut apart again. */
  lemma ColonBetween(a: string, b: string)
    requires |a| == 2 && |b| == 2
    ensures var f := a + ":" + b;
            |f| == 5 && f[2] == ':' && f[..2] == a && f[3..] == b
  {
  }

  /** The row of session dots shows one dot per session, at most eight. */
  function SessionDots(sessions: nat): (n: nat)
    ensures n <= 8 && n <= sessions
    ensures n == sessions || n == 8
  {
    if sessions < 8 then sessions else 8
  }

  // ----- The widget's state, updated in place -----

  class Timer {
    var mode: Mode
    var timeLeft: int
    var isRunning: bool
    var sessions: nat

    function State(): TimerState
      reads this
    {
      TimerState(mode, timeLeft, isRunning, sessions)
    }

    predicate Valid()
      reads this
    {
      Inv(State())
    }

    constructor ()
      ensures Valid()
      ensures State() == Initial()
    {
      mode := Work;
      timeLeft := WorkDuration;
      isRunning := false;
      sessions := 0;
    }

    /** The completion handler. */
    method Complete()
      modifies this
      ensures Valid()
      ensures State() == AfterComplete(old(State()))
    {
      isRunning := false;
      if mode == Work {
        sessions := sessions + 1;
        mode := Break;
        timeLeft := BreakDuration;
      } else {
        mode := Work;
        timeLeft := WorkDuration;
      }
    }

    /** One call of the interval callback. */
    method Tick()
      requires Valid()
      modifies this
      ensures Valid()
      ensures State() == AfterTick(old(State()))
    {
      if isRunning && timeLeft > 0 {
        if timeLeft <= 1 {
          Complete();
        } else {
          timeLeft := timeLeft - 1;
        }
      }
    }

    method Toggle()
      requires Valid()
      modifies this
      ensures Valid()
      ensures State() == AfterToggle(old(State()))
    {
      isRunning := !isRunning;
    }

    method Reset()
      modifies this
      ensures Valid()
      ensures State() == AfterReset(old(State()))
    {
      isRunning := false;
      timeLeft := Duration(mode);
    }

    method SwitchMode(newMode: Mode)
      modifies this
      ensures Valid()
      ensures State() == AfterSwitchMode(old(State()), newMode)
    {
      mode := newMode;
      isRunning := false;
      timeLeft := Duration(newMode);
    }
  }
}
