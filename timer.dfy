/**
 * The countdown of the meditation screen: the remembered state
 * `(timeLeft, isRunning)`, the Start/Stop button, and the effect that
 * counts down once a second while the timer runs.
 */
module Timer {
  import opened Options
  import opened TimeFormat

  /** Three minutes, the value `timeLeft` starts at. */
  const InitialSeconds: int := 180

  datatype TimerState = TimerState(timeLeft: int, isRunning: bool)

  /** A freshly entered screen: three minutes left, stopped. */
  const Initial: TimerState := TimerState(InitialSeconds, false)

  /** What every reachable state satisfies: the time left is between 0 and 180. */
  predicate Valid(s: TimerState) {
    0 <= s.timeLeft <= InitialSeconds
  }

  /** The button: `isRunning = !isRunning`. */
  function Toggled(s: TimerState): TimerState {
    s.(isRunning := !s.isRunning)
  }

  /** The condition of the effect's `while` loop. */
  predicate LoopGuard(s: TimerState) {
    s.isRunning && s.timeLeft > 0
  }

  /** One pass of the loop body: a one-second delay, then `timeLeft -= 1`. */
  function Ticked(s: TimerState): TimerState
    requires LoopGuard(s)
  {
    s.(timeLeft := s.timeLeft - 1)
  }

  /** The code after the loop: a timer at zero is switched off. */
  function Settled(s: TimerState): TimerState {
    if s.timeLeft == 0 then s.(isRunning := false) else s
  }

  /** The loop run until its condition fails. */
  function RunLoop(s: TimerState): TimerState
    decreases if s.timeLeft > 0 then s.timeLeft else 0
  {
    if LoopGuard(s) then RunLoop(Ticked(s)) else s
  }

  /** The whole effect, launched whenever `isRunning` changes, run without interruption. */
  function Effect(s: TimerState): TimerState {
    Settled(RunLoop(s))
  }

  /** At most `n` passes of the loop body (fewer once the loop condition fails). */
  function Ticks(s: TimerState, n: nat): TimerState
    decreases n
  {
    if n == 0 || !LoopGuard(s) then s else Ticks(Ticked(s), n - 1)
  }

  // ---------------------------------------------------------------------------
  // Properties of the state machine
  // ---------------------------------------------------------------------------

  lemma InitialValid()
    ensures Valid(Initial) && Initial.timeLeft == 180 && !Initial.isRunning
  {
  }

  /** The button flips only `isRunning`; pressing it twice restores the state. */
  lemma ToggleFlipsRunningOnly(s: TimerState)
    ensures Toggled(s).timeLeft == s.timeLeft
    ensures Toggled(s).isRunning == !s.isRunning
    ensures Toggled(Toggled(s)) == s
    ensures Valid(s) ==> Valid(Toggled(s))
  {
  }

  /** Each pass of the loop takes exactly one second off and never goes below zero. */
  lemma TickedStep(s: TimerState)
    requires LoopGuard(s)
    ensures Ticked(s).timeLeft == s.timeLeft - 1 >= 0
    ensures Ticked(s).isRunning
    ensures Valid(s) ==> Valid(Ticked(s))
  {
  }

  /**
   * `n` seconds of a valid running timer take `n` off the time left, down to
   * zero and no further; a stopped timer does not move.
   */
  lemma {:induction false} TicksOutcome(s: TimerState, n: nat)
    requires Valid(s)
    ensures Valid(Ticks(s, n))
    ensures Ticks(s, n) ==
      if s.isRunning then TimerState(if n <= s.timeLeft then s.timeLeft - n else 0, true) else s
    decreases n
  {
    if n > 0 && LoopGuard(s) {
      TicksOutcome(Ticked(s), n - 1);
    }
  }

  /** The loop stops exactly at zero when it runs, and does nothing otherwise. */
  lemma {:induction false} RunLoopOutcome(s: TimerState)
    ensures RunLoop(s) == if LoopGuard(s) then TimerState(0, true) else s
    decreases if s.timeLeft > 0 then s.timeLeft else 0
  {
    if LoopGuard(s) {
      RunLoopOutcome(Ticked(s));
    }
  }

  /**
   * After the effect a valid timer is stopped: a running one has counted
   * down to zero, a stopped one keeps its time.
   */
  lemma EffectOutcome(s: TimerState)
    requires Valid(s)
    ensures Valid(Effect(s))
    ensures Effect(s) == TimerState(if s.isRunning then 0 else s.timeLeft, false)
  {
    RunLoopOutcome(s);
  }

  /** Whatever the starting state, the effect never leaves a timer at zero running. */
  lemma EffectStopsAtZero(s: TimerState)
    ensures Effect(s).timeLeft == 0 ==> !Effect(s).isRunning
    ensures s.timeLeft >= 0 ==> Effect(s).timeLeft >= 0
  {
    RunLoopOutcome(s);
  }

  /** Starting a timer that is already at zero runs no tick and ends stopped at zero. */
  lemma StartAtZero()
    ensures RunLoop(Toggled(TimerState(0, false))) == TimerState(0, true)
    ensures Effect(Toggled(TimerState(0, false))) == TimerState(0, false)
  {
    RunLoopOutcome(Toggled(TimerState(0, false)));
  }

  /** A full session: Start on a fresh screen counts the three minutes down to a stopped zero. */
  lemma FullSession()
    ensures Effect(Toggled(Initial)) == TimerState(0, false)
    ensures Ticks(Toggled(Initial), InitialSeconds) == TimerState(0, true)
  {
    EffectOutcome(Toggled(Initial));
    TicksOutcome(Toggled(Initial), InitialSeconds);
  }

  /** Every reachable time shows as five characters `0M:SS`, at most `03:00`. */
  lemma DisplayOfValid(s: TimerState)
    requires Valid(s)
    ensures |FormatTime(s.timeLeft)| == 5
    ensures FormatTime(s.timeLeft)[0] == '0' && FormatTime(s.timeLeft)[2] == ':'
    ensures ParseClock(FormatTime(s.timeLeft)) == Some(s.timeLeft)
  {
    FormatTimeShape(s.timeLeft);
    FormatTimeRoundTrip(s.timeLeft);
  }

  // ---------------------------------------------------------------------------
  // The screen's remembered state, updated in place
  // ---------------------------------------------------------------------------

  class MeditationTimer {
    var timeLeft: int
    var isRunning: bool

    function State(): TimerState
      reads this
    {
      TimerState(timeLeft, isRunning)
    }

    /** `remember { mutableStateOf(false) }` and `remember { mutableStateOf(180) }`. */
    constructor ()
      ensures State() == Initial && Valid(State())
    {
      timeLeft := InitialSeconds;
      isRunning := false;
    }

    /** The Start/Stop button's `onClick`. */
    method Toggle()
      modifies this
      ensures State() == Toggled(old(State()))
      ensures timeLeft == old(timeLeft)
      ensures Valid(old(State())) ==> Valid(State())
    {
      isRunning := !isRunning;
    }

    /** One pass of the loop body (`delay(1000)` is the passage of that second). */
    method Tick()
      requires LoopGuard(State())
      modifies this
      ensures State() == Ticked(old(State()))
      ensures timeLeft == old(timeLeft) - 1 >= 0 && isRunning
      ensures Valid(old(State())) ==> Valid(State())
    {
      timeLeft := timeLeft - 1;
    }

    /** The check after the loop: `if (timeLeft == 0) isRunning = false`. */
    method Settle()
      modifies this
      ensures State() == Settled(old(State()))
      ensures timeLeft == old(timeLeft)
      ensures Valid(old(State())) ==> Valid(State())
    {
      if timeLeft == 0 {
        isRunning := false;
      }
    }

    /**
     * The body of `LaunchedEffect(isRunning)` run to its end, returning the
     * number of one-second delays it waited.
     */
    method RunEffect() returns (ticks: nat)
      modifies this
      ensures State() == Effect(old(State()))
      ensures ticks == (if LoopGuard(old(State())) then old(timeLeft) else 0)
      ensures Valid(old(State())) ==> Valid(State()) && !isRunning
    {
      ghost var start := State();
      ticks := 0;
      while isRunning && timeLeft > 0
        invariant RunLoop(State()) == RunLoop(start)
        invariant isRunning == start.isRunning
        invariant timeLeft + ticks == start.timeLeft
        invariant ticks > 0 ==> LoopGuard(start) && timeLeft >= 0
        decreases timeLeft
      {
        Tick();
        ticks := ticks + 1;
      }
      Settle();
      if Valid(start) {
        EffectOutcome(start);
      }
    }
  }
}
