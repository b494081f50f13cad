/** vTaskDelayUntil on the scheduler: the calling task is woken at its own times. */
module KernelDelays {
  import opened Tick
  import opened Epochs
  import opened TaskLists
  import opened Kernel
  import opened KernelTick
  import opened KernelRuns
  import opened KernelHistory
  import opened Timeouts

  /** The kernel's time with its overflow count. */
  function Clock(s: State): Stamp { Stamp(s.overflows, s.tick) }

  /** A task that delays until its last wake time plus an increment waits for exactly
      that time, not for an increment from now. */
  lemma DelaysUntil(s: State, previous: Time, increment: nat)
    requires Inv(s) && IsReady(s, s.current) && s.tick < M && Within(previous, Clock(s)) && 0 < increment < M
    requires ShouldDelay(previous.tick, increment, s.tick)
    ensures var op := Block(Minus(Plus(previous.tick, increment), s.tick), false, NoEvent, false);
      && Enabled(s, op) && IsDelayed(Step(s, op), s.current)
      && Due(Step(s, op), s.current) == Abs(previous) + increment
  {
    hide Inv, Due, Abs, Step, Enabled, ShouldDelay, Plus, Minus, Within;
    DelayUntilExact(previous, increment, Clock(s));
    ClockIsNow(s);
    InvFacts(s);
    DelayEnabled(s, Minus(Plus(previous.tick, increment), s.tick));
    BlockedUntil(s, Minus(Plus(previous.tick, increment), s.tick), false, NoEvent, false);
  }

  lemma DelayEnabled(s: State, n: nat)
    requires s.current in s.tcb && IsReady(s, s.current) && 0 < n < M
    ensures Enabled(s, Block(n, false, NoEvent, false))
  {
  }

  lemma ClockIsNow(s: State)
    requires Inv(s)
    ensures s.tick < M && Abs(Clock(s)) == Now(s)
  {
    hide ContainersOk, OrderOk, TopOk, RunningOk;
  }
}
