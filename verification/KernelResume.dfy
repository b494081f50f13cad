/** xTaskResumeAll: the tasks readied and the ticks counted while the scheduler was
    suspended are caught up with. */
module KernelResume {
  import opened Tick
  import opened Lists
  import opened RoundRobin
  import opened TaskLists
  import opened Kernel
  import opened KernelTick
  import opened KernelCalls

  // ---------------------------------------------------------------- resume the scheduler

  /** The tasks that interrupts readied while the scheduler was suspended. */
  function DrainPending(s: State): State
    requires Structure(s) && s.current in s.tcb
    decreases |Waiting(s, PendingReady)|
  {
    if Waiting(s, PendingReady) == [] then s
    else
      var t := Waiting(s, PendingReady)[0];
      WaiterIsTask(s, PendingReady);
      WakeUpFacts(s, t);
      WakeUpDrains(s, t);
      var m := WakeUp(s, t).(yieldPending := s.yieldPending || Priority(s, t) >= Priority(s, s.current));
      SameStructure(WakeUp(s, t), m);
      DrainPending(m)
  }

  lemma WakeUpDrains(s: State, t: Task)
    requires Structure(s) && Waiting(s, PendingReady) != [] && t == Waiting(s, PendingReady)[0] && t in s.tcb
    requires s.tcb[t].on == PendingReady
    ensures Waiting(WakeUp(s, t), PendingReady) == Waiting(s, PendingReady)[1..]
  {
  }

  /** Everything that was pending is ready, and nothing else moved. */
  ghost predicate Drained(s: State, r: State) {
    && SameClock(s, r) && r.nextUnblock == s.nextUnblock
    && (forall t :: t in s.tcb ==> r.tcb[t] == if s.tcb[t].on == PendingReady then Woken(s.tcb[t]) else s.tcb[t])
    && Waiting(r, PendingReady) == []
    && Items(r, TerminationList) == Items(s, TerminationList)
    && (s.yieldPending ==> r.yieldPending)
    && (RightTaskRuns(s) ==> r.yieldPending || RightTaskRuns(r))
    && (TopOk(s) ==> TopOk(r))
  }

  lemma {:induction false} DrainKeeps(s: State)
    requires Structure(s) && s.current in s.tcb
    ensures Structure(DrainPending(s)) && Drained(s, DrainPending(s))
    decreases |Waiting(s, PendingReady)|
  {
    hide ContainersOk, OrderOk, Drained;
    if Waiting(s, PendingReady) == [] {
      NothingPending(s);
    } else {
      var t := Waiting(s, PendingReady)[0];
      WaiterIsTask(s, PendingReady);
      WakeUpFacts(s, t);
      WakeUpDrains(s, t);
      var w := WakeUp(s, t);
      var m := w.(yieldPending := s.yieldPending || Priority(s, t) >= Priority(s, s.current));
      SameStructure(w, m);
      DrainOne(s, t, m);
      hide WakeUp;
      DrainKeeps(m);
      OneMoreDrained(s, t, m, DrainPending(m));
    }
  }

  lemma NothingPending(s: State)
    requires Structure(s) && s.current in s.tcb && Waiting(s, PendingReady) == []
    ensures Drained(s, s)
  {
  }

  /** One turn of the loop in xTaskResumeAll. */
  ghost predicate Moved(s: State, t: Task, m: State) {
    && t in s.tcb && SameClock(s, m) && m.nextUnblock == s.nextUnblock
    && s.tcb[t].on == PendingReady && m.tcb == s.tcb[t := Woken(s.tcb[t])]
    && Items(m, TerminationList) == Items(s, TerminationList)
    && (s.yieldPending ==> m.yieldPending)
    && (RightTaskRuns(s) ==> m.yieldPending || RightTaskRuns(m))
    && (TopOk(s) ==> TopOk(m))
  }

  lemma DrainOne(s: State, t: Task, m: State)
    requires Structure(s) && s.current in s.tcb && t in s.tcb && s.tcb[t].on == PendingReady
    requires !s.tcb[t].at.TerminationList? && !s.tcb[t].at.ReadyList?
    requires m == WakeUp(s, t).(yieldPending := s.yieldPending || Priority(s, t) >= Priority(s, s.current))
    ensures Moved(s, t, m)
  {
    hide ContainersOk, OrderOk, WakeUp;
    WakeUpFacts(s, t);
    SpecialLists(s);
    WakeUpElsewhere(s, t, TerminationList);
    if TopOk(s) { WakeUpTop(s, t); }
  }

  lemma OneMoreDrained(s: State, t: Task, m: State, r: State)
    requires Moved(s, t, m) && Drained(m, r)
    ensures Drained(s, r)
  {
  }

  // ---------------------------------------------------------------- the ticks held back

  /** What a tick does not touch. */
  ghost predicate TickFrame(s: State, r: State) {
    && r.current == s.current && r.depth == s.depth && r.pended == s.pended && r.interrupts == s.interrupts
    && r.yieldPending == s.yieldPending && r.switchRequested == s.switchRequested && r.offReady == s.offReady
    && r.numberOfTasks == s.numberOfTasks && r.toCleanUp == s.toCleanUp && r.tcb.Keys == s.tcb.Keys
    && Items(r, TerminationList) == Items(s, TerminationList)
    && Waiting(r, PendingReady) == []
    && (TopOk(s) ==> TopOk(r))
    && (EpochOk(s) ==> EpochOk(r))
  }

  lemma NextTickFrame(s: State)
    requires Structure(s) && IsDelayedList(s.delayed) && s.tick < M && Waiting(s, PendingReady) == []
    ensures TickFrame(s, NextTick(s))
  {
    hide ContainersOk, OrderOk, EpochOk, TopOk, NextTick;
    NextTickShape(s);
    if EpochOk(s) { NextTickEpoch(s); }
    if TopOk(s) { SameTop(s, NextTick(s)); }
  }

  lemma NextTickShape(s: State)
    requires Structure(s) && IsDelayedList(s.delayed) && s.tick < M
    ensures var n := NextTick(s);
      n == s.(tick := n.tick, base := n.base, delayed := n.delayed, overflows := n.overflows, nextUnblock := n.nextUnblock)
  {
    hide ContainersOk, OrderOk, NextUnblock, Structure;
  }

  lemma NextTickEpoch(s: State)
    requires Structure(s) && IsDelayedList(s.delayed) && s.tick < M && EpochOk(s)
    ensures EpochOk(NextTick(s))
  {
    hide ContainersOk, OrderOk, NextUnblock;
    NextMultiple(s.overflows);
  }

  lemma NextMultiple(k: nat)
    ensures (k + 1) * M == k * M + M
  {
  }

  lemma WakeDueFrame(n: State)
    requires Structure(n) && IsDelayedList(n.delayed) && n.current in n.tcb && Waiting(n, PendingReady) == []
    ensures TickFrame(n, WakeDue(n, false).state)
  {
    hide ContainersOk, OrderOk, TopOk;
    WakeDueExact(n, false);
    WakeDueElsewhere(n, false);
    hide WakeDue;
  }

  lemma CountTickFrame(s: State)
    requires Structure(s) && ClockOk(s) && s.current in s.tcb && Waiting(s, PendingReady) == []
    ensures TickFrame(s, CountTick(s).state)
  {
    assert IsDelayedList(s.delayed) && s.tick < M;
    hide ContainersOk, OrderOk, ClockOk, TickFrame, OneTickLater;
    NextTickFacts(s);
    NextTickFrame(s);
    var n := NextTick(s);
    TickerFacts(s, n);
    FramePending(s, n);
    hide NextTick;
    if n.tick >= n.nextUnblock {
      WakeDueFrame(n);
      FrameTwice(s, n, WakeDue(n, false).state);
    }
  }

  lemma FramePending(s: State, r: State)
    requires TickFrame(s, r)
    ensures Waiting(r, PendingReady) == [] && r.current == s.current && r.tcb.Keys == s.tcb.Keys
  {
  }

  lemma FrameTwice(s: State, n: State, r: State)
    requires TickFrame(s, n) && TickFrame(n, r)
    ensures TickFrame(s, r)
  {
  }

  /** A tick that asks for no switch leaves the right task running. */
  lemma CountTickRight(s: State)
    requires Structure(s) && ClockOk(s) && RightTaskRuns(s) && !CountTick(s).switchRequired
    ensures RightTaskRuns(CountTick(s).state)
  {
    assert IsDelayedList(s.delayed) && s.tick < M && s.current in s.tcb;
    hide ContainersOk, OrderOk, ClockOk, RightTaskRuns, OneTickLater, UrgentDue;
    NextTickFacts(s);
    var n := NextTick(s);
    TickerFacts(s, n);
    SameRight(s, n);
    hide NextTick;
    if n.tick >= n.nextUnblock {
      WakeDueExact(n, false);
      WakeDueSwitch(n, false);
      StillRight(n, WakeDue(n, false).state);
    }
  }

  lemma SameRight(s: State, n: State)
    requires RightTaskRuns(s) && OneTickLater(s, n)
    ensures RightTaskRuns(n)
  {
  }

  lemma StillRight(n: State, r: State)
    requires RightTaskRuns(n) && WokeDue(n, r) && !UrgentDue(n)
    ensures RightTaskRuns(r)
  {
  }

  /** The state a tick leaves, with what it asks for recorded in xYieldPending. */
  function HeldBackTick(s: State): State
    requires Structure(s) && ClockOk(s) && s.current in s.tcb
  {
    var r := CountTick(s);
    r.state.(yieldPending := s.yieldPending || r.switchRequired)
  }

  /** What any number of held-back ticks keep and do. */
  ghost predicate Caught(s: State, r: State, n: nat) {
    && r.current == s.current && r.depth == s.depth && r.pended == s.pended && r.interrupts == s.interrupts
    && r.switchRequested == s.switchRequested && r.offReady == s.offReady
    && r.numberOfTasks == s.numberOfTasks && r.toCleanUp == s.toCleanUp && r.tcb.Keys == s.tcb.Keys
    && Items(r, TerminationList) == Items(s, TerminationList)
    && Waiting(r, PendingReady) == []
    && (TopOk(s) ==> TopOk(r))
    && (s.yieldPending ==> r.yieldPending)
    && (RightTaskRuns(s) ==> r.yieldPending || RightTaskRuns(r))
    && Now(r) == Now(s) + n
    && (EpochOk(s) ==> EpochOk(r))
  }

  /** The loop of xTaskResumeAll over uxPendedTicks. */
  function RunTicks(s: State, n: nat): State
    requires Structure(s) && ClockOk(s) && s.current in s.tcb
    decreases n
  {
    if n == 0 then s
    else
      HeldBackFacts(s);
      RunTicks(HeldBackTick(s), n - 1)
  }

  lemma HeldBackFacts(s: State)
    requires Structure(s) && ClockOk(s) && s.current in s.tcb
    ensures var r := HeldBackTick(s);
      Structure(r) && ClockOk(r) && r.current in r.tcb && TimeMoved(s, r) && Now(r) == Now(s) + 1
  {
    hide ContainersOk, OrderOk, CountTick;
    CountTickExact(s);
    SameStructure(CountTick(s).state, HeldBackTick(s));
  }

  lemma HeldBackFrame(s: State)
    requires Structure(s) && ClockOk(s) && s.current in s.tcb && Waiting(s, PendingReady) == []
    ensures Caught(s, HeldBackTick(s), 1)
  {
    assert IsDelayedList(s.delayed) && s.tick < M;
    hide ContainersOk, OrderOk, ClockOk, CountTick, EpochOk, Structure, TickFrame, Caught, TimeMoved;
    CountTickFrame(s);
    if RightTaskRuns(s) && !CountTick(s).switchRequired { CountTickRight(s); }
    CountTickExact(s);
    FrameIsCaught(s, CountTick(s), HeldBackTick(s));
  }

  lemma FrameIsCaught(s: State, c: Ticked, r: State)
    requires TickFrame(s, c.state) && Now(c.state) == Now(s) + 1
    requires RightTaskRuns(s) && !c.switchRequired ==> RightTaskRuns(c.state)
    requires r == c.state.(yieldPending := s.yieldPending || c.switchRequired)
    ensures Caught(s, r, 1)
  {
  }

  lemma SameRightNow(s: State, r: State)
    requires RightTaskRuns(s) && r.tcb == s.tcb && r.current == s.current
    ensures RightTaskRuns(r)
  {
  }

  lemma {:induction false} RunTicksKeeps(s: State, n: nat)
    requires Structure(s) && ClockOk(s) && s.current in s.tcb && Waiting(s, PendingReady) == []
    ensures Structure(RunTicks(s, n)) && ClockOk(RunTicks(s, n)) && Caught(s, RunTicks(s, n), n)
    decreases n
  {
    hide ContainersOk, OrderOk, ClockOk, Caught;
    if n == 0 {
      NoTicks(s);
    } else {
      HeldBackFacts(s);
      HeldBackFrame(s);
      var m := HeldBackTick(s);
      CaughtPending(s, m);
      hide HeldBackTick;
      RunTicksKeeps(m, n - 1);
      CaughtTwice(s, m, RunTicks(m, n - 1), n - 1);
    }
  }

  /** Any number of held-back ticks wake exactly the tasks whose time has come. */
  lemma {:induction false} RunTicksMove(s: State, n: nat)
    requires Structure(s) && ClockOk(s) && s.current in s.tcb && n > 0
    ensures TimeMoved(s, RunTicks(s, n)) && Now(RunTicks(s, n)) == Now(s) + n
    decreases n
  {
    hide ContainersOk, OrderOk, ClockOk, TimeMoved, HeldBackTick;
    HeldBackFacts(s);
    var m := HeldBackTick(s);
    if n > 1 {
      RunTicksMove(m, n - 1);
      MovedTwice(s, m, RunTicks(m, n - 1));
    } else {
      assert RunTicks(m, 0) == m;
    }
  }

  lemma MovedTwice(s: State, m: State, r: State)
    requires TimeMoved(s, m) && TimeMoved(m, r) && Now(m) <= Now(r)
    ensures TimeMoved(s, r)
  {
  }

  lemma NoTicks(s: State)
    requires Waiting(s, PendingReady) == []
    ensures Caught(s, s, 0)
  {
  }

  lemma CaughtPending(s: State, r: State)
    requires Caught(s, r, 1)
    ensures Waiting(r, PendingReady) == [] && r.tcb.Keys == s.tcb.Keys && r.current == s.current
  {
  }

  lemma CaughtTwice(s: State, m: State, r: State, n: nat)
    requires Caught(s, m, 1) && Caught(m, r, n)
    ensures Caught(s, r, n + 1)
  {
  }

  // ---------------------------------------------------------------- the whole call

  lemma DrainedClock(a: State, b: State)
    requires Structure(a) && ClockOk(a) && Structure(b) && Drained(a, b)
    ensures ClockOk(b) && ClockOk(b.(nextUnblock := NextUnblock(b)))
  {
    assert IsDelayedList(b.delayed);
    ReadyElsewhere(a, b);
    hide ContainersOk, OrderOk, Drained;
    ClockOkWithNext(b);
  }

  lemma ReadyElsewhere(a: State, b: State)
    requires ClockOk(a) && Drained(a, b)
    ensures ClockOk(b)
  {
  }

  /** prvResetNextTaskUnblockTime makes xNextTaskUnblockTime exact. */
  lemma ClockOkWithNext(s: State)
    requires Structure(s) && IsDelayedList(s.delayed) && TimesOk(s)
    ensures ClockOk(s.(nextUnblock := NextUnblock(s)))
  {
    HeadFacts(s, s.delayed);
    hide ContainersOk, OrderOk;
  }

  /** The clock part of the invariant without xNextTaskUnblockTime. */
  ghost predicate TimesOk(s: State) {
    && s.tick < M
    && (forall t :: t in s.tcb ==> s.tcb[t].wake < M)
    && (forall t :: t in s.tcb && s.tcb[t].at == s.delayed ==>
          s.tick <= s.tcb[t].wake && (s.tick == s.tcb[t].wake ==> s.tick < M - 1))
  }

  /** xPendingReadyList is emptied, and xNextTaskUnblockTime is set again if it was not empty. */
  function Emptied(a: State): State
    requires Structure(a) && ClockOk(a) && a.current in a.tcb
  {
    DrainKeeps(a);
    var b := DrainPending(a);
    DrainedClock(a, b);
    if Waiting(a, PendingReady) == [] then b else b.(nextUnblock := NextUnblock(b))
  }

  lemma EmptiedKeeps(a: State)
    requires Structure(a) && ClockOk(a) && a.current in a.tcb
    ensures var c := Emptied(a); Structure(c) && ClockOk(c) && c.current in c.tcb && Waiting(c, PendingReady) == []
  {
    hide ContainersOk, OrderOk, ClockOk, NextUnblock;
    DrainKeeps(a);
    var b := DrainPending(a);
    DrainedClock(a, b);
    SameStructure(b, Emptied(a));
    hide TopOk, RightTaskRuns;
  }

  /** xTaskResumeAll */
  function ResumeScheduler(s: State): State
    requires Structure(s) && ClockOk(s) && s.current in s.tcb && s.depth > 0
  {
    var a := s.(depth := s.depth - 1);
    SameStructure(s, a);
    if a.depth > 0 then a
    else
      EmptiedKeeps(a);
      var d := RunTicks(Emptied(a), s.pended);
      d.(pended := 0, switchRequested := d.switchRequested || d.yieldPending)
  }
}
