/** Whole runs and the order in which tasks wait for an event. */
module EventRuns {
  import opened Tick
  import opened Lists
  import RoundRobin
  import opened TaskLists
  import opened Kernel
  import opened KernelTick
  import opened KernelCalls
  import opened KernelResume
  import opened KernelRuns
  import opened KernelHistory
  import opened EventOrder

  ghost predicate Ordered(s: State, e: EventPlace) { ByPriority(Waiting(s, e), s.tcb) }

  /** What keeps the order of e if it was kept so far. */
  ghost predicate Keeps(s: State, r: State, e: EventPlace) { Ordered(s, e) ==> Ordered(r, e) }

  // ---------------------------------------------------------------- taking items off

  lemma SameWaiters(s: State, r: State, e: EventPlace)
    requires Waiting(r, e) == Waiting(s, e)
    requires forall t :: t in Waiting(s, e) && t in s.tcb ==> t in r.tcb && r.tcb[t].priority == s.tcb[t].priority
    ensures Keeps(s, r, e)
  {
  }

  lemma RemovedInOrder(waiting: seq<Task>, tcb: Tasks, r: Tasks, t: Task)
    requires ByPriority(waiting, tcb) && forall u :: u in waiting ==> u in r && r[u].priority == tcb[u].priority
    ensures ByPriority(Remove(waiting, t), r)
  {
    hide Remove;
    if t in waiting { var k := RemoveSplit(waiting, t); }
  }

  lemma LeaveEventOrder(s: State, t: Task, e: EventPlace)
    requires Structure(s) && t in s.tcb
    ensures Keeps(s, LeaveEvent(s, t), e)
  {
    hide ContainersOk, OrderOk, ByPriority, Remove;
    var r := LeaveEvent(s, t);
    LeaveEventAt(s, t, e);
    if Ordered(s, e) {
      WaitersThere(s, e);
      if s.tcb[t].on == e && e != NoEvent {
        RemovedInOrder(Waiting(s, e), s.tcb, r.tcb, t);
      } else {
        SameWaiters(s, r, e);
      }
    }
  }

  lemma WaitersThere(s: State, e: EventPlace)
    requires Ordered(s, e)
    ensures forall t :: t in Waiting(s, e) ==> t in s.tcb
  {
  }

  lemma LeaveEventAt(s: State, t: Task, e: EventPlace)
    requires Structure(s) && t in s.tcb
    ensures var r := LeaveEvent(s, t);
      && r.lists == s.lists && r.tcb == s.tcb[t := s.tcb[t].(on := NoEvent)]
      && Waiting(r, e) == if s.tcb[t].on == e && e != NoEvent then Remove(Waiting(s, e), t) else Waiting(s, e)
  {
    hide OrderOk, Remove;
  }

  lemma ParkOrder(s: State, t: Task, l: ListName, e: EventPlace)
    requires Structure(s) && t in s.tcb && l in s.lists
    ensures Keeps(s, Park(s, t, l), e)
  {
    hide ContainersOk, OrderOk, ByPriority, PutLast;
    SameWaiters(s, Park(s, t, l), e);
  }

  lemma MakeReadyOrder(s: State, t: Task, e: EventPlace)
    requires Structure(s) && t in s.tcb && s.tcb[t].on == NoEvent
    ensures Keeps(s, MakeReady(s, t), e)
  {
    hide ContainersOk, OrderOk, ByPriority, PutLast;
    MakeReadyKeeps(s, t);
    SameWaiters(s, MakeReady(s, t), e);
  }

  lemma WakeUpOrder(s: State, t: Task, e: EventPlace)
    requires Structure(s) && t in s.tcb
    ensures Keeps(s, WakeUp(s, t), e)
  {
    hide ContainersOk, OrderOk, LeaveEvent, MakeReady, ByPriority;
    LeaveEventKeeps(s, t);
    LeaveEventOrder(s, t, e);
    MakeReadyOrder(LeaveEvent(s, t), t, e);
  }

  // ---------------------------------------------------------------- the loops

  lemma {:induction false} DrainOrder(s: State, e: EventPlace)
    requires Structure(s) && s.current in s.tcb
    ensures Keeps(s, DrainPending(s), e)
    decreases |Waiting(s, PendingReady)|
  {
    hide ContainersOk, OrderOk, ByPriority;
    if Waiting(s, PendingReady) != [] {
      var t := Waiting(s, PendingReady)[0];
      WaiterIsTask(s, PendingReady);
      WakeUpFacts(s, t);
      WakeUpDrains(s, t);
      WakeUpOrder(s, t, e);
      var m := WakeUp(s, t).(yieldPending := s.yieldPending || Priority(s, t) >= Priority(s, s.current));
      SameStructure(WakeUp(s, t), m);
      hide WakeUp;
      DrainOrder(m, e);
    }
  }

  lemma {:induction false} WakeDueOrder(s: State, switchRequired: bool, e: EventPlace)
    requires Structure(s) && IsDelayedList(s.delayed) && s.current in s.tcb
    ensures Keeps(s, WakeDue(s, switchRequired).state, e)
    decreases |Items(s, s.delayed)|
  {
    hide ContainersOk, OrderOk, ByPriority;
    HeadFacts(s, s.delayed);
    if Items(s, s.delayed) != [] {
      var h := Items(s, s.delayed)[0];
      if s.tcb[h].wake <= s.tick {
        WakeUpFacts(s, h);
        WakeUpShortens(s, h);
        WakeUpOrder(s, h, e);
        var m := WakeUp(s, h);
        hide WakeUp;
        WakeDueOrder(m, switchRequired || Priority(s, h) >= Priority(s, s.current), e);
      }
    }
  }

  lemma CountTickOrder(s: State, e: EventPlace)
    requires Structure(s) && ClockOk(s) && s.current in s.tcb
    ensures IsDelayedList(s.delayed) && s.tick < M && Keeps(s, CountTick(s).state, e)
  {
    hide ContainersOk, OrderOk, ClockOk, ByPriority, WakeDue, NextUnblock;
    KnownDelayed(s);
    NextTickFacts(s);
    var n := NextTick(s);
    assert n.events == s.events && n.tcb == s.tcb;
    SameWaiters(s, n, e);
    TickerFacts(s, n);
    hide NextTick;
    WakeDueOrder(n, false, e);
  }

  lemma {:induction false} RunTicksOrder(s: State, n: nat, e: EventPlace)
    requires Structure(s) && ClockOk(s) && s.current in s.tcb
    ensures Keeps(s, RunTicks(s, n), e)
    decreases n
  {
    hide ContainersOk, OrderOk, ClockOk, ByPriority, CountTick, TimeMoved;
    if n > 0 {
      KnownDelayed(s);
      HeldBackFacts(s);
      CountTickOrder(s, e);
      SameWaiters(CountTick(s).state, HeldBackTick(s), e);
      hide HeldBackTick;
      RunTicksOrder(HeldBackTick(s), n - 1, e);
    }
  }

  lemma ResumeOrder(s: State, e: EventPlace)
    requires Inv(s) && s.depth > 0
    ensures Keeps(s, ResumeScheduler(s), e)
  {
    hide Inv, ContainersOk, OrderOk, ClockOk, ByPriority, RunTicks, DrainPending, NextUnblock, Drained;
    InvFacts(s);
    var a := s.(depth := s.depth - 1);
    SameStructure(s, a);
    SameClockOk(s, a);
    SameWaiters(s, a, e);
    if a.depth == 0 {
      DrainKeeps(a);
      DrainOrder(a, e);
      EmptiedKeeps(a);
      SameWaiters(DrainPending(a), Emptied(a), e);
      RunTicksOrder(Emptied(a), s.pended, e);
      SameWaiters(RunTicks(Emptied(a), s.pended), ResumeScheduler(s), e);
    }
  }

  // ---------------------------------------------------------------- every step

  /** The calls that could disturb the order of e do not: whoever blocks there does so by
      priority, and a waiter's new priority fits where it waits. */
  ghost predicate StepFits(s: State, op: Op, e: EventPlace) {
    match op
    case SetPriority(t, p) => (forall u :: u in Waiting(s, e) ==> u in s.tcb) && Fits(Waiting(s, e), s.tcb, t, p)
    case Block(_, _, on, byPriority) => on == e ==> byPriority
    case _ => true
  }

  lemma ForgetOrder(s: State, t: Task, r: State, e: EventPlace)
    requires Structure(s) && t in s.tcb && e != NoEvent
    requires r.tcb == Forget(s, t).tcb && r.events == Forget(s, t).events
    ensures Keeps(s, r, e)
  {
    hide ContainersOk, OrderOk, ByPriority, TakeOff, LeaveEvent;
    ForgetKeeps(s, t);
    LeaveEventKeeps(s, t);
    LeaveEventOrder(s, t, e);
    GoneFrom(s, t, e);
    var m := LeaveEvent(s, t);
    assert r.events == m.events && r.tcb == m.tcb - {t};
    SameWaiters(m, r, e);
  }

  lemma GoneFrom(s: State, t: Task, e: EventPlace)
    requires Structure(s) && t in s.tcb && e != NoEvent
    ensures t !in Waiting(LeaveEvent(s, t), e)
  {
    if e in s.events { RemoveKeeps(s.events[e], t); }
    hide Remove;
  }

  lemma DeleteOrder(s: State, t: Task, e: EventPlace)
    requires Inv(s) && t in s.tcb && e.EventList?
    ensures Keeps(s, DeleteTask(s, t), e)
  {
    hide Inv, ContainersOk, OrderOk, ClockOk, ByPriority, Forget, NextUnblock, LeaveEvent, Park;
    InvFacts(s);
    LeaveEventKeeps(s, t);
    SpecialLists(LeaveEvent(s, t));
    if t == s.current {
      LeaveEventOrder(s, t, e);
      ParkOrder(LeaveEvent(s, t), t, TerminationList, e);
      SameWaiters(Park(LeaveEvent(s, t), t, TerminationList), DeleteTask(s, t), e);
    } else {
      ForgetKeeps(s, t);
      ForgetOrder(s, t, DeleteTask(s, t), e);
    }
  }

  lemma CleanUpOrder(s: State, e: EventPlace)
    requires Inv(s) && Items(s, TerminationList) != [] && e.EventList?
    ensures Keeps(s, CleanUpOne(s), e)
  {
    hide Inv, ContainersOk, OrderOk, ClockOk, ByPriority, Forget;
    InvFacts(s);
    HeadIsTask(s, TerminationList);
    ForgetOrder(s, Items(s, TerminationList)[0], CleanUpOne(s), e);
  }

  lemma BlockOrder(s: State, ticks: nat, indefinitely: bool, on: EventPlace, byPriority: bool, e: EventPlace)
    requires Inv(s) && IsReady(s, s.current) && ticks < M && (on == NoEvent || (on.EventList? && on in s.events))
    requires e.EventList? && (on == e ==> byPriority)
    ensures Keeps(s, BlockCurrent(s, ticks, indefinitely, on, byPriority), e)
  {
    hide Inv, ContainersOk, OrderOk, ClockOk, ByPriority, TimeOut, Joined;
    InvFacts(s);
    TimeOutKeeps(s, ticks, indefinitely);
    TimeOutSamePriorities(s, ticks, indefinitely);
    if Ordered(s, e) {
      WaitersThere(s, e);
      if on == e {
        BlockingKeepsOrder(s, ticks, indefinitely, e);
      } else {
        SameWaiters(s, BlockCurrent(s, ticks, indefinitely, on, byPriority), e);
      }
    }
  }

  /** Off one event list and onto xPendingReadyList. */
  lemma PendOrder(s: State, t: Task, e: EventPlace)
    requires Structure(s) && t in s.tcb && PendingReady in s.events && e.EventList?
    ensures Keeps(s, JoinEvent(s, t, PendingReady, false), e)
  {
    hide ContainersOk, OrderOk, ByPriority;
    JoinEventFacts(s, t, PendingReady, false);
    var r := JoinEvent(s, t, PendingReady, false);
    assert Waiting(r, e) == Waiting(s, e);
    SameWaiters(s, r, e);
  }

  lemma WakeFirstOrder(s: State, from: EventPlace, e: EventPlace)
    requires Inv(s) && Waiting(s, from) != [] && from.EventList? && e.EventList?
    ensures Keeps(s, WakeFirstOf(s, from), e)
  {
    hide Inv, ContainersOk, OrderOk, ClockOk, ByPriority, LeaveEvent, MakeReady, JoinEvent;
    InvFacts(s);
    WaiterIsTask(s, from);
    SpecialLists(s);
    var t := Waiting(s, from)[0];
    LeaveEventKeeps(s, t);
    LeaveEventOrder(s, t, e);
    var m := LeaveEvent(s, t);
    SpecialLists(m);
    LeaveEventFrame(s, t);
    if s.depth == 0 {
      MakeReadyOrder(m, t, e);
      SameWaiters(MakeReady(m, t), WakeFirstOf(s, from), e);
    } else {
      PendOrder(m, t, e);
      SameWaiters(JoinEvent(m, t, PendingReady, false), WakeFirstOf(s, from), e);
    }
  }

  lemma LeaveEventFrame(s: State, t: Task)
    requires Structure(s) && t in s.tcb
    ensures LeaveEvent(s, t).depth == s.depth
  {
    hide ContainersOk, OrderOk, Remove;
  }

  lemma SuspendOrder(s: State, t: Task, e: EventPlace)
    requires Inv(s) && t in s.tcb
    ensures Keeps(s, SuspendTask(s, t), e)
  {
    hide Inv, ContainersOk, OrderOk, ClockOk, ByPriority, LeaveEvent, Park, NextUnblock;
    InvFacts(s);
    SuspendKeeps(s, t);
    LeaveEventOrder(s, t, e);
    ParkOrder(LeaveEvent(s, t), t, SuspendedList, e);
    SameWaiters(Park(LeaveEvent(s, t), t, SuspendedList), SuspendTask(s, t), e);
  }

  lemma ResumeTaskOrder(s: State, t: Task, e: EventPlace)
    requires Inv(s) && t in s.tcb && e.EventList?
    ensures Keeps(s, ResumeTask(s, t), e) && Keeps(s, ResumeInISR(s, t), e)
  {
    hide Inv, ContainersOk, OrderOk, ClockOk, ByPriority, MakeReady, JoinEvent;
    InvFacts(s);
    SpecialLists(s);
    if IsSuspended(s, t) {
      MakeReadyOrder(s, t, e);
      SameWaiters(MakeReady(s, t), ResumeTask(s, t), e);
      PendOrder(s, t, e);
    }
  }

  lemma SetPriorityOrder(s: State, t: Task, p: nat, e: EventPlace)
    requires Inv(s) && t in s.tcb && p < MAX_PRIORITIES && StepFits(s, SetPriority(t, p), e)
    ensures Keeps(s, ChangePriority(s, t, p), e)
  {
    hide Inv, ContainersOk, OrderOk, ClockOk, ByPriority, ChangePriority, Fits;
    InvFacts(s);
    if Ordered(s, e) { PrioritySetKeepsOrderExactly(s, t, p, e); }
  }

  lemma TickOrder(s: State, e: EventPlace)
    requires Inv(s)
    ensures Keeps(s, TickISR(s), e)
  {
    hide Inv, ContainersOk, OrderOk, ClockOk, ByPriority, CountTick;
    InvFacts(s);
    if s.depth > 0 {
      SameWaiters(s, TickISR(s), e);
    } else {
      CountTickOrder(s, e);
      SameWaiters(CountTick(s).state, TickISR(s), e);
    }
  }

  lemma StepOrder(s: State, op: Op, e: EventPlace)
    requires Inv(s) && Enabled(s, op) && e.EventList? && StepFits(s, op, e)
    ensures Keeps(s, Step(s, op), e)
  {
    hide Inv, ContainersOk, OrderOk, ClockOk, TopOk, Keeps;
    hide CreateTask, DeleteTask, CleanUpOne, BlockCurrent, ResumeScheduler, TickISR, WakeFirstOf, WakeWaiterOf, SuspendTask;
    hide ResumeTask, ResumeInISR, ChangePriority, SwitchTask;
    InvFacts(s);
    match op
    case Create(t, p) => CreateOrder(s, t, p, e);
    case Delete(t) => DeleteOrder(s, t, e);
    case CleanUp => CleanUpOrder(s, e);
    case Block(ticks, indefinitely, on, byPriority) => BlockOrder(s, ticks, indefinitely, on, byPriority, e);
    case SuspendAll => SameWaiters(s, Step(s, op), e);
    case ResumeAll => ResumeOrder(s, e);
    case TickInterrupt => TickOrder(s, e);
    case WakeFirst(from) => WakeFirstOrder(s, from, e);
    case WakeWaiter(t) => WakeWaiterOrder(s, t, e);
    case Suspend(t) => SuspendOrder(s, t, e);
    case Resume(t) => ResumeTaskOrder(s, t, e);
    case ResumeFromISR(t) => ResumeTaskOrder(s, t, e);
    case SetPriority(t, p) => SetPriorityOrder(s, t, p, e);
    case Yield => SameWaiters(s, Step(s, op), e);
    case SwitchContext => SwitchOrder(s, e);
  }

  lemma CreateOrder(s: State, t: Task, p: nat, e: EventPlace)
    requires Structure(s) && t !in s.tcb && MAX_PRIORITIES > 0
    ensures Keeps(s, CreateTask(s, t, p), e)
  {
    hide ContainersOk, OrderOk, ByPriority, RoundRobin.InsertEnd;
    SameWaiters(s, CreateTask(s, t, p), e);
  }

  lemma WakeWaiterOrder(s: State, t: Task, e: EventPlace)
    requires Structure(s) && t in s.tcb && s.current in s.tcb
    ensures Keeps(s, WakeWaiterOf(s, t), e)
  {
    hide ContainersOk, OrderOk, ByPriority, WakeUp;
    WakeUpOrder(s, t, e);
    SameWaiters(WakeUp(s, t), WakeWaiterOf(s, t), e);
  }

  lemma SwitchOrder(s: State, e: EventPlace)
    requires Structure(s) && TopOk(s) && (s.depth == 0 ==> SomeTaskReady(s))
    ensures Keeps(s, SwitchTask(s), e)
  {
    hide ContainersOk, OrderOk, TopOk, ByPriority, RoundRobin.Advance, TopNonEmpty;
    SameWaiters(s, SwitchTask(s), e);
  }

  // ---------------------------------------------------------------- runs

  ghost predicate AllFit(s: State, ops: seq<Op>, e: EventPlace)
    requires Inv(s) && CanRun(s, ops)
    decreases |ops|
  {
    ops == [] || (StepFits(s, ops[0], e) && (StepKeeps(s, ops[0]); AllFit(Step(s, ops[0]), ops[1..], e)))
  }

  lemma {:induction false} RunOrder(s: State, ops: seq<Op>, e: EventPlace)
    requires Inv(s) && CanRun(s, ops) && e.EventList? && AllFit(s, ops, e) && Ordered(s, e)
    ensures Ordered(After(s, ops), e)
    decreases |ops|
  {
    hide Inv, Enabled, Step, StepFits, Ordered;
    if ops != [] {
      StepKeeps(s, ops[0]);
      StepOrder(s, ops[0], e);
      RunOrder(Step(s, ops[0]), ops[1..], e);
    }
  }

  /** After any run in which whoever blocks on e does so by priority and every new
      priority of a waiter fits, an event wakes a most urgent waiter. */
  lemma MostUrgentIsWoken(s: State, ops: seq<Op>, e: EventPlace)
    requires Inv(s) && CanRun(s, ops) && e.EventList? && AllFit(s, ops, e) && Ordered(s, e)
    ensures var r := After(s, ops);
      Inv(r) && r.current in r.tcb && (Waiting(r, e) != [] ==>
        && Enabled(r, WakeFirst(e)) && Waiting(r, e)[0] in r.tcb
        && (forall t :: t in Waiting(r, e) ==> t in r.tcb && r.tcb[t].priority <= r.tcb[Waiting(r, e)[0]].priority)
        && Waiting(Step(r, WakeFirst(e)), e) == Waiting(r, e)[1..])
  {
    hide Inv, CanRun, After, AllFit, Ordered, Enabled, Step;
    RunKeeps(s, ops);
    RunOrder(s, ops, e);
    InvFacts(After(s, ops));
    if Waiting(After(s, ops), e) != [] { HeadIsWoken(After(s, ops), e); }
  }

  lemma HeadIsWoken(r: State, e: EventPlace)
    requires Inv(r) && e.EventList? && Ordered(r, e) && Waiting(r, e) != []
    ensures r.current in r.tcb && Enabled(r, WakeFirst(e)) && Waiting(r, e)[0] in r.tcb
    ensures forall t :: t in Waiting(r, e) ==> t in r.tcb && r.tcb[t].priority <= r.tcb[Waiting(r, e)[0]].priority
    ensures Waiting(Step(r, WakeFirst(e)), e) == Waiting(r, e)[1..]
  {
    hide Inv, ContainersOk, OrderOk, ClockOk, ByPriority, WakeFirstOf;
    InvFacts(r);
    WaitersThere(r, e);
    MostUrgentFirst(r, e);
    FirstLeaves(r, e);
  }

  lemma FirstLeaves(s: State, e: EventPlace)
    requires Structure(s) && s.current in s.tcb && e.EventList? && Waiting(s, e) != []
    ensures Waiting(WakeFirstOf(s, e), e) == Waiting(s, e)[1..]
  {
    hide ContainersOk, OrderOk, MakeReady, JoinEvent, Remove, LeaveEvent;
    WaiterIsTask(s, e);
    SpecialLists(s);
    var t := Waiting(s, e)[0];
    LeaveEventKeeps(s, t);
    LeaveEventAt(s, t, e);
    HeadGone(Waiting(s, e));
    var m := LeaveEvent(s, t);
    LeaveEventFrame(s, t);
    SpecialLists(m);
    if s.depth == 0 {
      MakeReadyEvents(m, t);
    } else {
      JoinEventFacts(m, t, PendingReady, false);
      JoinElsewhere(m, t, e);
    }
  }

  lemma HeadGone(waiting: seq<Task>)
    requires waiting != []
    ensures Remove(waiting, waiting[0]) == waiting[1..]
  {
  }

  lemma MakeReadyEvents(s: State, t: Task)
    requires Structure(s) && t in s.tcb
    ensures MakeReady(s, t).events == s.events
  {
    hide ContainersOk, OrderOk, PutLast;
  }

  lemma JoinElsewhere(s: State, t: Task, e: EventPlace)
    requires Structure(s) && t in s.tcb && PendingReady in s.events && e != PendingReady
    ensures Waiting(JoinEvent(s, t, PendingReady, false), e) == Waiting(s, e)
  {
    hide ContainersOk, OrderOk;
  }
}
