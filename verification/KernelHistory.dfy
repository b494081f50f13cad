/** Whole runs of the scheduler: any interleaving of calls and interrupts. */
module KernelHistory {
  import opened Tick
  import opened Lists
  import opened RoundRobin
  import opened TaskLists
  import opened Kernel
  import opened KernelTick
  import opened KernelCalls
  import opened KernelResume
  import opened KernelRuns

  datatype Op =
    | Create(t: Task, priority: nat)
    | Delete(t: Task)
    | CleanUp
    | Block(ticks: nat, indefinitely: bool, on: EventPlace, byPriority: bool)
    | SuspendAll
    | ResumeAll
    | TickInterrupt
    | WakeFirst(e: EventPlace)
    | WakeWaiter(t: Task)
    | Suspend(t: Task)
    | Resume(t: Task)
    | ResumeFromISR(t: Task)
    | SetPriority(t: Task, priority: nat)
    | Yield
    | SwitchContext

  /** What the calls assert, what a task that is running can ask for, and that a
      switch finds a task to run (the idle task never blocks). */
  ghost predicate Enabled(s: State, op: Op)
    requires s.current in s.tcb
  {
    match op
    case Create(t, _) => t !in s.tcb && MAX_PRIORITIES > 0
    case Delete(t) => t in s.tcb && s.tcb[t].at != TerminationList && (t == s.current ==> s.depth == 0)
    case CleanUp => Items(s, TerminationList) != [] && Items(s, TerminationList)[0] != s.current
    case Block(ticks, _, e, _) =>
      && IsReady(s, s.current) && ticks < M && (ticks == 0 ==> s.tick < M - 1)
      && (e == NoEvent || (e.EventList? && e in s.events))
    case SuspendAll => true
    case ResumeAll => s.depth > 0
    case TickInterrupt => true
    case WakeFirst(e) => e.EventList? && Waiting(s, e) != []
    case WakeWaiter(t) => t in s.tcb && s.tcb[t].on.EventList? && s.depth > 0
    case Suspend(t) => t in s.tcb && s.tcb[t].at != TerminationList && (t == s.current ==> s.depth == 0)
    case Resume(t) => t in s.tcb && t != s.current
    case ResumeFromISR(t) => t in s.tcb
    case SetPriority(t, p) => t in s.tcb && p < MAX_PRIORITIES
    case Yield => true
    case SwitchContext => s.depth == 0 ==> SomeTaskReady(s)
  }

  /** The calls that move one task. */
  predicate MovesTask(op: Op) {
    op.Create? || op.Delete? || op.Block? || op.WakeFirst? || op.WakeWaiter? || op.Suspend? || op.Resume? || op.ResumeFromISR?
  }

  function MoveTask(s: State, op: Op): State
    requires Inv(s) && Enabled(s, op) && MovesTask(op)
  {
    InvFacts(s);
    MoveCalled(s, op)
  }

  /** The call, on the parts of the invariant it reads. */
  function MoveCalled(s: State, op: Op): State
    requires Structure(s) && ClockOk(s) && s.current in s.tcb && Enabled(s, op) && MovesTask(op)
  {
    match op
    case Create(t, p) => CreateTask(s, t, p)
    case Delete(t) => DeleteTask(s, t)
    case Block(ticks, indefinitely, e, byPriority) => BlockCurrent(s, ticks, indefinitely, e, byPriority)
    case WakeFirst(e) => WakeFirstOf(s, e)
    case WakeWaiter(t) => WakeWaiterOf(s, t)
    case Suspend(t) => SuspendTask(s, t)
    case Resume(t) => ResumeTask(s, t)
    case ResumeFromISR(t) => ResumeInISR(s, t)
  }

  function Step(s: State, op: Op): State
    requires Inv(s) && Enabled(s, op)
  {
    if MovesTask(op) then MoveTask(s, op)
    else
      match op
      case CleanUp => CleanUpOne(s)
      case SuspendAll => s.(depth := s.depth + 1)
      case ResumeAll => ResumeScheduler(s)
      case TickInterrupt => TickISR(s)
      case SetPriority(t, p) => ChangePriority(s, t, p)
      case Yield => s.(switchRequested := true)
      case SwitchContext => SwitchTask(s)
  }

  /** Every call and interrupt keeps the invariant. */
  lemma StepKeeps(s: State, op: Op)
    requires Inv(s) && Enabled(s, op)
    ensures Inv(Step(s, op))
  {
    hide Inv, ContainersOk, OrderOk, ClockOk, CountsOk, TopOk, RunningOk;
    match op
    case Create(t, p) => CreateInv(s, t, p);
    case Delete(t) => if t == s.current { DeleteSelf(s); } else { DeleteOther(s, t); }
    case CleanUp => CleanUpInv(s);
    case Block(ticks, indefinitely, e, byPriority) => BlockInv(s, ticks, indefinitely, e, byPriority);
    case SuspendAll => FlagsInv(s, s.(depth := s.depth + 1));
    case ResumeAll => ResumeAllInv(s);
    case TickInterrupt => TickInv(s);
    case WakeFirst(e) => WakeFirstInv(s, e);
    case WakeWaiter(t) => WakeWaiterInv(s, t);
    case Suspend(t) => SuspendInv(s, t);
    case Resume(t) => ResumeInv(s, t);
    case ResumeFromISR(t) => ResumeInISRInv(s, t);
    case SetPriority(t, p) => SetPriorityInv(s, t, p);
    case Yield => FlagsInv(s, s.(switchRequested := true));
    case SwitchContext => SwitchInv(s);
  }

  lemma FlagsInv(s: State, r: State)
    requires Inv(s)
    requires r == s.(depth := s.depth + 1) || r == s.(switchRequested := true)
    ensures Inv(r)
  {
    SameStructure(s, r);
    SameClockOk(s, r);
    SameTop(s, r);
    FlagsCounts(s, r);
    hide ContainersOk, OrderOk, ClockOk, TopOk, CountsOk;
    if RightTaskRuns(s) { SameRightNow(s, r); }
    hide RightTaskRuns;
  }

  lemma FlagsCounts(s: State, r: State)
    requires CountsOk(s)
    requires r == s.(depth := s.depth + 1) || r == s.(switchRequested := true)
    ensures CountsOk(r)
  {
  }

  // ---------------------------------------------------------------- the start

  function AllLists(): set<ListName> {
    (set p: nat | p < MAX_PRIORITIES :: ReadyList(p)) + {DelayedList1, DelayedList2, SuspendedList, TerminationList}
  }

  /** The scheduler starts with one task; the others are created as it runs. */
  function Boot(t: Task, priority: nat, events: set<EventPlace>): State
    requires priority < MAX_PRIORITIES
  {
    State(0, 0, 0, 0, 0, MAX_DELAY, false, false, false, priority, t, 1, 0, DelayedList1,
          map l | l in AllLists() :: if l == ReadyList(priority) then Ring([t], 0) else Ring([], 0),
          map e | e in events + {PendingReady} :: [],
          map[t := TCB(priority, 0, ReadyList(priority), NoEvent)], 0)
  }

  lemma BootOk(t: Task, priority: nat, events: set<EventPlace>)
    requires priority < MAX_PRIORITIES && NoEvent !in events
    ensures Inv(Boot(t, priority, events))
  {
    hide StateItemsOk, EventItemsOk, TasksOk, InOrder;
    BootStateItems(t, priority, events);
    BootOthers(t, priority, events);
  }

  lemma BootStateItems(t: Task, priority: nat, events: set<EventPlace>)
    requires priority < MAX_PRIORITIES
    ensures var s := Boot(t, priority, events); StateItemsOk(s.lists, s.tcb)
  {
  }

  lemma BootOthers(t: Task, priority: nat, events: set<EventPlace>)
    requires priority < MAX_PRIORITIES && NoEvent !in events
    ensures var s := Boot(t, priority, events);
      EventItemsOk(s.events, s.tcb) && TasksOk(s.lists, s.tcb)
      && InOrder(s.lists, s.tcb, DelayedList1) && InOrder(s.lists, s.tcb, DelayedList2)
  {
  }

  // ---------------------------------------------------------------- runs

  ghost predicate CanRun(s: State, ops: seq<Op>)
    requires Inv(s)
    decreases |ops|
  {
    ops == [] || (Enabled(s, ops[0]) && (StepKeeps(s, ops[0]); CanRun(Step(s, ops[0]), ops[1..])))
  }

  function After(s: State, ops: seq<Op>): State
    requires Inv(s) && CanRun(s, ops)
    decreases |ops|
  {
    if ops == [] then s else StepKeeps(s, ops[0]); After(Step(s, ops[0]), ops[1..])
  }

  lemma {:induction false} RunKeeps(s: State, ops: seq<Op>)
    requires Inv(s) && CanRun(s, ops)
    ensures Inv(After(s, ops))
    decreases |ops|
  {
    hide Inv, Enabled, Step;
    if ops != [] {
      StepKeeps(s, ops[0]);
      RunKeeps(Step(s, ops[0]), ops[1..]);
    }
  }

  // ---------------------------------------------------------------- time over runs

  function Ticks(op: Op): nat { if op == TickInterrupt then 1 else 0 }

  function TicksIn(ops: seq<Op>): nat {
    if ops == [] then 0 else Ticks(ops[0]) + TicksIn(ops[1..])
  }

  /** Every step counts its own tick interrupt and no other, and time never runs back. */
  lemma StepTicks(s: State, op: Op)
    requires Inv(s) && Enabled(s, op)
    ensures Step(s, op).interrupts == s.interrupts + Ticks(op) && Now(Step(s, op)) >= Now(s)
  {
    hide Inv, Structure, ClockOk, CountsOk, TopOk, RunningOk;
    hide CreateTask, DeleteTask, CleanUpOne, BlockCurrent, WakeFirstOf, WakeWaiterOf, SuspendTask, ResumeTask, ResumeInISR;
    hide ChangePriority, ResumeScheduler, TickISR;
    match op
    case Create(t, p) => CreateInv(s, t, p);
    case Delete(t) => if t == s.current { DeleteSelf(s); } else { DeleteOther(s, t); }
    case CleanUp => CleanUpInv(s);
    case Block(ticks, indefinitely, e, byPriority) => BlockInv(s, ticks, indefinitely, e, byPriority);
    case SuspendAll =>
    case ResumeAll => ResumeTicks(s);
    case TickInterrupt => InvFacts(s); CountTickExact(s); TickTicks(s);
    case WakeFirst(e) => WakeFirstInv(s, e);
    case WakeWaiter(t) => WakeWaiterInv(s, t);
    case Suspend(t) => SuspendInv(s, t);
    case Resume(t) => ResumeInv(s, t);
    case ResumeFromISR(t) => ResumeInISRInv(s, t);
    case SetPriority(t, p) => SetPriorityInv(s, t, p);
    case Yield =>
    case SwitchContext => InvFacts(s);
  }

  lemma TickTicks(s: State)
    requires Inv(s)
    ensures TickISR(s).interrupts == s.interrupts + 1 && Now(TickISR(s)) == Now(s) + if s.depth == 0 then 1 else 0
  {
    hide Inv, ContainersOk, OrderOk, ClockOk, CountsOk, TopOk, RunningOk, CountTick, TimeMoved;
    InvFacts(s);
    CountTickExact(s);
  }

  lemma ResumeTicks(s: State)
    requires Inv(s) && s.depth > 0
    ensures ResumeScheduler(s).interrupts == s.interrupts
    ensures Now(ResumeScheduler(s)) == Now(s) + if s.depth == 1 then s.pended else 0
  {
    hide Inv, ContainersOk, OrderOk, ClockOk, TopOk, RunningOk, RunTicks, DrainPending, RightTaskRuns;
    InvFacts(s);
    var a := s.(depth := s.depth - 1);
    SameStructure(s, a);
    SameClockOk(s, a);
    if a.depth == 0 {
      DrainKeeps(a);
      EmptiedKeeps(a);
      RunTicksKeeps(Emptied(a), s.pended);
    }
  }

  lemma {:induction false} RunTicksCounted(s: State, ops: seq<Op>)
    requires Inv(s) && CanRun(s, ops)
    ensures After(s, ops).interrupts == s.interrupts + TicksIn(ops)
    ensures Now(After(s, ops)) >= Now(s)
    decreases |ops|
  {
    hide Inv, Enabled, Step;
    if ops != [] {
      StepKeeps(s, ops[0]);
      StepTicks(s, ops[0]);
      RunTicksCounted(Step(s, ops[0]), ops[1..]);
    }
  }

  /** Tick conservation: whatever the nesting of suspensions, xTickCount and
      uxPendedTicks together are the tick interrupts there were, and nothing is held
      back while the scheduler runs. */
  lemma NoTickIsLost(s: State, ops: seq<Op>)
    requires Inv(s) && CanRun(s, ops) && s.interrupts == 0
    ensures var r := After(s, ops);
      && r.tick == (TicksIn(ops) - r.pended) % M
      && (r.depth == 0 ==> r.pended == 0 && Waiting(r, PendingReady) == [])
  {
    hide Inv, CanRun, After;
    RunKeeps(s, ops);
    RunTicksCounted(s, ops);
    CountsRead(After(s, ops));
  }

  lemma CountsRead(r: State)
    requires Inv(r)
    ensures r.tick == (r.interrupts - r.pended) % M
    ensures r.depth == 0 ==> r.pended == 0 && Waiting(r, PendingReady) == []
  {
    CountsOfInv(r);
    hide Inv;
    Reduced(r.interrupts - r.pended, r.overflows, r.tick);
  }

  lemma CountsOfInv(r: State)
    requires Inv(r)
    ensures r.tick < M && r.interrupts - r.pended == r.overflows * M + r.tick
    ensures r.depth == 0 ==> r.pended == 0 && Waiting(r, PendingReady) == []
  {
  }

  // ---------------------------------------------------------------- the right task runs

  /** With no switch asked for, pxCurrentTCB is in the ready list of its priority and
      every more urgent ready list is empty, after any run. */
  lemma TheRightTaskRuns(s: State, ops: seq<Op>)
    requires Inv(s) && CanRun(s, ops) && !Asks(After(s, ops))
    ensures var r := After(s, ops);
      && r.current in r.tcb && r.current in Items(r, ReadyList(r.tcb[r.current].priority))
      && forall p :: p > r.tcb[r.current].priority ==> Items(r, ReadyList(p)) == []
  {
    RunKeeps(s, ops);
    RightByLists(After(s, ops));
  }

  lemma RightByLists(r: State)
    requires Inv(r) && !Asks(r)
    ensures r.current in r.tcb && r.current in Items(r, ReadyList(r.tcb[r.current].priority))
    ensures forall p :: p > r.tcb[r.current].priority ==> Items(r, ReadyList(p)) == []
  {
    ReadyIsHome(r, r.current);
    WhereAbouts(r.lists, r.tcb, r.current);
    forall p | p > r.tcb[r.current].priority ensures Items(r, ReadyList(p)) == [] {
      if Items(r, ReadyList(p)) != [] {
        HeadIsTask(r, ReadyList(p));
      }
    }
    hide ContainersOk, OrderOk, ClockOk, CountsOk;
  }

  // ---------------------------------------------------------------- exact wake-up over runs

  /** Something other than time concerns a waiting task: it is deleted, suspended,
      woken by its event, or was woken while the scheduler was suspended. */
  ghost predicate Disturbs(s: State, op: Op, t: Task)
    requires t in s.tcb
  {
    || op == Delete(t) || op == Suspend(t) || op == WakeWaiter(t)
    || (op.WakeFirst? && Waiting(s, op.e) != [] && Waiting(s, op.e)[0] == t)
    || (op == ResumeAll && s.tcb[t].on == PendingReady)
  }

  /** One step of a delayed task's wait. */
  ghost predicate Waits(s: State, r: State, t: Task)
    requires t in s.tcb
  {
    t in r.tcb &&
    if Now(r) > Now(s) && Due(s, t) <= Now(r) then r.tcb[t] == Woken(s.tcb[t])
    else IsDelayed(r, t) && Due(r, t) == Due(s, t)
  }

  lemma StepWaits(s: State, op: Op, t: Task)
    requires Inv(s) && Enabled(s, op) && IsDelayed(s, t) && !Disturbs(s, op, t)
    ensures Waits(s, Step(s, op), t)
  {
    hide Inv, Structure, ClockOk, TopOk, Concerns, Waits, Due, MoveTask;
    hide CleanUpOne, ResumeScheduler, TickISR, ChangePriority, SwitchTask;
    InvFacts(s);
    var r := Step(s, op);
    if MovesTask(op) {
      MoveWaits(s, op, t);
    } else {
      match op
      case CleanUp =>
        CleanUpInv(s);
        HeadIsTask(s, TerminationList);
        OthersWait(s, r, Items(s, TerminationList)[0], t);
      case SuspendAll => SameWait(s, r, t);
      case ResumeAll => ResumeWaits(s, t);
      case TickInterrupt => TickWaits(s, t);
      case SetPriority(u, p) =>
        ChangePriorityFacts(s, u, p);
        SameWait(s, r, t);
      case Yield => SameWait(s, r, t);
      case SwitchContext => SwitchWait(s, t);
    }
  }

  lemma MoveWaits(s: State, op: Op, t: Task)
    requires Inv(s) && Enabled(s, op) && MovesTask(op) && IsDelayed(s, t) && !Disturbs(s, op, t)
    ensures Waits(s, MoveTask(s, op), t)
  {
    hide Inv, Structure, ClockOk, TopOk, Concerns, Waits, Due;
    hide CreateTask, DeleteTask, BlockCurrent, WakeFirstOf, WakeWaiterOf, SuspendTask;
    InvFacts(s);
    var r := MoveTask(s, op);
    match op
    case Create(u, p) => CreateInv(s, u, p); OthersWait(s, r, u, t);
    case Delete(u) =>
      if u == s.current { DeleteSelf(s); } else { DeleteOther(s, u); }
      OthersWait(s, r, u, t);
    case Block(ticks, indefinitely, e, byPriority) =>
      BlockInv(s, ticks, indefinitely, e, byPriority);
      OthersWait(s, r, s.current, t);
    case WakeFirst(e) => WakeFirstInv(s, e); OthersWait(s, r, Waiting(s, e)[0], t);
    case WakeWaiter(u) => WakeWaiterInv(s, u); OthersWait(s, r, u, t);
    case Suspend(u) => SuspendInv(s, u); OthersWait(s, r, u, t);
    case Resume(u) => if u != t { ResumeInv(s, u); OthersWait(s, r, u, t); } else { SameWait(s, r, t); }
    case ResumeFromISR(u) => if u != t { ResumeInISRInv(s, u); OthersWait(s, r, u, t); } else { SameWait(s, r, t); }
  }

  lemma OthersWait(s: State, r: State, u: Task, t: Task)
    requires IsDelayed(s, t) && Concerns(s, r, u) && u != t
    ensures Waits(s, r, t)
  {
  }

  lemma SameWait(s: State, r: State, t: Task)
    requires IsDelayed(s, t) && r.base == s.base && r.tick == s.tick && r.delayed == s.delayed
    requires t in r.tcb && r.tcb[t].at == s.tcb[t].at && r.tcb[t].wake == s.tcb[t].wake
    ensures Waits(s, r, t)
  {
  }

  lemma SwitchWait(s: State, t: Task)
    requires Inv(s) && (s.depth == 0 ==> SomeTaskReady(s)) && IsDelayed(s, t)
    ensures Waits(s, SwitchTask(s), t)
  {
    hide ContainersOk, OrderOk, ClockOk, TopOk, CountsOk, RunningOk, Waits;
    SameWait(s, SwitchTask(s), t);
  }

  lemma TickWaits(s: State, t: Task)
    requires Inv(s) && IsDelayed(s, t)
    ensures Waits(s, TickISR(s), t)
  {
    hide Inv, ContainersOk, OrderOk, ClockOk, CountTick;
    InvFacts(s);
    CountTickExact(s);
  }

  lemma ResumeWaits(s: State, t: Task)
    requires Inv(s) && s.depth > 0 && IsDelayed(s, t) && s.tcb[t].on != PendingReady
    ensures Waits(s, ResumeScheduler(s), t)
  {
    hide Inv, ContainersOk, OrderOk, ClockOk, TopOk, RightTaskRuns, DrainPending, RunTicks, NextUnblock, TimeMoved, Waits, Drained;
    InvFacts(s);
    var a := s.(depth := s.depth - 1);
    SameStructure(s, a);
    SameClockOk(s, a);
    if a.depth == 0 {
      DrainKeeps(a);
      EmptiedKeeps(a);
      var c := Emptied(a);
      if s.pended > 0 { RunTicksMove(c, s.pended); } else { NoTicksToRun(c); }
      DrainedWaits(s, DrainPending(a), c, RunTicks(c, s.pended), ResumeScheduler(s), t);
    } else {
      SameWait(s, a, t);
    }
  }

  lemma NoTicksToRun(c: State)
    requires Structure(c) && ClockOk(c) && c.current in c.tcb
    ensures RunTicks(c, 0) == c
  {
  }

  lemma DrainedWaits(s: State, b: State, c: State, d: State, r: State, t: Task)
    requires IsDelayed(s, t) && s.tcb[t].on != PendingReady && s.depth > 0 && IsDelayedList(s.delayed)
    requires Drained(s.(depth := 0), b) && c == b.(nextUnblock := c.nextUnblock)
    requires if s.pended > 0 then TimeMoved(c, d) && Now(d) > Now(c) else d == c
    requires r == d.(pended := 0, switchRequested := r.switchRequested)
    ensures Waits(s, r, t)
  {
    hide TopOk, RightTaskRuns;
  }

  /** Nothing but time concerns the task for as long as it waits. */
  ghost predicate Undisturbed(s: State, ops: seq<Op>, t: Task)
    requires Inv(s) && CanRun(s, ops)
    decreases |ops|
  {
    ops == [] || !IsDelayed(s, t)
    || (!Disturbs(s, ops[0], t) && (StepKeeps(s, ops[0]); Undisturbed(Step(s, ops[0]), ops[1..], t)))
  }

  lemma {:induction false} StillWaiting(s: State, ops: seq<Op>, t: Task)
    requires Inv(s) && CanRun(s, ops) && IsDelayed(s, t) && Undisturbed(s, ops, t)
    requires Now(After(s, ops)) < Due(s, t)
    ensures IsDelayed(After(s, ops), t) && Due(After(s, ops), t) == Due(s, t)
    decreases |ops|
  {
    hide Inv, Enabled, Step, Disturbs, Due, Now;
    if ops != [] {
      var r := Step(s, ops[0]);
      StepKeeps(s, ops[0]);
      RunTicksCounted(r, ops[1..]);
      StepWaits(s, ops[0], t);
      StillWaiting(r, ops[1..], t);
    }
  }

  /** Blocking for n ticks means waiting for the absolute time n ticks from now. */
  lemma BlockedUntil(s: State, n: nat, indefinitely: bool, e: EventPlace, byPriority: bool)
    requires Inv(s) && Enabled(s, Block(n, indefinitely, e, byPriority))
    requires !(n == MAX_DELAY && indefinitely)
    ensures var r := Step(s, Block(n, indefinitely, e, byPriority));
      IsDelayed(r, s.current) && Due(r, s.current) == Now(s) + n
  {
    hide Inv, ContainersOk, OrderOk, ClockOk, TopOk, TimeOut, JoinEvent;
    InvFacts(s);
    TimeOutKeeps(s, n, indefinitely);
    TimeOutUntil(s, n, indefinitely);
    if e != NoEvent { JoinEventFacts(TimeOut(s, n, indefinitely), s.current, e, byPriority); }
  }

  lemma TimeOutUntil(s: State, n: nat, indefinitely: bool)
    requires Structure(s) && ClockOk(s) && s.current in s.tcb && n < M && !(n == MAX_DELAY && indefinitely)
    ensures var r := TimeOut(s, n, indefinitely);
      && r.tick == s.tick && r.base == s.base && r.delayed == s.delayed && r.current == s.current
      && IsDelayed(r, s.current) && Due(r, s.current) == Now(s) + n
  {
    hide Structure, ClockOk, TimeOut;
    KnownDelayed(s);
    TimeOutShape(s, n, indefinitely);
  }

  /** Exact wake-up.  A task that blocks for n > 0 ticks at time T waits while the time
      is before T + n and is ready at the first step that brings the time to T + n,
      over any number of wraps, unless something other than time concerned it. */
  lemma WakesOnTime(s: State, n: nat, indefinitely: bool, e: EventPlace, byPriority: bool, ops: seq<Op>, op: Op)
    requires Inv(s) && Enabled(s, Block(n, indefinitely, e, byPriority)) && n > 0
    requires !(n == MAX_DELAY && indefinitely)
    requires var b := Step(s, Block(n, indefinitely, e, byPriority));
      Inv(b) && CanRun(b, ops) && Inv(After(b, ops)) && Enabled(After(b, ops), op)
      && Undisturbed(b, ops, s.current) && Now(After(b, ops)) < Now(s) + n
    ensures var m := After(Step(s, Block(n, indefinitely, e, byPriority)), ops);
      && IsDelayed(m, s.current) && Due(m, s.current) == Now(s) + n
      && (!Disturbs(m, op, s.current) && Now(Step(m, op)) >= Now(s) + n ==>
            IsReady(Step(m, op), s.current) && Step(m, op).tcb[s.current].on == NoEvent)
      && (!Disturbs(m, op, s.current) && Now(Step(m, op)) < Now(s) + n ==> IsDelayed(Step(m, op), s.current))
  {
    hide Inv, Enabled, Step, Due, Now, CanRun, After, Undisturbed, Disturbs;
    var b := Step(s, Block(n, indefinitely, e, byPriority));
    BlockedUntil(s, n, indefinitely, e, byPriority);
    StillWaiting(b, ops, s.current);
    var m := After(b, ops);
    if !Disturbs(m, op, s.current) { StepWaits(m, op, s.current); }
  }

  // ---------------------------------------------------------------- the partition

  function ReadyBelow(s: State, p: nat): nat {
    if p == 0 then 0 else ReadyBelow(s, p - 1) + |Items(s, ReadyList(p - 1))|
  }

  function Length(s: State, l: ListName): nat { |Items(s, l)| }

  ghost function TasksOn(s: State, l: ListName): set<Task> { set t | t in s.tcb && s.tcb[t].at == l }

  ghost function TasksBelow(s: State, p: nat): set<Task> {
    set t | t in s.tcb && s.tcb[t].at.ReadyList? && s.tcb[t].at.priority < p
  }

  lemma ListHoldsTasks(s: State, l: ListName)
    requires Structure(s) && l in s.lists
    ensures |TasksOn(s, l)| == Length(s, l)
  {
    hide Structure, NoDup;
    SameTasks(s, l);
    SetOfSeq(s.lists[l].items);
  }

  lemma SameTasks(s: State, l: ListName)
    requires Structure(s) && l in s.lists
    ensures TasksOn(s, l) == Elements(s.lists[l].items) && NoDup(s.lists[l].items)
  {
  }

  ghost function Elements(q: seq<Task>): set<Task> { set t | t in q }

  lemma {:induction false} SetOfSeq(q: seq<Task>)
    requires NoDup(q)
    ensures |Elements(q)| == |q|
  {
    if q == [] {
      assert Elements(q) == {};
    } else {
      SetOfSeq(q[1..]);
      var rest := Elements(q[1..]);
      assert q[0] !in rest;
      assert Elements(q) == rest + {q[0]};
    }
  }

  lemma {:induction false} ReadyBelowCounts(s: State, p: nat)
    requires Structure(s) && p <= MAX_PRIORITIES
    ensures |TasksBelow(s, p)| == ReadyBelow(s, p)
  {
    hide Structure, TasksBelow, TasksOn, Items;
    if p == 0 {
      NoneBelow(s);
    } else {
      ReadyBelowCounts(s, p - 1);
      ReadyListExists(s, p - 1);
      ListHoldsTasks(s, ReadyList(p - 1));
      OneMoreBelow(s, p - 1);
      UnionSize(TasksBelow(s, p - 1), TasksOn(s, ReadyList(p - 1)));
    }
  }

  lemma NoneBelow(s: State)
    ensures TasksBelow(s, 0) == {}
  {
  }

  lemma OneMoreBelow(s: State, p: nat)
    ensures TasksBelow(s, p + 1) == TasksBelow(s, p) + TasksOn(s, ReadyList(p)) && TasksBelow(s, p) !! TasksOn(s, ReadyList(p))
  {
  }

  /** Every live task is on exactly one state list, a ready one on that of its
      priority, and waits on at most one event; the list lengths add up to
      uxCurrentNumberOfTasks, and the termination list is what awaits cleaning up. */
  ghost predicate Partitioned(r: State) {
    && ReadyBelow(r, MAX_PRIORITIES) + Length(r, DelayedList1) + Length(r, DelayedList2)
       + Length(r, SuspendedList) + Length(r, TerminationList) == r.numberOfTasks
    && r.toCleanUp == Length(r, TerminationList)
    && (forall t, l :: t in r.tcb && t in Items(r, l) ==> l == r.tcb[t].at)
    && (forall t :: t in r.tcb ==> t in Items(r, r.tcb[t].at))
    && (forall t :: t in r.tcb && r.tcb[t].at.ReadyList? ==> r.tcb[t].at.priority == r.tcb[t].priority)
    && (forall t, e :: t in Waiting(r, e) ==> t in r.tcb && r.tcb[t].on == e)
    && (Waiting(r, PendingReady) != [] ==> r.depth > 0)
  }

  /** The partition holds after any run. */
  lemma EveryTaskOnOneList(s: State, ops: seq<Op>)
    requires Inv(s) && CanRun(s, ops)
    ensures Partitioned(After(s, ops))
  {
    hide Inv, CanRun, After, Partitioned;
    RunKeeps(s, ops);
    PartitionOk(After(s, ops));
  }

  lemma PartitionOk(r: State)
    requires Inv(r)
    ensures Partitioned(r)
  {
    hide Inv, Structure, ReadyBelow, Length, Items, Waiting;
    PartitionFacts(r);
    LengthsAddUp(r);
  }

  lemma PartitionFacts(r: State)
    requires Inv(r)
    ensures Structure(r) && r.numberOfTasks == |r.tcb| && r.toCleanUp == Length(r, TerminationList)
    ensures forall t, l :: t in r.tcb && t in Items(r, l) ==> l == r.tcb[t].at
    ensures forall t :: t in r.tcb ==> t in Items(r, r.tcb[t].at)
    ensures forall t :: t in r.tcb && r.tcb[t].at.ReadyList? ==> r.tcb[t].at.priority == r.tcb[t].priority
    ensures forall t, e :: t in Waiting(r, e) ==> t in r.tcb && r.tcb[t].on == e
    ensures Waiting(r, PendingReady) != [] ==> r.depth > 0
  {
    hide ContainersOk, OrderOk, ClockOk, TopOk, RunningOk;
    StateItemsAgree(r);
    EventItemsAgree(r);
    hide Items, Waiting;
  }

  lemma StateItemsAgree(r: State)
    requires ContainersOk(r)
    ensures forall t, l :: t in r.tcb && t in Items(r, l) ==> l == r.tcb[t].at
    ensures forall t :: t in r.tcb ==> t in Items(r, r.tcb[t].at)
    ensures forall t :: t in r.tcb && r.tcb[t].at.ReadyList? ==> r.tcb[t].at.priority == r.tcb[t].priority
  {
  }

  lemma EventItemsAgree(r: State)
    requires ContainersOk(r)
    ensures forall t, e :: t in Waiting(r, e) ==> t in r.tcb && r.tcb[t].on == e
  {
  }

  lemma LengthsAddUp(r: State)
    requires Structure(r)
    ensures ReadyBelow(r, MAX_PRIORITIES) + Length(r, DelayedList1) + Length(r, DelayedList2)
            + Length(r, SuspendedList) + Length(r, TerminationList) == |r.tcb|
  {
    hide OrderOk, ReadyBelow, Length;
    SpecialLists(r);
    ReadyBelowCounts(r, MAX_PRIORITIES);
    ListHoldsTasks(r, DelayedList1);
    ListHoldsTasks(r, DelayedList2);
    ListHoldsTasks(r, SuspendedList);
    ListHoldsTasks(r, TerminationList);
    AllTasks(r);
  }

  lemma AllTasks(r: State)
    requires Structure(r)
    ensures |TasksBelow(r, MAX_PRIORITIES)| + |TasksOn(r, DelayedList1)| + |TasksOn(r, DelayedList2)|
            + |TasksOn(r, SuspendedList)| + |TasksOn(r, TerminationList)| == |r.tcb|
  {
    hide Structure, TasksBelow, TasksOn;
    var a := TasksBelow(r, MAX_PRIORITIES);
    var b := a + TasksOn(r, DelayedList1);
    var c := b + TasksOn(r, DelayedList2);
    var d := c + TasksOn(r, SuspendedList);
    UnionSize(a, TasksOn(r, DelayedList1)) by { Apart(r); }
    UnionSize(b, TasksOn(r, DelayedList2)) by { Apart(r); }
    UnionSize(c, TasksOn(r, SuspendedList)) by { Apart(r); }
    UnionSize(d, TasksOn(r, TerminationList)) by { Apart(r); }
    Together(r);
  }

  lemma Apart(r: State)
    ensures TasksBelow(r, MAX_PRIORITIES) !! TasksOn(r, DelayedList1)
    ensures TasksBelow(r, MAX_PRIORITIES) + TasksOn(r, DelayedList1) !! TasksOn(r, DelayedList2)
    ensures TasksBelow(r, MAX_PRIORITIES) + TasksOn(r, DelayedList1) + TasksOn(r, DelayedList2) !! TasksOn(r, SuspendedList)
    ensures TasksBelow(r, MAX_PRIORITIES) + TasksOn(r, DelayedList1) + TasksOn(r, DelayedList2)
            + TasksOn(r, SuspendedList) !! TasksOn(r, TerminationList)
  {
  }

  lemma Together(r: State)
    requires Structure(r)
    ensures r.tcb.Keys == TasksBelow(r, MAX_PRIORITIES) + TasksOn(r, DelayedList1) + TasksOn(r, DelayedList2)
                          + TasksOn(r, SuspendedList) + TasksOn(r, TerminationList)
    ensures |r.tcb| == |r.tcb.Keys|
  {
    hide Structure;
    AtKnownList(r);
    forall t | t in r.tcb
      ensures t in TasksBelow(r, MAX_PRIORITIES) || exists l :: l in {DelayedList1, DelayedList2, SuspendedList, TerminationList} && t in TasksOn(r, l)
    {
      assert t in TasksOn(r, r.tcb[t].at);
    }
  }

  lemma UnionSize(a: set<Task>, b: set<Task>)
    requires a !! b
    ensures |a + b| == |a| + |b|
  {
  }

  lemma AtKnownList(r: State)
    requires Structure(r)
    ensures forall t :: t in r.tcb ==> (r.tcb[t].at.ReadyList? ==> r.tcb[t].at.priority < MAX_PRIORITIES)
  {
  }
}
