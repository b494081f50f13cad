/** What each call does to the task it concerns, read off the task records and the lists,
    and when the kernel asks for a context switch. */
module KernelAnswers {
  import opened Tick
  import opened Lists
  import RoundRobin
  import opened TaskLists
  import opened Kernel
  import opened KernelTick
  import opened KernelCalls
  import opened KernelResume
  import opened KernelRuns
  import opened KernelHistory
  import opened EventOrder
  import opened EventRuns

  /** t is on this list and on no other, and waits for no event. */
  ghost predicate OnlyOn(r: State, t: Task, l: ListName) {
    && t in r.tcb && r.tcb[t].at == l && r.tcb[t].on == NoEvent
    && (forall k :: t in Items(r, k) <==> k == l)
    && (forall e :: t !in Waiting(r, e))
  }

  predicate Last(q: seq<Task>, t: Task) { q != [] && q[|q| - 1] == t }

  ghost predicate Suspended(s: State, t: Task) { t in s.tcb && s.tcb[t].at == SuspendedList && s.tcb[t].on == NoEvent }

  lemma WhereItIs(r: State, t: Task)
    requires Structure(r) && t in r.tcb && r.tcb[t].on == NoEvent
    ensures OnlyOn(r, t, r.tcb[t].at)
  {
    StateItemsAgree(r);
    EventItemsAgree(r);
    hide Structure, Items, Waiting;
  }

  // ---------------------------------------------------------------- suspending and resuming

  /** The task is on the suspended list, last, and nowhere else; if it is the running task
      then it is off its ready list and about to yield. */
  ghost predicate Suspends(s: State, r: State, t: Task) {
    && t in s.tcb && OnlyOn(r, t, SuspendedList) && Last(Items(r, SuspendedList), t)
    && r.tcb == s.tcb[t := s.tcb[t].(at := SuspendedList, on := NoEvent)]
    && (r.offReady <==> s.offReady || t == s.current) && r.current == s.current
    && r.switchRequested == s.switchRequested && r.yieldPending == s.yieldPending
  }

  lemma SuspendExact(s: State, t: Task)
    requires Inv(s) && Enabled(s, Suspend(t))
    ensures Suspends(s, Step(s, Suspend(t)), t)
  {
    hide Inv, ContainersOk, OrderOk, ClockOk, TopOk, PutLast, TakeEvent, NextUnblock;
    InvFacts(s);
    SuspendKeeps(s, t);
    SpecialLists(LeaveEvent(s, t));
    ParkedLast(LeaveEvent(s, t), t, SuspendedList);
    StepKeeps(s, Suspend(t));
    InvFacts(Step(s, Suspend(t)));
    WhereItIs(Step(s, Suspend(t)), t);
    hide OnlyOn;
  }

  lemma ParkedLast(s: State, t: Task, l: ListName)
    requires Structure(s) && t in s.tcb && l in s.lists && !l.ReadyList?
    ensures Last(Items(Park(s, t, l), l), t)
  {
    RingOf(s, l);
    TakenIndex(s, t, l);
    hide Structure, RoundRobin.RemoveItem;
  }

  lemma RingOf(s: State, l: ListName)
    requires Structure(s) && l in s.lists
    ensures RoundRobin.Valid(s.lists[l]) && (!l.ReadyList? ==> s.lists[l].index == 0)
  {
  }

  lemma TakenIndex(s: State, t: Task, l: ListName)
    requires Structure(s) && t in s.tcb && l in s.lists && !l.ReadyList?
    ensures s.tcb[t].at in s.lists && t in s.lists[s.tcb[t].at].items && TakeOff(s.lists, s.tcb, t)[l].index == 0
  {
    WhereAbouts(s.lists, s.tcb, t);
    RingOf(s, l);
    hide Structure;
  }

  /** The task is ready and nowhere else, and a switch is asked for exactly if it is at
      least as urgent as the running task. */
  ghost predicate Readies(s: State, r: State, t: Task) {
    && t in s.tcb && s.current in s.tcb
    && OnlyOn(r, t, ReadyList(s.tcb[t].priority)) && r.tcb == s.tcb[t := Woken(s.tcb[t])]
    && (r.switchRequested <==> s.switchRequested || Priority(s, t) >= Priority(s, s.current))
    && r.current == s.current && r.yieldPending == s.yieldPending && r.offReady == s.offReady
  }

  /** Only a task that is really suspended is resumed. */
  lemma ResumeExact(s: State, t: Task)
    requires Inv(s) && Enabled(s, Resume(t))
    ensures if Suspended(s, t) then Readies(s, Step(s, Resume(t)), t) else Step(s, Resume(t)) == s
  {
    hide Inv, ContainersOk, OrderOk, ClockOk, TopOk, OnlyOn, MakeReady, Suspended;
    InvFacts(s);
    StepKeeps(s, Resume(t));
    ResumedAs(s, t);
    InvFacts(Step(s, Resume(t)));
    if IsSuspended(s, t) { WhereItIs(Step(s, Resume(t)), t); }
  }

  lemma ResumedAs(s: State, t: Task)
    requires Structure(s) && t in s.tcb
    ensures IsSuspended(s, t) <==> Suspended(s, t)
    ensures IsSuspended(s, t) ==> var m := MakeReady(s, t);
      && m.tcb == s.tcb[t := Woken(s.tcb[t])] && m.switchRequested == s.switchRequested
      && m.current == s.current && m.yieldPending == s.yieldPending && m.offReady == s.offReady
  {
    hide ContainersOk, OrderOk, PutLast;
  }

  /** The task joins the end of the pending-ready list. */
  ghost predicate Pends(s: State, r: State, t: Task) {
    && t in s.tcb && r.tcb == s.tcb[t := s.tcb[t].(on := PendingReady)]
    && Waiting(r, PendingReady) == Waiting(s, PendingReady) + [t] && r.lists == s.lists
    && r.switchRequested == s.switchRequested && r.yieldPending == s.yieldPending && r.offReady == s.offReady
  }

  /** From an interrupt likewise; with the scheduler suspended the task joins the end of the
      pending-ready list, to be readied when the scheduler is resumed. */
  lemma ResumeFromISRExact(s: State, t: Task)
    requires Inv(s) && Enabled(s, ResumeFromISR(t))
    ensures var r := Step(s, ResumeFromISR(t));
      if !Suspended(s, t) then r == s else if s.depth == 0 then Readies(s, r, t) else Pends(s, r, t)
  {
    hide Inv, ContainersOk, OrderOk, ClockOk, TopOk, OnlyOn, MakeReady, Suspended;
    InvFacts(s);
    SpecialLists(s);
    StepKeeps(s, ResumeFromISR(t));
    ResumedAs(s, t);
    InvFacts(Step(s, ResumeFromISR(t)));
    if IsSuspended(s, t) && s.depth == 0 { WhereItIs(Step(s, ResumeFromISR(t)), t); }
  }

  // ---------------------------------------------------------------- a suspended task stays so

  predicate Ends(op: Op, t: Task) { op == Resume(t) || op == ResumeFromISR(t) || op == Delete(t) }

  lemma StaysSuspendedStep(s: State, op: Op, t: Task)
    requires Inv(s) && Enabled(s, op) && Suspended(s, t) && !Ends(op, t)
    ensures Suspended(Step(s, op), t)
  {
    hide Inv, Structure, ClockOk, TopOk, MoveTask, CleanUpOne, ResumeScheduler, TickISR, ChangePriority, SwitchTask, Concerns;
    InvFacts(s);
    var r := Step(s, op);
    if MovesTask(op) {
      StaysSuspendedMove(s, op, t);
    } else {
      match op
      case CleanUp =>
        CleanUpInv(s);
        HeadIsTask(s, TerminationList);
        OthersStay(s, r, Items(s, TerminationList)[0], t);
      case SuspendAll =>
      case ResumeAll => ResumeAllStays(s, t);
      case TickInterrupt => TickStays(s, t);
      case SetPriority(u, p) => ChangePriorityFacts(s, u, p);
      case Yield =>
      case SwitchContext => SwitchStays(s);
    }
  }

  lemma SwitchStays(s: State)
    requires Structure(s) && TopOk(s) && (s.depth == 0 ==> SomeTaskReady(s))
    ensures SwitchTask(s).tcb == s.tcb
  {
    hide Structure, TopOk, SomeTaskReady, TopNonEmpty;
  }

  lemma OthersStay(s: State, r: State, u: Task, t: Task)
    requires Suspended(s, t) && Concerns(s, r, u) && u != t
    ensures Suspended(r, t)
  {
  }

  lemma StaysSuspendedMove(s: State, op: Op, t: Task)
    requires Inv(s) && Enabled(s, op) && MovesTask(op) && Suspended(s, t) && !Ends(op, t)
    ensures Suspended(MoveTask(s, op), t)
  {
    hide Inv, Structure, ClockOk, TopOk, Concerns;
    hide CreateTask, DeleteTask, BlockCurrent, WakeFirstOf, WakeWaiterOf, SuspendTask, ResumeTask, ResumeInISR;
    InvFacts(s);
    var r := MoveTask(s, op);
    match op
    case Create(u, p) => CreateInv(s, u, p); OthersStay(s, r, u, t);
    case Delete(u) =>
      if u == s.current { DeleteSelf(s); } else { DeleteOther(s, u); }
      OthersStay(s, r, u, t);
    case Block(ticks, indefinitely, e, byPriority) =>
      BlockInv(s, ticks, indefinitely, e, byPriority);
      OthersStay(s, r, s.current, t);
    case WakeFirst(e) =>
      WaiterIsTask(s, e);
      WakeFirstInv(s, e);
      OthersStay(s, r, Waiting(s, e)[0], t);
    case WakeWaiter(u) => WakeWaiterInv(s, u); OthersStay(s, r, u, t);
    case Suspend(u) =>
      SuspendInv(s, u);
      if u == t { SuspendExact(s, u); } else { OthersStay(s, r, u, t); }
    case Resume(u) => ResumeInv(s, u); OthersStay(s, r, u, t);
    case ResumeFromISR(u) => ResumeInISRInv(s, u); OthersStay(s, r, u, t);
  }

  lemma TickStays(s: State, t: Task)
    requires Inv(s) && Suspended(s, t)
    ensures Suspended(TickISR(s), t)
  {
    hide Inv, Structure, ClockOk, CountTick;
    InvFacts(s);
    CountTickExact(s);
  }

  lemma ResumeAllStays(s: State, t: Task)
    requires Inv(s) && s.depth > 0 && Suspended(s, t)
    ensures Suspended(ResumeScheduler(s), t)
  {
    hide Inv, Structure, ClockOk, TopOk, RightTaskRuns, DrainPending, RunTicks, NextUnblock, TimeMoved;
    InvFacts(s);
    var a := s.(depth := s.depth - 1);
    SameStructure(s, a);
    SameClockOk(s, a);
    if a.depth == 0 {
      DrainKeeps(a);
      EmptiedKeeps(a);
      var c := Emptied(a);
      if s.pended > 0 { RunTicksMove(c, s.pended); } else { NoTicksToRun(c); }
      DrainedStays(a, DrainPending(a), c, RunTicks(c, s.pended), t);
    }
  }

  lemma DrainedStays(a: State, b: State, c: State, d: State, t: Task)
    requires Suspended(a, t) && Drained(a, b) && c == b.(nextUnblock := c.nextUnblock) && (TimeMoved(c, d) || d == c)
    ensures Suspended(d, t)
  {
    hide TopOk, RightTaskRuns;
  }

  /** Over any run in which nobody resumes or deletes it a suspended task stays suspended:
      it is in no ready list, and does not run once the switch that was asked for is done. */
  lemma {:induction false} StaysSuspended(s: State, ops: seq<Op>, t: Task)
    requires Inv(s) && CanRun(s, ops) && Suspended(s, t) && forall op :: op in ops ==> !Ends(op, t)
    ensures var r := After(s, ops); Inv(r) && Suspended(r, t) && OnlyOn(r, t, SuspendedList) && (r.current == t ==> Asks(r))
    decreases |ops|
  {
    hide Inv, Enabled, Step, Ends, OnlyOn;
    if ops == [] {
      NotRunning(s, t);
    } else {
      assert ops[0] in ops;
      StepKeeps(s, ops[0]);
      StaysSuspendedStep(s, ops[0], t);
      StaysSuspended(Step(s, ops[0]), ops[1..], t);
    }
  }

  lemma NotRunning(s: State, t: Task)
    requires Inv(s) && Suspended(s, t)
    ensures OnlyOn(s, t, SuspendedList) && (s.current == t ==> Asks(s))
  {
    WhereItIs(s, t);
    hide Structure, OnlyOn, ClockOk, CountsOk;
  }

  // ---------------------------------------------------------------- blocking

  /** Where a task that joins an event list goes: last, or by priority behind its equals. */
  ghost predicate JoinsAt(was: seq<Task>, now: seq<Task>, tcb: Tasks, t: Task, byPriority: bool, k: nat)
    requires t in tcb && forall u :: u in was ==> u in tcb
  {
    && k <= |was| && now == was[..k] + [t] + was[k..]
    && if byPriority then
         && (forall i :: 0 <= i < k ==> tcb[was[i]].priority >= tcb[t].priority)
         && (k < |was| ==> tcb[was[k]].priority < tcb[t].priority)
       else k == |was|
  }

  /** The running task is off its ready list: it waits for its event, if it named one, and
      for its time, or on the suspended list if it waits for as long as it takes. */
  ghost predicate Blocks(s: State, r: State, ticks: nat, indefinitely: bool, e: EventPlace, byPriority: bool) {
    var t := s.current;
    && t in s.tcb && t in r.tcb && r.current == t && r.offReady
    && r.tcb == s.tcb[t := r.tcb[t]] && r.tcb[t].priority == s.tcb[t].priority && r.tcb[t].on == e
    && (if ticks == MAX_DELAY && indefinitely then r.tcb[t].at == SuspendedList
        else IsDelayed(r, t) && Due(r, t) == Now(s) + ticks)
    && (forall l :: t in Items(r, l) <==> l == r.tcb[t].at)
    && (forall o :: o != e ==> Waiting(r, o) == Waiting(s, o))
    && (forall u :: u in Waiting(s, e) ==> u in s.tcb)
    && (e != NoEvent ==> exists k :: JoinsAt(Waiting(s, e), Waiting(r, e), s.tcb, t, byPriority, k))
    && r.switchRequested == s.switchRequested && r.yieldPending == s.yieldPending
  }

  lemma BlockExact(s: State, ticks: nat, indefinitely: bool, e: EventPlace, byPriority: bool)
    requires Inv(s) && Enabled(s, Block(ticks, indefinitely, e, byPriority))
    ensures Blocks(s, Step(s, Block(ticks, indefinitely, e, byPriority)), ticks, indefinitely, e, byPriority)
  {
    hide Inv, Structure, ClockOk, TopOk, BlockCurrent, Due, Items, JoinsAt, Waiting, IsDelayed, Now, Blocks;
    InvFacts(s);
    var op := Block(ticks, indefinitely, e, byPriority);
    StepKeeps(s, op);
    InvFacts(Step(s, op));
    BlockShape(s, ticks, indefinitely, e, byPriority);
    BlockJoins(s, ticks, indefinitely, e, byPriority);
    if !(ticks == MAX_DELAY && indefinitely) { BlockedUntil(s, ticks, indefinitely, e, byPriority); }
    StateItemsAgree(Step(s, op)) by { Parts(Step(s, op)); }
    BlocksParts(s, Step(s, op), ticks, indefinitely, e, byPriority);
  }

  lemma BlocksParts(s: State, r: State, ticks: nat, indefinitely: bool, e: EventPlace, byPriority: bool)
    requires s.current in s.tcb && s.current in r.tcb && r.current == s.current && r.offReady
    requires r.tcb == s.tcb[s.current := r.tcb[s.current]]
    requires r.tcb[s.current].priority == s.tcb[s.current].priority && r.tcb[s.current].on == e
    requires if ticks == MAX_DELAY && indefinitely then r.tcb[s.current].at == SuspendedList
             else IsDelayed(r, s.current) && Due(r, s.current) == Now(s) + ticks
    requires forall t, l :: t in r.tcb && t in Items(r, l) ==> l == r.tcb[t].at
    requires forall t :: t in r.tcb ==> t in Items(r, r.tcb[t].at)
    requires forall o :: o != e ==> Waiting(r, o) == Waiting(s, o)
    requires forall u :: u in Waiting(s, e) ==> u in s.tcb
    requires e != NoEvent ==> exists k :: JoinsAt(Waiting(s, e), Waiting(r, e), s.tcb, s.current, byPriority, k)
    requires r.switchRequested == s.switchRequested && r.yieldPending == s.yieldPending
    ensures Blocks(s, r, ticks, indefinitely, e, byPriority)
  {
    hide Items, Waiting, IsDelayed, Due, Now, JoinsAt;
  }

  lemma Parts(s: State)
    requires Structure(s)
    ensures ContainersOk(s)
  {
  }

  lemma BlockShape(s: State, ticks: nat, indefinitely: bool, e: EventPlace, byPriority: bool)
    requires Structure(s) && ClockOk(s) && IsReady(s, s.current) && ticks < M && (e == NoEvent || e in s.events)
    ensures var r := BlockCurrent(s, ticks, indefinitely, e, byPriority);
      && s.current in r.tcb && r.tcb == s.tcb[s.current := r.tcb[s.current]] && r.current == s.current && r.offReady
      && r.tcb[s.current].priority == s.tcb[s.current].priority && r.tcb[s.current].on == e
      && (ticks == MAX_DELAY && indefinitely ==> r.tcb[s.current].at == SuspendedList)
      && (forall o :: o != e ==> Waiting(r, o) == Waiting(s, o))
      && r.switchRequested == s.switchRequested && r.yieldPending == s.yieldPending
  {
    hide ContainersOk, OrderOk, ClockOk, TimeOut, Joined;
    ReadyIsFree(s, s.current);
    TimeOutKeeps(s, ticks, indefinitely);
    TimeOutShape(s, ticks, indefinitely);
  }

  lemma BlockJoins(s: State, ticks: nat, indefinitely: bool, e: EventPlace, byPriority: bool)
    requires Structure(s) && ClockOk(s) && s.current in s.tcb && ticks < M && (e == NoEvent || e in s.events)
    ensures forall u :: u in Waiting(s, e) ==> u in s.tcb
    ensures e != NoEvent ==> exists k ::
        JoinsAt(Waiting(s, e), Waiting(BlockCurrent(s, ticks, indefinitely, e, byPriority), e), s.tcb, s.current, byPriority, k)
  {
    hide ContainersOk, OrderOk, ClockOk, TimeOut, JoinsAt;
    WaitersAreTasks(s, e);
    TimeOutKeeps(s, ticks, indefinitely);
    TimeOutSamePriorities(s, ticks, indefinitely);
    TimeOutShape(s, ticks, indefinitely);
    if e != NoEvent {
      EventsOf(TimeOut(s, ticks, indefinitely), e);
      hide Joined, EventItemsOk;
      var m := TimeOut(s, ticks, indefinitely);
      JoinsSomewhere(s, m, e, byPriority);
      assert Waiting(BlockCurrent(s, ticks, indefinitely, e, byPriority), e) == Joined(m.events, m.tcb, s.current, e, byPriority);
    }
  }

  lemma WaitersAreTasks(s: State, e: EventPlace)
    requires Structure(s)
    ensures forall u :: u in Waiting(s, e) ==> u in s.tcb
  {
    hide OrderOk;
    EventItemsAgree(s);
  }

  lemma JoinsSomewhere(s: State, m: State, e: EventPlace, byPriority: bool)
    requires Structure(s) && Structure(m) && s.current in s.tcb && s.current in m.tcb && e in m.events && m.events == s.events
    requires m.tcb.Keys == s.tcb.Keys && forall u :: u in s.tcb ==> m.tcb[u].priority == s.tcb[u].priority
    ensures forall u :: u in Waiting(s, e) ==> u in s.tcb
    ensures exists k :: JoinsAt(Waiting(s, e), Joined(m.events, m.tcb, s.current, e, byPriority), s.tcb, s.current, byPriority, k)
  {
    hide ContainersOk, OrderOk, InsertSorted;
    WaitersAreTasks(s, e);
    EventsOf(m, e);
    var was := Waiting(s, e);
    if byPriority {
      var k := InsertSortedSplit(was, s.current, Urgency(m.tcb));
      assert JoinsAt(was, Joined(m.events, m.tcb, s.current, e, byPriority), s.tcb, s.current, byPriority, k);
    } else {
      assert was + [s.current] == was[..|was|] + [s.current] + was[|was|..];
      assert JoinsAt(was, Joined(m.events, m.tcb, s.current, e, byPriority), s.tcb, s.current, byPriority, |was|);
    }
  }

  // ---------------------------------------------------------------- waking, creating, setting a priority

  /** The waiter leaves its event list: it is ready, or held pending while the scheduler is
      suspended, and a yield is pending if it outranks the running task. */
  ghost predicate WakesUp(s: State, r: State, t: Task, pend: bool) {
    && t in s.tcb && s.current in s.tcb && r.current == s.current
    && r.tcb == s.tcb[t := if pend then s.tcb[t].(on := PendingReady) else Woken(s.tcb[t])]
    && (pend ==> Waiting(r, PendingReady) == Waiting(s, PendingReady) + [t])
    && (!pend ==> OnlyOn(r, t, ReadyList(s.tcb[t].priority)))
    && r.yieldPending == (s.yieldPending || Priority(s, t) > Priority(s, s.current))
    && r.switchRequested == s.switchRequested && r.offReady == s.offReady
  }

  lemma WakeFirstExact(s: State, e: EventPlace)
    requires Inv(s) && Enabled(s, WakeFirst(e))
    ensures Waiting(s, e) != [] && WakesUp(s, Step(s, WakeFirst(e)), Waiting(s, e)[0], s.depth > 0)
    ensures Waiting(Step(s, WakeFirst(e)), e) == Waiting(s, e)[1..]
  {
    hide Inv, Structure, ClockOk, TopOk, WakeFirstOf, OnlyOn;
    InvFacts(s);
    StepKeeps(s, WakeFirst(e));
    InvFacts(Step(s, WakeFirst(e)));
    WakeFirstShape(s, e);
    FirstLeaves(s, e);
    var t := Waiting(s, e)[0];
    if s.depth == 0 { WhereItIs(Step(s, WakeFirst(e)), t); } else { WokenPends(s, e); }
  }

  lemma WokenPends(s: State, e: EventPlace)
    requires Structure(s) && s.current in s.tcb && e.EventList? && Waiting(s, e) != [] && s.depth > 0
    ensures Waiting(WakeFirstOf(s, e), PendingReady) == Waiting(s, PendingReady) + [Waiting(s, e)[0]]
  {
    hide ContainersOk, OrderOk, LeaveEvent, MakeReady;
    WaiterIsTask(s, e);
    SpecialLists(s);
    var t := Waiting(s, e)[0];
    LeaveEventKeeps(s, t);
    LeaveEventFrame(s, t);
    LeaveEventAt(s, t, PendingReady);
    SpecialLists(LeaveEvent(s, t));
  }

  lemma WakeWaiterExact(s: State, t: Task)
    requires Inv(s) && Enabled(s, WakeWaiter(t))
    ensures WakesUp(s, Step(s, WakeWaiter(t)), t, false)
  {
    hide Inv, Structure, ClockOk, TopOk, WakeUp, OnlyOn;
    InvFacts(s);
    StepKeeps(s, WakeWaiter(t));
    InvFacts(Step(s, WakeWaiter(t)));
    WakeUpFacts(s, t);
    WakeUpFrame(s, t);
    WhereItIs(Step(s, WakeWaiter(t)), t);
  }

  /** A new task is ready at its priority, clamped to the greatest, and preempts a less
      urgent one. */
  ghost predicate Creates(s: State, r: State, t: Task, priority: nat) {
    && s.current in s.tcb && t !in s.tcb && t in r.tcb
    && r.tcb[t].priority == (if priority < MAX_PRIORITIES then priority else MAX_PRIORITIES - 1)
    && OnlyOn(r, t, ReadyList(r.tcb[t].priority)) && r.tcb == s.tcb[t := r.tcb[t]]
    && r.numberOfTasks == s.numberOfTasks + 1 && r.current == s.current
    && (r.switchRequested <==> s.switchRequested || Priority(s, s.current) < r.tcb[t].priority)
    && r.yieldPending == s.yieldPending && r.offReady == s.offReady
  }

  lemma CreateExact(s: State, t: Task, priority: nat)
    requires Inv(s) && Enabled(s, Create(t, priority))
    ensures Creates(s, Step(s, Create(t, priority)), t, priority)
  {
    hide Inv, Structure, ClockOk, TopOk, RoundRobin.InsertEnd, OnlyOn;
    InvFacts(s);
    StepKeeps(s, Create(t, priority));
    InvFacts(Step(s, Create(t, priority)));
    WhereItIs(Step(s, Create(t, priority)), t);
  }

  /** The task has its new priority, on the ready list of it if it is ready; a switch is
      asked for exactly if another task became as urgent as the running one, or the running
      one less urgent than it was. */
  ghost predicate SetsPriority(s: State, r: State, t: Task, p: nat) {
    && t in s.tcb && s.current in s.tcb && r.current == s.current
    && r.tcb == s.tcb[t := s.tcb[t].(priority := p, at := if s.tcb[t].at.ReadyList? then ReadyList(p) else s.tcb[t].at)]
    && (r.switchRequested <==> s.switchRequested || AsksAtPriority(s, t, p))
    && r.yieldPending == s.yieldPending && r.offReady == s.offReady && r.events == s.events
  }

  lemma SetPriorityExact(s: State, t: Task, p: nat)
    requires Inv(s) && Enabled(s, SetPriority(t, p))
    ensures SetsPriority(s, Step(s, SetPriority(t, p)), t, p)
  {
    hide Inv, Structure, ClockOk, TopOk, ChangePriority;
    InvFacts(s);
    ChangePriorityFacts(s, t, p);
  }

  // ---------------------------------------------------------------- the switch

  /** The task after the one pxIndex points at, round the ready list of the highest priority
      that has a task; pxIndex moves on to it, and nothing else moves. */
  ghost predicate SwitchesTo(s: State, r: State, p: nat) {
    && ReadyList(p) in s.lists && ReadyList(p) in r.lists
    && var l, n := s.lists[ReadyList(p)], r.lists[ReadyList(p)];
    && l.items != [] && (forall q :: q > p ==> Items(s, ReadyList(q)) == [])
    && n.items == l.items && n.index == (if l.index < |l.items| then l.index + 1 else 1)
    && r.current == n.items[n.index - 1]
    && r.lists == s.lists[ReadyList(p) := n] && r.tcb == s.tcb && r.events == s.events
    && !r.switchRequested && !r.yieldPending && !r.offReady
  }

  lemma SwitchExact(s: State)
    requires Inv(s) && Enabled(s, SwitchContext) && s.depth == 0
    ensures exists p :: SwitchesTo(s, Step(s, SwitchContext), p)
  {
    hide Inv, Structure, ClockOk, TopOk, SomeTaskReady, TopNonEmpty, Items, RoundRobin.Valid;
    InvFacts(s);
    TopIsHighest(s);
    var p := TopNonEmpty(s, s.topReady);
    forall q | q > p ensures Items(s, ReadyList(q)) == [] { NoneAbove(s, p, q); }
    ItemsOf(s, ReadyList(p));
    assert SwitchTask(s) == Step(s, SwitchContext);
    assert SwitchesTo(s, Step(s, SwitchContext), p);
  }

  lemma ItemsOf(s: State, l: ListName)
    requires l in s.lists && Items(s, l) != []
    ensures s.lists[l].items != []
  {
  }

  lemma NoneAbove(s: State, p: nat, q: nat)
    requires Structure(s) && q > p && forall t :: t in s.tcb && s.tcb[t].at.ReadyList? ==> s.tcb[t].priority <= p
    ensures Items(s, ReadyList(q)) == []
  {
    hide Structure, Items;
    StateItemsAgree(s) by { Parts(s); }
    if Items(s, ReadyList(q)) != [] {
      HeadIsTask(s, ReadyList(q));
    }
  }

  // ---------------------------------------------------------------- cleaning up

  /** Exactly the first deleted task is gone, and no longer counted. */
  lemma CleanUpExact(s: State)
    requires Inv(s) && Enabled(s, CleanUp)
    ensures Items(s, TerminationList) != [] && var r, t := Step(s, CleanUp), Items(s, TerminationList)[0];
      && t in s.tcb && s.tcb[t].at == TerminationList && r.tcb == s.tcb - {t}
      && r.numberOfTasks == s.numberOfTasks - 1 && r.toCleanUp == s.toCleanUp - 1
  {
    hide Inv, Structure, ClockOk, TopOk, Forget;
    InvFacts(s);
    HeadIsTask(s, TerminationList);
    var t := Items(s, TerminationList)[0];
    ForgetKeeps(s, t);
    OneFewer(s.tcb, t);
  }

  // ---------------------------------------------------------------- while the scheduler is suspended

  function Nesting(op: Op): int { if op == SuspendAll then 1 else if op == ResumeAll then -1 else 0 }

  /** Only SuspendAll and ResumeAll change the nesting. */
  lemma StepNests(s: State, op: Op)
    requires Inv(s) && Enabled(s, op)
    ensures Step(s, op).depth == s.depth + Nesting(op)
  {
    hide Inv, Structure, ClockOk, TopOk, MoveTask, CleanUpOne, ResumeScheduler, TickISR, ChangePriority, Concerns;
    InvFacts(s);
    if MovesTask(op) {
      MoveFrame(s, op);
    } else {
      match op
      case CleanUp => CleanUpInv(s); FrameOf(s, Step(s, op), Items(s, TerminationList)[0]);
      case SuspendAll =>
      case ResumeAll => ResumeNests(s);
      case TickInterrupt => TickNests(s);
      case SetPriority(u, p) => ChangePriorityFacts(s, u, p);
      case Yield =>
      case SwitchContext => hide SomeTaskReady;
    }
  }

  lemma FrameOf(s: State, r: State, t: Task)
    requires Concerns(s, r, t)
    ensures r.depth == s.depth && r.current == s.current && r.pended == s.pended && Now(r) == Now(s)
  {
  }

  lemma MoveFrame(s: State, op: Op)
    requires Inv(s) && Enabled(s, op) && MovesTask(op)
    ensures var r := MoveTask(s, op); r.depth == s.depth && r.current == s.current && r.pended == s.pended && Now(r) == Now(s)
  {
    hide Inv, Structure, ClockOk, TopOk, Concerns, Now;
    hide CreateTask, DeleteTask, BlockCurrent, WakeFirstOf, WakeWaiterOf, SuspendTask, ResumeTask, ResumeInISR;
    InvFacts(s);
    var r := MoveTask(s, op);
    match op
    case Create(u, p) => CreateInv(s, u, p); FrameOf(s, r, u);
    case Delete(u) =>
      if u == s.current { DeleteSelf(s); } else { DeleteOther(s, u); }
      FrameOf(s, r, u);
    case Block(ticks, indefinitely, e, byPriority) => BlockInv(s, ticks, indefinitely, e, byPriority); FrameOf(s, r, s.current);
    case WakeFirst(e) => WakeFirstInv(s, e); FrameOf(s, r, Waiting(s, e)[0]);
    case WakeWaiter(u) => WakeWaiterInv(s, u); FrameOf(s, r, u);
    case Suspend(u) => SuspendInv(s, u); FrameOf(s, r, u);
    case Resume(u) => ResumeInv(s, u); FrameOf(s, r, u);
    case ResumeFromISR(u) => ResumeInISRInv(s, u); FrameOf(s, r, u);
  }

  lemma TickNests(s: State)
    requires Inv(s)
    ensures TickISR(s).depth == s.depth
  {
    hide Inv, Structure, ClockOk, CountTick, TopOk, EpochOk;
    InvFacts(s);
    if s.depth == 0 { CountTickFrame(s); }
  }

  lemma ResumeNests(s: State)
    requires Inv(s) && s.depth > 0
    ensures ResumeScheduler(s).depth == s.depth - 1
  {
    hide Inv, Structure, ClockOk, TopOk, RightTaskRuns, DrainPending, RunTicks, NextUnblock, EpochOk;
    InvFacts(s);
    var a := s.(depth := s.depth - 1);
    SameStructure(s, a);
    SameClockOk(s, a);
    if a.depth == 0 {
      DrainKeeps(a);
      EmptiedKeeps(a);
      RunTicksKeeps(Emptied(a), s.pended);
    }
  }

  /** One step under a scheduler that was and stays suspended. */
  lemma StepUnderSuspension(s: State, op: Op)
    requires Inv(s) && Enabled(s, op) && s.depth > 0 && Step(s, op).depth > 0
    ensures var r := Step(s, op); r.current == s.current && Now(r) == Now(s) && r.pended == s.pended + Ticks(op)
  {
    hide Inv, Structure, ClockOk, TopOk, MoveTask, CleanUpOne, ChangePriority, Concerns;
    InvFacts(s);
    if MovesTask(op) {
      MoveFrame(s, op);
    } else {
      match op
      case CleanUp => CleanUpInv(s); FrameOf(s, Step(s, op), Items(s, TerminationList)[0]);
      case SuspendAll =>
      case ResumeAll => ResumeNests(s);
      case TickInterrupt =>
      case SetPriority(u, p) => ChangePriorityFacts(s, u, p);
      case Yield =>
      case SwitchContext =>
    }
  }

  ghost predicate SuspendedThroughout(s: State, ops: seq<Op>)
    requires Inv(s) && CanRun(s, ops)
    decreases |ops|
  {
    s.depth > 0 && (ops == [] || (StepKeeps(s, ops[0]); SuspendedThroughout(Step(s, ops[0]), ops[1..])))
  }

  /** While the scheduler is suspended the running task runs on, whatever interrupts and
      calls there are, and the tick count stands still: the ticks are held back, each one. */
  lemma {:induction false} NobodyElseRuns(s: State, ops: seq<Op>)
    requires Inv(s) && CanRun(s, ops) && SuspendedThroughout(s, ops)
    ensures var r := After(s, ops); r.current == s.current && Now(r) == Now(s) && r.pended == s.pended + TicksIn(ops)
    decreases |ops|
  {
    hide Inv, Enabled, Step, Now;
    if ops != [] {
      StepKeeps(s, ops[0]);
      var m := Step(s, ops[0]);
      StillSuspended(m, ops[1..]);
      StepUnderSuspension(s, ops[0]);
      NobodyElseRuns(m, ops[1..]);
    }
  }

  lemma StillSuspended(s: State, ops: seq<Op>)
    requires Inv(s) && CanRun(s, ops) && SuspendedThroughout(s, ops)
    ensures s.depth > 0
  {
  }

  function NestingIn(ops: seq<Op>): int { if ops == [] then 0 else Nesting(ops[0]) + NestingIn(ops[1..]) }

  /** uxSchedulerSuspended counts the suspensions that have not been resumed. */
  lemma {:induction false} SuspensionsNest(s: State, ops: seq<Op>)
    requires Inv(s) && CanRun(s, ops)
    ensures After(s, ops).depth == s.depth + NestingIn(ops)
    decreases |ops|
  {
    hide Inv, Enabled, Step;
    if ops != [] {
      StepKeeps(s, ops[0]);
      StepNests(s, ops[0]);
      SuspensionsNest(Step(s, ops[0]), ops[1..]);
    }
  }
}
