/** The kernel calls and interrupts that move tasks between lists. */
module KernelCalls {
  import opened Tick
  import opened Lists
  import opened RoundRobin
  import opened TaskLists
  import opened Kernel
  import opened KernelTick

  /** prvTaskIsTaskSuspended */
  predicate IsSuspended(s: State, t: Task)
    requires t in s.tcb
  {
    s.tcb[t].at == SuspendedList && s.tcb[t].on == NoEvent
  }

  // ---------------------------------------------------------------- create, delete

  function CreateTask(s: State, t: Task, priority: nat): State
    requires Structure(s) && t !in s.tcb && MAX_PRIORITIES > 0
  {
    var p := if priority >= MAX_PRIORITIES then MAX_PRIORITIES - 1 else priority;
    s.(lists := s.lists[ReadyList(p) := InsertEnd(s.lists[ReadyList(p)], t)],
       tcb := s.tcb[t := TCB(p, 0, ReadyList(p), NoEvent)],
       numberOfTasks := s.numberOfTasks + 1,
       topReady := Record(s.topReady, p),
       switchRequested := s.switchRequested || (s.current in s.tcb && Priority(s, s.current) < p))
  }

  /** A task leaves the kernel: both items off their lists. */
  function Forget(s: State, t: Task): State
    requires Structure(s) && t in s.tcb
  {
    LeaveEventKeeps(s, t);
    var m := LeaveEvent(s, t);
    m.(lists := TakeOff(m.lists, m.tcb, t), tcb := m.tcb - {t})
  }

  function DeleteTask(s: State, t: Task): State
    requires Structure(s) && ClockOk(s) && t in s.tcb
  {
    LeaveEventKeeps(s, t);
    TerminationExists(s);
    if t == s.current then
      Park(LeaveEvent(s, t), t, TerminationList).(toCleanUp := s.toCleanUp + 1, offReady := true)
    else
      ForgetKeeps(s, t);
      var m := Forget(s, t).(numberOfTasks := if s.numberOfTasks > 0 then s.numberOfTasks - 1 else 0);
      SameStructure(Forget(s, t), m);
      m.(nextUnblock := NextUnblock(m))
  }

  lemma ForgetKeeps(s: State, t: Task)
    requires Structure(s) && t in s.tcb
    ensures Structure(Forget(s, t)) && Forget(s, t).tcb == s.tcb - {t}
  {
    hide StateItemsOk, EventItemsOk, TasksOk, InOrder, TakeOff, TakeEvent;
    LeaveEventKeeps(s, t);
    var m := LeaveEvent(s, t);
    assert m.tcb - {t} == s.tcb - {t};
    hide LeaveEvent;
    TakeOffFacts(m.lists, m.tcb, t);
    DropKeeps(m.lists, m.events, m.tcb, t);
    TakeOffOrder(m.lists, m.tcb, t, DelayedList1);
    TakeOffOrder(m.lists, m.tcb, t, DelayedList2);
  }

  lemma CreateKeeps(s: State, t: Task, priority: nat)
    requires Structure(s) && t !in s.tcb && MAX_PRIORITIES > 0
    ensures Structure(CreateTask(s, t, priority))
  {
    var p := if priority >= MAX_PRIORITIES then MAX_PRIORITIES - 1 else priority;
    var c := TCB(p, 0, ReadyList(p), NoEvent);
    assert ReadyList(p) in s.lists;
    assert s.lists[ReadyList(p)].index <= |s.lists[ReadyList(p)].items|;
    hide StateItemsOk, EventItemsOk, TasksOk, InOrder, InsertEnd;
    AddLastKeeps(s.lists, s.tcb, t, ReadyList(p), c);
    AddTaskKeeps(s.lists, s.events, s.tcb, t, InsertEnd(s.lists[ReadyList(p)], t), c);
    AddTaskOrder(s.lists, s.tcb, t, ReadyList(p), InsertEnd(s.lists[ReadyList(p)], t), c, DelayedList1);
    AddTaskOrder(s.lists, s.tcb, t, ReadyList(p), InsertEnd(s.lists[ReadyList(p)], t), c, DelayedList2);
  }

  /** prvCheckTasksWaitingTermination, one turn. */
  function CleanUpOne(s: State): State
    requires Structure(s) && Items(s, TerminationList) != []
  {
    HeadIsTask(s, TerminationList);
    Forget(s, Items(s, TerminationList)[0]).(
      numberOfTasks := if s.numberOfTasks > 0 then s.numberOfTasks - 1 else 0,
      toCleanUp := if s.toCleanUp > 0 then s.toCleanUp - 1 else 0)
  }

  lemma HeadIsTask(s: State, l: ListName)
    requires Structure(s) && Items(s, l) != []
    ensures Items(s, l)[0] in s.tcb && s.tcb[Items(s, l)[0]].at == l
  {
  }

  lemma WaiterIsTask(s: State, e: EventPlace)
    requires Structure(s) && Waiting(s, e) != []
    ensures Waiting(s, e)[0] in s.tcb && s.tcb[Waiting(s, e)[0]].on == e && e != NoEvent
    ensures !s.tcb[Waiting(s, e)[0]].at.ReadyList? && !s.tcb[Waiting(s, e)[0]].at.TerminationList?
  {
  }

  // ---------------------------------------------------------------- block, wake

  /** prvAddCurrentTaskToDelayedList, then the event list when there is one. */
  function TimeOut(s: State, ticks: nat, indefinitely: bool): State
    requires Structure(s) && ClockOk(s) && s.current in s.tcb && ticks < M
  {
    SpecialLists(s);
    if ticks == MAX_DELAY && indefinitely then Park(s, s.current, SuspendedList)
    else
      var wake := Plus(s.tick, ticks);
      if wake < s.tick then Delay(s, s.current, OverflowList(s), wake)
      else Delay(s, s.current, s.delayed, wake).(nextUnblock := if wake < s.nextUnblock then wake else s.nextUnblock)
  }

  /** What becomes of the running task's TCB. */
  function TimedOut(s: State, ticks: nat, indefinitely: bool): TCB
    requires s.tick < M && ticks < M && s.current in s.tcb
  {
    var wake := Plus(s.tick, ticks);
    if ticks == MAX_DELAY && indefinitely then s.tcb[s.current].(at := SuspendedList)
    else s.tcb[s.current].(at := if wake < s.tick then OverflowList(s) else s.delayed, wake := wake)
  }

  lemma TimeOutShape(s: State, ticks: nat, indefinitely: bool)
    requires Structure(s) && ClockOk(s) && s.current in s.tcb && ticks < M
    ensures s.tick < M
    ensures var r := TimeOut(s, ticks, indefinitely);
      && r == s.(lists := r.lists, tcb := r.tcb, nextUnblock := r.nextUnblock)
      && r.tcb == s.tcb[s.current := TimedOut(s, ticks, indefinitely)]
  {
    hide ContainersOk, OrderOk, ClockOk, PutByWake, PutLast;
    KnownDelayed(s);
    SpecialLists(s);
  }

  lemma SpecialLists(s: State)
    requires Structure(s)
    ensures SuspendedList in s.lists && TerminationList in s.lists && DelayedList1 in s.lists && DelayedList2 in s.lists
    ensures PendingReady in s.events
  {
  }

  lemma TimeOutKeeps(s: State, ticks: nat, indefinitely: bool)
    requires Structure(s) && ClockOk(s) && s.current in s.tcb && ticks < M
    ensures Structure(TimeOut(s, ticks, indefinitely))
    ensures var n := TimeOut(s, ticks, indefinitely);
      n.events == s.events && n.tcb.Keys == s.tcb.Keys
      && n.tcb[s.current].on == s.tcb[s.current].on && !n.tcb[s.current].at.ReadyList? && !n.tcb[s.current].at.TerminationList?
  {
    hide ContainersOk, OrderOk, PutByWake, PutLast;
    SpecialLists(s);
    if ticks == MAX_DELAY && indefinitely {
      ParkKeeps(s, s.current, SuspendedList);
    } else {
      var wake := Plus(s.tick, ticks);
      var l := if wake < s.tick then OverflowList(s) else s.delayed;
      DelayKeeps(s, s.current, l, wake);
      SameStructure(Delay(s, s.current, l, wake), TimeOut(s, ticks, indefinitely));
    }
  }

  function BlockCurrent(s: State, ticks: nat, indefinitely: bool, e: EventPlace, byPriority: bool): State
    requires Structure(s) && ClockOk(s) && s.current in s.tcb && ticks < M
    requires e == NoEvent || e in s.events
  {
    TimeOutKeeps(s, ticks, indefinitely);
    var m := TimeOut(s, ticks, indefinitely);
    (if e == NoEvent then m else JoinEvent(m, s.current, e, byPriority)).(offReady := true)
  }

  /** xTaskRemoveFromEventList */
  function WakeFirstOf(s: State, e: EventPlace): State
    requires Structure(s) && s.current in s.tcb && Waiting(s, e) != []
  {
    WaiterIsTask(s, e);
    SpecialLists(s);
    var t := Waiting(s, e)[0];
    LeaveEventKeeps(s, t);
    var m := LeaveEvent(s, t);
    var n := if s.depth == 0 then MakeReady(m, t) else JoinEvent(m, t, PendingReady, false);
    n.(yieldPending := s.yieldPending || Priority(s, t) > Priority(s, s.current))
  }

  lemma WakeFirstKeeps(s: State, e: EventPlace)
    requires Structure(s) && s.current in s.tcb && Waiting(s, e) != []
    ensures Structure(WakeFirstOf(s, e))
  {
    hide ContainersOk, OrderOk, PutLast, TakeEvent;
    WaiterIsTask(s, e);
    SpecialLists(s);
    var t := Waiting(s, e)[0];
    LeaveEventKeeps(s, t);
    var m := LeaveEvent(s, t);
    SpecialLists(m);
    if s.depth == 0 {
      MakeReadyKeeps(m, t);
      SameStructure(MakeReady(m, t), WakeFirstOf(s, e));
    } else {
      Kernel.JoinEventKeeps(m, t, PendingReady, false);
      SameStructure(JoinEvent(m, t, PendingReady, false), WakeFirstOf(s, e));
    }
  }

  /** xTaskRemoveFromUnorderedEventList: any one waiter, straight to its ready list, with
      the scheduler suspended. */
  function WakeWaiterOf(s: State, t: Task): State
    requires Structure(s) && s.current in s.tcb && t in s.tcb
  {
    WakeUp(s, t).(yieldPending := s.yieldPending || Priority(s, t) > Priority(s, s.current))
  }

  // ---------------------------------------------------------------- suspend, resume

  function SuspendTask(s: State, t: Task): State
    requires Structure(s) && ClockOk(s) && t in s.tcb
  {
    SuspendKeeps(s, t);
    var m := Park(LeaveEvent(s, t), t, SuspendedList);
    m.(nextUnblock := NextUnblock(m), offReady := s.offReady || t == s.current)
  }

  lemma SuspendKeeps(s: State, t: Task)
    requires Structure(s) && t in s.tcb
    ensures Structure(LeaveEvent(s, t)) && SuspendedList in LeaveEvent(s, t).lists && t in LeaveEvent(s, t).tcb
    ensures Structure(Park(LeaveEvent(s, t), t, SuspendedList))
    ensures Park(LeaveEvent(s, t), t, SuspendedList).delayed == s.delayed
  {
    hide ContainersOk, OrderOk, PutLast, TakeEvent;
    LeaveEventKeeps(s, t);
    SpecialLists(LeaveEvent(s, t));
    ParkKeeps(LeaveEvent(s, t), t, SuspendedList);
  }

  function ResumeTask(s: State, t: Task): State
    requires Structure(s) && t in s.tcb && s.current in s.tcb
  {
    if !IsSuspended(s, t) then s
    else MakeReady(s, t).(switchRequested := s.switchRequested || Priority(s, t) >= Priority(s, s.current))
  }

  /** An interrupt that does as the returned flag says. */
  function ResumeInISR(s: State, t: Task): State
    requires Structure(s) && t in s.tcb && s.current in s.tcb
  {
    SpecialLists(s);
    if !IsSuspended(s, t) then s
    else if s.depth == 0 then ResumeTask(s, t)
    else JoinEvent(s, t, PendingReady, false)
  }

  function ChangePriority(s: State, t: Task, p: nat): State
    requires Structure(s) && t in s.tcb && s.current in s.tcb && p < MAX_PRIORITIES
  {
    if s.tcb[t].priority == p then s
    else
      var raise := p > s.tcb[t].priority;
      var asks := if raise then t != s.current && p >= Priority(s, s.current) else t == s.current;
      ReadyListExists(s, p);
      var m := if s.tcb[t].at.ReadyList?
               then s.(lists := PutLast(s.lists, s.tcb, t, ReadyList(p)), topReady := Record(s.topReady, p),
                       tcb := s.tcb[t := s.tcb[t].(priority := p, at := ReadyList(p))])
               else s.(tcb := s.tcb[t := s.tcb[t].(priority := p)]);
      m.(switchRequested := s.switchRequested || asks)
  }

  lemma ReadyListExists(s: State, p: nat)
    requires Structure(s) && p < MAX_PRIORITIES
    ensures ReadyList(p) in s.lists
  {
  }

  lemma ChangePriorityKeeps(s: State, t: Task, p: nat)
    requires Structure(s) && t in s.tcb && s.current in s.tcb && p < MAX_PRIORITIES
    ensures Structure(ChangePriority(s, t, p))
  {
    hide StateItemsOk, EventItemsOk, TasksOk, InOrder, PutLast;
    if s.tcb[t].priority != p {
      ReadyListExists(s, p);
      if s.tcb[t].at.ReadyList? {
        RequeuedKeeps(s, t, p, ChangePriority(s, t, p));
      } else {
        RerankedKeeps(s, t, p, ChangePriority(s, t, p));
      }
    }
  }

  lemma RequeuedKeeps(s: State, t: Task, p: nat, r: State)
    requires Structure(s) && t in s.tcb && s.tcb[t].at.ReadyList? && p < MAX_PRIORITIES && ReadyList(p) in s.lists
    requires r.tcb == s.tcb[t := s.tcb[t].(priority := p, at := ReadyList(p))]
    requires r.lists == PutLast(s.lists, s.tcb, t, ReadyList(p)) && r.events == s.events
    ensures Structure(r)
  {
    var c := s.tcb[t].(priority := p, at := ReadyList(p));
    assert s.tcb[t].on == NoEvent;
    hide StateItemsOk, EventItemsOk, TasksOk, InOrder;
    SameOnKeeps(s.events, s.tcb, t, c);
    PutLastKeeps(s.lists, s.tcb, t, ReadyList(p), c);
    PutLastOrder(s.lists, s.tcb, t, ReadyList(p), c, DelayedList1);
    PutLastOrder(s.lists, s.tcb, t, ReadyList(p), c, DelayedList2);
    hide PutLast;
    TasksOkKeeps(s.lists, s.tcb, PutLast(s.lists, s.tcb, t, ReadyList(p)), t, c);
  }

  lemma RerankedKeeps(s: State, t: Task, p: nat, r: State)
    requires Structure(s) && t in s.tcb && !s.tcb[t].at.ReadyList? && p < MAX_PRIORITIES
    requires r.tcb == s.tcb[t := s.tcb[t].(priority := p)] && r.lists == s.lists && r.events == s.events
    ensures Structure(r)
  {
    var c := s.tcb[t].(priority := p);
    assert c.at.TerminationList? ==> c.on == NoEvent;
    hide StateItemsOk, EventItemsOk, TasksOk, InOrder;
    SameOnKeeps(s.events, s.tcb, t, c);
    SameAtKeeps(s.lists, s.tcb, t, c);
    OrderKeeps(s.lists, s.tcb, t, c, DelayedList1);
    OrderKeeps(s.lists, s.tcb, t, c, DelayedList2);
    TasksOkKeeps(s.lists, s.tcb, s.lists, t, c);
  }
}
