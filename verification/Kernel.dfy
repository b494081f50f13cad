/** The scheduler of tasks.c as a state machine: preemption and time slicing on,
    generic task selection, vTaskSuspend and vTaskDelete included, no mutexes.
    A critical section is one step; a yield is a request the port serves later. */
module Kernel {
  import opened Tick
  import opened Lists
  import opened RoundRobin
  import opened TaskLists

  datatype State = State(
    tick: nat,                // xTickCount
    base: nat,                // the absolute time at which this epoch's tick 0 was
    overflows: nat,           // xNumOfOverflows
    pended: nat,              // uxPendedTicks
    depth: nat,               // uxSchedulerSuspended
    nextUnblock: nat,         // xNextTaskUnblockTime
    yieldPending: bool,       // xYieldPending
    switchRequested: bool,    // a context switch the port still has to perform
    offReady: bool,           // the running task took itself off its ready list and is about to yield
    topReady: nat,            // uxTopReadyPriority
    current: Task,            // pxCurrentTCB
    numberOfTasks: nat,       // uxCurrentNumberOfTasks
    toCleanUp: nat,           // uxDeletedTasksWaitingCleanUp
    delayed: ListName,        // pxDelayedTaskList
    lists: StateLists,
    events: EventLists,
    tcb: Tasks,
    interrupts: nat)          // tick interrupts since the start

  function OverflowList(s: State): ListName {
    if s.delayed == DelayedList1 then DelayedList2 else DelayedList1
  }

  function Now(s: State): nat { s.base + s.tick }

  predicate IsDelayed(s: State, t: Task) {
    t in s.tcb && (s.tcb[t].at == DelayedList1 || s.tcb[t].at == DelayedList2)
  }

  /** The absolute time a delayed task waits for. */
  function Due(s: State, t: Task): nat
    requires t in s.tcb
  {
    s.base + s.tcb[t].wake + if s.tcb[t].at == s.delayed then 0 else M
  }

  function Items(s: State, l: ListName): seq<Task> {
    if l in s.lists then s.lists[l].items else []
  }

  function Waiting(s: State, e: EventPlace): seq<Task> {
    if e in s.events then s.events[e] else []
  }

  function Priority(s: State, t: Task): nat
    requires t in s.tcb
  {
    s.tcb[t].priority
  }

  predicate IsReady(s: State, t: Task) { t in s.tcb && s.tcb[t].at.ReadyList? }

  // ---------------------------------------------------------------- invariant

  ghost predicate ContainersOk(s: State) {
    && StateItemsOk(s.lists, s.tcb)
    && EventItemsOk(s.events, s.tcb)
    && TasksOk(s.lists, s.tcb)
  }

  /** The current delayed list wakes in this epoch, the other in the next, both in
      order, and xNextTaskUnblockTime is not late. */
  ghost predicate ClockOk(s: State) {
    && s.tick < M
    && (s.delayed == DelayedList1 || s.delayed == DelayedList2)
    && (forall t :: t in s.tcb ==> s.tcb[t].wake < M)
    && (forall t :: t in s.tcb && s.tcb[t].at == s.delayed ==>
          s.tick <= s.tcb[t].wake && (s.tick == s.tcb[t].wake ==> s.tick < M - 1) && s.nextUnblock <= s.tcb[t].wake)
  }

  ghost predicate OrderOk(s: State) {
    InOrder(s.lists, s.tcb, DelayedList1) && InOrder(s.lists, s.tcb, DelayedList2)
  }

  /** The epoch starts at a multiple of the modulus. */
  predicate EpochOk(s: State) { s.base == s.overflows * M }

  /** No tick interrupt is lost, and none is held back while the scheduler runs. */
  ghost predicate CountsOk(s: State) {
    && s.interrupts == Now(s) + s.pended
    && (s.depth == 0 ==> s.pended == 0)
    && (s.depth == 0 ==> Waiting(s, PendingReady) == [])
    && EpochOk(s)
    && s.numberOfTasks == |s.tcb|
    && s.toCleanUp == |Items(s, TerminationList)|
  }

  /** uxTopReadyPriority bounds the ready tasks. */
  ghost predicate TopOk(s: State) {
    && s.topReady < MAX_PRIORITIES
    && forall t :: t in s.tcb && s.tcb[t].at.ReadyList? ==> s.tcb[t].priority <= s.topReady
  }

  /** The running task is ready and no ready task is more urgent. */
  ghost predicate RightTaskRuns(s: State) {
    && IsReady(s, s.current)
    && forall t :: t in s.tcb && s.tcb[t].at.ReadyList? ==> s.tcb[t].priority <= s.tcb[s.current].priority
  }

  ghost predicate RunningOk(s: State) {
    && s.current in s.tcb
    && (s.yieldPending || s.switchRequested || s.offReady || RightTaskRuns(s))
  }

  ghost predicate Inv(s: State) {
    ContainersOk(s) && ClockOk(s) && OrderOk(s) && CountsOk(s) && TopOk(s) && RunningOk(s)
  }

  // ---------------------------------------------------------------- the pieces

  /** vListInsertEnd of a state item taken from elsewhere. */
  function Park(s: State, t: Task, l: ListName): State
    requires ContainersOk(s) && t in s.tcb && l in s.lists
  {
    s.(lists := PutLast(s.lists, s.tcb, t, l), tcb := s.tcb[t := s.tcb[t].(at := l)])
  }

  /** taskRECORD_READY_PRIORITY */
  function Record(top: nat, priority: nat): nat { if priority > top then priority else top }

  /** uxListRemove and prvAddTaskToReadyList. */
  function MakeReady(s: State, t: Task): State
    requires ContainersOk(s) && t in s.tcb
  {
    var p := s.tcb[t].priority;
    Park(s, t, ReadyList(p)).(topReady := Record(s.topReady, p))
  }

  /** vListInsert of a state item into a delayed list. */
  function Delay(s: State, t: Task, l: ListName, wake: nat): State
    requires ContainersOk(s) && t in s.tcb && l in s.lists
  {
    s.(lists := PutByWake(s.lists, s.tcb, t, l, wake), tcb := s.tcb[t := s.tcb[t].(at := l, wake := wake)])
  }

  function LeaveEvent(s: State, t: Task): State
    requires ContainersOk(s) && t in s.tcb
  {
    s.(events := TakeEvent(s.events, s.tcb, t), tcb := s.tcb[t := s.tcb[t].(on := NoEvent)])
  }

  /** vListInsert (by priority) or vListInsertEnd of an event item. */
  function JoinEvent(s: State, t: Task, e: EventPlace, byPriority: bool): State
    requires ContainersOk(s) && t in s.tcb && e in s.events
  {
    s.(events := s.events[e := Joined(s.events, s.tcb, t, e, byPriority)], tcb := s.tcb[t := s.tcb[t].(on := e)])
  }

  ghost predicate Structure(s: State) { ContainersOk(s) && OrderOk(s) }

  lemma SameStructure(s: State, r: State)
    requires Structure(s) && r.lists == s.lists && r.events == s.events && r.tcb == s.tcb
    ensures Structure(r)
  {
  }

  lemma LeaveEventKeeps(s: State, t: Task)
    requires Structure(s) && t in s.tcb
    ensures Structure(LeaveEvent(s, t)) && t in LeaveEvent(s, t).tcb && LeaveEvent(s, t).tcb[t].on == NoEvent
  {
    var c := s.tcb[t].(on := NoEvent);
    assert c.priority < MAX_PRIORITIES && (c.at.ReadyList? ==> c.at.priority == c.priority);
    hide StateItemsOk, EventItemsOk, TasksOk, InOrder;
    TakeEventKeeps(s.events, s.tcb, t, c);
    SameAtKeeps(s.lists, s.tcb, t, c);
    TasksOkKeeps(s.lists, s.tcb, s.lists, t, c);
    OrderKeeps(s.lists, s.tcb, t, c, DelayedList1);
    OrderKeeps(s.lists, s.tcb, t, c, DelayedList2);
  }

  lemma JoinEventKeeps(s: State, t: Task, e: EventPlace, byPriority: bool)
    requires Structure(s) && t in s.tcb && e in s.events
    requires s.tcb[t].on == NoEvent && !s.tcb[t].at.ReadyList? && !s.tcb[t].at.TerminationList?
    ensures Structure(JoinEvent(s, t, e, byPriority))
  {
    var c := s.tcb[t].(on := e);
    assert c.priority < MAX_PRIORITIES;
    hide StateItemsOk, EventItemsOk, TasksOk, InOrder;
    JoinedKeeps(s.events, s.tcb, t, e, byPriority, c);
    SameAtKeeps(s.lists, s.tcb, t, c);
    TasksOkKeeps(s.lists, s.tcb, s.lists, t, c);
    OrderKeeps(s.lists, s.tcb, t, c, DelayedList1);
    OrderKeeps(s.lists, s.tcb, t, c, DelayedList2);
  }

  lemma ParkKeeps(s: State, t: Task, l: ListName)
    requires Structure(s) && t in s.tcb && l in s.lists && l != DelayedList1 && l != DelayedList2
    requires l.ReadyList? ==> l.priority == s.tcb[t].priority
    requires l.ReadyList? || l.TerminationList? ==> s.tcb[t].on == NoEvent
    ensures Structure(Park(s, t, l))
  {
    var c := s.tcb[t].(at := l);
    assert c.priority < MAX_PRIORITIES;
    hide StateItemsOk, EventItemsOk, TasksOk, InOrder;
    PutLastKeeps(s.lists, s.tcb, t, l, c);
    SameOnKeeps(s.events, s.tcb, t, c);
    PutLastOrder(s.lists, s.tcb, t, l, c, DelayedList1);
    PutLastOrder(s.lists, s.tcb, t, l, c, DelayedList2);
    hide PutLast;
    TasksOkKeeps(s.lists, s.tcb, PutLast(s.lists, s.tcb, t, l), t, c);
  }

  lemma MakeReadyKeeps(s: State, t: Task)
    requires Structure(s) && t in s.tcb && s.tcb[t].on == NoEvent
    ensures Structure(MakeReady(s, t))
  {
    ParkKeeps(s, t, ReadyList(s.tcb[t].priority));
  }

  lemma DelayKeeps(s: State, t: Task, l: ListName, wake: nat)
    requires Structure(s) && t in s.tcb && l in s.lists && (l == DelayedList1 || l == DelayedList2)
    ensures Structure(Delay(s, t, l, wake))
  {
    var c := s.tcb[t].(at := l, wake := wake);
    assert c.priority < MAX_PRIORITIES;
    hide StateItemsOk, EventItemsOk, TasksOk, InOrder;
    PutByWakeKeeps(s.lists, s.tcb, t, l, wake, c);
    SameOnKeeps(s.events, s.tcb, t, c);
    PutByWakeOrder(s.lists, s.tcb, t, l, wake, c, DelayedList1);
    PutByWakeOrder(s.lists, s.tcb, t, l, wake, c, DelayedList2);
    hide PutByWake;
    TasksOkKeeps(s.lists, s.tcb, PutByWake(s.lists, s.tcb, t, l, wake), t, c);
  }
}
