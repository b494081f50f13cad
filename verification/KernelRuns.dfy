/** Every step of the scheduler keeps the invariant. */
module KernelRuns {
  import opened Tick
  import opened Lists
  import opened RoundRobin
  import opened TaskLists
  import opened Kernel
  import opened KernelTick
  import opened KernelCalls
  import opened KernelResume

  // ---------------------------------------------------------------- the switch

  /** The loop of taskSELECT_HIGHEST_PRIORITY_TASK: down from uxTopReadyPriority. */
  function TopNonEmpty(s: State, p: nat): (r: nat)
    ensures r <= p
    ensures forall q :: r < q <= p ==> Items(s, ReadyList(q)) == []
    ensures Items(s, ReadyList(r)) == [] ==> r == 0
  {
    if Items(s, ReadyList(p)) != [] || p == 0 then p else TopNonEmpty(s, p - 1)
  }

  ghost predicate SomeTaskReady(s: State) { exists t :: IsReady(s, t) }

  /** The search stops at the highest priority that has a ready task. */
  lemma TopIsHighest(s: State)
    requires Structure(s) && TopOk(s) && SomeTaskReady(s)
    ensures var p := TopNonEmpty(s, s.topReady);
      && p < MAX_PRIORITIES && ReadyList(p) in s.lists && Items(s, ReadyList(p)) != [] && Valid(s.lists[ReadyList(p)])
      && (forall t :: t in s.lists[ReadyList(p)].items ==> t in s.tcb && s.tcb[t].at == ReadyList(p) && s.tcb[t].priority == p)
      && (forall t :: t in s.tcb && s.tcb[t].at.ReadyList? ==> s.tcb[t].priority <= p)
  {
    var p := TopNonEmpty(s, s.topReady);
    forall t | t in s.tcb && s.tcb[t].at.ReadyList?
      ensures s.tcb[t].priority <= p && (s.tcb[t].priority == p ==> Items(s, ReadyList(p)) != [])
    {
      ReadyIsListed(s, t);
    }
    var t :| IsReady(s, t);
    ReadyIsListed(s, t);
    hide InOrder, NoDup;
  }

  lemma ReadyIsListed(s: State, t: Task)
    requires Structure(s) && IsReady(s, t)
    ensures Items(s, ReadyList(s.tcb[t].priority)) != []
  {
  }

  /** vTaskSwitchContext */
  function SwitchTask(s: State): State
    requires Structure(s) && TopOk(s) && (s.depth == 0 ==> SomeTaskReady(s))
  {
    if s.depth > 0 then s.(yieldPending := true, switchRequested := false)
    else
      TopIsHighest(s);
      var p := TopNonEmpty(s, s.topReady);
      var l := Advance(s.lists[ReadyList(p)]);
      s.(lists := s.lists[ReadyList(p) := l], current := Selected(l), topReady := p,
         yieldPending := false, switchRequested := false, offReady := false)
  }

  lemma SwitchKeeps(s: State)
    requires Structure(s) && TopOk(s) && (s.depth == 0 ==> SomeTaskReady(s))
    ensures Structure(SwitchTask(s))
  {
    if s.depth > 0 {
      SameStructure(s, SwitchTask(s));
    } else {
      TopIsHighest(s);
      var l := ReadyList(TopNonEmpty(s, s.topReady));
      var with := Advance(s.lists[l]);
      hide Advance, NoDup;
      SameItemsKeep(s, l, with);
      SameStructure(s.(lists := s.lists[l := with]), SwitchTask(s));
    }
  }

  /** Moving pxIndex changes no list. */
  lemma SameItemsKeep(s: State, l: ListName, with: Ring<Task>)
    requires Structure(s) && l in s.lists && l.ReadyList? && Valid(with) && with.items == s.lists[l].items
    ensures Structure(s.(lists := s.lists[l := with]))
  {
    var r := s.(lists := s.lists[l := with]);
    assert r.lists.Keys == s.lists.Keys;
    assert StateItemsOk(r.lists, r.tcb) by { hide InOrder, TasksOk, EventItemsOk; }
    assert TasksOk(r.lists, r.tcb) by { hide InOrder, StateItemsOk, EventItemsOk; }
    hide StateItemsOk, TasksOk, EventItemsOk;
  }

  /** After a switch the running task is ready, and none is more urgent. */
  lemma SwitchRight(s: State)
    requires Structure(s) && TopOk(s) && s.depth == 0 && SomeTaskReady(s)
    ensures RightTaskRuns(SwitchTask(s)) && TopOk(SwitchTask(s))
  {
    TopIsHighest(s);
    hide Structure;
    var r := s.lists[ReadyList(TopNonEmpty(s, s.topReady))];
    assert Selected(Advance(r)) in r.items;
  }

  // ---------------------------------------------------------------- calls that move one task

  /** A call that concerns one task: time stands still, the others stay where they are. */
  ghost predicate Concerns(s: State, r: State, t: Task) {
    && r.tick == s.tick && r.base == s.base && r.overflows == s.overflows && r.pended == s.pended
    && r.depth == s.depth && r.delayed == s.delayed && r.interrupts == s.interrupts && r.current == s.current
    && (forall u :: u in r.tcb && u != t ==> u in s.tcb && r.tcb[u] == s.tcb[u])
    && (forall u :: u in s.tcb && u != t ==> u in r.tcb)
  }

  /** Where the task goes, if it stays, it is in time and known to uxTopReadyPriority. */
  ghost predicate Placed(s: State, r: State, t: Task) {
    && (t in r.tcb ==> r.tcb[t].wake < M)
    && (t in r.tcb && r.tcb[t].at == s.delayed ==>
          s.tick <= r.tcb[t].wake && (s.tick == r.tcb[t].wake ==> s.tick < M - 1))
    && s.topReady <= r.topReady < MAX_PRIORITIES
    && (t in r.tcb && r.tcb[t].at.ReadyList? ==> r.tcb[t].priority <= r.topReady)
  }

  /** xNextTaskUnblockTime is brought forward, or set again. */
  ghost predicate Unblocks(s: State, r: State, t: Task) {
    || (r.nextUnblock <= s.nextUnblock && (t in r.tcb && r.tcb[t].at == s.delayed ==> r.nextUnblock <= r.tcb[t].wake))
    || (Structure(r) && IsDelayedList(r.delayed) && r.nextUnblock == NextUnblock(r))
  }

  predicate Asks(s: State) { s.yieldPending || s.switchRequested || s.offReady }

  /** Whoever the call readies does not outrank the running task, or a switch is asked for. */
  ghost predicate Yields(s: State, r: State, t: Task) {
    && s.current in r.tcb
    && (Asks(s) ==> Asks(r))
    && (RightTaskRuns(s) && !Asks(r) && t in r.tcb ==>
          if t == s.current then r.tcb[t].at.ReadyList? && r.tcb[t].priority >= s.tcb[t].priority
          else r.tcb[t].at.ReadyList? ==> r.tcb[t].priority <= s.tcb[s.current].priority)
  }

  ghost predicate Counted(s: State, r: State) {
    && (r.depth == 0 ==> Waiting(r, PendingReady) == [])
    && r.numberOfTasks == |r.tcb| && r.toCleanUp == |Items(r, TerminationList)|
  }

  lemma ConcernsKeeps(s: State, r: State, t: Task)
    requires Inv(s) && Structure(r) && Concerns(s, r, t) && Placed(s, r, t) && Unblocks(s, r, t)
    requires Yields(s, r, t) && Counted(s, r)
    ensures Inv(r)
  {
    ClockKept(s, r, t);
    TopKept(s, r, t);
    RunningKept(s, r, t);
    CountsKept(s, r, t);
    hide ContainersOk, OrderOk, ClockOk, CountsOk, TopOk, RunningOk, Concerns, Placed, Unblocks, Yields, Counted;
  }

  lemma ClockKept(s: State, r: State, t: Task)
    requires ClockOk(s) && Structure(r) && Concerns(s, r, t) && Placed(s, r, t) && Unblocks(s, r, t)
    ensures ClockOk(r)
  {
    hide ContainersOk, OrderOk;
    assert TimesOk(r);
    if r.nextUnblock == NextUnblock(r) {
      ClockOkWithNext(r);
      assert r == r.(nextUnblock := NextUnblock(r));
    }
  }

  lemma TopKept(s: State, r: State, t: Task)
    requires TopOk(s) && Concerns(s, r, t) && Placed(s, r, t)
    ensures TopOk(r)
  {
  }

  lemma RunningKept(s: State, r: State, t: Task)
    requires RunningOk(s) && Concerns(s, r, t) && Yields(s, r, t)
    ensures RunningOk(r)
  {
  }

  lemma CountsKept(s: State, r: State, t: Task)
    requires CountsOk(s) && Concerns(s, r, t) && Counted(s, r)
    ensures CountsOk(r)
  {
  }

  /** Everything but the lists, the tasks, the flags and the counts. */
  ghost predicate Frame(s: State, r: State) {
    && r.tick == s.tick && r.base == s.base && r.overflows == s.overflows && r.pended == s.pended
    && r.depth == s.depth && r.delayed == s.delayed && r.interrupts == s.interrupts && r.current == s.current
  }

  ghost predicate Spot(s: State, r: State, c: TCB) {
    && c.wake < M && (c.at == s.delayed ==> s.tick <= c.wake && (s.tick == c.wake ==> s.tick < M - 1))
    && s.topReady <= r.topReady < MAX_PRIORITIES && (c.at.ReadyList? ==> c.priority <= r.topReady)
    && (r.nextUnblock <= s.nextUnblock || (Structure(r) && IsDelayedList(r.delayed) && r.nextUnblock == NextUnblock(r)))
    && (r.nextUnblock <= s.nextUnblock && c.at == s.delayed ==> r.nextUnblock <= c.wake)
  }

  ghost predicate Ranked(s: State, r: State, t: Task, c: TCB)
    requires s.current in s.tcb
  {
    && (Asks(s) ==> Asks(r))
    && (RightTaskRuns(s) && !Asks(r) ==>
          if t == s.current then t in s.tcb && c.at.ReadyList? && c.priority >= s.tcb[t].priority
          else c.at.ReadyList? ==> c.priority <= s.tcb[s.current].priority)
  }

  lemma PlacingKeeps(s: State, r: State, t: Task, c: TCB)
    requires Inv(s) && Structure(r) && Frame(s, r) && r.tcb == s.tcb[t := c]
    requires Spot(s, r, c) && Ranked(s, r, t, c) && Counted(s, r)
    ensures Inv(r) && Concerns(s, r, t)
  {
    assert Concerns(s, r, t) && Placed(s, r, t) && Yields(s, r, t) && Unblocks(s, r, t)
    by { hide ContainersOk, OrderOk, ClockOk, CountsOk, TopOk, RightTaskRuns, Counted, NextUnblock, Structure; }
    hide ContainersOk, OrderOk, Inv, Concerns, Placed, Unblocks, Yields, Counted;
    ConcernsKeeps(s, r, t);
  }

  lemma LeavingKeeps(s: State, r: State, t: Task)
    requires Inv(s) && Structure(r) && Frame(s, r) && r.tcb == s.tcb - {t} && t != s.current
    requires r.topReady == s.topReady && (Asks(s) ==> Asks(r)) && Counted(s, r)
    requires r.nextUnblock == s.nextUnblock || (IsDelayedList(r.delayed) && r.nextUnblock == NextUnblock(r))
    ensures Inv(r) && Concerns(s, r, t)
  {
    assert Concerns(s, r, t) && Placed(s, r, t) && Yields(s, r, t) && Unblocks(s, r, t)
    by { hide ContainersOk, OrderOk, ClockOk, CountsOk, RightTaskRuns, Counted, NextUnblock, Structure; }
    hide ContainersOk, OrderOk, Inv, Concerns, Placed, Unblocks, Yields, Counted;
    ConcernsKeeps(s, r, t);
  }

  /** What the calls read off the invariant. */
  lemma InvFacts(s: State)
    requires Inv(s)
    ensures Structure(s) && ClockOk(s) && TopOk(s)
    ensures IsDelayedList(s.delayed) && s.tick < M && s.topReady < MAX_PRIORITIES && s.current in s.tcb
    ensures s.numberOfTasks == |s.tcb| && s.toCleanUp == |Items(s, TerminationList)|
    ensures s.depth == 0 ==> Waiting(s, PendingReady) == []
    ensures forall t :: t in s.tcb ==> s.tcb[t].wake < M && s.tcb[t].priority < MAX_PRIORITIES
    ensures forall t :: t in s.tcb && s.tcb[t].at == s.delayed ==>
        s.tick <= s.tcb[t].wake && (s.tick == s.tcb[t].wake ==> s.tick < M - 1) && s.nextUnblock <= s.tcb[t].wake
    ensures forall t :: t in s.tcb && s.tcb[t].at.ReadyList? ==> s.tcb[t].priority <= s.topReady
  {
  }

  // ---------------------------------------------------------------- what the moves do to the counts

  lemma ParkElsewhere(s: State, t: Task, l: ListName, other: ListName)
    requires Structure(s) && t in s.tcb && l in s.lists && other != l && other != s.tcb[t].at
    ensures Items(Park(s, t, l), other) == Items(s, other)
  {
    hide ContainersOk, OrderOk, RemoveItem, InsertEnd;
  }

  lemma ParkCounts(s: State, t: Task, l: ListName)
    requires Structure(s) && t in s.tcb && l in s.lists && l != s.tcb[t].at
    ensures |Items(Park(s, t, l), l)| == |Items(s, l)| + 1
  {
  }

  lemma DelayElsewhere(s: State, t: Task, l: ListName, wake: nat, other: ListName)
    requires Structure(s) && t in s.tcb && l in s.lists && other != l && other != s.tcb[t].at
    ensures Items(Delay(s, t, l, wake), other) == Items(s, other)
  {
    hide ContainersOk, OrderOk, RemoveItem, InsertSorted;
  }

  lemma LeaveEventCounts(s: State, t: Task)
    requires Structure(s) && t in s.tcb
    ensures LeaveEvent(s, t).lists == s.lists
    ensures Waiting(s, PendingReady) == [] ==> Waiting(LeaveEvent(s, t), PendingReady) == []
  {
  }

  lemma ListIsValid(s: State, l: ListName)
    requires Structure(s) && l in s.lists
    ensures Valid(s.lists[l])
  {
  }

  lemma ForgetCounts(s: State, t: Task)
    requires Structure(s) && t in s.tcb
    ensures var r := Forget(s, t);
      && |r.tcb| == |s.tcb| - 1
      && |Items(r, TerminationList)| == |Items(s, TerminationList)| - (if s.tcb[t].at == TerminationList then 1 else 0)
      && (Waiting(s, PendingReady) == [] ==> Waiting(r, PendingReady) == [])
  {
    ForgetKeeps(s, t);
    LeaveEventKeeps(s, t);
    LeaveEventCounts(s, t);
    WhereAbouts(s.lists, s.tcb, t);
    ListIsValid(s, s.tcb[t].at);
    RemoveItemKeeps(s.lists[s.tcb[t].at], t);
    OneFewer(s.tcb, t);
    hide ContainersOk, OrderOk, TakeEvent, RemoveItem, Valid;
  }

  lemma OneFewer(m: Tasks, t: Task)
    requires t in m
    ensures |m - {t}| == |m| - 1
  {
  }

  // ---------------------------------------------------------------- the calls, one by one

  lemma CreateInv(s: State, t: Task, priority: nat)
    requires Inv(s) && t !in s.tcb && MAX_PRIORITIES > 0
    ensures Inv(CreateTask(s, t, priority)) && Concerns(s, CreateTask(s, t, priority), t)
  {
    hide ContainersOk, OrderOk, ClockOk, CountsOk, TopOk, RunningOk, RightTaskRuns, Inv, InsertEnd, NextUnblock;
    InvFacts(s);
    CreateKeeps(s, t, priority);
    var r := CreateTask(s, t, priority);
    assert Items(r, TerminationList) == Items(s, TerminationList) && r.events == s.events;
    PlacingKeeps(s, r, t, r.tcb[t]);
  }

  lemma DeleteSelf(s: State)
    requires Inv(s) && s.tcb[s.current].at != TerminationList
    ensures Inv(DeleteTask(s, s.current)) && Concerns(s, DeleteTask(s, s.current), s.current)
    ensures var r := DeleteTask(s, s.current);
      && s.current in Items(r, TerminationList) && r.tcb[s.current].on == NoEvent
      && r.toCleanUp == s.toCleanUp + 1 && r.numberOfTasks == s.numberOfTasks && r.offReady
  {
    hide ContainersOk, OrderOk, ClockOk, CountsOk, TopOk, RunningOk, RightTaskRuns, Inv, PutLast, TakeEvent, NextUnblock;
    InvFacts(s);
    var t := s.current;
    var m := LeaveEvent(s, t);
    LeaveEventKeeps(s, t);
    SpecialLists(m);
    ParkKeeps(m, t, TerminationList);
    LeaveEventCounts(s, t);
    ParkCounts(m, t, TerminationList);
    var n := Park(m, t, TerminationList);
    var r := DeleteTask(s, t);
    SameStructure(n, r);
    assert r.tcb == s.tcb[t := s.tcb[t].(at := TerminationList, on := NoEvent)];
    PlacingKeeps(s, r, t, r.tcb[t]);
    WhereListed(r, t);
  }

  lemma WhereListed(r: State, t: Task)
    requires Structure(r) && t in r.tcb
    ensures t in Items(r, r.tcb[t].at)
  {
  }

  lemma DeleteOther(s: State, t: Task)
    requires Inv(s) && t in s.tcb && s.tcb[t].at != TerminationList && t != s.current
    ensures Inv(DeleteTask(s, t)) && Concerns(s, DeleteTask(s, t), t)
    ensures var r := DeleteTask(s, t);
      && r.tcb == s.tcb - {t} && r.numberOfTasks == s.numberOfTasks - 1 && r.toCleanUp == s.toCleanUp
      && (Asks(r) <==> Asks(s))
  {
    hide ContainersOk, OrderOk, ClockOk, CountsOk, TopOk, RunningOk, RightTaskRuns, Inv, TakeOff, TakeEvent, NextUnblock;
    InvFacts(s);
    ForgetKeeps(s, t);
    ForgetCounts(s, t);
    var m := Forget(s, t).(numberOfTasks := s.numberOfTasks - 1);
    SameStructure(Forget(s, t), m);
    NextAgain(m);
    LeavingKeeps(s, DeleteTask(s, t), t);
  }

  lemma NextAgain(n: State)
    requires Structure(n) && IsDelayedList(n.delayed)
    ensures var r := n.(nextUnblock := NextUnblock(n)); Structure(r) && r.nextUnblock == NextUnblock(r)
  {
  }

  lemma CleanUpInv(s: State)
    requires Inv(s) && Items(s, TerminationList) != [] && Items(s, TerminationList)[0] != s.current
    ensures Inv(CleanUpOne(s)) && Concerns(s, CleanUpOne(s), Items(s, TerminationList)[0])
  {
    hide ContainersOk, OrderOk, ClockOk, CountsOk, TopOk, RunningOk, RightTaskRuns, Inv, TakeOff, TakeEvent, NextUnblock;
    InvFacts(s);
    var t := Items(s, TerminationList)[0];
    HeadIsTask(s, TerminationList);
    ForgetKeeps(s, t);
    ForgetCounts(s, t);
    SameStructure(Forget(s, t), CleanUpOne(s));
    LeavingKeeps(s, CleanUpOne(s), t);
  }

  lemma BlockInv(s: State, ticks: nat, indefinitely: bool, e: EventPlace, byPriority: bool)
    requires Inv(s) && IsReady(s, s.current) && ticks < M && (ticks == 0 ==> s.tick < M - 1)
    requires e == NoEvent || (e.EventList? && e in s.events)
    ensures Inv(BlockCurrent(s, ticks, indefinitely, e, byPriority)) && Concerns(s, BlockCurrent(s, ticks, indefinitely, e, byPriority), s.current)
  {
    hide ContainersOk, OrderOk, ClockOk, CountsOk, TopOk, RunningOk, RightTaskRuns, Inv, PutLast, PutByWake, TimeOut, NextUnblock;
    InvFacts(s);
    ReadyIsFree(s, s.current);
    TimeOutKeeps(s, ticks, indefinitely);
    TimeOutSpot(s, ticks, indefinitely);
    var m := TimeOut(s, ticks, indefinitely);
    var n := if e == NoEvent then m else JoinEvent(m, s.current, e, byPriority);
    if e != NoEvent { JoinEventKeeps(m, s.current, e, byPriority); }
    var r := BlockCurrent(s, ticks, indefinitely, e, byPriority);
    SameStructure(n, r);
    assert r.tcb == s.tcb[s.current := r.tcb[s.current]];
    PlacingKeeps(s, r, s.current, r.tcb[s.current]);
  }

  lemma ReadyIsFree(s: State, t: Task)
    requires Structure(s) && IsReady(s, t)
    ensures s.tcb[t].on == NoEvent
  {
  }

  /** The wake time of prvAddCurrentTaskToDelayedList, and the list it belongs to. */
  lemma TimeOutSpot(s: State, ticks: nat, indefinitely: bool)
    requires Inv(s) && ticks < M && (ticks == 0 ==> s.tick < M - 1) && IsReady(s, s.current)
    ensures var r := TimeOut(s, ticks, indefinitely);
      && r == s.(lists := r.lists, tcb := r.tcb, nextUnblock := r.nextUnblock)
      && s.current in r.tcb && r.tcb == s.tcb[s.current := r.tcb[s.current]] && Spot(s, r, r.tcb[s.current])
      && r.nextUnblock <= s.nextUnblock && Items(r, TerminationList) == Items(s, TerminationList)
  {
    hide Structure, ClockOk, TopOk, Inv, TimeOut, NextUnblock;
    InvFacts(s);
    TimeOutShape(s, ticks, indefinitely);
    TimeOutAround(s, ticks, indefinitely);
  }

  lemma TimeOutAround(s: State, ticks: nat, indefinitely: bool)
    requires Structure(s) && ClockOk(s) && s.current in s.tcb && IsReady(s, s.current) && ticks < M
    ensures var r := TimeOut(s, ticks, indefinitely);
      && Items(r, TerminationList) == Items(s, TerminationList) && r.nextUnblock <= s.nextUnblock
      && (TimedOut(s, ticks, indefinitely).at == s.delayed ==> r.nextUnblock <= TimedOut(s, ticks, indefinitely).wake)
  {
    hide ContainersOk, OrderOk, ClockOk, PutLast, PutByWake, Items;
    KnownDelayed(s);
    SpecialLists(s);
    if ticks == MAX_DELAY && indefinitely {
      ParkElsewhere(s, s.current, SuspendedList, TerminationList);
    } else {
      var wake := Plus(s.tick, ticks);
      var l := if wake < s.tick then OverflowList(s) else s.delayed;
      DelayElsewhere(s, s.current, l, wake, TerminationList);
      SameItems(Delay(s, s.current, l, wake), TimeOut(s, ticks, indefinitely), TerminationList);
    }
  }

  lemma SameItems(s: State, r: State, l: ListName)
    requires r.lists == s.lists
    ensures Items(r, l) == Items(s, l)
  {
  }

  lemma WakeFirstInv(s: State, e: EventPlace)
    requires Inv(s) && e.EventList? && Waiting(s, e) != []
    ensures Inv(WakeFirstOf(s, e)) && Concerns(s, WakeFirstOf(s, e), Waiting(s, e)[0])
  {
    hide Structure, ClockOk, CountsOk, TopOk, RightTaskRuns, Inv, WakeFirstOf, NextUnblock, Items;
    InvFacts(s);
    WakeFirstKeeps(s, e);
    WakeFirstShape(s, e);
    RightRunsReady(s);
    var r := WakeFirstOf(s, e);
    PlacingKeeps(s, r, Waiting(s, e)[0], r.tcb[Waiting(s, e)[0]]);
  }

  /** Onto its ready list, or onto xPendingReadyList while the scheduler is suspended. */
  lemma WakeFirstShape(s: State, e: EventPlace)
    requires Structure(s) && s.current in s.tcb && e.EventList? && Waiting(s, e) != []
    ensures var r, t := WakeFirstOf(s, e), Waiting(s, e)[0];
      && t in s.tcb && !s.tcb[t].at.ReadyList? && Frame(s, r) && r.nextUnblock == s.nextUnblock
      && r.numberOfTasks == s.numberOfTasks && r.toCleanUp == s.toCleanUp
      && r.switchRequested == s.switchRequested && r.offReady == s.offReady
      && r.yieldPending == (s.yieldPending || Priority(s, t) > Priority(s, s.current))
      && r.tcb == s.tcb[t := if s.depth == 0 then Woken(s.tcb[t]) else s.tcb[t].(on := PendingReady)]
      && r.topReady == (if s.depth == 0 then Record(s.topReady, Priority(s, t)) else s.topReady)
      && Items(r, TerminationList) == Items(s, TerminationList)
      && (s.depth == 0 && Waiting(s, PendingReady) == [] ==> Waiting(r, PendingReady) == [])
  {
    hide ContainersOk, OrderOk, PutLast, TakeEvent, JoinEvent;
    WaiterIsTask(s, e);
    SpecialLists(s);
    var t := Waiting(s, e)[0];
    LeaveEventKeeps(s, t);
    LeaveEventCounts(s, t);
    var m := LeaveEvent(s, t);
    if s.depth == 0 {
      ReadyListExists(m, m.tcb[t].priority) by { PriorityBound(m, t); }
      ParkElsewhere(m, t, ReadyList(m.tcb[t].priority), TerminationList);
    } else {
      SpecialLists(m);
      JoinEventFacts(m, t, PendingReady, false);
    }
  }

  lemma WakeWaiterInv(s: State, t: Task)
    requires Inv(s) && t in s.tcb && s.tcb[t].on.EventList?
    ensures Inv(WakeWaiterOf(s, t)) && Concerns(s, WakeWaiterOf(s, t), t)
    ensures WakeWaiterOf(s, t).tcb[t] == Woken(s.tcb[t])
  {
    hide ContainersOk, OrderOk, ClockOk, CountsOk, TopOk, RunningOk, RightTaskRuns, Inv, WakeUp, NextUnblock;
    InvFacts(s);
    SpecialLists(s);
    WakeUpFacts(s, t);
    WaitsSomewhere(s, t);
    WakeUpElsewhere(s, t, TerminationList);
    WakeUpPending(s, t);
    WakeUpFrame(s, t);
    var r := WakeWaiterOf(s, t);
    SameStructure(WakeUp(s, t), r);
    RightRunsReady(s);
    PlacingKeeps(s, r, t, r.tcb[t]);
  }

  lemma WaitsSomewhere(s: State, t: Task)
    requires Structure(s) && t in s.tcb && s.tcb[t].on != NoEvent
    ensures !s.tcb[t].at.ReadyList? && !s.tcb[t].at.TerminationList?
  {
  }

  lemma WakeUpFrame(s: State, t: Task)
    requires Structure(s) && t in s.tcb
    ensures var r := WakeUp(s, t);
      && r.current == s.current && r.numberOfTasks == s.numberOfTasks && r.toCleanUp == s.toCleanUp
      && r.switchRequested == s.switchRequested && r.offReady == s.offReady && r.yieldPending == s.yieldPending
  {
    hide ContainersOk, OrderOk, PutLast, TakeEvent;
    LeaveEventKeeps(s, t);
  }

  lemma JoinEventFacts(s: State, t: Task, e: EventPlace, byPriority: bool)
    requires Structure(s) && t in s.tcb && e in s.events
    ensures var r := JoinEvent(s, t, e, byPriority);
      r == s.(events := r.events, tcb := s.tcb[t := s.tcb[t].(on := e)])
  {
  }

  lemma RightRunsReady(s: State)
    ensures RightTaskRuns(s) ==> IsReady(s, s.current)
    ensures RightTaskRuns(s) ==>
        forall t :: t in s.tcb && s.tcb[t].at.ReadyList? ==> s.tcb[t].priority <= s.tcb[s.current].priority
  {
  }

  lemma SuspendInv(s: State, t: Task)
    requires Inv(s) && t in s.tcb && s.tcb[t].at != TerminationList && (t == s.current ==> s.depth == 0)
    ensures Inv(SuspendTask(s, t)) && Concerns(s, SuspendTask(s, t), t)
  {
    hide ContainersOk, OrderOk, ClockOk, CountsOk, TopOk, RunningOk, RightTaskRuns, Inv, PutLast, TakeEvent, NextUnblock;
    InvFacts(s);
    SuspendKeeps(s, t);
    LeaveEventCounts(s, t);
    var m := LeaveEvent(s, t);
    ParkElsewhere(m, t, SuspendedList, TerminationList);
    var n := Park(m, t, SuspendedList);
    NextAgain(n);
    var r := SuspendTask(s, t);
    SameStructure(n, r);
    NextUnblockReads(n, r);
    assert r.tcb == s.tcb[t := r.tcb[t]];
    PlacingKeeps(s, r, t, r.tcb[t]);
  }

  lemma NextUnblockReads(n: State, r: State)
    requires Structure(n) && Structure(r) && IsDelayedList(n.delayed)
    requires r.lists == n.lists && r.tcb == n.tcb && r.delayed == n.delayed
    ensures NextUnblock(r) == NextUnblock(n)
  {
  }

  lemma ResumeInv(s: State, t: Task)
    requires Inv(s) && t in s.tcb
    ensures Inv(ResumeTask(s, t)) && Concerns(s, ResumeTask(s, t), t)
  {
    hide ContainersOk, OrderOk, ClockOk, CountsOk, TopOk, RunningOk, RightTaskRuns, Inv, PutLast, NextUnblock;
    InvFacts(s);
    if IsSuspended(s, t) {
      MakeReadyKeeps(s, t);
      ReadyListExists(s, s.tcb[t].priority);
      ParkElsewhere(s, t, ReadyList(s.tcb[t].priority), TerminationList);
      var r := ResumeTask(s, t);
      SameStructure(MakeReady(s, t), r);
      RightRunsReady(s);
      PlacingKeeps(s, r, t, r.tcb[t]);
    }
  }

  lemma ResumeInISRInv(s: State, t: Task)
    requires Inv(s) && t in s.tcb
    ensures Inv(ResumeInISR(s, t)) && Concerns(s, ResumeInISR(s, t), t)
  {
    hide ContainersOk, OrderOk, ClockOk, CountsOk, TopOk, RunningOk, RightTaskRuns, Inv, NextUnblock, ResumeTask, JoinEvent;
    InvFacts(s);
    SpecialLists(s);
    if IsSuspended(s, t) {
      if s.depth == 0 {
        ResumeInv(s, t);
      } else {
        JoinEventFacts(s, t, PendingReady, false);
        JoinEventKeeps(s, t, PendingReady, false);
        RightRunsReady(s);
        var r := ResumeInISR(s, t);
        PlacingKeeps(s, r, t, r.tcb[t]);
      }
    }
  }

  lemma SetPriorityInv(s: State, t: Task, p: nat)
    requires Inv(s) && t in s.tcb && p < MAX_PRIORITIES
    ensures Inv(ChangePriority(s, t, p)) && Concerns(s, ChangePriority(s, t, p), t)
  {
    hide ContainersOk, OrderOk, ClockOk, CountsOk, TopOk, RunningOk, RightTaskRuns, Inv, NextUnblock;
    InvFacts(s);
    ChangePriorityKeeps(s, t, p);
    ChangePriorityFacts(s, t, p);
    RightRunsReady(s);
    var r := ChangePriority(s, t, p);
    if p != s.tcb[t].priority {
      hide ChangePriority;
      PlacingKeeps(s, r, t, r.tcb[t]);
    }
  }

  /** When vTaskPrioritySet asks for a switch. */
  predicate AsksAtPriority(s: State, t: Task, p: nat)
    requires t in s.tcb && s.current in s.tcb
  {
    if p > s.tcb[t].priority then t != s.current && p >= Priority(s, s.current)
    else p < s.tcb[t].priority && t == s.current
  }

  lemma ChangePriorityFacts(s: State, t: Task, p: nat)
    requires Structure(s) && t in s.tcb && s.current in s.tcb && p < MAX_PRIORITIES
    ensures var r := ChangePriority(s, t, p);
      && Frame(s, r) && r.nextUnblock == s.nextUnblock && r.events == s.events
      && r.numberOfTasks == s.numberOfTasks && r.toCleanUp == s.toCleanUp
      && r.topReady == (if s.tcb[t].at.ReadyList? && s.tcb[t].priority != p then Record(s.topReady, p) else s.topReady)
      && r.tcb == s.tcb[t := s.tcb[t].(priority := p, at := if s.tcb[t].at.ReadyList? then ReadyList(p) else s.tcb[t].at)]
      && r.yieldPending == s.yieldPending && r.offReady == s.offReady
      && r.switchRequested == (s.switchRequested || AsksAtPriority(s, t, p))
      && Items(r, TerminationList) == Items(s, TerminationList)
  {
    hide ContainersOk, OrderOk, PutLast, Items;
    ReadyListExists(s, p);
    ReadyIsHome(s, t);
    if s.tcb[t].at.ReadyList? && s.tcb[t].priority != p {
      ParkElsewhere(s, t, ReadyList(p), TerminationList);
      SameItems(Park(s, t, ReadyList(p)), ChangePriority(s, t, p), TerminationList);
    } else {
      SameItems(s, ChangePriority(s, t, p), TerminationList);
    }
  }

  lemma ReadyIsHome(s: State, t: Task)
    requires Structure(s) && t in s.tcb
    ensures s.tcb[t].at.ReadyList? ==> s.tcb[t].at == ReadyList(s.tcb[t].priority)
  {
  }

  lemma SwitchInv(s: State)
    requires Inv(s) && (s.depth == 0 ==> SomeTaskReady(s))
    ensures var r := SwitchTask(s);
      && Inv(r)
      && if s.depth > 0 then r.current == s.current && r.lists == s.lists && r.yieldPending
         else RightTaskRuns(r) && !Asks(r)
  {
    hide ContainersOk, OrderOk, ClockOk, CountsOk, TopOk, RightTaskRuns, Advance, TopNonEmpty;
    SwitchKeeps(s);
    var r := SwitchTask(s);
    if s.depth == 0 {
      SwitchRight(s);
      RightRunsReady(r);
      SameClockOk(s, r);
      TopIsHighest(s);
    } else {
      SameClockOk(s, r);
      SameTop(s, r);
    }
    SameCounts(s, r);
  }

  lemma SameClockOk(s: State, r: State)
    requires ClockOk(s) && r.tick == s.tick && r.tcb == s.tcb && r.delayed == s.delayed && r.nextUnblock == s.nextUnblock
    ensures ClockOk(r)
  {
  }

  lemma SameCounts(s: State, r: State)
    requires CountsOk(s) && Frame(s, r.(current := s.current)) && r.numberOfTasks == s.numberOfTasks && r.toCleanUp == s.toCleanUp
    requires r.tcb == s.tcb && r.events == s.events && Items(r, TerminationList) == Items(s, TerminationList)
    ensures CountsOk(r)
  {
  }

  // ---------------------------------------------------------------- the tick

  /** The tick interrupt: counted now, or held back while the scheduler is suspended. */
  function TickISR(s: State): State
    requires Structure(s) && ClockOk(s) && s.current in s.tcb
  {
    if s.depth > 0 then
      s.(pended := s.pended + 1, interrupts := s.interrupts + 1, switchRequested := s.switchRequested || s.yieldPending)
    else
      var r := CountTick(s);
      r.state.(interrupts := s.interrupts + 1, switchRequested := s.switchRequested || r.switchRequired)
  }

  lemma TickInv(s: State)
    requires Inv(s)
    ensures Inv(TickISR(s))
  {
    hide ContainersOk, OrderOk, ClockOk, CountsOk, TopOk, RightTaskRuns, Inv, CountTick, TimeMoved;
    InvFacts(s);
    var r := TickISR(s);
    if s.depth > 0 {
      HeldBackInv(s);
    } else {
      CountTickExact(s);
      CountTickFrame(s);
      if RightTaskRuns(s) && !CountTick(s).switchRequired { CountTickRight(s); }
      SameStructure(CountTick(s).state, r);
      SameClockOk(CountTick(s).state, r);
      CountedInv(s, CountTick(s), r);
    }
  }

  lemma HeldBackInv(s: State)
    requires Inv(s) && s.depth > 0
    ensures Inv(TickISR(s))
  {
    hide ContainersOk, OrderOk, ClockOk, TopOk, RightTaskRuns;
    var r := TickISR(s);
    SameStructure(s, r);
    SameClockOk(s, r);
    SameTop(s, r);
    if RightTaskRuns(s) { SameRightNow(s, r); }
    if EpochOk(s) { assert EpochOk(r); }
    hide EpochOk;
  }

  lemma CountedInv(s: State, c: Ticked, r: State)
    requires Inv(s) && s.depth == 0 && TickFrame(s, c.state) && Now(c.state) == Now(s) + 1 && c.state.current in c.state.tcb
    requires RightTaskRuns(s) && !c.switchRequired ==> RightTaskRuns(c.state)
    requires r == c.state.(interrupts := s.interrupts + 1, switchRequested := s.switchRequested || c.switchRequired)
    requires Structure(r) && ClockOk(r)
    ensures Inv(r)
  {
    hide ContainersOk, OrderOk, ClockOk;
    if EpochOk(c.state) { assert EpochOk(r); }
    SameTop(c.state, r);
    if RightTaskRuns(c.state) { SameRightNow(c.state, r); }
    hide TopOk, RightTaskRuns, EpochOk;
  }

  // ---------------------------------------------------------------- resuming the scheduler

  lemma ResumeAllInv(s: State)
    requires Inv(s) && s.depth > 0
    ensures Inv(ResumeScheduler(s))
  {
    hide ContainersOk, OrderOk, ClockOk, CountsOk, TopOk, RightTaskRuns, RunningOk, Inv, Drained, Caught, RunTicks, DrainPending;
    InvFacts(s);
    var a := s.(depth := s.depth - 1);
    SameStructure(s, a);
    SameClockOk(s, a);
    if a.depth > 0 {
      LowerInv(s, a);
    } else {
      DrainKeeps(a);
      var b := DrainPending(a);
      EmptiedKeeps(a);
      var c := Emptied(a);
      RunTicksKeeps(c, s.pended);
      var d := RunTicks(c, s.pended);
      var r := ResumeScheduler(s);
      SameStructure(d, r);
      SameClockOk(d, r);
      ResumedInv(s, a, b, c, d, r);
    }
  }

  /** Suspending the scheduler and resuming it again with nothing in between undoes
      itself, whatever the nesting: only a yield that was already noted is asked for. */
  lemma SuspendThenResume(s: State)
    requires Inv(s)
    ensures var a := s.(depth := s.depth + 1);
      && Structure(a) && ClockOk(a)
      && ResumeScheduler(a) == s.(switchRequested := s.switchRequested || (s.depth == 0 && s.yieldPending))
  {
    hide ContainersOk, OrderOk, ClockOk, CountsOk, TopOk, RightTaskRuns, RunningOk, Inv, Drained, Caught, NextUnblock, NextTick;
    InvFacts(s);
    NothingHeldBack(s);
    var a := s.(depth := s.depth + 1);
    SameStructure(s, a);
    SameClockOk(s, a);
    DrainKeeps(s);
  }

  lemma NothingHeldBack(s: State)
    requires Inv(s)
    ensures s.depth == 0 ==> s.pended == 0 && Waiting(s, PendingReady) == []
  {
  }

  lemma LowerInv(s: State, a: State)
    requires s.depth > 1 && Inv(s) && a == s.(depth := s.depth - 1) && Structure(a) && ClockOk(a)
    ensures Inv(a)
  {
    hide ContainersOk, OrderOk, ClockOk;
  }

  lemma ResumedInv(s: State, a: State, b: State, c: State, d: State, r: State)
    requires Inv(s) && a == s.(depth := 0) && Drained(a, b) && c == b.(nextUnblock := c.nextUnblock) && Caught(c, d, s.pended)
    requires r == d.(pended := 0, switchRequested := d.switchRequested || d.yieldPending)
    requires Structure(r) && ClockOk(r)
    ensures Inv(r)
  {
    hide ContainersOk, OrderOk, ClockOk;
  }
}
