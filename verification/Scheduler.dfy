/** The scheduler's file-scope variables and the calls that update them in place.
    Every method does to the variables what the state machine says. */
module Scheduler {
  import opened Tick
  import opened Lists
  import opened RoundRobin
  import opened TaskLists
  import opened Kernel
  import opened KernelTick
  import opened KernelCalls
  import opened KernelResume
  import opened KernelRuns

  class Scheduler {
    var tick: nat
    var overflows: nat
    var pended: nat
    var depth: nat
    var nextUnblock: nat
    var yieldPending: bool
    var switchRequested: bool
    var offReady: bool
    var topReady: nat
    var current: Task
    var numberOfTasks: nat
    var toCleanUp: nat
    var delayed: ListName
    var lists: StateLists
    var events: EventLists
    var tcb: Tasks
    ghost var base: nat
    ghost var interrupts: nat

    ghost function View(): State
      reads this
    {
      State(tick, base, overflows, pended, depth, nextUnblock, yieldPending, switchRequested, offReady, topReady,
            current, numberOfTasks, toCleanUp, delayed, lists, events, tcb, interrupts)
    }

    // -------------------------------------------------------------- the pieces

    /** uxListRemove of a state item. */
    method ListRemove(t: Task)
      requires t in tcb && tcb[t].at in lists && t in lists[tcb[t].at].items
      modifies this`lists
      ensures lists == TakeOff(old(lists), tcb, t)
    {
      lists := lists[tcb[t].at := RemoveItem(lists[tcb[t].at], t)];
    }

    /** uxListRemove and vListInsertEnd of a state item. */
    method MoveToEnd(t: Task, l: ListName)
      requires Structure(View()) && t in tcb && l in lists
      modifies this`lists, this`tcb
      ensures View() == Park(old(View()), t, l)
    {
      hide Structure, RemoveItem, InsertEnd, TakeOff;
      Movable(View(), t);
      TakenOffAt(View(), t, l);
      ListRemove(t);
      lists := lists[l := InsertEnd(lists[l], t)];
      tcb := tcb[t := tcb[t].(at := l)];
    }

    /** uxListRemove and prvAddTaskToReadyList */
    method MoveToReadyList(t: Task)
      requires Structure(View()) && t in tcb
      modifies this`lists, this`tcb, this`topReady
      ensures View() == MakeReady(old(View()), t)
    {
      hide Structure, PutLast;
      ReadyListExists(View(), tcb[t].priority) by { PriorityBound(View(), t); }
      if tcb[t].priority > topReady {
        topReady := tcb[t].priority;
      }
      SameStructure(old(View()), View());
      MoveToEnd(t, ReadyList(tcb[t].priority));
    }

    /** uxListRemove of an event item, when it is on a list. */
    method LeaveEventList(t: Task)
      requires Structure(View()) && t in tcb
      modifies this`events, this`tcb
      ensures View() == LeaveEvent(old(View()), t)
    {
      hide Structure, Remove;
      Movable(View(), t);
      if tcb[t].on != NoEvent {
        events := events[tcb[t].on := Remove(events[tcb[t].on], t)];
      }
      tcb := tcb[t := tcb[t].(on := NoEvent)];
    }

    /** vListInsert of an event item, or vListInsertEnd. */
    method JoinEventList(t: Task, e: EventPlace, byPriority: bool)
      requires Structure(View()) && t in tcb && e in events
      modifies this`events, this`tcb
      ensures View() == JoinEvent(old(View()), t, e, byPriority)
    {
      hide Structure, InsertSorted;
      WaitersKnown(View(), e);
      if byPriority {
        events := events[e := InsertSorted(events[e], t, Urgency(tcb))];
      } else {
        events := events[e := events[e] + [t]];
      }
      tcb := tcb[t := tcb[t].(on := e)];
    }

    /** Both items off their lists, and prvAddTaskToReadyList. */
    method MoveToReady(t: Task)
      requires Structure(View()) && t in tcb
      modifies this`lists, this`events, this`tcb, this`topReady
      ensures View() == WakeUp(old(View()), t)
    {
      hide Structure, LeaveEvent, MakeReady;
      LeaveEventKeeps(View(), t);
      LeaveEventList(t);
      MoveToReadyList(t);
    }

    /** prvResetNextTaskUnblockTime */
    method ResetNextUnblock()
      requires Structure(View()) && IsDelayedList(delayed)
      modifies this`nextUnblock
      ensures View() == old(View()).(nextUnblock := NextUnblock(old(View())))
    {
      HeadFacts(View(), delayed);
      hide Structure;
      if lists[delayed].items == [] {
        nextUnblock := MAX_DELAY;
      } else {
        nextUnblock := tcb[lists[delayed].items[0]].wake;
      }
    }

    // -------------------------------------------------------------- the tick

    /** taskSWITCH_DELAYED_LISTS */
    method SwitchDelayedLists()
      requires Structure(View()) && IsDelayedList(delayed) && Items(View(), delayed) == []
      modifies this`delayed, this`overflows, this`nextUnblock
      ensures var n := old(View()).(delayed := OverflowList(old(View())), overflows := old(overflows) + 1);
        Structure(n) && View() == n.(nextUnblock := NextUnblock(n))
    {
      hide Structure, NextUnblock, Items;
      ghost var n := View().(delayed := OverflowList(View()), overflows := overflows + 1);
      SameStructure(View(), n);
      delayed := if delayed == DelayedList1 then DelayedList2 else DelayedList1;
      overflows := overflows + 1;
      assert View() == n;
      ResetNextUnblock();
    }

    /** The increment at the start of xTaskIncrementTick. */
    method AdvanceTick()
      requires Structure(View()) && IsDelayedList(delayed) && tick < M && ClockOk(View())
      modifies this`tick, this`overflows, this`nextUnblock, this`delayed, this`base
      ensures View() == NextTick(old(View()))
    {
      hide Structure, ClockOk, NextUnblock;
      if tick + 1 < M {
        tick := tick + 1;
      } else {
        WrapTick();
      }
    }

    /** The increment that wraps to 0. */
    method WrapTick()
      requires Structure(View()) && IsDelayedList(delayed) && tick == M - 1 && ClockOk(View())
      modifies this`tick, this`overflows, this`nextUnblock, this`delayed, this`base
      ensures View() == NextTick(old(View()))
    {
      hide Structure, ClockOk, NextUnblock;
      CurrentListEmptyAtWrap(View());
      tick := 0;
      base := base + M;
      SameStructure(old(View()), View());
      SwitchDelayedLists();
    }

    /** The loop of xTaskIncrementTick. */
    method WakeDueTasks() returns (switchRequired: bool)
      requires Structure(View()) && IsDelayedList(delayed) && current in tcb
      modifies this`lists, this`events, this`tcb, this`topReady, this`nextUnblock
      ensures WakeDue(old(View()), false) == Ticked(View(), switchRequired)
    {
      hide Structure, WakeUp;
      switchRequired := false;
      while true
        invariant Structure(View()) && IsDelayedList(delayed) && current in tcb
        invariant WakeDue(View(), switchRequired) == WakeDue(old(View()), false)
        decreases |Items(View(), delayed)|
      {
        HeadFacts(View(), delayed);
        if lists[delayed].items == [] {
          nextUnblock := MAX_DELAY;
          break;
        }
        var t := lists[delayed].items[0];
        if tick < tcb[t].wake {
          nextUnblock := tcb[t].wake;
          break;
        }
        WakeUpFacts(View(), t);
        WakeUpShortens(View(), t);
        var urgent := tcb[t].priority >= tcb[current].priority;
        MoveToReady(t);
        switchRequired := switchRequired || urgent;
      }
    }

    /** xTaskIncrementTick */
    method IncrementTick() returns (switchRequired: bool)
      requires Structure(View()) && ClockOk(View()) && current in tcb
      modifies this
      ensures old(depth) == 0 ==> CountTick(old(View())) == Ticked(View(), switchRequired)
      ensures old(depth) > 0 ==> View() == old(View()).(pended := old(pended) + 1) && switchRequired == yieldPending
    {
      hide Structure, ClockOk, NextUnblock, NextTick, WakeDue;
      ghost var s := View();
      switchRequired := false;
      if depth == 0 {
        KnownDelayed(s);
        NextTickFacts(s);
        AdvanceTick();
        ghost var n := View();
        TickerFacts(s, n);
        if tick >= nextUnblock {
          WakeDueExact(n, false);
          switchRequired := WakeDueTasks();
        }
        WokenOwnList(s, n, View());
        if |lists[ReadyList(tcb[current].priority)].items| > 1 {
          switchRequired := true;
        }
      } else {
        pended := pended + 1;
      }
      if yieldPending {
        switchRequired := true;
      }
    }

    // -------------------------------------------------------------- suspending the scheduler

    /** vTaskSuspendAll */
    method SuspendAll()
      modifies this`depth
      ensures View() == old(View()).(depth := old(depth) + 1)
    {
      depth := depth + 1;
    }

    /** The first loop of xTaskResumeAll, and whether it moved a task. */
    method DrainPendingReady() returns (moved: bool)
      requires Structure(View()) && current in tcb
      modifies this`lists, this`events, this`tcb, this`topReady, this`yieldPending
      ensures View() == DrainPending(old(View()))
      ensures moved <==> old(Waiting(View(), PendingReady)) != []
    {
      hide Structure, WakeUp;
      moved := false;
      SpecialLists(View());
      while events[PendingReady] != []
        invariant Structure(View()) && current in tcb && PendingReady in events
        invariant DrainPending(View()) == DrainPending(old(View()))
        invariant moved || events[PendingReady] == old(Waiting(View(), PendingReady))
        invariant moved ==> old(Waiting(View(), PendingReady)) != []
        decreases |Waiting(View(), PendingReady)|
      {
        var t := events[PendingReady][0];
        ghost var s := View();
        WaiterIsTask(s, PendingReady);
        WakeUpFacts(s, t);
        WakeUpDrains(s, t);
        var urgent := tcb[t].priority >= tcb[current].priority;
        MoveToReady(t);
        ghost var w := View();
        if urgent {
          yieldPending := true;
        }
        SameStructure(w, View());
        SpecialLists(View());
        moved := true;
      }
    }

    /** The second loop of xTaskResumeAll. */
    method RunPendedTicks()
      requires Structure(View()) && ClockOk(View()) && current in tcb && depth == 0
      requires Waiting(View(), PendingReady) == []
      modifies this
      ensures View() == RunTicks(old(View()), old(pended)).(pended := 0)
    {
      hide Structure, ClockOk, CountTick, TickFrame, TimeMoved;
      ghost var s := View();
      var n := pended;
      if n > 0 {
        while n > 0
          invariant n <= s.pended && depth == 0 && pended == s.pended
          invariant Structure(View()) && ClockOk(View()) && current in tcb && Waiting(View(), PendingReady) == []
          invariant RunTicks(View(), n) == RunTicks(s, s.pended)
        {
          ghost var m := View();
          KnownDelayed(m);
          HeldBackFacts(m);
          CountTickFrame(m);
          FrameFlags(m, CountTick(m).state);
          var required := IncrementTick();
          if required {
            yieldPending := true;
          }
          n := n - 1;
        }
        pended := 0;
      }
    }

    /** xTaskResumeAll */
    method ResumeAll() returns (alreadyYielded: bool)
      requires Structure(View()) && ClockOk(View()) && current in tcb && depth > 0
      modifies this
      ensures View() == ResumeScheduler(old(View()))
      ensures alreadyYielded <==> old(depth) == 1 && yieldPending
    {
      hide Structure, ClockOk, RunTicks, Emptied;
      ghost var a := View().(depth := depth - 1);
      SameStructure(View(), a);
      SameClockOk(View(), a);
      alreadyYielded := false;
      depth := depth - 1;
      if depth == 0 {
        alreadyYielded := ResumeOutermost();
      }
    }

    /** The end of the outermost suspension. */
    method ResumeOutermost() returns (alreadyYielded: bool)
      requires Structure(View()) && ClockOk(View()) && current in tcb && depth == 0
      modifies this
      ensures var c := Emptied(old(View()));
        && Structure(c) && ClockOk(c) && c.current in c.tcb
        && var d := RunTicks(c, old(pended));
           View() == d.(pended := 0, switchRequested := d.switchRequested || d.yieldPending)
      ensures alreadyYielded <==> yieldPending
    {
      hide Structure, ClockOk, DrainPending, RunTicks, NextUnblock, Drained;
      ghost var a := View();
      DrainKeeps(a);
      EmptiedKeeps(a);
      DrainedClock(a, DrainPending(a));
      var moved := DrainPendingReady();
      if moved {
        KnownDelayed(View());
        ResetNextUnblock();
      }
      RunPendedTicks();
      alreadyYielded := false;
      if yieldPending {
        alreadyYielded := true;
        switchRequested := true;
      }
    }

    // -------------------------------------------------------------- switching

    /** taskSELECT_HIGHEST_PRIORITY_TASK */
    method SelectHighestPriorityTask()
      requires Structure(View()) && TopOk(View()) && SomeTaskReady(View())
      modifies this`lists, this`current, this`topReady
      ensures var p := TopNonEmpty(old(View()), old(topReady));
        && ReadyList(p) in old(lists) && old(lists)[ReadyList(p)].items != []
        && View() == old(View()).(
             lists := old(lists)[ReadyList(p) := Advance(old(lists)[ReadyList(p)])],
             current := old(lists)[ReadyList(p)].items[Advance(old(lists)[ReadyList(p)]).index - 1], topReady := p)
    {
      hide Structure, TopOk, SomeTaskReady, Valid;
      TopIsHighest(View());
      ReadyListsExist(View());
      var p: nat := topReady;
      while lists[ReadyList(p)].items == []
        invariant p <= topReady && TopNonEmpty(View(), p) == TopNonEmpty(View(), topReady)
        invariant forall q: nat :: q <= topReady ==> ReadyList(q) in lists
        decreases p
      {
        assert TopNonEmpty(View(), 0) == 0;
        p := p - 1;
      }
      var r := Advance(lists[ReadyList(p)]);
      lists := lists[ReadyList(p) := r];
      current := r.items[r.index - 1];
      topReady := p;
    }

    /** vTaskSwitchContext */
    method SwitchContext()
      requires Structure(View()) && TopOk(View()) && (depth == 0 ==> SomeTaskReady(View()))
      modifies this`lists, this`current, this`topReady, this`yieldPending, this`switchRequested, this`offReady
      ensures View() == SwitchTask(old(View()))
    {
      hide Structure, TopOk, SomeTaskReady, TopNonEmpty;
      switchRequested := false;
      if depth != 0 {
        yieldPending := true;
      } else {
        ghost var s := old(View());
        yieldPending := false;
        offReady := false;
        SameStructure(s, View());
        SameTop(s, View());
        StillSomeReady(s, View());
        SameTopNonEmpty(s, View(), topReady);
        SelectHighestPriorityTask();
      }
    }

    // -------------------------------------------------------------- blocking and waking

    /** uxListRemove and vListInsert of a state item. */
    method MoveByWake(t: Task, l: ListName, wake: nat)
      requires Structure(View()) && t in tcb && l in lists
      modifies this`lists, this`tcb
      ensures View() == Kernel.Delay(old(View()), t, l, wake)
    {
      hide Structure, RemoveItem, InsertSorted, TakeOff;
      Movable(View(), t);
      TakenOffAt(View(), t, l);
      ListRemove(t);
      lists := lists[l := Ring(InsertSorted(lists[l].items, t, Wakes(tcb)[t := wake]), 0)];
      tcb := tcb[t := tcb[t].(at := l, wake := wake)];
    }

    /** prvAddCurrentTaskToDelayedList */
    method AddCurrentToDelayedList(ticks: nat, indefinitely: bool)
      requires Structure(View()) && ClockOk(View()) && current in tcb && ticks < M
      modifies this`lists, this`tcb, this`nextUnblock
      ensures View() == TimeOut(old(View()), ticks, indefinitely)
    {
      hide Structure, ClockOk, PutLast, PutByWake;
      KnownDelayed(View());
      SpecialLists(View());
      if ticks == MAX_DELAY && indefinitely {
        MoveToEnd(current, SuspendedList);
      } else {
        var wake := Plus(tick, ticks);
        if wake < tick {
          MoveByWake(current, if delayed == DelayedList1 then DelayedList2 else DelayedList1, wake);
        } else {
          MoveByWake(current, delayed, wake);
          if wake < nextUnblock {
            nextUnblock := wake;
          }
        }
      }
    }

    /** vTaskPlaceOnEventList (by priority) and the two that append. */
    method PlaceOnEventList(e: EventPlace, byPriority: bool, ticks: nat, indefinitely: bool)
      requires Structure(View()) && ClockOk(View()) && current in tcb && ticks < M && e in events && e.EventList?
      modifies this`lists, this`events, this`tcb, this`nextUnblock, this`offReady
      ensures View() == BlockCurrent(old(View()), ticks, indefinitely, e, byPriority)
    {
      hide Structure, ClockOk, TimeOut, JoinEvent;
      TimeOutKeeps(View(), ticks, indefinitely);
      AddCurrentToDelayedList(ticks, indefinitely);
      JoinEventList(current, e, byPriority);
      offReady := true;
    }

    /** vTaskDelay, between suspending and resuming the scheduler. */
    method Delay(ticks: nat)
      requires Structure(View()) && ClockOk(View()) && current in tcb && ticks < M
      modifies this`lists, this`tcb, this`nextUnblock, this`offReady
      ensures View() == BlockCurrent(old(View()), ticks, false, NoEvent, false)
    {
      hide Structure, ClockOk, TimeOut;
      AddCurrentToDelayedList(ticks, false);
      offReady := true;
    }

    /** xTaskRemoveFromEventList */
    method RemoveFromEventList(e: EventPlace) returns (yieldRequired: bool)
      requires Structure(View()) && current in tcb && e in events && events[e] != []
      modifies this`lists, this`events, this`tcb, this`topReady, this`yieldPending
      ensures View() == WakeFirstOf(old(View()), e)
      ensures old(events)[e][0] in old(tcb)
      ensures yieldRequired <==> old(tcb)[old(events)[e][0]].priority > old(tcb)[current].priority
    {
      hide Structure, LeaveEvent, MakeReady, JoinEvent;
      ghost var s := View();
      var t := events[e][0];
      WaiterIsTask(s, e);
      LeaveEventKeeps(s, t);
      yieldRequired := tcb[t].priority > tcb[current].priority;
      LeaveEventList(t);
      if depth == 0 {
        MoveToReadyList(t);
      } else {
        SpecialLists(View());
        JoinEventList(t, PendingReady, false);
      }
      if yieldRequired {
        yieldPending := true;
      }
    }

    /** xTaskRemoveFromUnorderedEventList */
    method RemoveFromUnorderedEventList(t: Task) returns (yieldRequired: bool)
      requires Structure(View()) && current in tcb && t in tcb && tcb[t].on.EventList? && depth > 0
      modifies this`lists, this`events, this`tcb, this`topReady, this`yieldPending
      ensures t in old(tcb) && View() == WakeWaiterOf(old(View()), t)
      ensures yieldRequired <==> old(tcb)[t].priority > old(tcb)[current].priority
    {
      hide Structure, WakeUp;
      WakeUpFacts(View(), t);
      yieldRequired := tcb[t].priority > tcb[current].priority;
      MoveToReady(t);
      if yieldRequired {
        yieldPending := true;
      }
    }

    // -------------------------------------------------------------- suspending and resuming tasks

    /** vTaskSuspend */
    method Suspend(t: Task)
      requires Structure(View()) && ClockOk(View()) && t in tcb
      modifies this`lists, this`events, this`tcb, this`nextUnblock, this`offReady
      ensures View() == SuspendTask(old(View()), t)
    {
      hide Structure, ClockOk, NextUnblock, LeaveEvent, Park;
      KnownDelayed(View());
      SuspendKeeps(View(), t);
      LeaveEventList(t);
      MoveToEnd(t, SuspendedList);
      ResetNextUnblock();
      if t == current {
        offReady := true;
      }
    }

    /** vTaskResume */
    method Resume(t: Task)
      requires Structure(View()) && t in tcb && current in tcb && t != current
      modifies this`lists, this`tcb, this`topReady, this`switchRequested
      ensures View() == ResumeTask(old(View()), t)
    {
      hide Structure, MakeReady;
      if tcb[t].at == SuspendedList && tcb[t].on == NoEvent {
        var asks := tcb[t].priority >= tcb[current].priority;
        MoveToReadyList(t);
        if asks {
          switchRequested := true;
        }
      }
    }

    /** xTaskResumeFromISR, in an interrupt that yields when it is told to. */
    method ResumeFromISR(t: Task) returns (yieldRequired: bool)
      requires Structure(View()) && t in tcb && current in tcb
      modifies this`lists, this`events, this`tcb, this`topReady, this`switchRequested
      ensures View() == ResumeInISR(old(View()), t)
      ensures yieldRequired <==> old(IsSuspended(View(), t) && depth == 0 && tcb[t].priority >= tcb[current].priority)
    {
      hide Structure, MakeReady, JoinEvent;
      yieldRequired := false;
      SpecialLists(View());
      if tcb[t].at == SuspendedList && tcb[t].on == NoEvent {
        if depth == 0 {
          yieldRequired := tcb[t].priority >= tcb[current].priority;
          MoveToReadyList(t);
          if yieldRequired {
            switchRequested := true;
          }
        } else {
          JoinEventList(t, PendingReady, false);
        }
      }
    }

    /** The part of vTaskPrioritySet that moves a ready task to its new ready list. */
    method RequeueAt(t: Task, priority: nat)
      requires Structure(View()) && t in tcb && ReadyList(priority) in lists && tcb[t].at.ReadyList?
      modifies this`lists, this`tcb, this`topReady
      ensures View() == old(View()).(lists := PutLast(old(lists), old(tcb), t, ReadyList(priority)),
        topReady := Record(old(topReady), priority), tcb := old(tcb)[t := old(tcb)[t].(priority := priority, at := ReadyList(priority))])
    {
      hide Structure, PutLast;
      MoveToEnd(t, ReadyList(priority));
      tcb := tcb[t := tcb[t].(priority := priority)];
      if priority > topReady {
        topReady := priority;
      }
    }

    /** vTaskPrioritySet, with no mutex held. */
    method PrioritySet(t: Task, priority: nat)
      requires Structure(View()) && t in tcb && current in tcb && priority < MAX_PRIORITIES
      modifies this`lists, this`tcb, this`topReady, this`switchRequested
      ensures View() == ChangePriority(old(View()), t, priority)
    {
      hide Structure, PutLast;
      var before := tcb[t].priority;
      var yieldRequired := false;
      if before != priority {
        if priority > before {
          if t != current && priority >= tcb[current].priority {
            yieldRequired := true;
          }
        } else if t == current {
          yieldRequired := true;
        }
        ReadyListExists(View(), priority);
        ReadyIsHome(View(), t);
        if tcb[t].at == ReadyList(before) {
          RequeueAt(t, priority);
        } else {
          tcb := tcb[t := tcb[t].(priority := priority)];
        }
        if yieldRequired {
          switchRequested := true;
        }
      }
    }

    // -------------------------------------------------------------- creating and deleting

    /** prvAddTaskToReadyList of a new task. */
    method AddToReadyList(t: Task, p: nat)
      requires ReadyList(p) in lists && lists[ReadyList(p)].index <= |lists[ReadyList(p)].items|
      modifies this`lists, this`tcb, this`topReady
      ensures topReady == Record(old(topReady), p) && tcb == old(tcb)[t := TCB(p, 0, ReadyList(p), NoEvent)]
      ensures lists == old(lists)[ReadyList(p) := InsertEnd(old(lists)[ReadyList(p)], t)]
    {
      if p > topReady {
        topReady := p;
      }
      lists := lists[ReadyList(p) := InsertEnd(lists[ReadyList(p)], t)];
      tcb := tcb[t := TCB(p, 0, ReadyList(p), NoEvent)];
    }

    /** prvAddNewTaskToReadyList, once the scheduler runs. */
    method Create(t: Task, priority: nat)
      requires Structure(View()) && t !in tcb && MAX_PRIORITIES > 0 && current in tcb
      modifies this`lists, this`tcb, this`topReady, this`numberOfTasks, this`switchRequested
      ensures View() == CreateTask(old(View()), t, priority)
    {
      hide Structure, InsertEnd, Record, CreateTask;
      CreateShape(View(), t, priority);
      var p := if priority >= MAX_PRIORITIES then MAX_PRIORITIES - 1 else priority;
      RingAt(View(), p);
      numberOfTasks := numberOfTasks + 1;
      AddToReadyList(t, p);
      if tcb[current].priority < p {
        switchRequested := true;
      }
    }

    /** Both items of a task off their lists, for good. */
    method DropTask(t: Task)
      requires Structure(View()) && t in tcb
      modifies this`lists, this`events, this`tcb
      ensures View() == Forget(old(View()), t)
    {
      hide Structure, LeaveEvent, TakeOff;
      LeaveEventKeeps(View(), t);
      LeaveEventList(t);
      Movable(View(), t);
      ListRemove(t);
      tcb := tcb - {t};
    }

    /** vTaskDelete */
    method Delete(t: Task)
      requires Structure(View()) && ClockOk(View()) && t in tcb && numberOfTasks > 0
      modifies this`lists, this`events, this`tcb, this`nextUnblock, this`numberOfTasks, this`toCleanUp, this`offReady
      ensures View() == DeleteTask(old(View()), t)
    {
      hide Structure, ClockOk, NextUnblock, LeaveEvent, Park, Forget;
      KnownDelayed(View());
      ghost var s := View();
      if t == current {
        Terminate(t);
        toCleanUp := toCleanUp + 1;
        offReady := true;
      } else {
        ForgetKeeps(s, t);
        DropTask(t);
        numberOfTasks := numberOfTasks - 1;
        SameStructure(Forget(s, t), View());
        ForgetSame(s, t);
        ResetNextUnblock();
      }
    }

    /** A task that deletes itself is left for the idle task. */
    method Terminate(t: Task)
      requires Structure(View()) && t in tcb
      modifies this`lists, this`events, this`tcb
      ensures Structure(LeaveEvent(old(View()), t)) && t in LeaveEvent(old(View()), t).tcb
      ensures TerminationList in LeaveEvent(old(View()), t).lists
      ensures View() == Park(LeaveEvent(old(View()), t), t, TerminationList)
    {
      hide Structure, LeaveEvent, Park;
      LeaveEventKeeps(View(), t);
      LeaveEventList(t);
      SpecialLists(View());
      MoveToEnd(t, TerminationList);
    }

    /** One turn of the loop of prvCheckTasksWaitingTermination. */
    method CleanUpHead()
      requires Structure(View()) && Items(View(), TerminationList) != [] && toCleanUp > 0 && numberOfTasks > 0
      modifies this`lists, this`events, this`tcb, this`numberOfTasks, this`toCleanUp
      ensures View() == CleanUpOne(old(View()))
    {
      hide Structure, Forget;
      var t := lists[TerminationList].items[0];
      HeadIsTask(View(), TerminationList);
      DropTask(t);
      numberOfTasks := numberOfTasks - 1;
      toCleanUp := toCleanUp - 1;
    }

    /** prvCheckTasksWaitingTermination: the idle task frees every deleted task, and only those. */
    method CheckTasksWaitingTermination()
      requires Inv(View()) && tcb[current].at != TerminationList
      modifies this`lists, this`events, this`tcb, this`numberOfTasks, this`toCleanUp
      ensures Inv(View()) && toCleanUp == 0
      ensures forall t :: t in tcb <==> t in old(tcb) && old(tcb)[t].at != TerminationList
      ensures forall t :: t in tcb ==> tcb[t] == old(tcb)[t]
    {
      hide Inv, ContainersOk, OrderOk, ClockOk, CleanUpOne, Concerns;
      InvFacts(View());
      while toCleanUp > 0
        invariant Inv(View()) && current in tcb && tcb[current].at != TerminationList
        invariant forall t :: t in tcb ==> t in old(tcb) && tcb[t] == old(tcb)[t]
        invariant forall t :: t in old(tcb) && old(tcb)[t].at != TerminationList ==> t in tcb
        decreases toCleanUp
      {
        ghost var s := View();
        InvFacts(s);
        HeadIsTask(s, TerminationList);
        CleanUpInv(s);
        CleanUpDrops(s);
        CleanUpHead();
      }
      NoneWaiting(View());
    }
  }

  lemma NoneWaiting(s: State)
    requires Inv(s) && s.toCleanUp == 0
    ensures forall t :: t in s.tcb ==> s.tcb[t].at != TerminationList
  {
  }

  lemma CleanUpDrops(s: State)
    requires Inv(s) && Items(s, TerminationList) != []
    ensures var r := CleanUpOne(s);
      && s.toCleanUp > 0 && s.numberOfTasks > 0 && r.toCleanUp == s.toCleanUp - 1
      && Items(s, TerminationList)[0] in s.tcb && r.tcb == s.tcb - {Items(s, TerminationList)[0]}
  {
    hide Inv, ContainersOk, OrderOk, ClockOk, Forget;
    InvFacts(s);
    HeadIsTask(s, TerminationList);
    ForgetKeeps(s, Items(s, TerminationList)[0]);
  }

  /** The running task's priority is the one it had before the tick. */
  lemma WokenOwnList(s: State, n: State, r: State)
    requires n.tcb == s.tcb && n.current == s.current && s.current in s.tcb
    requires Structure(r) && (r == n || WokeDue(n, r))
    ensures r.current in r.tcb && ReadyList(r.tcb[r.current].priority) in r.lists
    ensures r.tcb[r.current].priority == s.tcb[s.current].priority && r.yieldPending == n.yieldPending
  {
    hide Structure;
    OwnList(r);
  }

  lemma FrameFlags(s: State, r: State)
    requires TickFrame(s, r)
    ensures r.yieldPending == s.yieldPending && r.depth == s.depth && r.pended == s.pended
    ensures Waiting(r, PendingReady) == []
  {
  }

  lemma WaitersKnown(s: State, e: EventPlace)
    requires Structure(s) && e in s.events
    ensures forall t :: t in s.events[e] ==> t in s.tcb
  {
  }

  lemma ReadyListsExist(s: State)
    requires Structure(s) && TopOk(s)
    ensures forall q: nat :: q <= s.topReady ==> ReadyList(q) in s.lists
  {
  }

  lemma StillSomeReady(s: State, r: State)
    requires SomeTaskReady(s) && r.tcb == s.tcb
    ensures SomeTaskReady(r)
  {
    var t :| IsReady(s, t);
    assert IsReady(r, t);
  }

  lemma {:induction false} SameTopNonEmpty(s: State, r: State, p: nat)
    requires r.lists == s.lists
    ensures TopNonEmpty(r, p) == TopNonEmpty(s, p)
  {
  }

  lemma ForgetSame(s: State, t: Task)
    requires Structure(s) && t in s.tcb
    ensures var r := Forget(s, t);
      r.delayed == s.delayed && r.numberOfTasks == s.numberOfTasks && r.toCleanUp == s.toCleanUp && r.offReady == s.offReady
  {
  }

  lemma CreateShape(s: State, t: Task, priority: nat)
    requires Structure(s) && t !in s.tcb && MAX_PRIORITIES > 0
    ensures var r, p := CreateTask(s, t, priority), if priority >= MAX_PRIORITIES then MAX_PRIORITIES - 1 else priority;
      && ReadyList(p) in s.lists && s.lists[ReadyList(p)].index <= |s.lists[ReadyList(p)].items|
      && r == s.(lists := s.lists[ReadyList(p) := InsertEnd(s.lists[ReadyList(p)], t)],
                 tcb := s.tcb[t := TCB(p, 0, ReadyList(p), NoEvent)], topReady := Record(s.topReady, p),
                 numberOfTasks := s.numberOfTasks + 1, switchRequested := r.switchRequested)
      && (r.switchRequested <==> s.switchRequested || (s.current in s.tcb && s.tcb[s.current].priority < p))
  {
    hide Structure, InsertEnd;
    RingAt(s, if priority >= MAX_PRIORITIES then MAX_PRIORITIES - 1 else priority);
  }

  lemma RingAt(s: State, p: nat)
    requires Structure(s) && p < MAX_PRIORITIES
    ensures ReadyList(p) in s.lists && s.lists[ReadyList(p)].index <= |s.lists[ReadyList(p)].items|
  {
  }

  lemma TakenOffAt(s: State, t: Task, l: ListName)
    requires Structure(s) && t in s.tcb && l in s.lists
    requires s.tcb[t].at in s.lists && t in s.lists[s.tcb[t].at].items
    ensures var r := TakeOff(s.lists, s.tcb, t);
      l in r && r[l].index <= |r[l].items| && forall u :: u in r[l].items ==> u in s.tcb
  {
    hide StateItemsOk, TakeOff, EventItemsOk, TasksOk, InOrder;
    TakeOffFacts(s.lists, s.tcb, t);
    RingsOk(TakeOff(s.lists, s.tcb, t), s.tcb - {t});
  }

  lemma RingsOk(lists: StateLists, tcb: Tasks)
    requires StateItemsOk(lists, tcb)
    ensures forall l :: l in lists ==> lists[l].index <= |lists[l].items| && forall u :: u in lists[l].items ==> u in tcb
  {
  }

  lemma OwnList(s: State)
    requires Structure(s) && s.current in s.tcb
    ensures ReadyList(s.tcb[s.current].priority) in s.lists
  {
  }

  lemma Movable(s: State, t: Task)
    requires Structure(s) && t in s.tcb
    ensures s.tcb[t].at in s.lists && t in s.lists[s.tcb[t].at].items
    ensures s.tcb[t].on != NoEvent ==> s.tcb[t].on in s.events
  {
  }
}
