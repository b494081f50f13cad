/** xTaskIncrementTick: the tick count, the swap of the delayed lists when it wraps,
    and the tasks whose time has come. */
module KernelTick {
  import opened Tick
  import opened Lists
  import opened RoundRobin
  import opened TaskLists
  import opened Kernel

  /** A task leaves whatever it waits on and becomes ready. */
  function WakeUp(s: State, t: Task): State
    requires Structure(s) && t in s.tcb
  {
    LeaveEventKeeps(s, t);
    MakeReady(LeaveEvent(s, t), t)
  }

  function Woken(c: TCB): TCB { c.(at := ReadyList(c.priority), on := NoEvent) }

  /** What moving tasks to the ready lists leaves alone. */
  ghost predicate SameClock(s: State, r: State) {
    && r.tick == s.tick && r.base == s.base && r.overflows == s.overflows && r.pended == s.pended
    && r.depth == s.depth && r.delayed == s.delayed && r.interrupts == s.interrupts
    && r.switchRequested == s.switchRequested && r.offReady == s.offReady && r.current == s.current
    && r.numberOfTasks == s.numberOfTasks && r.toCleanUp == s.toCleanUp
    && r.tcb.Keys == s.tcb.Keys
  }

  lemma WakeUpFacts(s: State, t: Task)
    requires Structure(s) && t in s.tcb
    ensures Structure(WakeUp(s, t)) && SameClock(s, WakeUp(s, t))
    ensures WakeUp(s, t).yieldPending == s.yieldPending && WakeUp(s, t).nextUnblock == s.nextUnblock
    ensures WakeUp(s, t).tcb == s.tcb[t := Woken(s.tcb[t])]
    ensures WakeUp(s, t).topReady == Record(s.topReady, Priority(s, t))
  {
    hide ContainersOk, OrderOk, PutLast, TakeEvent;
    LeaveEventKeeps(s, t);
    MakeReadyKeeps(LeaveEvent(s, t), t);
  }

  /** The lists a wake-up does not concern. */
  lemma WakeUpElsewhere(s: State, t: Task, l: ListName)
    requires Structure(s) && t in s.tcb && l in s.lists && !l.ReadyList? && l != s.tcb[t].at
    ensures l in WakeUp(s, t).lists && WakeUp(s, t).lists[l] == s.lists[l]
  {
    hide ContainersOk, OrderOk, RemoveItem, InsertEnd;
    LeaveEventKeeps(s, t);
  }

  lemma WakeUpPending(s: State, t: Task)
    requires Structure(s) && t in s.tcb && s.tcb[t].on != PendingReady && PendingReady in s.events
    ensures PendingReady in WakeUp(s, t).events && WakeUp(s, t).events[PendingReady] == s.events[PendingReady]
  {
    hide ContainersOk, OrderOk, PutLast;
    LeaveEventKeeps(s, t);
  }

  /** A delayed task that wakes up leaves its list one shorter. */
  lemma WakeUpShortens(s: State, t: Task)
    requires Structure(s) && IsDelayed(s, t)
    ensures s.tcb[t].at in s.lists && s.tcb[t].at in WakeUp(s, t).lists
    ensures WakeUp(s, t).lists[s.tcb[t].at] == RemoveItem(s.lists[s.tcb[t].at], t)
    ensures |WakeUp(s, t).lists[s.tcb[t].at].items| == |s.lists[s.tcb[t].at].items| - 1
  {
  }

  predicate IsDelayedList(l: ListName) { l == DelayedList1 || l == DelayedList2 }

  lemma KnownDelayed(s: State)
    requires ClockOk(s)
    ensures IsDelayedList(s.delayed) && s.tick < M
  {
  }

  /** The head of a delayed list is the earliest of its tasks. */
  lemma HeadFacts(s: State, d: ListName)
    requires Structure(s) && IsDelayedList(d)
    ensures d in s.lists
    ensures Items(s, d) == [] ==> forall t :: t in s.tcb ==> s.tcb[t].at != d
    ensures Items(s, d) != [] ==> Items(s, d)[0] in s.tcb && s.tcb[Items(s, d)[0]].at == d
    ensures Items(s, d) != [] ==> forall t :: t in s.tcb && s.tcb[t].at == d ==> s.tcb[Items(s, d)[0]].wake <= s.tcb[t].wake
  {
  }

  /** prvResetNextTaskUnblockTime */
  function NextUnblock(s: State): nat
    requires Structure(s) && IsDelayedList(s.delayed)
  {
    HeadFacts(s, s.delayed);
    if Items(s, s.delayed) == [] then MAX_DELAY else s.tcb[Items(s, s.delayed)[0]].wake
  }

  datatype Ticked = Ticked(state: State, switchRequired: bool)

  /** The loop of xTaskIncrementTick: heads are woken until one is not due. */
  function WakeDue(s: State, switchRequired: bool): Ticked
    requires Structure(s) && IsDelayedList(s.delayed) && s.current in s.tcb
    decreases |Items(s, s.delayed)|
  {
    HeadFacts(s, s.delayed);
    if Items(s, s.delayed) == [] then Ticked(s.(nextUnblock := MAX_DELAY), switchRequired)
    else
      var t := Items(s, s.delayed)[0];
      if s.tick < s.tcb[t].wake then Ticked(s.(nextUnblock := s.tcb[t].wake), switchRequired)
      else
        WakeUpFacts(s, t);
        WakeUpShortens(s, t);
        WakeDue(WakeUp(s, t), switchRequired || Priority(s, t) >= Priority(s, s.current))
  }

  predicate IsDue(s: State, t: Task)
    requires t in s.tcb
  {
    s.tcb[t].at == s.delayed && s.tcb[t].wake <= s.tick
  }

  lemma SameTop(s: State, r: State)
    requires TopOk(s) && r.tcb == s.tcb && r.topReady == s.topReady
    ensures TopOk(r)
  {
  }

  lemma WakeUpTop(s: State, t: Task)
    requires Structure(s) && t in s.tcb && TopOk(s)
    ensures TopOk(WakeUp(s, t))
  {
  }

  lemma PriorityBound(s: State, t: Task)
    requires Structure(s) && t in s.tcb
    ensures Priority(s, t) < MAX_PRIORITIES
  {
  }

  ghost predicate WokeDue(s: State, r: State) {
    && SameClock(s, r) && r.yieldPending == s.yieldPending
    && (forall t :: t in s.tcb ==> r.tcb[t] == if IsDue(s, t) then Woken(s.tcb[t]) else s.tcb[t])
    && (forall t :: t in r.tcb && r.tcb[t].at == r.delayed ==> r.nextUnblock <= r.tcb[t].wake)
  }

  /** The loop wakes exactly the due tasks. */
  lemma {:induction false} WakeDueExact(s: State, switchRequired: bool)
    requires Structure(s) && IsDelayedList(s.delayed) && s.current in s.tcb
    ensures Structure(WakeDue(s, switchRequired).state) && WokeDue(s, WakeDue(s, switchRequired).state)
    decreases |Items(s, s.delayed)|
  {
    hide ContainersOk, OrderOk, WokeDue;
    HeadFacts(s, s.delayed);
    if Items(s, s.delayed) == [] || s.tick < NextUnblock(s) { NothingIsDue(s); }
    SameStructure(s, s.(nextUnblock := NextUnblock(s)));
    if Items(s, s.delayed) != [] {
      var h := Items(s, s.delayed)[0];
      if s.tcb[h].wake <= s.tick {
        WakeUpFacts(s, h);
        WakeUpShortens(s, h);
        var m := WakeUp(s, h);
        hide WakeUp;
        var sw := switchRequired || Priority(s, h) >= Priority(s, s.current);
        WakeDueExact(m, sw);
        OneMoreWoken(s, h, m, WakeDue(m, sw).state);
      }
    }
  }

  lemma NothingIsDue(s: State)
    requires Structure(s) && IsDelayedList(s.delayed)
    requires Items(s, s.delayed) == [] || s.tick < NextUnblock(s)
    ensures WokeDue(s, s.(nextUnblock := NextUnblock(s)))
  {
    HeadFacts(s, s.delayed);
    hide ContainersOk, OrderOk;
  }

  lemma OneMoreWoken(s: State, h: Task, m: State, r: State)
    requires h in s.tcb && IsDue(s, h) && m.tcb == s.tcb[h := Woken(s.tcb[h])] && SameClock(s, m)
    requires m.yieldPending == s.yieldPending && IsDelayedList(s.delayed) && WokeDue(m, r)
    ensures WokeDue(s, r)
  {
  }

  /** The loop asks for a switch exactly if a due task is as urgent as the running one. */
  lemma {:induction false} WakeDueSwitch(s: State, switchRequired: bool)
    requires Structure(s) && IsDelayedList(s.delayed) && s.current in s.tcb
    ensures WakeDue(s, switchRequired).switchRequired <==> switchRequired || UrgentDue(s)
    decreases |Items(s, s.delayed)|
  {
    hide ContainersOk, OrderOk;
    HeadFacts(s, s.delayed);
    if Items(s, s.delayed) != [] {
      var h := Items(s, s.delayed)[0];
      if s.tcb[h].wake <= s.tick {
        WakeUpFacts(s, h);
        WakeUpShortens(s, h);
        var m := WakeUp(s, h);
        hide WakeUp;
        WakeDueSwitch(m, switchRequired || Priority(s, h) >= Priority(s, s.current));
        assert IsDue(s, h);
        UrgentDueStep(s, h, m);
      }
    }
  }

  ghost predicate UrgentDue(s: State)
    requires s.current in s.tcb
  {
    exists t :: t in s.tcb && IsDue(s, t) && Priority(s, t) >= Priority(s, s.current)
  }

  lemma UrgentDueStep(s: State, h: Task, m: State)
    requires h in s.tcb && s.current in s.tcb && IsDue(s, h) && m.tcb == s.tcb[h := Woken(s.tcb[h])] && SameClock(s, m)
    requires IsDelayedList(s.delayed)
    ensures UrgentDue(s) <==> UrgentDue(m) || Priority(s, h) >= Priority(s, s.current)
  {
  }

  /** The lists the loop has no business with. */
  lemma {:induction false} WakeDueElsewhere(s: State, switchRequired: bool)
    requires Structure(s) && IsDelayedList(s.delayed) && s.current in s.tcb
    requires Waiting(s, PendingReady) == []
    ensures var r := WakeDue(s, switchRequired).state;
      && Items(r, TerminationList) == Items(s, TerminationList)
      && Waiting(r, PendingReady) == []
      && (TopOk(s) ==> TopOk(r))
    decreases |Items(s, s.delayed)|
  {
    hide ContainersOk, OrderOk;
    HeadFacts(s, s.delayed);
    if Items(s, s.delayed) != [] {
      var h := Items(s, s.delayed)[0];
      if s.tcb[h].wake <= s.tick {
        WakeUpFacts(s, h);
        WakeUpShortens(s, h);
        TerminationExists(s);
        WakeUpElsewhere(s, h, TerminationList);
        NotPending(s, h);
        WakeUpPending(s, h);
        if TopOk(s) { WakeUpTop(s, h); }
        var m := WakeUp(s, h);
        hide WakeUp;
        WakeDueElsewhere(m, switchRequired || Priority(s, h) >= Priority(s, s.current));
      }
    }
  }

  lemma TerminationExists(s: State)
    requires Structure(s)
    ensures TerminationList in s.lists && PendingReady in s.events
  {
  }

  lemma NotPending(s: State, t: Task)
    requires Structure(s) && t in s.tcb && Waiting(s, PendingReady) == []
    ensures s.tcb[t].on != PendingReady
  {
  }

  // ---------------------------------------------------------------- one tick

  /** The increment, and taskSWITCH_DELAYED_LISTS when it wraps. */
  function NextTick(s: State): State
    requires Structure(s) && IsDelayedList(s.delayed) && s.tick < M
  {
    if s.tick + 1 < M then s.(tick := s.tick + 1)
    else
      var n := s.(tick := 0, base := s.base + M, delayed := OverflowList(s), overflows := s.overflows + 1);
      SameStructure(s, n);
      n.(nextUnblock := NextUnblock(n))
  }

  lemma TickReady(s: State)
    requires Structure(s) && IsDelayedList(s.delayed) && s.tick < M
    ensures var n := NextTick(s); Structure(n) && IsDelayedList(n.delayed) && n.tcb == s.tcb && n.current == s.current
  {
    hide ContainersOk, OrderOk, NextUnblock;
    SameStructure(s, NextTick(s));
  }

  /** xTaskIncrementTick with the scheduler running, and what it returns. */
  function CountTick(s: State): Ticked
    requires Structure(s) && IsDelayedList(s.delayed) && s.tick < M && s.current in s.tcb
  {
    var n := NextTick(s);
    TickReady(s);
    var r := if n.tick >= n.nextUnblock then WakeDue(n, false) else Ticked(n, false);
    var shared := |Items(r.state, ReadyList(Priority(s, s.current)))| > 1;
    r.(switchRequired := r.switchRequired || shared || s.yieldPending)
  }

  /** The assertion in taskSWITCH_DELAYED_LISTS never fails. */
  lemma CurrentListEmptyAtWrap(s: State)
    requires Structure(s) && ClockOk(s) && s.tick == M - 1
    ensures Items(s, s.delayed) == []
  {
    HeadFacts(s, s.delayed);
  }

  /** The increment in absolute time: nothing moves, and what is due now is what
      waited for a time that has come. */
  ghost predicate OneTickLater(s: State, n: State) {
    && Structure(n) && n.tcb == s.tcb && n.tick < M && IsDelayedList(n.delayed) && n.current == s.current
    && Now(n) == Now(s) + 1
    && (forall t :: t in s.tcb ==> (IsDue(n, t) <==> IsDelayed(s, t) && Due(s, t) <= Now(n)))
    && (forall t :: t in s.tcb && IsDelayed(s, t) ==> Due(n, t) == Due(s, t))
    && (forall t :: t in n.tcb && n.tcb[t].at == n.delayed ==> n.nextUnblock <= n.tcb[t].wake)
  }

  lemma NextTickFacts(s: State)
    requires Structure(s) && ClockOk(s)
    ensures OneTickLater(s, NextTick(s))
  {
    hide ContainersOk, OrderOk;
    if s.tick < M - 1 {
      SameStructure(s, NextTick(s));
    } else {
      WrapFacts(s);
    }
  }

  lemma WrapFacts(s: State)
    requires Structure(s) && ClockOk(s) && s.tick == M - 1
    ensures OneTickLater(s, NextTick(s))
  {
    hide ContainersOk, OrderOk;
    var n := s.(tick := 0, base := s.base + M, delayed := OverflowList(s), overflows := s.overflows + 1);
    SameStructure(s, n);
    CurrentListEmptyAtWrap(s);
    HeadFacts(s, s.delayed);
    HeadFacts(n, n.delayed);
    SameStructure(s, n.(nextUnblock := NextUnblock(n)));
  }

  /** Exact wake-up: a tick readies the tasks whose absolute time has come, and only
      those; everyone else keeps waiting for the time it waited for, wrap or no wrap. */
  ghost predicate TimeMoved(s: State, r: State) {
    && r.tcb.Keys == s.tcb.Keys && r.current == s.current
    && (forall t :: t in s.tcb ==>
          r.tcb[t] == if IsDelayed(s, t) && Due(s, t) <= Now(r) then Woken(s.tcb[t]) else s.tcb[t])
    && (forall t :: t in r.tcb && IsDelayed(r, t) ==> IsDelayed(s, t) && Due(r, t) == Due(s, t) && Due(r, t) > Now(r))
  }

  lemma CountTickExact(s: State)
    requires Structure(s) && ClockOk(s) && s.current in s.tcb
    ensures var r := CountTick(s).state;
      Structure(r) && ClockOk(r) && Now(r) == Now(s) + 1 && TimeMoved(s, r) && r.current in r.tcb
  {
    hide ContainersOk, OrderOk, ClockOk, TimeMoved, OneTickLater, NextTick, WokeDue, Now;
    KnownDelayed(s);
    NextTickFacts(s);
    TickReady(s);
    var n := NextTick(s);
    if n.tick >= n.nextUnblock {
      WakeDueExact(n, false);
      WokenIsMoved(s, n, WakeDue(n, false).state);
    } else {
      NothingDue(s, n);
    }
    StillThere(s, CountTick(s).state);
  }

  lemma StillThere(s: State, r: State)
    requires TimeMoved(s, r) && s.current in s.tcb
    ensures r.current in r.tcb
  {
  }

  lemma TickerFacts(s: State, n: State)
    requires OneTickLater(s, n) && s.current in s.tcb
    ensures Structure(n) && IsDelayedList(n.delayed) && n.current in n.tcb && Now(n) == Now(s) + 1
  {
  }

  lemma WokenIsMoved(s: State, n: State, r: State)
    requires ClockOk(s) && OneTickLater(s, n) && WokeDue(n, r)
    ensures ClockOk(r) && TimeMoved(s, r) && Now(r) == Now(s) + 1
  {
    hide ContainersOk, OrderOk, ClockOk, Due, IsDue, IsDelayed;
    WokenKeepsClock(s, n, r);
    forall t | t in r.tcb && IsDelayed(r, t)
      ensures IsDelayed(s, t) && Due(r, t) == Due(s, t) && Due(r, t) > Now(r)
    {
      StillDelayed(s, n, r, t);
    }
  }

  lemma StillDelayed(s: State, n: State, r: State, t: Task)
    requires OneTickLater(s, n) && WokeDue(n, r) && t in r.tcb && IsDelayed(r, t)
    ensures IsDelayed(s, t) && Due(r, t) == Due(s, t) && Due(r, t) > Now(r)
  {
    hide ContainersOk, OrderOk, IsDue;
    assert r.tcb[t] == n.tcb[t] && Due(r, t) == Due(n, t);
    hide Due;
  }

  lemma WokenKeepsClock(s: State, n: State, r: State)
    requires ClockOk(s) && OneTickLater(s, n) && WokeDue(n, r)
    ensures ClockOk(r)
  {
    hide ContainersOk, OrderOk, Due;
  }

  lemma NothingDue(s: State, n: State)
    requires ClockOk(s) && OneTickLater(s, n) && n.tick < n.nextUnblock
    ensures ClockOk(n) && TimeMoved(s, n) && Now(n) == Now(s) + 1
  {
    hide ContainersOk, OrderOk;
  }
}
