/** Time slicing: when a tick asks for a switch, and that tasks of the same priority take
    turns. */
module KernelTurns {
  import opened Tick
  import opened Lists
  import opened RoundRobin
  import opened TaskLists
  import opened Kernel
  import opened KernelTick
  import opened KernelCalls
  import opened KernelResume
  import opened KernelRuns
  import KernelHistory
  import opened KernelAnswers

  // ---------------------------------------------------------------- when a tick asks

  /** Two tasks are ready at the running task's priority. */
  ghost predicate Shares(r: State) {
    r.current in r.tcb &&
    exists u, v :: u != v && IsReady(r, u) && IsReady(r, v)
      && r.tcb[u].priority == r.tcb[r.current].priority && r.tcb[v].priority == r.tcb[r.current].priority
  }

  /** A task whose absolute time comes with the next tick is as urgent as the running one. */
  ghost predicate UrgentTimeComes(s: State) {
    s.current in s.tcb &&
    exists t :: IsDelayed(s, t) && Due(s, t) <= Now(s) + 1 && s.tcb[t].priority >= s.tcb[s.current].priority
  }

  lemma OthersShare(r: State)
    requires IsReady(r, r.current)
    ensures Shares(r) <==> exists u :: u != r.current && IsReady(r, u) && r.tcb[u].priority == r.tcb[r.current].priority
  {
    if u :| u != r.current && IsReady(r, u) && r.tcb[u].priority == r.tcb[r.current].priority {
      assert IsReady(r, r.current);
    }
  }

  lemma LongerIsShared(r: State)
    requires Structure(r) && r.current in r.tcb
    ensures |Items(r, ReadyList(r.tcb[r.current].priority))| > 1 <==> Shares(r)
  {
    var p := r.tcb[r.current].priority;
    KernelHistory.StateItemsAgree(r) by { Parts(r); }
    ReadyListExists(r, p) by { PriorityBound(r, r.current); }
    RingOf(r, ReadyList(p));
    var q := Items(r, ReadyList(p));
    hide Structure, Items;
    if |q| > 1 {
      var u, v := q[0], q[1];
      ItemAt(r, ReadyList(p), u);
      ItemAt(r, ReadyList(p), v);
      assert u != v by { Distinct(q, 0, 1); }
      assert IsReady(r, u) && IsReady(r, v);
    }
    if Shares(r) {
      var u, v :| u != v && IsReady(r, u) && IsReady(r, v)
        && r.tcb[u].priority == r.tcb[r.current].priority && r.tcb[v].priority == r.tcb[r.current].priority;
      assert u in q && v in q;
    }
  }

  lemma Distinct(q: seq<Task>, i: nat, j: nat)
    requires NoDup(q) && i < j < |q|
    ensures q[i] != q[j]
  {
  }

  lemma ItemAt(r: State, l: ListName, t: Task)
    requires Structure(r) && t in Items(r, l)
    ensures t in r.tcb && r.tcb[t].at == l && (l.ReadyList? ==> r.tcb[t].priority == l.priority)
  {
  }

  lemma UrgentDueIs(s: State, n: State)
    requires OneTickLater(s, n) && s.current in s.tcb
    ensures n.current in n.tcb && (UrgentDue(n) <==> UrgentTimeComes(s))
  {
    hide Structure, Due, IsDue;
    if t :| t in n.tcb && IsDue(n, t) && Priority(n, t) >= Priority(n, n.current) {
      assert IsDelayed(s, t) && Due(s, t) <= Now(s) + 1 && s.tcb[t].priority >= s.tcb[s.current].priority;
    }
    if t :| IsDelayed(s, t) && Due(s, t) <= Now(s) + 1 && s.tcb[t].priority >= s.tcb[s.current].priority {
      assert t in n.tcb && IsDue(n, t) && Priority(n, t) >= Priority(n, n.current);
    }
  }

  lemma NothingUrgentDue(s: State, n: State)
    requires OneTickLater(s, n) && s.current in s.tcb && n.tick < n.nextUnblock
    ensures n.current in n.tcb && !UrgentDue(n)
  {
    hide Structure, Due;
  }

  lemma CountTickAsks(s: State)
    requires Structure(s) && ClockOk(s) && s.current in s.tcb
    ensures IsDelayedList(s.delayed) && s.tick < M
    ensures CountTick(s).switchRequired <==> s.yieldPending || UrgentTimeComes(s) || Shares(CountTick(s).state)
  {
    hide Structure, ClockOk, NextTick, TimeMoved, OneTickLater, UrgentDue, UrgentTimeComes, Shares, Items;
    KnownDelayed(s);
    NextTickFacts(s);
    TickReady(s);
    var n := NextTick(s);
    CountTickExact(s);
    var r := CountTick(s).state;
    SamePriorityAfter(s, r);
    LongerIsShared(r);
    UrgentDueIs(s, n);
    if n.tick >= n.nextUnblock {
      WakeDueSwitch(n, false);
    } else {
      NothingUrgentDue(s, n);
    }
  }

  lemma SamePriorityAfter(s: State, r: State)
    requires TimeMoved(s, r) && s.current in s.tcb
    ensures r.current in r.tcb && r.tcb[r.current].priority == s.tcb[s.current].priority
  {
  }

  /** A tick asks for a switch exactly if one was asked for or noted, or, with the scheduler
      running, if a task whose time has come is as urgent as the running one or two tasks
      are then ready at its priority. */
  lemma TickAsksExactly(s: State)
    requires Inv(s)
    ensures var r := KernelHistory.Step(s, KernelHistory.TickInterrupt);
      r.switchRequested <==> s.switchRequested || s.yieldPending || (s.depth == 0 && (UrgentTimeComes(s) || Shares(r)))
  {
    hide Inv, Structure, ClockOk, CountTick, UrgentTimeComes;
    InvFacts(s);
    CountTickAsks(s);
  }

  // ---------------------------------------------------------------- nobody is pushed back

  ghost predicate At(s: State, p: nat, t: Task) { t in s.tcb && s.tcb[t].at == ReadyList(p) }

  /** t is still in the ready list of priority p, and no further from its turn. */
  ghost predicate Kept(a: StateLists, b: StateLists, p: nat, t: Task) {
    var l := ReadyList(p);
    && l in a && l in b && Valid(a[l]) && Valid(b[l]) && t in a[l].items && t in b[l].items
    && NoFurther(b[l], a[l], t)
  }

  lemma InPlace(s: State, p: nat, t: Task)
    requires Structure(s) && At(s, p, t)
    ensures ReadyList(p) in s.lists && Valid(s.lists[ReadyList(p)]) && t in s.lists[ReadyList(p)].items
  {
    WhereAbouts(s.lists, s.tcb, t);
    RingOf(s, ReadyList(p));
    hide Structure;
  }

  lemma KeptSame(s: State, r: State, p: nat, t: Task)
    requires Structure(s) && At(s, p, t) && ReadyList(p) in r.lists && r.lists[ReadyList(p)] == s.lists[ReadyList(p)]
    ensures Kept(s.lists, r.lists, p, t)
  {
    InPlace(s, p, t);
    hide Structure;
  }

  lemma KeptTwice(a: StateLists, b: StateLists, c: StateLists, p: nat, t: Task)
    requires Kept(a, b, p, t) && Kept(b, c, p, t)
    ensures Kept(a, c, p, t)
  {
    NoFurtherTwice(c[ReadyList(p)], b[ReadyList(p)], a[ReadyList(p)], t);
    hide NoFurther, Valid;
  }

  lemma TakeOffKept(s: State, u: Task, p: nat, t: Task)
    requires Structure(s) && u in s.tcb && At(s, p, t) && u != t
    ensures s.tcb[u].at in s.lists && u in s.lists[s.tcb[u].at].items
    ensures Kept(s.lists, TakeOff(s.lists, s.tcb, u), p, t)
  {
    InPlace(s, p, t);
    WhereAbouts(s.lists, s.tcb, u);
    hide Structure, RemoveItem, NoFurther, Valid;
    var l := s.lists[ReadyList(p)];
    if s.tcb[u].at == ReadyList(p) {
      RemoveItemNoFurther(l, t, u);
      RemoveItemKeeps(l, u);
    } else {
      NotMoved(l, t);
    }
  }

  lemma NotMoved(l: Ring<Task>, t: Task)
    requires Valid(l) && t in l.items
    ensures NoFurther(l, l, t)
  {
  }

  lemma InsertKept(lists: StateLists, to: ListName, u: Task, p: nat, t: Task)
    requires ReadyList(p) in lists && Valid(lists[ReadyList(p)]) && t in lists[ReadyList(p)].items
    requires to in lists && lists[to].index <= |lists[to].items| && (to == ReadyList(p) ==> u !in lists[to].items)
    ensures Kept(lists, lists[to := InsertEnd(lists[to], u)], p, t)
  {
    hide InsertEnd, NoFurther, Valid;
    NotMoved(lists[ReadyList(p)], t);
    if to == ReadyList(p) {
      InsertEndNoFurther(lists[to], t, u);
      RoundRobin.InsertEndKeeps(lists[to], u);
    }
  }

  lemma ParkKept(s: State, u: Task, to: ListName, p: nat, t: Task)
    requires Structure(s) && u in s.tcb && to in s.lists && At(s, p, t) && u != t
    ensures Kept(s.lists, Park(s, u, to).lists, p, t)
  {
    hide ContainersOk, OrderOk, TakeOff, InsertEnd, NoFurther, Kept;
    TakeOffKept(s, u, p, t);
    var l := TakeOff(s.lists, s.tcb, u);
    TakenAway(s, u, to);
    KeptIn(s.lists, l, p, t);
    InsertKept(l, to, u, p, t);
    KeptTwice(s.lists, l, l[to := InsertEnd(l[to], u)], p, t);
    assert Park(s, u, to).lists == l[to := InsertEnd(l[to], u)];
  }

  lemma KeptIn(a: StateLists, b: StateLists, p: nat, t: Task)
    requires Kept(a, b, p, t)
    ensures ReadyList(p) in b && Valid(b[ReadyList(p)]) && t in b[ReadyList(p)].items
  {
  }

  lemma TakenAway(s: State, u: Task, to: ListName)
    requires Structure(s) && u in s.tcb && to in s.lists
    requires s.tcb[u].at in s.lists && u in s.lists[s.tcb[u].at].items
    ensures var l := TakeOff(s.lists, s.tcb, u); to in l && l[to].index <= |l[to].items| && u !in l[to].items
  {
    TakeOffFacts(s.lists, s.tcb, u);
    hide InOrder, EventItemsOk, TasksOk, TakeOff;
  }

  lemma MakeReadyKept(s: State, u: Task, p: nat, t: Task)
    requires Structure(s) && u in s.tcb && At(s, p, t) && u != t
    ensures Kept(s.lists, MakeReady(s, u).lists, p, t)
  {
    hide Structure, PutLast, Kept;
    PriorityBound(s, u);
    ReadyListExists(s, s.tcb[u].priority);
    ParkKept(s, u, ReadyList(s.tcb[u].priority), p, t);
  }

  lemma LeaveEventAtHome(s: State, u: Task, p: nat, t: Task)
    requires Structure(s) && u in s.tcb && At(s, p, t)
    ensures Structure(LeaveEvent(s, u)) && At(LeaveEvent(s, u), p, t) && LeaveEvent(s, u).lists == s.lists && u in LeaveEvent(s, u).tcb
  {
    LeaveEventKeeps(s, u);
    hide ContainersOk, OrderOk, Remove;
  }

  lemma WakeUpKept(s: State, u: Task, p: nat, t: Task)
    requires Structure(s) && u in s.tcb && At(s, p, t) && u != t
    ensures Kept(s.lists, WakeUp(s, u).lists, p, t) && At(WakeUp(s, u), p, t)
  {
    hide ContainersOk, OrderOk, MakeReady, LeaveEvent, Kept;
    LeaveEventAtHome(s, u, p, t);
    MakeReadyKept(LeaveEvent(s, u), u, p, t);
    WakeUpFacts(s, u);
  }

  lemma DelayKept(s: State, u: Task, to: ListName, wake: nat, p: nat, t: Task)
    requires Structure(s) && u in s.tcb && to in s.lists && !to.ReadyList? && At(s, p, t) && u != t
    ensures Kept(s.lists, Kernel.Delay(s, u, to, wake).lists, p, t)
  {
    hide ContainersOk, OrderOk, TakeOff, InsertSorted, Kept;
    TakeOffKept(s, u, p, t);
    var r := Kernel.Delay(s, u, to, wake);
    KeptIn(s.lists, TakeOff(s.lists, s.tcb, u), p, t);
    SameRingKept(s.lists, TakeOff(s.lists, s.tcb, u), r.lists, p, t);
  }

  lemma SameRingKept(a: StateLists, b: StateLists, c: StateLists, p: nat, t: Task)
    requires Kept(a, b, p, t) && ReadyList(p) in c && ReadyList(p) in b && c[ReadyList(p)] == b[ReadyList(p)]
    ensures Kept(a, c, p, t)
  {
    hide NoFurther, Valid;
  }

  // ---------------------------------------------------------------- the loops

  lemma {:induction false} WakeDueKept(s: State, switchRequired: bool, p: nat, t: Task)
    requires Structure(s) && IsDelayedList(s.delayed) && s.current in s.tcb && At(s, p, t)
    ensures Kept(s.lists, WakeDue(s, switchRequired).state.lists, p, t)
    decreases |Items(s, s.delayed)|
  {
    hide Structure, Kept;
    HeadFacts(s, s.delayed);
    KeptSame(s, s, p, t) by { InPlace(s, p, t); }
    if Items(s, s.delayed) != [] {
      var h := Items(s, s.delayed)[0];
      if s.tcb[h].wake <= s.tick {
        WakeUpFacts(s, h);
        WakeUpShortens(s, h);
        WakeUpKept(s, h, p, t);
        var m, sw := WakeUp(s, h), switchRequired || Priority(s, h) >= Priority(s, s.current);
        hide WakeUp;
        WakeDueKept(m, sw, p, t);
        KeptTwice(s.lists, m.lists, WakeDue(m, sw).state.lists, p, t);
      }
    }
  }

  lemma CountTickKept(s: State, p: nat, t: Task)
    requires Structure(s) && ClockOk(s) && s.current in s.tcb && At(s, p, t)
    ensures IsDelayedList(s.delayed) && s.tick < M
    ensures Kept(s.lists, CountTick(s).state.lists, p, t) && At(CountTick(s).state, p, t)
  {
    hide Structure, ClockOk, NextTick, WakeDue, Kept, TimeMoved;
    KnownDelayed(s);
    TickReady(s);
    NextTickShape(s);
    var n := NextTick(s);
    KeptSame(s, n, p, t) by { InPlace(s, p, t); }
    WakeDueKept(n, false, p, t);
    CountTickExact(s);
    ReadyThrough(s, CountTick(s).state, p, t);
  }

  lemma ReadyThrough(s: State, r: State, p: nat, t: Task)
    requires TimeMoved(s, r) && At(s, p, t)
    ensures At(r, p, t)
  {
  }

  lemma {:induction false} RunTicksKept(s: State, n: nat, p: nat, t: Task)
    requires Structure(s) && ClockOk(s) && s.current in s.tcb && At(s, p, t)
    ensures Kept(s.lists, RunTicks(s, n).lists, p, t) && At(RunTicks(s, n), p, t)
    decreases n
  {
    hide Structure, ClockOk, CountTick, TimeMoved, Kept;
    if n == 0 {
      KeptSame(s, s, p, t) by { InPlace(s, p, t); }
    } else {
      KnownDelayed(s);
      HeldBackFacts(s);
      CountTickKept(s, p, t);
      var m := HeldBackTick(s);
      hide HeldBackTick;
      RunTicksKept(m, n - 1, p, t);
      KeptTwice(s.lists, m.lists, RunTicks(m, n - 1).lists, p, t);
    }
  }

  lemma {:induction false} DrainKept(s: State, p: nat, t: Task)
    requires Structure(s) && s.current in s.tcb && At(s, p, t)
    ensures Kept(s.lists, DrainPending(s).lists, p, t) && At(DrainPending(s), p, t)
    decreases |Waiting(s, PendingReady)|
  {
    hide Structure, Kept;
    if Waiting(s, PendingReady) == [] {
      KeptSame(s, s, p, t) by { InPlace(s, p, t); }
    } else {
      var u := Waiting(s, PendingReady)[0];
      WaiterIsTask(s, PendingReady);
      WakeUpFacts(s, u);
      WakeUpDrains(s, u);
      WakeUpKept(s, u, p, t);
      var w := WakeUp(s, u);
      var m := w.(yieldPending := s.yieldPending || Priority(s, u) >= Priority(s, s.current));
      SameStructure(w, m);
      hide WakeUp;
      DrainKept(m, p, t);
      KeptTwice(s.lists, m.lists, DrainPending(m).lists, p, t);
    }
  }

  lemma ResumeAllKept(s: State, p: nat, t: Task)
    requires Inv(s) && s.depth > 0 && At(s, p, t)
    ensures Kept(s.lists, ResumeScheduler(s).lists, p, t)
  {
    hide Inv, Structure, ClockOk, Kept, RunTicks, DrainPending, NextUnblock, Drained;
    InvFacts(s);
    var a := s.(depth := s.depth - 1);
    SameStructure(s, a);
    SameClockOk(s, a);
    if a.depth == 0 {
      DrainKeeps(a);
      DrainKept(a, p, t);
      EmptiedKeeps(a);
      RunTicksKept(Emptied(a), s.pended, p, t);
      KeptTwice(s.lists, Emptied(a).lists, ResumeScheduler(s).lists, p, t);
    } else {
      KeptSame(s, a, p, t) by { InPlace(s, p, t); }
    }
  }

  // ---------------------------------------------------------------- every step

  lemma TimeOutKept(s: State, ticks: nat, indefinitely: bool, p: nat, t: Task)
    requires Structure(s) && ClockOk(s) && s.current in s.tcb && ticks < M && At(s, p, t) && t != s.current
    ensures Kept(s.lists, TimeOut(s, ticks, indefinitely).lists, p, t)
  {
    hide ContainersOk, OrderOk, ClockOk, PutLast, PutByWake, Kept;
    KnownDelayed(s);
    SpecialLists(s);
    if ticks == MAX_DELAY && indefinitely {
      ParkKept(s, s.current, SuspendedList, p, t);
    } else {
      var wake := Plus(s.tick, ticks);
      DelayKept(s, s.current, if wake < s.tick then OverflowList(s) else s.delayed, wake, p, t);
    }
  }

  lemma BlockKept(s: State, ticks: nat, indefinitely: bool, e: EventPlace, byPriority: bool, p: nat, t: Task)
    requires Inv(s) && KernelHistory.Enabled(s, KernelHistory.Block(ticks, indefinitely, e, byPriority)) && At(s, p, t) && t != s.current
    ensures Kept(s.lists, BlockCurrent(s, ticks, indefinitely, e, byPriority).lists, p, t)
  {
    hide Inv, ContainersOk, OrderOk, ClockOk, TopOk, TimeOut, Joined, Kept;
    InvFacts(s);
    TimeOutKeeps(s, ticks, indefinitely);
    TimeOutKept(s, ticks, indefinitely, p, t);
  }

  lemma ForgetKept(s: State, u: Task, p: nat, t: Task)
    requires Structure(s) && u in s.tcb && At(s, p, t) && u != t
    ensures Kept(s.lists, Forget(s, u).lists, p, t)
  {
    hide ContainersOk, OrderOk, TakeOff, LeaveEvent, Kept;
    LeaveEventAtHome(s, u, p, t);
    TakeOffKept(LeaveEvent(s, u), u, p, t);
  }

  lemma DeleteKept(s: State, u: Task, p: nat, t: Task)
    requires Inv(s) && u in s.tcb && At(s, p, t) && u != t
    ensures Kept(s.lists, DeleteTask(s, u).lists, p, t)
  {
    hide Inv, ContainersOk, OrderOk, ClockOk, Forget, LeaveEvent, Park, NextUnblock, Kept;
    InvFacts(s);
    LeaveEventAtHome(s, u, p, t);
    SpecialLists(LeaveEvent(s, u));
    if u == s.current {
      ParkKept(LeaveEvent(s, u), u, TerminationList, p, t);
    } else {
      ForgetKeeps(s, u);
      ForgetKept(s, u, p, t);
    }
  }

  lemma CreateKept(s: State, u: Task, priority: nat, p: nat, t: Task)
    requires Inv(s) && u !in s.tcb && MAX_PRIORITIES > 0 && At(s, p, t)
    ensures Kept(s.lists, CreateTask(s, u, priority).lists, p, t)
  {
    hide Inv, Structure, InsertEnd, Kept;
    InvFacts(s);
    InPlace(s, p, t);
    var q := if priority >= MAX_PRIORITIES then MAX_PRIORITIES - 1 else priority;
    ReadyListExists(s, q);
    RingOf(s, ReadyList(q));
    NotListed(s, ReadyList(q), u);
    InsertKept(s.lists, ReadyList(q), u, p, t);
  }

  lemma NotListed(s: State, l: ListName, u: Task)
    requires Structure(s) && l in s.lists && u !in s.tcb
    ensures u !in s.lists[l].items
  {
  }

  lemma WakeFirstKept(s: State, e: EventPlace, p: nat, t: Task)
    requires Inv(s) && e.EventList? && Waiting(s, e) != [] && At(s, p, t)
    ensures Kept(s.lists, WakeFirstOf(s, e).lists, p, t)
  {
    hide Inv, ContainersOk, OrderOk, LeaveEvent, MakeReady, JoinEvent, Kept;
    InvFacts(s);
    WaiterIsTask(s, e);
    SpecialLists(s);
    var u := Waiting(s, e)[0];
    LeaveEventAtHome(s, u, p, t);
    var m := LeaveEvent(s, u);
    LeaveEventKeeps(s, u);
    SpecialLists(m);
    if s.depth == 0 {
      MakeReadyKept(m, u, p, t);
    } else {
      JoinEventFacts(m, u, PendingReady, false);
      KeptSame(s, WakeFirstOf(s, e), p, t) by { InPlace(s, p, t); }
    }
  }

  lemma SuspendKept(s: State, u: Task, p: nat, t: Task)
    requires Inv(s) && u in s.tcb && At(s, p, t) && u != t
    ensures Kept(s.lists, SuspendTask(s, u).lists, p, t)
  {
    hide Inv, ContainersOk, OrderOk, ClockOk, LeaveEvent, Park, NextUnblock, Kept;
    InvFacts(s);
    SuspendKeeps(s, u);
    LeaveEventAtHome(s, u, p, t);
    ParkKept(LeaveEvent(s, u), u, SuspendedList, p, t);
  }

  lemma ResumeKept(s: State, u: Task, p: nat, t: Task)
    requires Inv(s) && u in s.tcb && At(s, p, t)
    ensures Kept(s.lists, ResumeTask(s, u).lists, p, t) && Kept(s.lists, ResumeInISR(s, u).lists, p, t)
  {
    hide Inv, ContainersOk, OrderOk, MakeReady, JoinEvent, Kept;
    InvFacts(s);
    SpecialLists(s);
    KeptSame(s, s, p, t) by { InPlace(s, p, t); }
    if IsSuspended(s, u) {
      MakeReadyKept(s, u, p, t);
      JoinEventFacts(s, u, PendingReady, false);
    }
  }

  lemma SetPriorityKept(s: State, u: Task, q: nat, p: nat, t: Task)
    requires Inv(s) && u in s.tcb && q < MAX_PRIORITIES && At(s, p, t) && At(ChangePriority(s, u, q), p, t)
    ensures Kept(s.lists, ChangePriority(s, u, q).lists, p, t)
  {
    hide Inv, ContainersOk, OrderOk, PutLast, Kept;
    InvFacts(s);
    KeptSame(s, s, p, t) by { InPlace(s, p, t); }
    ReadyListExists(s, q);
    ReadyIsHome(s, u);
    if s.tcb[u].at.ReadyList? && s.tcb[u].priority != q {
      ChangePriorityFacts(s, u, q);
      ParkKept(s, u, ReadyList(q), p, t);
    }
  }

  lemma SwitchKept(s: State, p: nat, t: Task)
    requires Inv(s) && s.depth > 0 && At(s, p, t)
    ensures Kept(s.lists, SwitchTask(s).lists, p, t)
  {
    hide Inv, Structure, TopOk, Kept;
    InvFacts(s);
    KeptSame(s, s, p, t) by { InPlace(s, p, t); }
  }

  predicate IsTurn(s: State, op: KernelHistory.Op) { op == KernelHistory.SwitchContext && s.depth == 0 }

  /** No step but a context switch moves a task that stays ready further from its turn. */
  lemma StepKept(s: State, op: KernelHistory.Op, p: nat, t: Task)
    requires Inv(s) && KernelHistory.Enabled(s, op) && At(s, p, t) && At(KernelHistory.Step(s, op), p, t) && !IsTurn(s, op)
    ensures Kept(s.lists, KernelHistory.Step(s, op).lists, p, t)
  {
    hide Inv, Structure, ClockOk, TopOk, Kept, KernelHistory.MoveTask;
    hide CleanUpOne, ResumeScheduler, TickISR, ChangePriority, SwitchTask;
    InvFacts(s);
    KeptSame(s, s, p, t) by { InPlace(s, p, t); }
    if KernelHistory.MovesTask(op) {
      MoveKept(s, op, p, t);
    } else {
      match op
      case CleanUp => HeadIsTask(s, TerminationList); CleanUpKept(s, p, t);
      case SuspendAll =>
      case ResumeAll => ResumeAllKept(s, p, t);
      case TickInterrupt => TickKept(s, p, t);
      case SetPriority(u, q) => SetPriorityKept(s, u, q, p, t);
      case Yield =>
      case SwitchContext => SwitchKept(s, p, t);
    }
  }

  lemma CleanUpKept(s: State, p: nat, t: Task)
    requires Inv(s) && Items(s, TerminationList) != [] && At(s, p, t)
    ensures Kept(s.lists, CleanUpOne(s).lists, p, t)
  {
    hide Inv, Structure, ClockOk, Forget, Kept;
    InvFacts(s);
    HeadIsTask(s, TerminationList);
    ForgetKept(s, Items(s, TerminationList)[0], p, t);
  }

  lemma TickKept(s: State, p: nat, t: Task)
    requires Inv(s) && At(s, p, t)
    ensures Kept(s.lists, TickISR(s).lists, p, t)
  {
    hide Inv, Structure, ClockOk, CountTick, Kept;
    InvFacts(s);
    KeptSame(s, s, p, t) by { InPlace(s, p, t); }
    CountTickKept(s, p, t);
  }

  lemma MoveKept(s: State, op: KernelHistory.Op, p: nat, t: Task)
    requires Inv(s) && KernelHistory.Enabled(s, op) && KernelHistory.MovesTask(op) && At(s, p, t)
    requires At(KernelHistory.MoveTask(s, op), p, t)
    ensures Kept(s.lists, KernelHistory.MoveTask(s, op).lists, p, t)
  {
    hide Inv, Structure, ClockOk, TopOk, Kept, OnlyOn;
    hide CreateTask, DeleteTask, BlockCurrent, WakeFirstOf, WakeWaiterOf, SuspendTask, ResumeTask, ResumeInISR;
    InvFacts(s);
    match op
    case Create(u, q) => CreateKept(s, u, q, p, t);
    case Delete(u) =>
      if u == t { DeletedIsGone(s, t); } else { DeleteKept(s, u, p, t); }
    case Block(ticks, indefinitely, e, byPriority) =>
      if t == s.current {
        TimeOutKeeps(s, ticks, indefinitely);
        BlockShape(s, ticks, indefinitely, e, byPriority);
        BlockedIsOff(s, ticks, indefinitely, e, byPriority);
      } else {
        BlockKept(s, ticks, indefinitely, e, byPriority, p, t);
      }
    case WakeFirst(e) => WakeFirstKept(s, e, p, t);
    case WakeWaiter(u) => WakeWaiterKept(s, u, p, t);
    case Suspend(u) =>
      if u == t { SuspendExact(s, t); } else { SuspendKept(s, u, p, t); }
    case Resume(u) => ResumeKept(s, u, p, t);
    case ResumeFromISR(u) => ResumeKept(s, u, p, t);
  }

  lemma DeletedIsGone(s: State, t: Task)
    requires Inv(s) && KernelHistory.Enabled(s, KernelHistory.Delete(t))
    ensures var r := DeleteTask(s, t); t in r.tcb ==> !r.tcb[t].at.ReadyList?
  {
    hide Inv, ContainersOk, OrderOk, ClockOk, TopOk, Forget, TakeEvent, PutLast, NextUnblock;
    InvFacts(s);
    LeaveEventKeeps(s, t);
    TerminationExists(s);
    if t != s.current { ForgetKeeps(s, t); }
  }

  lemma BlockedIsOff(s: State, ticks: nat, indefinitely: bool, e: EventPlace, byPriority: bool)
    requires Structure(s) && ClockOk(s) && s.current in s.tcb && ticks < M && (e == NoEvent || e in s.events)
    ensures var r := BlockCurrent(s, ticks, indefinitely, e, byPriority); s.current in r.tcb && !r.tcb[s.current].at.ReadyList?
  {
    hide ContainersOk, OrderOk, ClockOk, TimeOut, Joined;
    TimeOutKeeps(s, ticks, indefinitely);
    TimeOutShape(s, ticks, indefinitely);
  }

  lemma WakeWaiterKept(s: State, u: Task, p: nat, t: Task)
    requires Inv(s) && u in s.tcb && s.tcb[u].on.EventList? && At(s, p, t)
    ensures Kept(s.lists, WakeWaiterOf(s, u).lists, p, t)
  {
    hide Inv, Structure, WakeUp, Kept;
    InvFacts(s);
    WaitsSomewhere(s, u);
    WakeUpKept(s, u, p, t);
  }

  // ---------------------------------------------------------------- endless runs

  ghost predicate RunsAt(states: nat -> State, ops: nat -> KernelHistory.Op, i: nat) {
    Inv(states(i)) && KernelHistory.Enabled(states(i), ops(i)) && states(i + 1) == KernelHistory.Step(states(i), ops(i))
  }

  ghost predicate Endless(states: nat -> State, ops: nat -> KernelHistory.Op) {
    forall i: nat :: RunsAt(states, ops, i)
  }

  /** t is ready at priority p, and no ready task is more urgent. */
  ghost predicate TopAt(s: State, p: nat, t: Task) {
    At(s, p, t) && forall u :: u in s.tcb && s.tcb[u].at.ReadyList? ==> s.tcb[u].priority <= p
  }

  ghost predicate StaysTop(states: nat -> State, p: nat, t: Task, from: nat) {
    forall i: nat :: i >= from ==> TopAt(states(i), p, t)
  }

  ghost predicate SwitchFrom(states: nat -> State, ops: nat -> KernelHistory.Op, i: nat) {
    exists j: nat :: j >= i && IsTurn(states(j), ops(j))
  }

  ghost predicate TickFrom(states: nat -> State, ops: nat -> KernelHistory.Op, i: nat) {
    exists j: nat :: j >= i && ops(j) == KernelHistory.TickInterrupt && states(j).depth == 0
  }

  ghost predicate RunsFrom(states: nat -> State, t: Task, i: nat) {
    exists n: nat :: n >= i && states(n).current == t
  }

  function RingAt(s: State, p: nat): Ring<Task> {
    if ReadyList(p) in s.lists then s.lists[ReadyList(p)] else Ring([], 0)
  }

  /** A switch selects the next task round the top ready list. */
  lemma SwitchIsAdvance(s: State, p: nat, t: Task)
    requires Inv(s) && KernelHistory.Enabled(s, KernelHistory.SwitchContext) && s.depth == 0 && TopAt(s, p, t)
    ensures var r := KernelHistory.Step(s, KernelHistory.SwitchContext);
      && RingAt(s, p).items != [] && RingAt(r, p) == Advance(RingAt(s, p))
      && 0 < RingAt(r, p).index <= |RingAt(r, p).items| && r.current == Selected(RingAt(r, p))
  {
    hide Inv, Structure, ClockOk, TopOk, SwitchTask, SomeTaskReady, Items;
    InvFacts(s);
    InPlace(s, p, t);
    SwitchExact(s);
    var r := KernelHistory.Step(s, KernelHistory.SwitchContext);
    var q: nat :| SwitchesTo(s, r, q);
    HeadOfTop(s, q);
    if q < p { ItemsThere(s, p, t); }
  }

  lemma HeadOfTop(s: State, q: nat)
    requires Structure(s) && ReadyList(q) in s.lists && s.lists[ReadyList(q)].items != []
    ensures exists u :: u in s.tcb && s.tcb[u].at.ReadyList? && s.tcb[u].priority == q
  {
    var u := s.lists[ReadyList(q)].items[0];
    assert u in s.lists[ReadyList(q)].items;
    ItemAt(s, ReadyList(q), u);
    hide Structure;
  }

  lemma ItemsThere(s: State, p: nat, t: Task)
    requires ReadyList(p) in s.lists && t in s.lists[ReadyList(p)].items
    ensures Items(s, ReadyList(p)) != []
  {
  }

  lemma TurnTaken(states: nat -> State, ops: nat -> KernelHistory.Op, ring: nat -> Ring<Task>, turn: nat -> bool, p: nat, t: Task, k: nat)
    requires RunsAt(states, ops, k) && RunsAt(states, ops, k + 1) && TopAt(states(k), p, t) && TopAt(states(k + 1), p, t)
    requires ring(k) == RingAt(states(k), p) && ring(k + 1) == RingAt(states(k + 1), p)
    requires turn(k) == IsTurn(states(k), ops(k))
    ensures TurnAt(ring, turn, t, k)
    ensures turn(k) ==> 0 < ring(k + 1).index <= |ring(k + 1).items| && states(k + 1).current == Selected(ring(k + 1))
  {
    hide Inv, KernelHistory.Enabled, KernelHistory.Step, Kept, NoFurther, Valid;
    RingThere(states(k), p, t);
    RingThere(states(k + 1), p, t);
    if turn(k) {
      SwitchIsAdvance(states(k), p, t);
    } else {
      StepKept(states(k), ops(k), p, t);
      KeptRing(states(k).lists, states(k + 1).lists, p, t);
    }
  }

  lemma RingThere(s: State, p: nat, t: Task)
    requires Inv(s) && At(s, p, t)
    ensures Valid(RingAt(s, p)) && t in RingAt(s, p).items && ReadyList(p) in s.lists
  {
    hide Inv, Structure;
    InvFacts(s);
    InPlace(s, p, t);
  }

  lemma KeptRing(a: StateLists, b: StateLists, p: nat, t: Task)
    requires Kept(a, b, p, t)
    ensures NoFurther(b[ReadyList(p)], a[ReadyList(p)], t)
  {
  }

  /** Of the tasks that stay ready at the top priority each is selected again and again,
      whatever else happens, if there is always another context switch. */
  lemma TurnsComeRound(states: nat -> State, ops: nat -> KernelHistory.Op, p: nat, t: Task, from: nat, i: nat) returns (n: nat)
    requires Endless(states, ops) && StaysTop(states, p, t, from) && i >= from
    requires forall k :: SwitchFrom(states, ops, k)
    ensures n > i && states(n).current == t && IsTurn(states(n - 1), ops(n - 1))
  {
    hide Inv, RunsAt, TopAt, IsTurn, TurnAt;
    var ring := (k: nat) => RingAt(states(k), p);
    var turn := (k: nat) => IsTurn(states(k), ops(k));
    forall k: nat | k >= from ensures TurnAt(ring, turn, t, k) {
      assert RunsAt(states, ops, k) && RunsAt(states, ops, k + 1) && TopAt(states(k), p, t) && TopAt(states(k + 1), p, t);
      TurnTaken(states, ops, ring, turn, p, t, k);
    }
    forall k ensures TurnFrom(turn, k) {
      assert SwitchFrom(states, ops, k);
      var j: nat :| j >= k && IsTurn(states(j), ops(j));
      assert turn(j);
    }
    assert TurnAt(ring, turn, t, i);
    FirstRing(ring, turn, t, i);
    n := ItsTurnComes(ring, turn, t, from, i);
    assert RunsAt(states, ops, n) && RunsAt(states, ops, n + 1) && TopAt(states(n), p, t) && TopAt(states(n + 1), p, t);
    TurnTaken(states, ops, ring, turn, p, t, n);
    n := n + 1;
  }

  lemma FirstRing(ring: nat -> Ring<Task>, turn: nat -> bool, t: Task, i: nat)
    requires TurnAt(ring, turn, t, i)
    ensures Valid(ring(i)) && t in ring(i).items
  {
  }

  /** After a counted tick either t runs or a switch is asked for. */
  lemma TickLeavesAsk(s: State, p: nat, t: Task)
    requires Inv(s) && s.depth == 0
    requires var r := KernelHistory.Step(s, KernelHistory.TickInterrupt); Inv(r) && TopAt(r, p, t)
    ensures var r := KernelHistory.Step(s, KernelHistory.TickInterrupt); r.current == t || Asks(r)
  {
    hide Inv, TickISR, Shares, UrgentTimeComes;
    TickAsksExactly(s);
    var r := KernelHistory.Step(s, KernelHistory.TickInterrupt);
    if r.current != t && !Asks(r) {
      OtherShares(r, p, t);
    }
  }

  lemma OtherShares(r: State, p: nat, t: Task)
    requires Inv(r) && TopAt(r, p, t) && !Asks(r) && r.current != t
    ensures Shares(r)
  {
    hide Inv, TopAt;
    AloneIsRight(r, p, t);
    OthersShare(r);
    assert t != r.current && IsReady(r, t);
  }

  lemma AloneIsRight(r: State, p: nat, t: Task)
    requires Inv(r) && TopAt(r, p, t) && !Asks(r)
    ensures IsReady(r, r.current) && r.tcb[r.current].priority == p && IsReady(r, t) && r.tcb[t].priority == p
  {
    hide ClockOk, CountsOk, TopOk, OrderOk;
    ReadyIsHome(r, t);
  }

  /** Time slicing: of the tasks that stay ready at the top priority each runs again and
      again, if time goes on and every switch that is asked for is done in the end. */
  lemma TimeSlices(states: nat -> State, ops: nat -> KernelHistory.Op, p: nat, t: Task, from: nat, i: nat)
    requires Endless(states, ops) && StaysTop(states, p, t, from) && i >= from
    requires forall k :: TickFrom(states, ops, k)
    requires forall k: nat :: Asks(states(k)) ==> SwitchFrom(states, ops, k)
    ensures RunsFrom(states, t, i)
  {
    hide Inv, RunsAt, TopAt, IsTurn, Asks;
    if !RunsFrom(states, t, i) {
      forall k: nat ensures SwitchFrom(states, ops, k) {
        var k' := if k >= i then k else i;
        assert TickFrom(states, ops, k');
        var j: nat :| j >= k' && ops(j) == KernelHistory.TickInterrupt && states(j).depth == 0;
        TickThenSwitch(states, ops, p, t, j);
        assert SwitchFrom(states, ops, j + 1);
        var m: nat :| m >= j + 1 && IsTurn(states(m), ops(m));
      }
      var n := TurnsComeRound(states, ops, p, t, from, i);
    }
  }

  lemma TickThenSwitch(states: nat -> State, ops: nat -> KernelHistory.Op, p: nat, t: Task, j: nat)
    requires Endless(states, ops) && TopAt(states(j + 1), p, t)
    requires ops(j) == KernelHistory.TickInterrupt && states(j).depth == 0
    ensures states(j + 1).current == t || Asks(states(j + 1))
  {
    hide Inv, TopAt;
    assert RunsAt(states, ops, j) && RunsAt(states, ops, j + 1);
    TickLeavesAsk(states(j), p, t);
  }
}
