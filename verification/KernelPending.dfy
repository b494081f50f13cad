/** What resuming the scheduler catches up with: in what order the tasks that were held
    back join their ready lists, and when it asks for a switch. */
module KernelPending {
  import opened Tick
  import opened Lists
  import opened RoundRobin
  import opened TaskLists
  import opened Kernel
  import opened KernelTick
  import opened KernelCalls
  import opened KernelResume
  import opened KernelRuns
  import KernelHistory
  import opened KernelAnswers
  import opened KernelTurns

  function Priorities(tcb: Tasks): map<Task, int> { map t | t in tcb :: tcb[t].priority }

  lemma WakeUpRing(s: State, u: Task, p: nat)
    requires Structure(s) && u in s.tcb && !s.tcb[u].at.ReadyList? && p < MAX_PRIORITIES
    ensures ReadyList(p) in s.lists && ReadyList(p) in WakeUp(s, u).lists && s.lists[ReadyList(p)].index <= |s.lists[ReadyList(p)].items|
    ensures WakeUp(s, u).lists[ReadyList(p)] ==
      if s.tcb[u].priority == p then InsertEnd(s.lists[ReadyList(p)], u) else s.lists[ReadyList(p)]
  {
    hide ContainersOk, OrderOk, InsertEnd, RemoveItem;
    ReadyListExists(s, p);
    RingOf(s, ReadyList(p));
    LeaveEventKeeps(s, u);
    LeaveEventSame(s, u);
  }

  lemma LeaveEventSame(s: State, u: Task)
    requires Structure(s) && u in s.tcb
    ensures LeaveEvent(s, u).lists == s.lists && LeaveEvent(s, u).tcb == s.tcb[u := s.tcb[u].(on := NoEvent)]
  {
    hide ContainersOk, OrderOk, Remove;
  }

  lemma PendingKnown(s: State)
    requires Structure(s)
    ensures forall t :: t in Waiting(s, PendingReady) ==> t in s.tcb
  {
    WaitersAreTasks(s, PendingReady);
  }

  /** The tasks held back join the ready list of their priority in the order in which they
      were held back. */
  lemma {:induction false} DrainInOrder(s: State, p: nat)
    requires Structure(s) && s.current in s.tcb && p < MAX_PRIORITIES
    ensures (forall t :: t in Waiting(s, PendingReady) ==> t in s.tcb) && ReadyList(p) in s.lists
    ensures ReadyList(p) in DrainPending(s).lists && s.lists[ReadyList(p)].index <= |s.lists[ReadyList(p)].items|
    ensures DrainPending(s).lists[ReadyList(p)] ==
            JoinAll(s.lists[ReadyList(p)], Having(Waiting(s, PendingReady), Priorities(s.tcb), p))
    decreases |Waiting(s, PendingReady)|
  {
    hide Structure, InsertEnd;
    PendingKnown(s);
    ReadyListExists(s, p);
    RingOf(s, ReadyList(p));
    var q := Waiting(s, PendingReady);
    if q != [] {
      var u := q[0];
      WaiterIsTask(s, PendingReady);
      WakeUpFacts(s, u);
      WakeUpDrains(s, u);
      WakeUpRing(s, u, p);
      var w := WakeUp(s, u);
      var m := w.(yieldPending := s.yieldPending || Priority(s, u) >= Priority(s, s.current));
      SameStructure(w, m);
      hide WakeUp;
      DrainInOrder(m, p);
      HavingSame(q[1..], Priorities(m.tcb), Priorities(s.tcb), p);
      JoinFirst(s.lists[ReadyList(p)], q, Priorities(s.tcb), p);
    }
  }

  // ---------------------------------------------------------------- when it asks

  ghost predicate UrgentIsPending(s: State) {
    s.current in s.tcb &&
    exists t :: t in Waiting(s, PendingReady) && t in s.tcb && s.tcb[t].priority >= s.tcb[s.current].priority
  }

  /** A yield is pending after the loop exactly if one was, or one of the tasks held back is
      as urgent as the running one. */
  lemma {:induction false} DrainAsks(s: State)
    requires Structure(s) && s.current in s.tcb
    ensures DrainPending(s).yieldPending <==> s.yieldPending || UrgentIsPending(s)
    decreases |Waiting(s, PendingReady)|
  {
    hide Structure;
    var q := Waiting(s, PendingReady);
    if q != [] {
      var u := q[0];
      WaiterIsTask(s, PendingReady);
      WakeUpFacts(s, u);
      WakeUpDrains(s, u);
      var w := WakeUp(s, u);
      var m := w.(yieldPending := s.yieldPending || Priority(s, u) >= Priority(s, s.current));
      SameStructure(w, m);
      hide WakeUp;
      DrainAsks(m);
      assert forall t :: t in q <==> t == u || t in q[1..];
      assert Waiting(m, PendingReady) == q[1..];
      hide DrainPending;
    }
  }

  /** A held-back tick notes a yield exactly if the tick would have asked for a switch. */
  lemma HeldBackAsks(s: State)
    requires Structure(s) && ClockOk(s) && s.current in s.tcb
    ensures HeldBackTick(s).yieldPending <==> s.yieldPending || UrgentTimeComes(s) || Shares(HeldBackTick(s))
  {
    hide Structure, ClockOk, CountTick, UrgentTimeComes, Shares;
    CountTickAsks(s);
    SharesSame(CountTick(s).state, HeldBackTick(s));
  }

  lemma SharesSame(a: State, b: State)
    requires a.tcb == b.tcb && a.current == b.current
    ensures Shares(a) <==> Shares(b)
  {
    if Shares(a) {
      var u, v :| u != v && IsReady(a, u) && IsReady(a, v)
        && a.tcb[u].priority == a.tcb[a.current].priority && a.tcb[v].priority == a.tcb[a.current].priority;
      assert IsReady(b, u) && IsReady(b, v);
    }
    if Shares(b) {
      var u, v :| u != v && IsReady(b, u) && IsReady(b, v)
        && b.tcb[u].priority == b.tcb[b.current].priority && b.tcb[v].priority == b.tcb[b.current].priority;
      assert IsReady(a, u) && IsReady(a, v);
    }
  }

  /** One of so many held-back ticks asks. */
  ghost predicate SomeTickAsks(c: State, n: nat)
    requires Structure(c) && ClockOk(c) && c.current in c.tcb
    decreases n
  {
    n > 0 && (UrgentTimeComes(c) || Shares(HeldBackTick(c)) || (HeldBackFacts(c); SomeTickAsks(HeldBackTick(c), n - 1)))
  }

  lemma {:induction false} RunTicksAsk(c: State, n: nat)
    requires Structure(c) && ClockOk(c) && c.current in c.tcb
    ensures RunTicks(c, n).yieldPending <==> c.yieldPending || SomeTickAsks(c, n)
    decreases n
  {
    hide Structure, ClockOk, CountTick, UrgentTimeComes, Shares, TimeMoved, HeldBackTick;
    if n > 0 {
      HeldBackFacts(c);
      HeldBackAsks(c);
      RunTicksAsk(HeldBackTick(c), n - 1);
    }
  }

  /** The outermost resume asks for a switch exactly if one was asked for or noted, if a
      task held back is as urgent as the running one, or if one of the held-back ticks,
      counted after that, asks; a nested one leaves all that alone. */
  lemma ResumeAsksExactly(s: State)
    requires Inv(s) && s.depth > 0
    ensures s.depth > 1 ==> ResumeScheduler(s) == s.(depth := s.depth - 1)
    ensures s.depth == 1 ==> Structure(s.(depth := 0)) && ClockOk(s.(depth := 0)) && s.current in s.tcb
    ensures s.depth == 1 ==>
      var c := Emptied(s.(depth := 0));
      Structure(c) && ClockOk(c) && c.current in c.tcb
      && (ResumeScheduler(s).switchRequested <==>
            s.switchRequested || s.yieldPending || UrgentIsPending(s) || SomeTickAsks(c, s.pended))
  {
    hide Inv, Structure, ClockOk, RunTicks, DrainPending, NextUnblock, Drained, SomeTickAsks, UrgentIsPending;
    InvFacts(s);
    var a := s.(depth := s.depth - 1);
    SameStructure(s, a);
    SameClockOk(s, a);
    if a.depth == 0 {
      DrainKeeps(a);
      DrainAsks(a);
      EmptiedKeeps(a);
      var c := Emptied(a);
      RunTicksAsk(c, s.pended);
      SameUrgent(s, a);
      SwitchFlag(a, DrainPending(a), c, s.pended);
    }
  }

  lemma SameUrgent(s: State, a: State)
    requires a.events == s.events && a.tcb == s.tcb && a.current == s.current
    ensures UrgentIsPending(a) <==> UrgentIsPending(s)
  {
    assert Waiting(a, PendingReady) == Waiting(s, PendingReady);
  }

  lemma SwitchFlag(a: State, b: State, c: State, n: nat)
    requires Drained(a, b) && c == b.(nextUnblock := c.nextUnblock) && Structure(c) && ClockOk(c) && c.current in c.tcb
    requires Waiting(c, PendingReady) == []
    ensures RunTicks(c, n).switchRequested == a.switchRequested
  {
    hide Structure, ClockOk, RunTicks, TopOk, RightTaskRuns;
    RunTicksKeeps(c, n);
  }
}
