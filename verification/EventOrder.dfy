/** The order of the tasks that wait on an event: the most urgent is woken first, as
    long as no waiter's priority changes past its neighbours'. */
module EventOrder {
  import opened Tick
  import opened Lists
  import opened TaskLists
  import opened Kernel
  import opened KernelTick
  import opened KernelCalls
  import opened KernelRuns

  /** More urgent tasks wait further ahead. */
  ghost predicate ByPriority(waiting: seq<Task>, tcb: Tasks) {
    && (forall t :: t in waiting ==> t in tcb)
    && forall i, j :: 0 <= i < j < |waiting| ==> tcb[waiting[i]].priority >= tcb[waiting[j]].priority
  }

  /** The one who waits first is as urgent as any. */
  lemma MostUrgentFirst(s: State, e: EventPlace)
    requires Structure(s) && ByPriority(Waiting(s, e), s.tcb) && Waiting(s, e) != []
    ensures forall t :: t in Waiting(s, e) ==> s.tcb[t].priority <= s.tcb[Waiting(s, e)[0]].priority
  {
  }

  /** Blocking on an event in priority order keeps the order, behind equals. */
  lemma BlockingKeepsOrder(s: State, ticks: nat, indefinitely: bool, e: EventPlace)
    requires Inv(s) && IsReady(s, s.current) && ticks < M && e.EventList? && e in s.events
    requires ByPriority(Waiting(s, e), s.tcb)
    ensures Structure(s) && ClockOk(s)
    ensures var r := BlockCurrent(s, ticks, indefinitely, e, true);
      ByPriority(Waiting(r, e), r.tcb) && s.current in Waiting(r, e)
  {
    hide Inv, ContainersOk, OrderOk, ClockOk, TimeOut, ByPriority;
    InvFacts(s);
    TimeOutKeeps(s, ticks, indefinitely);
    TimeOutSamePriorities(s, ticks, indefinitely);
    var m := TimeOut(s, ticks, indefinitely);
    hide EventItemsOk;
    EventsOf(m, e);
    JoinInOrder(m, s.tcb, s.current, e);
    SamePriorities(Joined(m.events, m.tcb, s.current, e, true), m.tcb, BlockCurrent(s, ticks, indefinitely, e, true).tcb);
  }

  lemma EventsOf(s: State, e: EventPlace)
    requires Structure(s)
    ensures EventItemsOk(s.events, s.tcb) && NoDup(Waiting(s, e))
  {
  }

  lemma TimeOutSamePriorities(s: State, ticks: nat, indefinitely: bool)
    requires Structure(s) && ClockOk(s) && s.current in s.tcb && ticks < M
    ensures var r := TimeOut(s, ticks, indefinitely);
      r.tcb.Keys == s.tcb.Keys && forall t :: t in s.tcb ==> r.tcb[t].priority == s.tcb[t].priority
  {
    hide Structure, ClockOk, TimeOut;
    TimeOutShape(s, ticks, indefinitely);
  }

  lemma SamePriorities(waiting: seq<Task>, a: Tasks, b: Tasks)
    requires ByPriority(waiting, a) && a.Keys == b.Keys && forall t :: t in a ==> b[t].priority == a[t].priority
    ensures ByPriority(waiting, b)
  {
  }

  lemma JoinInOrder(m: State, before: Tasks, t: Task, e: EventPlace)
    requires Structure(m) && t in m.tcb && e in m.events && ByPriority(m.events[e], before)
    requires m.tcb.Keys == before.Keys && forall u :: u in before ==> m.tcb[u].priority == before[u].priority
    ensures ByPriority(Joined(m.events, m.tcb, t, e, true), m.tcb) && t in Joined(m.events, m.tcb, t, e, true)
  {
    hide ContainersOk, OrderOk, InsertSorted, NoDup, EventItemsOk;
    EventsOf(m, e);
    var key := Urgency(m.tcb);
    InsertSortedKeeps(m.events[e], t, key);
    var with := InsertSorted(m.events[e], t, key);
    assert Joined(m.events, m.tcb, t, e, true) == with;
    assert forall i, j :: 0 <= i < j < |with| ==> key[with[i]] <= key[with[j]];
  }

  /** A priority that still lies between the neighbours'. */
  predicate Fits(waiting: seq<Task>, tcb: Tasks, t: Task, p: nat)
    requires forall u :: u in waiting ==> u in tcb
  {
    t in waiting ==>
      && (forall i :: 0 <= i < |waiting| && waiting[i] != t && t in waiting[i..] ==> tcb[waiting[i]].priority >= p)
      && (forall i :: 0 <= i < |waiting| && waiting[i] != t && t in waiting[..i] ==> tcb[waiting[i]].priority <= p)
  }

  /** vTaskPrioritySet does not move the event item, so the order survives exactly if
      the new priority fits where the task waits. */
  lemma PrioritySetKeepsOrderExactly(s: State, t: Task, p: nat, e: EventPlace)
    requires Structure(s) && t in s.tcb && s.current in s.tcb && p < MAX_PRIORITIES
    requires ByPriority(Waiting(s, e), s.tcb)
    ensures var r := ChangePriority(s, t, p);
      ByPriority(Waiting(r, e), r.tcb) <==> Fits(Waiting(s, e), s.tcb, t, p)
  {
    hide ContainersOk, OrderOk, ByPriority, Fits, ChangePriority;
    EventsOf(s, e);
    ChangePriorityFacts(s, t, p);
    var r := ChangePriority(s, t, p);
    FitsIsOrder(Waiting(s, e), s.tcb, r.tcb, t, p);
  }

  lemma FitsIsOrder(waiting: seq<Task>, tcb: Tasks, r: Tasks, t: Task, p: nat)
    requires ByPriority(waiting, tcb) && NoDup(waiting) && t in tcb && r.Keys == tcb.Keys && r[t].priority == p
    requires forall u :: u in tcb && u != t ==> r[u].priority == tcb[u].priority
    ensures ByPriority(waiting, r) <==> Fits(waiting, tcb, t, p)
  {
  }
}
