/** A run in which a priority change leaves the waiters of an event out of order. */
module EventLimits {
  import opened Tick
  import opened Lists
  import opened TaskLists
  import opened Kernel
  import opened KernelTick
  import opened KernelCalls
  import opened KernelRuns
  import opened KernelHistory
  import opened EventOrder
  import opened EventRuns

  const E: EventPlace := EventList(0)

  /** One task of priority 0, and one event list. */
  function Begin(): State
    requires MAX_PRIORITIES > 2
  {
    Boot(0, 0, {E})
  }

  /** A run so far, and what it has come to. */
  ghost predicate Comes(ops: seq<Op>, tcb: Tasks, current: Task, waiting: seq<Task>)
    requires MAX_PRIORITIES > 2
  {
    && Inv(Begin()) && CanRun(Begin(), ops)
    && var s := After(Begin(), ops);
       Inv(s) && s.tcb == tcb && s.current == current && s.depth == 0 && E in s.events && s.events[E] == waiting
  }

  lemma {:induction false} RunMore(s: State, ops: seq<Op>, op: Op)
    requires Inv(s) && CanRun(s, ops) && Inv(After(s, ops)) && Enabled(After(s, ops), op)
    ensures CanRun(s, ops + [op]) && After(s, ops + [op]) == Step(After(s, ops), op)
    decreases |ops|
  {
    hide Inv, Enabled, Step;
    if ops == [] {
      StepKeeps(s, op);
      assert ([] + [op])[1..] == [];
    } else {
      StepKeeps(s, ops[0]);
      RunMore(Step(s, ops[0]), ops[1..], op);
      assert (ops + [op])[1..] == ops[1..] + [op];
    }
  }

  function New(priority: nat): TCB { TCB(priority, 0, ReadyList(priority), NoEvent) }

  lemma ComesCreate(ops: seq<Op>, tcb: Tasks, current: Task, waiting: seq<Task>, t: Task, p: nat)
    requires MAX_PRIORITIES > 2 && p < MAX_PRIORITIES && Comes(ops, tcb, current, waiting) && t !in tcb
    ensures Comes(ops + [Create(t, p)], tcb[t := New(p)], current, waiting)
  {
    hide Inv, CanRun, After, ContainersOk, OrderOk;
    var s := After(Begin(), ops);
    InvFacts(s);
    RunMore(Begin(), ops, Create(t, p));
    StepKeeps(s, Create(t, p));
  }

  lemma ComesSwitch(ops: seq<Op>, tcb: Tasks, current: Task, waiting: seq<Task>, next: Task)
    requires MAX_PRIORITIES > 2 && Comes(ops, tcb, current, waiting) && next in tcb && tcb[next].at.ReadyList?
    requires forall u :: u in tcb && tcb[u].at.ReadyList? && u != next ==> tcb[u].priority < tcb[next].priority
    ensures Comes(ops + [SwitchContext], tcb, next, waiting)
  {
    hide Inv, CanRun, After, ContainersOk, OrderOk, TopOk, TopNonEmpty;
    var s := After(Begin(), ops);
    InvFacts(s);
    assert IsReady(s, next);
    RunMore(Begin(), ops, SwitchContext);
    SwitchInv(s);
    SwitchFrame(s);
    hide SwitchTask;
  }

  lemma SwitchFrame(s: State)
    requires Structure(s) && TopOk(s) && s.depth == 0 && SomeTaskReady(s)
    ensures var r := SwitchTask(s); r.tcb == s.tcb && r.events == s.events && r.depth == 0
  {
    hide ContainersOk, OrderOk, TopOk, TopNonEmpty;
  }

  /** The running task blocks on E, for as long as it takes. */
  lemma ComesBlock(ops: seq<Op>, tcb: Tasks, current: Task, waiting: seq<Task>)
    requires MAX_PRIORITIES > 2 && Comes(ops, tcb, current, waiting)
    requires current in tcb && tcb[current].at.ReadyList? && forall u :: u in waiting ==> u in tcb
    ensures var blocked := tcb[current := tcb[current].(at := SuspendedList, on := E)];
      Comes(ops + [Block(MAX_DELAY, true, E, true)], blocked, current,
            InsertSorted(waiting, current, Urgency(tcb[current := tcb[current].(at := SuspendedList)])))
  {
    hide Inv, CanRun, After, ContainersOk, OrderOk, InsertSorted;
    var s, op := After(Begin(), ops), Block(MAX_DELAY, true, E, true);
    InvFacts(s);
    RunMore(Begin(), ops, op);
    StepKeeps(s, op);
    BlockParks(s);
  }

  lemma BlockParks(s: State)
    requires Inv(s) && Enabled(s, Block(MAX_DELAY, true, E, true))
    ensures var r := Step(s, Block(MAX_DELAY, true, E, true));
      && r.tcb == s.tcb[s.current := s.tcb[s.current].(at := SuspendedList, on := E)]
      && r.current == s.current && r.depth == s.depth && E in r.events
      && (forall u :: u in s.events[E] ==> u in s.tcb)
      && r.events[E] == InsertSorted(s.events[E], s.current, Urgency(s.tcb[s.current := s.tcb[s.current].(at := SuspendedList)]))
  {
    hide Inv, ContainersOk, OrderOk, ClockOk, PutLast, InsertSorted;
    InvFacts(s);
    EventsKnown(s, E);
    TimeOutKeeps(s, MAX_DELAY, true);
    SpecialLists(s);
  }

  lemma EventsKnown(s: State, e: EventPlace)
    requires Structure(s) && e in s.events
    ensures forall u :: u in s.events[e] ==> u in s.tcb
  {
  }

  lemma BeginComes()
    requires MAX_PRIORITIES > 2
    ensures Comes([], map[0 := New(0)], 0, [])
  {
    hide Inv;
    BootOk(0, 0, {E});
  }

  function Parked(priority: nat): TCB { TCB(priority, 0, SuspendedList, E) }

  /** Tasks 1 and 2 of priority 1 have blocked on the event, in this order; 0 runs. */
  lemma TwoWait() returns (ops: seq<Op>)
    requires MAX_PRIORITIES > 2
    ensures Comes(ops, map[0 := New(0), 1 := Parked(1), 2 := Parked(1)], 0, [1, 2])
  {
    hide Comes;
    BeginComes();
    ComesCreate([], map[0 := New(0)], 0, [], 1, 1);
    var a: Tasks := map[0 := New(0), 1 := New(1)];
    ops := [Create(1, 1)];
    assert [] + [Create(1, 1)] == ops && map[0 := New(0)][1 := New(1)] == a;
    ComesSwitch(ops, a, 0, [], 1);
    ops := ops + [SwitchContext];
    var b: Tasks := map[0 := New(0), 1 := Parked(1)];
    ComesBlock(ops, a, 1, []);
    ops := ops + [Block(MAX_DELAY, true, E, true)];
    assert InsertSorted([], 1, Urgency(a[1 := a[1].(at := SuspendedList)])) == [1];
    assert a[1 := a[1].(at := SuspendedList, on := E)] == b;
    ComesSwitch(ops, b, 1, [1], 0);
    ops := ops + [SwitchContext];
    ops := SecondWaits(ops);
  }

  lemma SecondWaits(before: seq<Op>) returns (ops: seq<Op>)
    requires MAX_PRIORITIES > 2 && Comes(before, map[0 := New(0), 1 := Parked(1)], 0, [1])
    ensures Comes(ops, map[0 := New(0), 1 := Parked(1), 2 := Parked(1)], 0, [1, 2])
  {
    hide Comes;
    var b: Tasks := map[0 := New(0), 1 := Parked(1)];
    var c: Tasks := map[0 := New(0), 1 := Parked(1), 2 := New(1)];
    var d: Tasks := map[0 := New(0), 1 := Parked(1), 2 := Parked(1)];
    ComesCreate(before, b, 0, [1], 2, 1);
    assert b[2 := New(1)] == c;
    ops := before + [Create(2, 1)];
    ComesSwitch(ops, c, 0, [1], 2);
    ops := ops + [SwitchContext];
    ComesBlock(ops, c, 2, [1]);
    ops := ops + [Block(MAX_DELAY, true, E, true)];
    assert c[2 := c[2].(at := SuspendedList, on := E)] == d;
    assert InsertSorted([1], 2, Urgency(c[2 := c[2].(at := SuspendedList)])) == [1, 2] by { BehindEqual(c[2 := c[2].(at := SuspendedList)]); }
    ComesSwitch(ops, d, 2, [1, 2], 0);
    ops := ops + [SwitchContext];
  }

  lemma BehindEqual(tcb: Tasks)
    requires 1 in tcb && 2 in tcb && tcb[1].priority == tcb[2].priority
    ensures InsertSorted([1], 2, Urgency(tcb)) == [1, 2]
  {
    assert [1][1..] == [];
  }

  /** When the running task raises the one behind, the list is out of order, and an event
      wakes the less urgent of the two. */
  lemma RaisedWaiterBreaksOrder() returns (ops: seq<Op>)
    requires MAX_PRIORITIES > 2
    ensures Inv(Begin()) && CanRun(Begin(), ops) && Inv(After(Begin(), ops)) && Enabled(After(Begin(), ops), SetPriority(2, 2))
    ensures var s, r := After(Begin(), ops), Step(After(Begin(), ops), SetPriority(2, 2));
      && Ordered(s, E) && !Ordered(r, E) && !StepFits(s, SetPriority(2, 2), E)
      && Waiting(r, E) == [1, 2] && 1 in r.tcb && 2 in r.tcb && r.tcb[1].priority < r.tcb[2].priority
  {
    hide Inv, CanRun, After, Enabled, Step, Ordered, StepFits;
    ops := TwoWait();
    Raised(After(Begin(), ops));
  }

  lemma Raised(s: State)
    requires Inv(s) && MAX_PRIORITIES > 2 && s.current == 0 && Waiting(s, E) == [1, 2]
    requires s.tcb == map[0 := New(0), 1 := Parked(1), 2 := Parked(1)]
    ensures Enabled(s, SetPriority(2, 2)) && Ordered(s, E) && !StepFits(s, SetPriority(2, 2), E)
    ensures var r := Step(s, SetPriority(2, 2));
      !Ordered(r, E) && Waiting(r, E) == [1, 2] && 1 in r.tcb && 2 in r.tcb && r.tcb[1].priority < r.tcb[2].priority
  {
    hide Inv, ContainersOk, OrderOk, ClockOk, TopOk, ChangePriority;
    InvFacts(s);
    ChangePriorityFacts(s, 2, 2);
    assert [1, 2][0] == 1 && [1, 2][1] == 2;
    assert !Fits([1, 2], s.tcb, 2, 2) by { RearDoesNotFit(s.tcb); }
  }

  lemma RearDoesNotFit(tcb: Tasks)
    requires 1 in tcb && 2 in tcb && tcb[1].priority == 1
    ensures !Fits([1, 2], tcb, 2, 2)
  {
    assert [1, 2][0] == 1 && [1, 2][1] == 2;
    assert 2 in [1, 2][0..];
  }
}
