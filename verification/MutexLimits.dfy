/** Where priority inheritance stops keeping its promises: short runs that start with
    no mutex held. */
module MutexLimits {
  import opened Lists
  import opened TaskLists
  import opened Mutex
  import opened MutexOrder

  /** One step, from a world that keeps inheritance. */
  ghost predicate Goes(w: World, op: Op, r: World) {
    Inherits(w) && Enabled(w, op) && (op.SetPriorityOp? ==> Allowed(w, op.t, op.p)) && Step(w, op) == r
  }

  lemma GoesKeeps(w: World, op: Op, r: World)
    requires Goes(w, op, r)
    ensures Inherits(r)
  {
    StepInherits(w, op);
  }

  /** A task that holds nothing and runs at its own priority. */
  function Plain(priority: nat, ready: bool): Rank { Rank(priority, priority, 0, ItemValue(priority), ready) }

  ghost predicate Fresh(w: World) {
    && Known(w)
    && (forall t :: t in w.tasks ==> w.tasks[t].held == 0 && w.tasks[t].priority == w.tasks[t].base)
    && (forall m :: m in w.holder ==> w.holder[m] == Free && w.waiters[m] == [] && w.pressure[m] == {})
  }

  lemma FreshInherits(w: World)
    requires Fresh(w)
    ensures Inherits(w)
  {
    forall t | t in w.tasks ensures HeldSet(w, t) == {} { }
  }

  /** With no mutex held and item values as they should be the waiters are in order. */
  lemma FreshQueues(w: World)
    requires Fresh(w) && ValuesOk(w)
    ensures Queues(w)
  {
    forall m | m in w.waiters ensures WaitersInOrder(w, m) { }
  }

  // ---------------------------------------------------------------- one mutex, three tasks

  /** Tasks 0, 1 and 2 with mutex 0. */
  function Three(low: Rank, high: Rank, mid: Rank, holder: Holder, waiters: seq<Task>, pressure: set<nat>, current: Task, asked: bool): World {
    World(map[0 := low, 1 := high, 2 := mid], map[0 := holder], map[0 := waiters], map[0 := pressure], current, asked)
  }

  function Low(priority: nat, held: nat): Rank { Rank(1, priority, held, ItemValue(priority), true) }

  /** Task 0 of priority 1 runs; 1 of priority 5 and 2 of priority 3 sleep. */
  function Start(): World { Three(Low(1, 0), Plain(5, false), Plain(3, false), Free, [], {}, 0, false) }

  /** 0 took the mutex, 1 woke up and blocked on it, and 0, at priority 5, runs again. */
  function Inheriting(): World { Three(Low(5, 1), Plain(5, false), Plain(3, false), HeldBy(0), [1], {5}, 0, false) }

  function Three1(): World { Three(Low(1, 1), Plain(5, false), Plain(3, false), HeldBy(0), [], {}, 0, false) }
  function Three2(): World { Three(Low(1, 1), Plain(5, true), Plain(3, false), HeldBy(0), [], {}, 0, true) }
  function Three3(): World { Three(Low(1, 1), Plain(5, true), Plain(3, false), HeldBy(0), [], {}, 1, false) }
  function Three4(): World { Three(Low(5, 1), Plain(5, false), Plain(3, false), HeldBy(0), [1], {5}, 1, true) }

  /** One step, whatever the world keeps. */
  ghost predicate Leads(w: World, op: Op, r: World) {
    Known(w) && Enabled(w, op) && !op.SetPriorityOp? && Step(w, op) == r
  }

  lemma InheritingSteps()
    ensures Leads(Start(), TakeOp(0), Three1()) && Leads(Three1(), ReadyOp(1), Three2())
  {
  }

  lemma InheritingSwitches()
    ensures Leads(Three2(), SwitchOp(1), Three3()) && Leads(Three4(), SwitchOp(0), Inheriting())
  {
  }

  lemma InheritingBlocks()
    ensures Leads(Three3(), BlockOp(0), Three4())
  {
    var w, r := Three3(), Block(Three3(), 0);
    assert Inherit(w, 0).tasks[0] == Low(5, 1);
    assert r.tasks == Three4().tasks && r.waiters[0] == [1] && r.pressure[0] == {5};
  }

  lemma LeadsGoes(w: World, op: Op, r: World)
    requires Inherits(w) && Leads(w, op, r)
    ensures Goes(w, op, r) && Inherits(r)
  {
    hide HeldOk, BaseOk, PressureOk;
    StepInherits(w, op);
  }

  lemma InheritingIsReached()
    ensures Fresh(Start()) && Goes(Start(), TakeOp(0), Three1()) && Goes(Three1(), ReadyOp(1), Three2())
    ensures Goes(Three2(), SwitchOp(1), Three3()) && Goes(Three3(), BlockOp(0), Three4())
    ensures Goes(Three4(), SwitchOp(0), Inheriting()) && Inherits(Inheriting())
  {
    hide Inherits, Goes, Leads, Three1, Three2, Three3, Three4, Inheriting;
    FreshInherits(Start());
    InheritingSteps();
    InheritingSwitches();
    InheritingBlocks();
    LeadsGoes(Start(), TakeOp(0), Three1());
    LeadsGoes(Three1(), ReadyOp(1), Three2());
    LeadsGoes(Three2(), SwitchOp(1), Three3());
    LeadsGoes(Three3(), BlockOp(0), Three4());
    LeadsGoes(Three4(), SwitchOp(0), Inheriting());
  }

  /** Task 0 may then be given base priority 6: it goes on at 5, below its own. */
  lemma BaseCanPassPriority()
    requires MAX_PRIORITIES > 6
    ensures Inherits(Inheriting()) && Enabled(Inheriting(), SetPriorityOp(0, 6))
    ensures !BaseOk(Step(Inheriting(), SetPriorityOp(0, 6)))
  {
    hide Inherits, BaseOk, Inheriting, Known, Goes;
    InheritingIsReached();
    RaisedPast();
  }

  lemma RaisedPast()
    requires MAX_PRIORITIES > 6
    ensures Known(Inheriting()) && Enabled(Inheriting(), SetPriorityOp(0, 6))
    ensures !BaseOk(Step(Inheriting(), SetPriorityOp(0, 6)))
  {
    var r := SetPriority(Inheriting(), 0, 6);
    assert r.tasks[0].priority < r.tasks[0].base;
  }

  /** Or base priority 2: it goes on at 5, but its event item now holds the value of 2, and
      that is how urgent it will seem where it waits next. */
  lemma ValueCanLag()
    requires MAX_PRIORITIES > 6
    ensures Inherits(Inheriting()) && ValuesOk(Inheriting()) && Enabled(Inheriting(), SetPriorityOp(0, 2)) && Allowed(Inheriting(), 0, 2)
    ensures var r := Step(Inheriting(), SetPriorityOp(0, 2)).tasks[0]; r.priority == 5 && r.value == ItemValue(2)
  {
    hide Inherits, Goes;
    InheritingIsReached();
  }

  /** Or it lowers the waiter to its own priority, and a task of priority 3 wakes up. */
  function Lowered(): World { Three(Low(5, 1), Plain(1, false), Plain(3, false), HeldBy(0), [1], {5}, 0, false) }
  function Crossed(): World { Three(Low(5, 1), Plain(1, false), Plain(3, true), HeldBy(0), [1], {5}, 0, false) }

  lemma CrossedIsReached()
    requires MAX_PRIORITIES > 6
    ensures Goes(Inheriting(), SetPriorityOp(1, 1), Lowered()) && Goes(Lowered(), ReadyOp(2), Crossed())
    ensures Inherits(Crossed()) && RightTask(Crossed()) && !Crossed().asked
  {
    hide Inherits, Goes, Leads, Inheriting, Lowered, Crossed, RightTask;
    InheritingIsReached();
    Lowers();
    Wakes();
    GoesKeeps(Inheriting(), SetPriorityOp(1, 1), Lowered());
    LeadsGoes(Lowered(), ReadyOp(2), Crossed());
  }

  lemma Lowers()
    requires MAX_PRIORITIES > 6 && Inherits(Inheriting())
    ensures Goes(Inheriting(), SetPriorityOp(1, 1), Lowered())
  {
    hide HeldOk, BaseOk, PressureOk;
    assert Known(Inheriting());
  }

  lemma Wakes()
    ensures Leads(Lowered(), ReadyOp(2), Crossed()) && RightTask(Crossed()) && !Crossed().asked
  {
  }

  /** Its give then wakes the waiter, and goes on running at 1 while 2 is ready. */
  lemma GiveCanDropTheSwitch()
    requires MAX_PRIORITIES > 6
    ensures Inherits(Crossed()) && Enabled(Crossed(), GiveOp(0)) && RightTask(Crossed()) && !Crossed().asked
    ensures !Scheduled(Step(Crossed(), GiveOp(0)))
  {
    hide Inherits;
    CrossedIsReached();
    GiveCrossed();
  }

  lemma GiveCrossed()
    ensures Known(Crossed()) && Enabled(Crossed(), GiveOp(0)) && !Scheduled(Give(Crossed(), 0))
  {
    var w := Crossed();
    var r := Give(w, 0);
    assert w.waiters[0] == [1];
    assert r.tasks[2].ready && r.tasks[2].priority > r.tasks[r.current].priority;
  }

  // ---------------------------------------------------------------- two mutexes, four tasks

  /** Tasks 0 to 3 of priorities 1, 1, 5 and 3, and mutexes 0 and 1. */
  function Four(ranks: seq<Rank>, holders: seq<Holder>, waiting: seq<Task>, waiting1: seq<Task>, pressure: set<nat>, pressure1: set<nat>, current: Task, asked: bool): World
    requires |ranks| == 4 && |holders| == 2
  {
    World(map[0 := ranks[0], 1 := ranks[1], 2 := ranks[2], 3 := ranks[3]], map[0 := holders[0], 1 := holders[1]],
          map[0 := waiting, 1 := waiting1], map[0 := pressure, 1 := pressure1], current, asked)
  }

  function Held(priority: nat, ready: bool): Rank { Plain(priority, ready).(held := 1) }

  function Two0(): World { Four([Plain(1, true), Plain(1, true), Plain(5, false), Plain(3, true)], [Free, Free], [], [], {}, {}, 3, false) }
  function Two1(): World { Four([Plain(1, true), Plain(1, true), Plain(5, false), Held(3, true)], [Free, HeldBy(3)], [], [], {}, {}, 3, false) }
  function Two2(): World { Four([Plain(1, true), Plain(1, true), Plain(5, false), Held(3, false)], [Free, HeldBy(3)], [], [], {}, {}, 3, true) }
  function Two3(): World { Four([Plain(1, true), Plain(1, true), Plain(5, false), Held(3, false)], [Free, HeldBy(3)], [], [], {}, {}, 1, false) }
  function Two4(): World { Four([Plain(1, true), Plain(1, false), Plain(5, false), Held(3, false)], [Free, HeldBy(3)], [], [1], {}, {1}, 1, true) }
  function Two5(): World { Four([Plain(1, true), Plain(1, false), Plain(5, false), Held(3, false)], [Free, HeldBy(3)], [], [1], {}, {1}, 0, false) }
  function Two6(): World { Four([Held(1, true), Plain(1, false), Plain(5, false), Held(3, false)], [HeldBy(0), HeldBy(3)], [], [1], {}, {1}, 0, false) }
  function Two7(): World { Four([Held(1, false), Plain(1, false), Plain(5, false), Held(3, false)], [HeldBy(0), HeldBy(3)], [], [1, 0], {}, {1}, 0, true) }
  function Two8(): World { Four([Held(1, false), Plain(1, false), Plain(5, true), Held(3, false)], [HeldBy(0), HeldBy(3)], [], [1, 0], {}, {1}, 0, true) }
  function Two9(): World { Four([Held(1, false), Plain(1, false), Plain(5, true), Held(3, false)], [HeldBy(0), HeldBy(3)], [], [1, 0], {}, {1}, 2, false) }

  /** 3 holds mutex 1; 1 waits for it, and behind it 0, which holds mutex 0. */
  lemma WaitingHolderIsReached()
    ensures Fresh(Two0()) && Goes(Two0(), TakeOp(1), Two1()) && Goes(Two1(), SleepOp, Two2()) && Goes(Two2(), SwitchOp(1), Two3())
    ensures Goes(Two3(), BlockOp(1), Two4()) && Goes(Two4(), SwitchOp(0), Two5()) && Goes(Two5(), TakeOp(0), Two6())
    ensures Goes(Two6(), BlockOp(1), Two7()) && Goes(Two7(), ReadyOp(2), Two8()) && Goes(Two8(), SwitchOp(2), Two9())
    ensures Inherits(Two9())
  {
    hide Inherits, Goes, Leads, Two1, Two2, Two3, Two4, Two5, Two6, Two7, Two8, Two9;
    FreshInherits(Two0());
    Takes1(); Sleeps(); Switches1(); Blocks1(); Switches0(); Takes0(); Blocks0(); Readies2(); Switches2();
    LeadsGoes(Two0(), TakeOp(1), Two1());
    LeadsGoes(Two1(), SleepOp, Two2());
    LeadsGoes(Two2(), SwitchOp(1), Two3());
    LeadsGoes(Two3(), BlockOp(1), Two4());
    LeadsGoes(Two4(), SwitchOp(0), Two5());
    LeadsGoes(Two5(), TakeOp(0), Two6());
    LeadsGoes(Two6(), BlockOp(1), Two7());
    LeadsGoes(Two7(), ReadyOp(2), Two8());
    LeadsGoes(Two8(), SwitchOp(2), Two9());
  }

  lemma KnownBefore()
    ensures Known(Two3()) && Known(Two6())
  {
  }

  lemma HolderIsAbove(w: World, h: Task)
    requires h in w.tasks && w.current in w.tasks && w.tasks[h].priority >= w.tasks[w.current].priority
    ensures Inherit(w, h) == w
  {
  }

  lemma Takes1()
    ensures Leads(Two0(), TakeOp(1), Two1())
  {
  }

  lemma Sleeps()
    ensures Leads(Two1(), SleepOp, Two2())
  {
  }

  lemma Switches1()
    ensures Leads(Two2(), SwitchOp(1), Two3())
  {
  }

  lemma Blocks1()
    ensures Leads(Two3(), BlockOp(1), Two4())
  {
    hide Inherit, Known;
    KnownBefore();
    HolderIsAbove(Two3(), 3);
    var r := Block(Two3(), 1);
    assert r.tasks == Two4().tasks;
    assert r.waiters[0] == [] && r.waiters[1] == [1] && r.pressure[0] == {} && r.pressure[1] == {1};
  }

  lemma Switches0()
    ensures Leads(Two4(), SwitchOp(0), Two5())
  {
  }

  lemma Takes0()
    ensures Leads(Two5(), TakeOp(0), Two6())
  {
  }

  lemma Blocks0()
    ensures Leads(Two6(), BlockOp(1), Two7())
  {
    hide Inherit, Known;
    KnownBefore();
    HolderIsAbove(Two6(), 3);
    var r := Block(Two6(), 1);
    assert r.tasks == Two7().tasks;
    assert [1][1..] == [];
    assert r.waiters[0] == [] && r.waiters[1] == [1, 0] && r.pressure[0] == {} && r.pressure[1] == {1};
  }

  lemma Readies2()
    ensures Leads(Two7(), ReadyOp(2), Two8())
  {
  }

  lemma Switches2()
    ensures Leads(Two8(), SwitchOp(2), Two9())
  {
  }

  /** When 2 blocks on mutex 0, task 0 inherits 5 where it waits, behind a waiter of
      priority 1: the give of mutex 1 will wake the less urgent of the two. */
  lemma InheritCanBreakOrder()
    ensures Inherits(Two9()) && WaitersInOrder(Two9(), 1) && Enabled(Two9(), BlockOp(0))
    ensures var r := Step(Two9(), BlockOp(0));
      Known(r) && r.waiters[1] == [1, 0] && r.tasks[1].priority == 1 && r.tasks[0].priority == 5 && !WaitersInOrder(r, 1)
  {
    hide Inherits, Goes;
    WaitingHolderIsReached();
    RaisedBehind();
  }

  lemma RaisedBehind()
    ensures Known(Two9()) && WaitersInOrder(Two9(), 1) && Enabled(Two9(), BlockOp(0))
    ensures var r := Step(Two9(), BlockOp(0));
      Known(r) && r.waiters[1] == [1, 0] && r.tasks[1].priority == 1 && r.tasks[0].priority == 5 && !WaitersInOrder(r, 1)
  {
    var w, i := Two9(), Inherit(Two9(), 0);
    RaisedRanks();
    hide Inherit;
    BlockFrame(w, 0);
    hide Block, Two9;
    var r := Block(w, 0);
    assert r.waiters[1][0] == 1 && r.waiters[1][1] == 0;
    assert ItemValues(r.tasks)[r.waiters[1][0]] > ItemValues(r.tasks)[r.waiters[1][1]];
  }

  lemma RaisedRanks()
    ensures var w := Two9();
      && Known(w) && Enabled(w, BlockOp(0)) && WaitersInOrder(w, 1) && w.holder[0] == HeldBy(0) && w.current == 2
      && w.tasks.Keys == {0, 1, 2, 3} && w.waiters.Keys == {0, 1} && w.waiters[1] == [1, 0]
      && w.tasks[1].priority == 1 && w.tasks[1].value == ItemValue(1)
      && Inherit(w, 0).tasks == w.tasks[0 := w.tasks[0].(priority := 5, value := ItemValue(5))]
  {
  }

  lemma BlockFrame(w: World, m: MutexId)
    requires Known(w) && m in w.holder && w.holder[m].HeldBy?
    ensures var i, r := Inherit(w, w.holder[m].t), Block(w, m);
      && i.tasks.Keys == w.tasks.Keys && w.current in i.tasks
      && r.tasks == i.tasks[w.current := i.tasks[w.current].(ready := false)] && r.current == w.current
      && r.holder == w.holder && r.waiters.Keys == w.waiters.Keys && r.pressure.Keys == w.pressure.Keys
      && (forall m' :: m' in w.waiters && m' != m ==> r.waiters[m'] == w.waiters[m'])
      && (forall t :: t in r.waiters[m] <==> t in w.waiters[m] || t == w.current)
  {
    hide InsertSorted;
  }
}
