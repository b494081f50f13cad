/** Mutexes and priority inheritance: which task holds which mutex, who waits, and the
    priorities tasks run at.  A step is one critical section. */
module Mutex {
  import opened Lists
  import opened TaskLists

  type MutexId = nat

  /** What the TCB says about priorities; `value` is the event item's. */
  datatype Rank = Rank(base: nat, priority: nat, held: nat, value: int, ready: bool)

  datatype Holder = Free | HeldBy(t: Task)

  datatype World = World(
    tasks: map<Task, Rank>,
    holder: map<MutexId, Holder>,            // pxMutexHolder
    waiters: map<MutexId, seq<Task>>,        // xTasksWaitingToReceive
    pressure: map<MutexId, set<nat>>,        // the priorities tasks blocked with, this hold
    current: Task,
    asked: bool)                             // a context switch is requested

  function ItemValue(priority: nat): int { MAX_PRIORITIES - priority }

  function ItemValues(tasks: map<Task, Rank>): map<Task, int> { map t | t in tasks :: tasks[t].value }

  // ---------------------------------------------------------------- invariant

  ghost function HeldSet(w: World, t: Task): set<MutexId> { set m | m in w.holder && w.holder[m] == HeldBy(t) }

  ghost predicate Known(w: World) {
    && w.current in w.tasks
    && w.waiters.Keys == w.holder.Keys && w.pressure.Keys == w.holder.Keys
    && (forall m, t :: m in w.waiters && t in w.waiters[m] ==> t in w.tasks)
    && (forall m :: m in w.holder && w.holder[m].HeldBy? ==> w.holder[m].t in w.tasks)
  }

  /** uxMutexesHeld counts the mutexes a task holds. */
  ghost predicate HeldOk(w: World) {
    forall t :: t in w.tasks ==> w.tasks[t].held == |HeldSet(w, t)|
  }

  /** A task runs at its own priority or a higher one, and at its own without a mutex. */
  ghost predicate BaseOk(w: World) {
    forall t :: t in w.tasks ==>
      w.tasks[t].base <= w.tasks[t].priority && (w.tasks[t].held == 0 ==> w.tasks[t].priority == w.tasks[t].base)
  }

  /** The holder runs at least at the priority each waiter blocked with. */
  ghost predicate PressureOk(w: World) {
    && (forall m :: m in w.holder && w.holder[m] == Free ==> m in w.pressure && w.pressure[m] == {})
    && (forall m, p :: m in w.holder && w.holder[m].HeldBy? && m in w.pressure && p in w.pressure[m] && w.holder[m].t in w.tasks ==>
          p <= w.tasks[w.holder[m].t].priority)
  }

  ghost predicate Inherits(w: World) { Known(w) && HeldOk(w) && BaseOk(w) && PressureOk(w) }

  /** The running task is ready, and none is more urgent. */
  ghost predicate RightTask(w: World) {
    && w.current in w.tasks && w.tasks[w.current].ready
    && forall t :: t in w.tasks && w.tasks[t].ready ==> w.tasks[t].priority <= w.tasks[w.current].priority
  }

  ghost predicate Scheduled(w: World) { w.asked || RightTask(w) }

  // ---------------------------------------------------------------- the calls

  /** xQueueGenericReceive of a free mutex: pvTaskIncrementMutexHeldCount. */
  function Take(w: World, m: MutexId): World
    requires Known(w) && m in w.holder
  {
    var c := w.tasks[w.current];
    w.(holder := w.holder[m := HeldBy(w.current)], tasks := w.tasks[w.current := c.(held := c.held + 1)])
  }

  /** vTaskPriorityInherit */
  function Inherit(w: World, h: Task): World
    requires h in w.tasks && w.current in w.tasks
  {
    var p := w.tasks[w.current].priority;
    if w.tasks[h].priority < p then w.(tasks := w.tasks[h := w.tasks[h].(priority := p, value := ItemValue(p))]) else w
  }

  /** xQueueGenericReceive of a mutex that is held: inherit, then vTaskPlaceOnEventList. */
  function Block(w: World, m: MutexId): World
    requires Known(w) && m in w.holder && w.holder[m].HeldBy?
  {
    var i := Inherit(w, w.holder[m].t);
    var c := i.tasks[w.current];
    i.(waiters := w.waiters[m := InsertSorted(w.waiters[m], w.current, ItemValues(i.tasks))],
       pressure := w.pressure[m := w.pressure[m] + {w.tasks[w.current].priority}],
       tasks := i.tasks[w.current := c.(ready := false)], asked := true)
  }

  /** xTaskPriorityDisinherit, for the running task. */
  function Disinherit(w: World): World
    requires w.current in w.tasks && w.tasks[w.current].held > 0
  {
    var c := w.tasks[w.current];
    var n := c.held - 1;
    w.(tasks := w.tasks[w.current :=
         if c.priority != c.base && n == 0 then c.(held := n, priority := c.base, value := ItemValue(c.base))
         else c.(held := n)])
  }

  /** What xTaskPriorityDisinherit returns. */
  predicate Disinherits(w: World)
    requires w.current in w.tasks
  {
    w.tasks[w.current].priority != w.tasks[w.current].base && w.tasks[w.current].held == 1
  }

  /** A waiter leaves the list of a mutex and is ready, after a give or a time-out. */
  function Release(w: World, m: MutexId, t: Task): World
    requires m in w.waiters && t in w.tasks
  {
    w.(waiters := w.waiters[m := Remove(w.waiters[m], t)], tasks := w.tasks[t := w.tasks[t].(ready := true)])
  }

  /** xQueueGenericSend of a mutex by its holder. */
  function Give(w: World, m: MutexId): World
    requires Known(w) && m in w.holder && w.holder[m] == HeldBy(w.current) && w.tasks[w.current].held > 0
  {
    var d := Disinherit(w).(holder := w.holder[m := Free], pressure := w.pressure[m := {}]);
    if w.waiters[m] != [] then
      var t := w.waiters[m][0];
      Release(d, m, t).(asked := w.asked || d.tasks[t].priority > d.tasks[w.current].priority)
    else d.(asked := w.asked || Disinherits(w))
  }

  /** The block time of a waiter runs out. */
  function TimeOut(w: World, m: MutexId, t: Task): World
    requires Known(w) && m in w.waiters && t in w.waiters[m]
  {
    Release(w, m, t).(asked := w.asked || w.tasks[t].priority >= w.tasks[w.current].priority)
  }

  /** A task becomes ready for some other reason, or the running task stops being it. */
  function Ready(w: World, t: Task): World
    requires t in w.tasks && w.current in w.tasks
  {
    w.(tasks := w.tasks[t := w.tasks[t].(ready := true)], asked := w.asked || w.tasks[t].priority > w.tasks[w.current].priority)
  }

  function Sleep(w: World): World
    requires w.current in w.tasks
  {
    w.(tasks := w.tasks[w.current := w.tasks[w.current].(ready := false)], asked := true)
  }

  function Switch(w: World, t: Task): World {
    w.(current := t, asked := false)
  }

  /** vTaskPrioritySet */
  function SetPriority(w: World, t: Task, p: nat): World
    requires t in w.tasks && w.current in w.tasks
  {
    var c := w.tasks[t];
    if c.base == p then w
    else
      var asks := if p > c.base then t != w.current && p >= w.tasks[w.current].priority else t == w.current;
      w.(tasks := w.tasks[t := c.(base := p, priority := if c.base == c.priority then p else c.priority, value := ItemValue(p))],
         asked := w.asked || asks)
  }

  datatype Op =
    | TakeOp(m: MutexId)
    | BlockOp(m: MutexId)
    | GiveOp(m: MutexId)
    | TimeOutOp(m: MutexId, t: Task)
    | ReadyOp(t: Task)
    | SleepOp
    | SwitchOp(t: Task)
    | SetPriorityOp(t: Task, p: nat)

  ghost predicate Enabled(w: World, op: Op)
    requires Known(w)
  {
    match op
    case TakeOp(m) => m in w.holder && w.holder[m] == Free
    case BlockOp(m) => m in w.holder && w.holder[m].HeldBy?
    case GiveOp(m) => m in w.holder && w.holder[m] == HeldBy(w.current) && w.tasks[w.current].held > 0
    case TimeOutOp(m, t) => m in w.waiters && t in w.waiters[m]
    case ReadyOp(t) => t in w.tasks
    case SleepOp => true
    case SwitchOp(t) => t in w.tasks && w.tasks[t].ready && forall u :: u in w.tasks && w.tasks[u].ready ==> w.tasks[u].priority <= w.tasks[t].priority
    case SetPriorityOp(t, p) => t in w.tasks && p < MAX_PRIORITIES
  }

  function Step(w: World, op: Op): World
    requires Known(w) && Enabled(w, op)
  {
    match op
    case TakeOp(m) => Take(w, m)
    case BlockOp(m) => Block(w, m)
    case GiveOp(m) => Give(w, m)
    case TimeOutOp(m, t) => TimeOut(w, m, t)
    case ReadyOp(t) => Ready(w, t)
    case SleepOp => Sleep(w)
    case SwitchOp(t) => Switch(w, t)
    case SetPriorityOp(t, p) => SetPriority(w, t, p)
  }

  // ---------------------------------------------------------------- every step keeps inheritance

  /** Nothing about priorities or holders changes. */
  lemma SameRanks(w: World, r: World)
    requires Inherits(w) && r.holder == w.holder && r.pressure == w.pressure && r.tasks.Keys == w.tasks.Keys
    requires forall t :: t in w.tasks ==>
        r.tasks[t].base == w.tasks[t].base && r.tasks[t].priority == w.tasks[t].priority && r.tasks[t].held == w.tasks[t].held
    requires r.current in r.tasks && r.waiters.Keys == w.waiters.Keys
    requires forall m, t :: m in r.waiters && t in r.waiters[m] ==> t in w.tasks
    ensures Inherits(r)
  {
  }

  lemma TakeKeeps(w: World, m: MutexId)
    requires Inherits(w) && m in w.holder && w.holder[m] == Free
    ensures Inherits(Take(w, m))
  {
    hide HeldOk, BaseOk, PressureOk;
    TakeHeld(w, m);
    TakeBase(w, m);
    TakePressure(w, m);
  }

  lemma TakeBase(w: World, m: MutexId)
    requires Known(w) && BaseOk(w) && m in w.holder
    ensures BaseOk(Take(w, m))
  {
  }

  lemma TakePressure(w: World, m: MutexId)
    requires Known(w) && PressureOk(w) && m in w.holder && w.holder[m] == Free
    ensures PressureOk(Take(w, m))
  {
  }

  lemma TakeHeld(w: World, m: MutexId)
    requires Known(w) && HeldOk(w) && m in w.holder && w.holder[m] == Free
    ensures HeldOk(Take(w, m))
  {
    var r := Take(w, m);
    forall t | t in r.tasks ensures r.tasks[t].held == |HeldSet(r, t)| {
      HeldGrows(w, r, m, t);
    }
    hide HeldSet;
  }

  lemma HeldGrows(w: World, r: World, m: MutexId, t: Task)
    requires m in w.holder && w.holder[m] == Free && r.holder == w.holder[m := HeldBy(w.current)]
    ensures |HeldSet(r, t)| == |HeldSet(w, t)| + if t == w.current then 1 else 0
  {
    if t == w.current {
      assert HeldSet(r, t) == HeldSet(w, t) + {m};
    } else {
      assert HeldSet(r, t) == HeldSet(w, t);
    }
  }

  lemma HeldShrinks(w: World, r: World, m: MutexId, t: Task)
    requires m in w.holder && w.holder[m] == HeldBy(w.current) && r.holder == w.holder[m := Free]
    ensures |HeldSet(r, t)| == |HeldSet(w, t)| - if t == w.current then 1 else 0
  {
    if t == w.current {
      assert HeldSet(w, t) == HeldSet(r, t) + {m};
    } else {
      assert HeldSet(r, t) == HeldSet(w, t);
    }
  }

  lemma HeldSame(w: World, r: World)
    requires HeldOk(w) && r.holder == w.holder && r.tasks.Keys == w.tasks.Keys
    requires forall t :: t in w.tasks ==> r.tasks[t].held == w.tasks[t].held
    ensures HeldOk(r)
  {
  }

  lemma InheritKeeps(w: World, h: Task)
    requires Inherits(w) && h in w.tasks && w.tasks[h].held > 0
    ensures var r := Inherit(w, h);
      Inherits(r) && r == w.(tasks := r.tasks) && r.tasks.Keys == w.tasks.Keys
      && r.tasks[h].priority >= w.tasks[w.current].priority
  {
    hide HeldOk, BaseOk, PressureOk;
    var r := Inherit(w, h);
    HeldSame(w, r);
    assert BaseOk(r) by { RaiseBase(w, h); }
    assert PressureOk(r) by { RaisePressure(w, h); }
  }

  lemma RaiseBase(w: World, h: Task)
    requires BaseOk(w) && h in w.tasks && w.tasks[h].held > 0 && w.current in w.tasks
    ensures BaseOk(Inherit(w, h))
  {
  }

  lemma RaisePressure(w: World, h: Task)
    requires Known(w) && PressureOk(w) && h in w.tasks
    ensures PressureOk(Inherit(w, h))
  {
  }

  lemma AddPressure(w: World, m: MutexId, p: nat)
    requires Inherits(w) && m in w.holder && w.holder[m].HeldBy? && p <= w.tasks[w.holder[m].t].priority
    ensures Inherits(w.(pressure := w.pressure[m := w.pressure[m] + {p}]))
  {
    hide HeldOk, BaseOk;
    var r := w.(pressure := w.pressure[m := w.pressure[m] + {p}]);
    HeldSame(w, r);
    assert BaseOk(r) by { BaseSame(w, r); }
  }

  lemma BaseSame(w: World, r: World)
    requires BaseOk(w) && r.tasks == w.tasks
    ensures BaseOk(r)
  {
  }

  /** The running task starts to wait. */
  lemma WaitKeeps(w: World, m: MutexId, value: map<Task, int>)
    requires Inherits(w) && m in w.holder && w.current in value && forall t :: t in w.waiters[m] ==> t in value
    ensures Inherits(w.(waiters := w.waiters[m := InsertSorted(w.waiters[m], w.current, value)],
                        tasks := w.tasks[w.current := w.tasks[w.current].(ready := false)], asked := true))
  {
    hide HeldOk, BaseOk, PressureOk, InsertSorted;
    SameRanks(w, w.(waiters := w.waiters[m := InsertSorted(w.waiters[m], w.current, value)],
                    tasks := w.tasks[w.current := w.tasks[w.current].(ready := false)], asked := true));
  }

  lemma BlockKeeps(w: World, m: MutexId)
    requires Inherits(w) && m in w.holder && w.holder[m].HeldBy?
    ensures Inherits(Block(w, m))
  {
    hide InsertSorted, HeldOk, BaseOk, PressureOk, Inherit;
    HolderHolds(w, m);
    InheritKeeps(w, w.holder[m].t);
    var i := Inherit(w, w.holder[m].t);
    AddPressure(i, m, w.tasks[w.current].priority);
    WaitKeeps(i.(pressure := i.pressure[m := i.pressure[m] + {w.tasks[w.current].priority}]), m, ItemValues(i.tasks));
  }

  lemma HolderHolds(w: World, m: MutexId)
    requires Inherits(w) && m in w.holder && w.holder[m].HeldBy?
    ensures w.tasks[w.holder[m].t].held > 0
  {
    assert m in HeldSet(w, w.holder[m].t);
  }

  lemma GiveHolds(w: World, m: MutexId)
    requires Inherits(w) && m in w.holder && w.holder[m] == HeldBy(w.current) && w.tasks[w.current].held > 0
    ensures Inherits(Disinherit(w).(holder := w.holder[m := Free], pressure := w.pressure[m := {}]))
  {
    hide HeldOk, BaseOk, PressureOk;
    var r := Disinherit(w).(holder := w.holder[m := Free], pressure := w.pressure[m := {}]);
    assert HeldOk(r) by { GiveHeld(w, m, r); }
    assert BaseOk(r) by { GiveBase(w); }
    assert PressureOk(r) by { GivePressure(w, m, r); }
  }

  lemma GiveBase(w: World)
    requires BaseOk(w) && w.current in w.tasks && w.tasks[w.current].held > 0
    ensures BaseOk(Disinherit(w))
    ensures forall h, p :: BaseOk(Disinherit(w).(holder := h, pressure := p))
  {
  }

  lemma GiveHeld(w: World, m: MutexId, r: World)
    requires Known(w) && HeldOk(w) && m in w.holder && w.holder[m] == HeldBy(w.current) && w.tasks[w.current].held > 0
    requires r == Disinherit(w).(holder := w.holder[m := Free], pressure := r.pressure)
    ensures HeldOk(r)
  {
    forall t | t in r.tasks ensures r.tasks[t].held == |HeldSet(r, t)| {
      HeldShrinks(w, r, m, t);
    }
    hide HeldSet;
  }

  /** The mutexes a task still holds keep it from disinheriting. */
  lemma GivePressure(w: World, m: MutexId, r: World)
    requires Known(w) && PressureOk(w) && m in w.holder && w.holder[m] == HeldBy(w.current) && w.tasks[w.current].held > 0
    requires r == Disinherit(w).(holder := w.holder[m := Free], pressure := w.pressure[m := {}]) && HeldOk(r)
    ensures PressureOk(r)
  {
    forall m' | m' in r.holder && r.holder[m'] == HeldBy(w.current) ensures r.tasks[w.current].held > 0 {
      StillHolds(r, m');
    }
    hide HeldOk;
  }

  lemma StillHolds(w: World, m: MutexId)
    requires HeldOk(w) && m in w.holder && w.holder[m].HeldBy? && w.holder[m].t in w.tasks
    ensures w.tasks[w.holder[m].t].held > 0
  {
    assert m in HeldSet(w, w.holder[m].t);
  }

  lemma ReleaseKeeps(w: World, m: MutexId, t: Task)
    requires Inherits(w) && m in w.waiters && t in w.tasks
    ensures Inherits(Release(w, m, t))
  {
    hide HeldOk, BaseOk, PressureOk;
    SameRanks(w, Release(w, m, t));
  }

  lemma GiveKeeps(w: World, m: MutexId)
    requires Inherits(w) && m in w.holder && w.holder[m] == HeldBy(w.current) && w.tasks[w.current].held > 0
    ensures Inherits(Give(w, m))
  {
    hide HeldOk, BaseOk, PressureOk;
    GiveHolds(w, m);
    var d := Disinherit(w).(holder := w.holder[m := Free], pressure := w.pressure[m := {}]);
    if w.waiters[m] != [] {
      assert w.waiters[m][0] in w.waiters[m] && d.tasks.Keys == w.tasks.Keys by { assert Disinherit(w).tasks.Keys == w.tasks.Keys; }
      ReleaseKeeps(d, m, w.waiters[m][0]);
      SameRanks(Release(d, m, w.waiters[m][0]), Give(w, m));
    } else {
      SameRanks(d, Give(w, m));
    }
  }

  /** When a call to vTaskPrioritySet leaves inheritance intact: the base priority may
      not pass an inherited one, nor the priority fall below what waiters need. */
  predicate Allowed(w: World, t: Task, p: nat)
    requires t in w.tasks
  {
    var c := w.tasks[t];
    c.base == p || if c.base == c.priority then Enough(w, t, p) else p <= c.priority
  }

  predicate Enough(w: World, t: Task, p: nat) {
    forall m :: m in w.holder && w.holder[m] == HeldBy(t) && m in w.pressure ==> forall q :: q in w.pressure[m] ==> q <= p
  }

  /** Exactly the allowed calls keep inheritance. */
  lemma SetPriorityKeepsExactly(w: World, t: Task, p: nat)
    requires Inherits(w) && t in w.tasks
    ensures Inherits(SetPriority(w, t, p)) <==> Allowed(w, t, p)
  {
    var r := SetPriority(w, t, p);
    hide HeldOk;
    HeldSame(w, r);
    PressureAfter(w, t, p);
    BaseAfter(w, t, p);
    if w.tasks[t].base != w.tasks[t].priority { Inherited(w, t); }
    hide PressureOk, BaseOk;
  }

  lemma Inherited(w: World, t: Task)
    requires BaseOk(w) && t in w.tasks && w.tasks[t].base != w.tasks[t].priority
    ensures w.tasks[t].held > 0 && w.tasks[t].base < w.tasks[t].priority
  {
  }

  lemma BaseAfter(w: World, t: Task, p: nat)
    requires Known(w) && BaseOk(w) && t in w.tasks
    ensures BaseOk(SetPriority(w, t, p)) <==>
        w.tasks[t].base == p || w.tasks[t].base == w.tasks[t].priority || p <= w.tasks[t].priority
  {
    assert t in SetPriority(w, t, p).tasks;
  }

  lemma PressureAfter(w: World, t: Task, p: nat)
    requires Known(w) && PressureOk(w) && t in w.tasks
    ensures PressureOk(SetPriority(w, t, p)) <==>
        w.tasks[t].base == p || w.tasks[t].base != w.tasks[t].priority || Enough(w, t, p)
  {
  }

  /** Every step but a disallowed vTaskPrioritySet keeps inheritance. */
  lemma StepInherits(w: World, op: Op)
    requires Inherits(w) && Enabled(w, op) && (op.SetPriorityOp? ==> Allowed(w, op.t, op.p))
    ensures Inherits(Step(w, op))
  {
    hide HeldOk, BaseOk, PressureOk;
    match op
    case TakeOp(m) => TakeKeeps(w, m);
    case BlockOp(m) => BlockKeeps(w, m);
    case GiveOp(m) => GiveKeeps(w, m);
    case TimeOutOp(m, t) =>
      ReleaseKeeps(w, m, t);
      SameRanks(Release(w, m, t), TimeOut(w, m, t));
    case ReadyOp(t) => SameRanks(w, Ready(w, t));
    case SleepOp => SameRanks(w, Sleep(w));
    case SwitchOp(t) => SameRanks(w, Switch(w, t));
    case SetPriorityOp(t, p) => SetPriorityKeepsExactly(w, t, p);
  }

  // ---------------------------------------------------------------- runs

  ghost predicate CanRun(w: World, ops: seq<Op>)
    requires Inherits(w)
    decreases |ops|
  {
    ops == [] || (Enabled(w, ops[0]) && (ops[0].SetPriorityOp? ==> Allowed(w, ops[0].t, ops[0].p))
                  && (StepInherits(w, ops[0]); CanRun(Step(w, ops[0]), ops[1..])))
  }

  function After(w: World, ops: seq<Op>): World
    requires Inherits(w) && CanRun(w, ops)
    decreases |ops|
  {
    if ops == [] then w else StepInherits(w, ops[0]); After(Step(w, ops[0]), ops[1..])
  }

  lemma {:induction false} RunInherits(w: World, ops: seq<Op>)
    requires Inherits(w) && CanRun(w, ops)
    ensures Inherits(After(w, ops))
    decreases |ops|
  {
    hide HeldOk, BaseOk, PressureOk;
    if ops != [] {
      StepInherits(w, ops[0]);
      RunInherits(Step(w, ops[0]), ops[1..]);
    }
  }

  /** Over whole runs: uxMutexesHeld counts the mutexes held, no task runs below its own
      priority or above it without a mutex, and a holder runs at least at the priority
      every waiter of this hold blocked with. */
  lemma PriorityInheritance(w: World, ops: seq<Op>)
    requires Inherits(w) && CanRun(w, ops)
    ensures var r := After(w, ops);
      && (forall t :: t in r.tasks ==>
            && r.tasks[t].held == |HeldSet(r, t)| && r.tasks[t].base <= r.tasks[t].priority
            && (HeldSet(r, t) == {} ==> r.tasks[t].priority == r.tasks[t].base))
      && (forall m, p :: m in r.holder && r.holder[m].HeldBy? && m in r.pressure && p in r.pressure[m] ==>
            r.holder[m].t in r.tasks && p <= r.tasks[r.holder[m].t].priority)
  {
    RunInherits(w, ops);
  }

  /** Priority inversion is bounded: while the holder is ready and no switch is asked
      for, nothing less urgent than a waiter of this hold runs. */
  lemma NothingInBetweenRuns(w: World, m: MutexId, p: nat)
    requires Inherits(w) && RightTask(w) && m in w.holder && w.holder[m].HeldBy? && p in w.pressure[m]
    requires w.tasks[w.holder[m].t].ready
    ensures w.tasks[w.current].priority >= p
  {
  }

  // ---------------------------------------------------------------- who runs

  /** A give that disinherits but wakes a waiter no more urgent than the giver's own
      priority asks for no switch. */
  predicate FlagDropped(w: World, m: MutexId)
    requires Known(w) && m in w.waiters
  {
    Disinherits(w) && w.waiters[m] != [] &&
    (var t := w.waiters[m][0]; t in w.tasks && t != w.current && w.tasks[t].priority <= w.tasks[w.current].base)
  }

  /** The wrong task runs on after a give exactly if that flag was dropped while a
      ready task was more urgent than the giver's own priority. */
  lemma GiveSchedulesExactly(w: World, m: MutexId)
    requires Inherits(w) && Enabled(w, GiveOp(m)) && RightTask(w) && !w.asked && w.current !in w.waiters[m]
    ensures Scheduled(Give(w, m)) <==>
        !(FlagDropped(w, m) && exists t :: t in w.tasks && w.tasks[t].ready && w.tasks[t].priority > w.tasks[w.current].base && t != w.current)
  {
    hide HeldOk, PressureOk, BaseOk;
    var r := Give(w, m);
    if w.waiters[m] != [] { assert w.waiters[m][0] in w.waiters[m]; }
    if FlagDropped(w, m) {
      var t := w.waiters[m][0];
      assert !r.asked;
      if x :| x in w.tasks && w.tasks[x].ready && w.tasks[x].priority > w.tasks[w.current].base && x != w.current {
        assert r.tasks[x].ready && r.tasks[x].priority > r.tasks[r.current].priority;
      }
    } else if !r.asked {
      assert r.tasks[r.current].priority == w.tasks[w.current].priority;
    }
  }

  lemma ScheduledSteps(w: World, op: Op)
    requires Inherits(w) && Enabled(w, op) && Scheduled(w) && !op.GiveOp?
    requires op.TimeOutOp? ==> op.t != w.current || w.asked
    ensures Scheduled(Step(w, op))
  {
    hide HeldOk, PressureOk, BaseOk;
  }

  // ---------------------------------------------------------------- the order of the waiters

  ghost predicate WaitersInOrder(w: World, m: MutexId)
    requires Known(w) && m in w.waiters
  {
    Sorted(w.waiters[m], ItemValues(w.tasks))
  }

  /** vTaskPriorityInherit rewrites the item value of a holder that itself waits for
      another mutex, and leaves it where it is: the list stays in order exactly if the
      holder already ran as high or the new value fits where it waits. */
  lemma InheritKeepsOrderExactly(w: World, h: Task, m: MutexId)
    requires Known(w) && h in w.tasks && m in w.waiters && NoDup(w.waiters[m]) && WaitersInOrder(w, m)
    ensures Known(Inherit(w, h))
    ensures WaitersInOrder(Inherit(w, h), m) <==>
        w.tasks[h].priority >= w.tasks[w.current].priority
        || FitsAt(w.waiters[m], ItemValues(w.tasks), h, ItemValue(w.tasks[w.current].priority))
  {
    if w.tasks[h].priority < w.tasks[w.current].priority {
      hide Sorted, NoDup;
      RekeyedInOrder(w.waiters[m], ItemValues(w.tasks), ItemValues(Inherit(w, h).tasks), h, ItemValue(w.tasks[w.current].priority));
    }
  }

  lemma DisinheritFrame(w: World)
    requires w.current in w.tasks && w.tasks[w.current].held > 0
    ensures Disinherit(w) == w.(tasks := Disinherit(w).tasks) && Disinherit(w).tasks.Keys == w.tasks.Keys
  {
  }

  // ---------------------------------------------------------------- in place

  /** The TCBs' priorities and the mutexes, updated in place. */
  class Mutexes {
    var tasks: map<Task, Rank>
    var holder: map<MutexId, Holder>
    var waiters: map<MutexId, seq<Task>>
    var current: Task
    var asked: bool
    ghost var pressure: map<MutexId, set<nat>>

    ghost function View(): World
      reads this
    {
      World(tasks, holder, waiters, pressure, current, asked)
    }

    /** vTaskPriorityInherit */
    method PriorityInherit(h: Holder)
      requires current in tasks && (h.HeldBy? ==> h.t in tasks)
      modifies this`tasks
      ensures View() == if h.HeldBy? then Inherit(old(View()), h.t) else old(View())
    {
      if h.HeldBy? {
        if tasks[h.t].priority < tasks[current].priority {
          var p := tasks[current].priority;
          tasks := tasks[h.t := tasks[h.t].(value := ItemValue(p))];
          tasks := tasks[h.t := tasks[h.t].(priority := p)];
        }
      }
    }

    /** xTaskPriorityDisinherit */
    method PriorityDisinherit(h: Holder) returns (yieldRequired: bool)
      requires current in tasks && h == HeldBy(current) && tasks[current].held > 0
      modifies this`tasks
      ensures View() == Disinherit(old(View()))
      ensures yieldRequired <==> Disinherits(old(View()))
    {
      yieldRequired := false;
      tasks := tasks[current := tasks[current].(held := tasks[current].held - 1)];
      if tasks[current].priority != tasks[current].base {
        if tasks[current].held == 0 {
          tasks := tasks[current := tasks[current].(priority := tasks[current].base)];
          tasks := tasks[current := tasks[current].(value := ItemValue(tasks[current].priority))];
          yieldRequired := true;
        }
      }
    }

    /** xQueueGenericReceive of a mutex, once round its loop: taken, or blocked. */
    method Acquire(m: MutexId) returns (taken: bool)
      requires Known(View()) && m in holder
      modifies this
      ensures taken <==> old(holder)[m] == Free
      ensures View() == if old(holder)[m] == Free then Take(old(View()), m) else Block(old(View()), m)
    {
      if holder[m] == Free {
        tasks := tasks[current := tasks[current].(held := tasks[current].held + 1)];
        holder := holder[m := HeldBy(current)];
        taken := true;
      } else {
        pressure := pressure[m := pressure[m] + {tasks[current].priority}];
        PriorityInherit(holder[m]);
        assert forall t :: t in waiters[m] ==> t in tasks;
        waiters := waiters[m := InsertSorted(waiters[m], current, ItemValues(tasks))];
        tasks := tasks[current := tasks[current].(ready := false)];
        asked := true;
        taken := false;
      }
    }

    /** xQueueGenericSend of a mutex by its holder. */
    method Surrender(m: MutexId)
      requires Inherits(View()) && Enabled(View(), GiveOp(m))
      modifies this
      ensures View() == Give(old(View()), m) && Inherits(View())
    {
      hide HeldOk, BaseOk, PressureOk, Disinherit, Disinherits;
      ghost var w := View();
      GiveKeeps(w, m);
      DisinheritFrame(w);
      var yieldRequired := PriorityDisinherit(holder[m]);
      holder := holder[m := Free];
      pressure := pressure[m := {}];
      if waiters[m] != [] {
        var t := waiters[m][0];
        assert t in w.waiters[m] && t in tasks;
        waiters := waiters[m := Remove(waiters[m], t)];
        tasks := tasks[t := tasks[t].(ready := true)];
        if tasks[t].priority > tasks[current].priority {
          asked := true;
        }
      } else if yieldRequired {
        asked := true;
      }
    }

    /** vTaskPrioritySet */
    method PrioritySet(t: Task, p: nat)
      requires t in tasks && current in tasks && p < MAX_PRIORITIES
      modifies this`tasks, this`asked
      ensures View() == SetPriority(old(View()), t, p)
    {
      var before := tasks[t].base;
      if before != p {
        var yieldRequired := false;
        if p > before {
          if t != current && p >= tasks[current].priority {
            yieldRequired := true;
          }
        } else if t == current {
          yieldRequired := true;
        }
        if tasks[t].base == tasks[t].priority {
          tasks := tasks[t := tasks[t].(priority := p)];
        }
        tasks := tasks[t := tasks[t].(base := p)];
        tasks := tasks[t := tasks[t].(value := ItemValue(p))];
        if yieldRequired {
          asked := true;
        }
      }
    }
  }
}
