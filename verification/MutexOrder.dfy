/** Who waits for a mutex in what order, and who gets it: each call, and whole runs. */
module MutexOrder {
  import opened Lists
  import opened TaskLists
  import opened Mutex

  // ---------------------------------------------------------------- what the calls do

  /** A mutex is taken only when it is free, and freed only by its holder. */
  lemma StepHolds(w: World, op: Op, m: MutexId)
    requires Known(w) && Enabled(w, op) && m in w.holder
    ensures var r := Step(w, op);
      && m in r.holder
      && (w.holder[m] == Free ==> r.holder[m] == if op == TakeOp(m) then HeldBy(w.current) else Free)
      && (w.holder[m].HeldBy? ==> r.holder[m] == if op == GiveOp(m) then Free else w.holder[m])
      && (op == GiveOp(m) ==> w.holder[m] == HeldBy(w.current))
  {
    hide InsertSorted, Remove;
  }

  /** A task that blocks waits behind all that are as urgent or more, is ready no longer,
      and asks for a switch. */
  lemma BlockJoins(w: World, m: MutexId) returns (k: nat)
    requires Known(w) && Enabled(w, BlockOp(m))
    ensures var i, was, r := Inherit(w, w.holder[m].t), w.waiters[m], Step(w, BlockOp(m));
      && k <= |was| && r.waiters == w.waiters[m := was[..k] + [w.current] + was[k..]]
      && Known(i) && (forall t :: t in was ==> t in i.tasks)
      && (forall n :: 0 <= n < k ==> i.tasks[was[n]].value <= i.tasks[w.current].value)
      && (k < |was| ==> i.tasks[was[k]].value > i.tasks[w.current].value)
      && r.tasks == i.tasks[w.current := i.tasks[w.current].(ready := false)] && r.asked && r.current == w.current
  {
    hide InsertSorted;
    k := InsertSortedSplit(w.waiters[m], w.current, ItemValues(Inherit(w, w.holder[m].t).tasks));
  }

  /** A give frees the mutex and releases the first waiter, if there is one, and no other. */
  lemma GiveReleases(w: World, m: MutexId)
    requires Known(w) && Enabled(w, GiveOp(m)) && NoDup(w.waiters[m])
    ensures var was, r := w.waiters[m], Step(w, GiveOp(m));
      && r.holder == w.holder[m := Free] && r.tasks.Keys == w.tasks.Keys && r.current == w.current
      && r.waiters == w.waiters[m := if was == [] then [] else was[1..]]
      && (forall t :: t in w.tasks ==> (r.tasks[t].ready <==> w.tasks[t].ready || (was != [] && t == was[0])))
      && (was != [] ==> was[0] !in r.waiters[m])
  {
    hide Disinherit;
    DisinheritFrame(w);
    DisinheritReady(w);
    HeadRemoved(w.waiters[m]);
    assert w.waiters[m] == [] ==> w.waiters[m := []] == w.waiters;
    hide NoDup, Remove;
  }

  lemma DisinheritReady(w: World)
    requires w.current in w.tasks && w.tasks[w.current].held > 0
    ensures forall t :: t in w.tasks ==> t in Disinherit(w).tasks && Disinherit(w).tasks[t].ready == w.tasks[t].ready
  {
  }

  lemma HeadRemoved(s: seq<Task>)
    ensures s != [] ==> Remove(s, s[0]) == s[1..]
    ensures NoDup(s) && s != [] ==> s[0] !in s[1..]
  {
  }

  /** A time-out takes the waiter off the list, ready, the others staying in order. */
  lemma TimeOutReleases(w: World, m: MutexId, t: Task) returns (k: nat)
    requires Known(w) && Enabled(w, TimeOutOp(m, t)) && NoDup(w.waiters[m])
    ensures var was, r := w.waiters[m], Step(w, TimeOutOp(m, t));
      && k < |was| && was[k] == t && r.waiters == w.waiters[m := was[..k] + was[k + 1..]] && t !in r.waiters[m]
      && r.tasks == w.tasks[t := w.tasks[t].(ready := true)] && r.holder == w.holder
  {
    hide NoDup, Remove;
    k := RemoveSplit(w.waiters[m], t);
    RemoveKeeps(w.waiters[m], t);
  }

  // ---------------------------------------------------------------- item values

  /** Every event item holds the value of its task's priority. */
  ghost predicate ValuesOk(w: World) { forall t :: t in w.tasks ==> w.tasks[t].value == ItemValue(w.tasks[t].priority) }

  /** vTaskPrioritySet writes the value of the new base priority, which is that of the
      priority in force exactly if nothing more urgent is inherited. */
  lemma SetPriorityKeepsValuesExactly(w: World, t: Task, p: nat)
    requires Known(w) && ValuesOk(w) && Enabled(w, SetPriorityOp(t, p))
    ensures ValuesOk(Step(w, SetPriorityOp(t, p))) <==>
        w.tasks[t].base == p || w.tasks[t].base == w.tasks[t].priority || w.tasks[t].priority == p
  {
    var r := SetPriority(w, t, p);
    assert t in r.tasks;
  }

  /** No other step does anything of the kind. */
  lemma StepKeepsValues(w: World, op: Op)
    requires Known(w) && ValuesOk(w) && Enabled(w, op) && !op.SetPriorityOp?
    ensures ValuesOk(Step(w, op))
  {
    hide InsertSorted, Remove;
  }

  // ---------------------------------------------------------------- the order, step by step

  /** A waiter waits for one mutex, once, and is not ready. */
  ghost predicate WaitsOnce(w: World) {
    && (forall m :: m in w.waiters ==> NoDup(w.waiters[m]))
    && (forall m, t :: m in w.waiters && t in w.waiters[m] && t in w.tasks ==> !w.tasks[t].ready)
    && (forall m, n, t :: m in w.waiters && n in w.waiters && t in w.waiters[m] && t in w.waiters[n] ==> m == n)
  }

  ghost predicate AllInOrder(w: World)
    requires Known(w)
  {
    forall m :: m in w.waiters ==> WaitersInOrder(w, m)
  }

  /** Wherever t waits the value fits between its neighbours'. */
  ghost predicate Fits(w: World, t: Task, value: int)
    requires Known(w)
  {
    forall m :: m in w.waiters ==> FitsAt(w.waiters[m], ItemValues(w.tasks), t, value)
  }

  predicate WaitsForNone(w: World, t: Task) { forall m :: m in w.waiters ==> t !in w.waiters[m] }

  /** The running task is ready when it calls; nobody makes a waiter ready but the give or
      its time-out; and an item value that is rewritten in place fits. */
  ghost predicate StepFits(w: World, op: Op)
    requires Known(w) && Enabled(w, op)
  {
    match op
    case BlockOp(m) =>
      && w.tasks[w.current].ready
      && (w.tasks[w.holder[m].t].priority < w.tasks[w.current].priority ==>
            Fits(w, w.holder[m].t, ItemValue(w.tasks[w.current].priority)))
    case GiveOp(_) => w.tasks[w.current].ready
    case ReadyOp(t) => WaitsForNone(w, t)
    case SetPriorityOp(t, p) =>
      w.tasks[t].base != p ==>
        (w.tasks[t].base == w.tasks[t].priority || w.tasks[t].priority == p) && Fits(w, t, ItemValue(p))
    case _ => true
  }

  ghost predicate Queues(w: World) { Known(w) && WaitsOnce(w) && AllInOrder(w) && ValuesOk(w) }

  /** Waiters and values untouched. */
  lemma SameOrder(w: World, r: World)
    requires Known(w) && Known(r) && AllInOrder(w) && r.waiters == w.waiters && r.tasks.Keys == w.tasks.Keys
    requires forall t :: t in w.tasks ==> r.tasks[t].value == w.tasks[t].value
    ensures AllInOrder(r)
  {
    hide Sorted;
    assert ItemValues(r.tasks) == ItemValues(w.tasks);
  }

  /** One value rewritten in place. */
  lemma RewrittenInOrder(w: World, r: World, t: Task, value: int)
    requires Known(w) && Known(r) && AllInOrder(w) && WaitsOnce(w) && r.waiters == w.waiters && r.tasks.Keys == w.tasks.Keys
    requires t in w.tasks && r.tasks[t].value == value && Fits(w, t, value)
    requires forall u :: u in w.tasks && u != t ==> r.tasks[u].value == w.tasks[u].value
    ensures AllInOrder(r)
  {
    hide Sorted, NoDup, FitsAt;
    forall m | m in r.waiters ensures WaitersInOrder(r, m) {
      assert WaitersInOrder(w, m);
      RekeyedInOrder(w.waiters[m], ItemValues(w.tasks), ItemValues(r.tasks), t, value);
    }
  }

  /** A task that waits for nothing has a value that fits everywhere. */
  lemma FitsNowhere(w: World, t: Task, value: int)
    requires Known(w) && WaitsForNone(w, t)
    ensures Fits(w, t, value)
  {
  }

  lemma ReadyWaitsForNone(w: World, t: Task)
    requires WaitsOnce(w) && t in w.tasks && w.tasks[t].ready
    ensures WaitsForNone(w, t)
  {
  }

  lemma InheritQueues(w: World, h: Task)
    requires Queues(w) && h in w.tasks
    requires w.tasks[h].priority < w.tasks[w.current].priority ==> Fits(w, h, ItemValue(w.tasks[w.current].priority))
    ensures Queues(Inherit(w, h))
  {
    hide AllInOrder, Fits, NoDup;
    var r := Inherit(w, h);
    if w.tasks[h].priority < w.tasks[w.current].priority {
      RewrittenInOrder(w, r, h, ItemValue(w.tasks[w.current].priority));
    }
  }

  /** The running task joins the waiters of one mutex. */
  lemma JoinQueues(w: World, r: World, m: MutexId)
    requires Queues(w) && Known(r) && m in w.waiters && w.tasks[w.current].ready
    requires r.waiters == w.waiters[m := InsertSorted(w.waiters[m], w.current, ItemValues(w.tasks))]
    requires r.tasks == w.tasks[w.current := w.tasks[w.current].(ready := false)]
    ensures Queues(r)
  {
    hide InsertSorted, AllInOrder, WaitsOnce, NoDup, Sorted;
    ReadyWaitsForNone(w, w.current);
    OneList(w, m);
    InsertSortedKeeps(w.waiters[m], w.current, ItemValues(w.tasks));
    JoinOnce(w, r, m);
    ListInOrder(w, r, m, r.waiters[m]);
  }

  lemma OneList(w: World, m: MutexId)
    requires Known(w) && WaitsOnce(w) && AllInOrder(w) && m in w.waiters
    ensures NoDup(w.waiters[m]) && Sorted(w.waiters[m], ItemValues(w.tasks))
  {
    assert WaitersInOrder(w, m);
    hide NoDup, Sorted;
  }

  /** One mutex has new waiters, in order, and no value changed. */
  lemma ListInOrder(w: World, r: World, m: MutexId, list: seq<Task>)
    requires Known(w) && Known(r) && AllInOrder(w) && m in w.waiters && r.waiters == w.waiters[m := list]
    requires (forall t :: t in list ==> t in w.tasks) && Sorted(list, ItemValues(w.tasks))
    requires r.tasks.Keys == w.tasks.Keys && forall t :: t in w.tasks ==> r.tasks[t].value == w.tasks[t].value
    ensures AllInOrder(r)
  {
    hide Sorted;
    assert ItemValues(r.tasks) == ItemValues(w.tasks);
    forall n | n in r.waiters ensures WaitersInOrder(r, n) {
      if n != m { assert WaitersInOrder(w, n); }
    }
  }

  lemma JoinOnce(w: World, r: World, m: MutexId)
    requires WaitsOnce(w) && m in w.waiters && w.current in w.tasks && WaitsForNone(w, w.current)
    requires r.waiters.Keys == w.waiters.Keys && NoDup(r.waiters[m]) && forall n :: n in w.waiters && n != m ==> r.waiters[n] == w.waiters[n]
    requires forall t :: t in r.waiters[m] <==> t == w.current || t in w.waiters[m]
    requires r.tasks == w.tasks[w.current := w.tasks[w.current].(ready := false)]
    ensures WaitsOnce(r)
  {
    hide NoDup;
  }

  lemma BlockQueues(w: World, m: MutexId)
    requires Queues(w) && Enabled(w, BlockOp(m)) && StepFits(w, BlockOp(m))
    ensures Queues(Step(w, BlockOp(m)))
  {
    hide InsertSorted, WaitsOnce, AllInOrder, ValuesOk, Fits;
    var h := w.holder[m].t;
    InheritQueues(w, h);
    var i := Inherit(w, h);
    BlockKnown(w, m);
    JoinQueues(i, Block(w, m), m);
  }

  lemma BlockKnown(w: World, m: MutexId)
    requires Known(w) && Enabled(w, BlockOp(m))
    ensures Known(Block(w, m)) && var i := Inherit(w, w.holder[m].t);
      i.waiters == w.waiters && i.current == w.current && i.tasks[i.current].ready == w.tasks[w.current].ready
  {
    hide InsertSorted;
  }

  /** A task leaves the waiters of a mutex, ready. */
  lemma ReleaseQueues(w: World, m: MutexId, t: Task)
    requires Queues(w) && m in w.waiters && t in w.waiters[m]
    ensures Queues(Release(w, m, t))
  {
    hide Remove, AllInOrder, WaitsOnce, NoDup, Sorted;
    var r := Release(w, m, t);
    OneList(w, m);
    RemoveKeepsOrder(w.waiters[m], t, ItemValues(w.tasks));
    ReleaseOnce(w, m, t);
    ListInOrder(w, r, m, r.waiters[m]);
  }

  lemma ReleaseOnce(w: World, m: MutexId, t: Task)
    requires Known(w) && WaitsOnce(w) && m in w.waiters && t in w.waiters[m]
    ensures WaitsOnce(Release(w, m, t))
  {
    RemoveKeeps(w.waiters[m], t);
    hide NoDup, Remove;
  }

  lemma GiveQueues(w: World, m: MutexId)
    requires Queues(w) && Enabled(w, GiveOp(m)) && StepFits(w, GiveOp(m))
    ensures Queues(Step(w, GiveOp(m)))
  {
    hide WaitsOnce, AllInOrder, ValuesOk, Fits, Remove;
    DisinheritFrame(w);
    var d := Disinherit(w).(holder := w.holder[m := Free], pressure := w.pressure[m := {}]);
    DisinheritQueues(w, d);
    var r := Give(w, m);
    if w.waiters[m] != [] {
      var t := w.waiters[m][0];
      assert t in w.waiters[m];
      ReleaseQueues(d, m, t);
      Asked(Release(d, m, t), r);
    } else {
      Asked(d, r);
    }
  }

  lemma Asked(w: World, r: World)
    requires Queues(w) && r == w.(asked := r.asked)
    ensures Queues(r)
  {
    SameOrder(w, r);
    hide AllInOrder, NoDup;
  }

  lemma DisinheritQueues(w: World, d: World)
    requires Queues(w) && w.tasks[w.current].held > 0 && w.tasks[w.current].ready
    requires Known(d) && d.tasks == Disinherit(w).tasks && d.waiters == w.waiters && d.current == w.current
    ensures Queues(d)
  {
    hide AllInOrder, Fits, NoDup;
    DisinheritReady(w);
    ReadyWaitsForNone(w, w.current);
    FitsNowhere(w, w.current, d.tasks[w.current].value);
    RewrittenInOrder(w, d, w.current, d.tasks[w.current].value);
  }

  /** Only flags, holders or one task's readiness change. */
  lemma ReadinessQueues(w: World, r: World)
    requires Queues(w) && Known(r) && r.waiters == w.waiters && r.tasks.Keys == w.tasks.Keys
    requires forall t :: t in w.tasks ==>
        r.tasks[t].value == w.tasks[t].value && r.tasks[t].priority == w.tasks[t].priority
        && (r.tasks[t].ready ==> w.tasks[t].ready || WaitsForNone(w, t))
    ensures Queues(r)
  {
    hide AllInOrder, WaitsOnce, WaitsForNone;
    SameOrder(w, r);
    ReadinessOnce(w, r);
  }

  lemma ReadinessOnce(w: World, r: World)
    requires Known(w) && WaitsOnce(w) && r.waiters == w.waiters && r.tasks.Keys == w.tasks.Keys
    requires forall t :: t in w.tasks ==> (r.tasks[t].ready ==> w.tasks[t].ready || WaitsForNone(w, t))
    ensures WaitsOnce(r)
  {
    hide NoDup;
  }

  lemma SetPriorityQueues(w: World, t: Task, p: nat)
    requires Queues(w) && Enabled(w, SetPriorityOp(t, p)) && StepFits(w, SetPriorityOp(t, p))
    ensures Queues(Step(w, SetPriorityOp(t, p)))
  {
    hide AllInOrder, Fits, NoDup;
    var r := SetPriority(w, t, p);
    if w.tasks[t].base != p {
      RewrittenInOrder(w, r, t, ItemValue(p));
    }
  }

  /** Every such step keeps the waiters of every mutex in order of priority. */
  lemma StepQueues(w: World, op: Op)
    requires Queues(w) && Enabled(w, op) && StepFits(w, op)
    ensures Queues(Step(w, op))
  {
    hide WaitsOnce, AllInOrder, ValuesOk, Fits, Block, Give, SetPriority;
    match op
    case TakeOp(m) => ReadinessQueues(w, Take(w, m));
    case BlockOp(m) => BlockQueues(w, m);
    case GiveOp(m) => GiveQueues(w, m);
    case TimeOutOp(m, t) =>
      ReleaseQueues(w, m, t);
      Asked(Release(w, m, t), TimeOut(w, m, t));
    case ReadyOp(t) => ReadinessQueues(w, Ready(w, t));
    case SleepOp => ReadinessQueues(w, Sleep(w));
    case SwitchOp(t) => ReadinessQueues(w, Switch(w, t));
    case SetPriorityOp(t, p) => SetPriorityQueues(w, t, p);
  }

  // ---------------------------------------------------------------- runs

  ghost predicate FitRun(w: World, ops: seq<Op>)
    requires Queues(w)
    decreases |ops|
  {
    ops == [] || (Enabled(w, ops[0]) && StepFits(w, ops[0]) && (StepQueues(w, ops[0]); FitRun(Step(w, ops[0]), ops[1..])))
  }

  function AfterFit(w: World, ops: seq<Op>): World
    requires Queues(w) && FitRun(w, ops)
    decreases |ops|
  {
    if ops == [] then w else StepQueues(w, ops[0]); AfterFit(Step(w, ops[0]), ops[1..])
  }

  lemma {:induction false} RunQueues(w: World, ops: seq<Op>)
    requires Queues(w) && FitRun(w, ops)
    ensures Queues(AfterFit(w, ops))
    decreases |ops|
  {
    hide WaitsOnce, AllInOrder, ValuesOk, Enabled, StepFits, Step;
    if ops != [] {
      StepQueues(w, ops[0]);
      RunQueues(Step(w, ops[0]), ops[1..]);
    }
  }

  /** After any run in which rewritten values fit, a give hands the mutex on to a waiter as
      urgent as any: it is released, it is ready, and no other waiter has a higher priority. */
  lemma MostUrgentIsReleased(w: World, ops: seq<Op>, m: MutexId)
    requires Queues(w) && FitRun(w, ops)
    requires Queues(AfterFit(w, ops)) && Enabled(AfterFit(w, ops), GiveOp(m)) && AfterFit(w, ops).waiters[m] != []
    ensures var r := AfterFit(w, ops); var t, g := r.waiters[m][0], Step(r, GiveOp(m));
      && t in r.tasks && t in g.tasks && g.tasks[t].ready && t !in g.waiters[m] && g.holder[m] == Free
      && (forall u :: u in r.waiters[m] ==> u in r.tasks && r.tasks[u].priority <= r.tasks[t].priority)
      && (forall u :: u in r.waiters[m] && u != t ==> u in g.waiters[m] && !g.tasks[u].ready)
  {
    hide FitRun, AfterFit, NoDup;
    var r := AfterFit(w, ops);
    RunQueues(w, ops);
    GiveReleases(r, m);
    FirstIsUrgent(r, m);
    assert forall u :: u in r.waiters[m] ==> u == r.waiters[m][0] || u in r.waiters[m][1..];
    hide Give;
  }

  lemma FirstIsUrgent(w: World, m: MutexId)
    requires Queues(w) && m in w.waiters && w.waiters[m] != []
    ensures w.waiters[m][0] in w.tasks
    ensures forall u :: u in w.waiters[m] ==> u in w.tasks && w.tasks[u].priority <= w.tasks[w.waiters[m][0]].priority
  {
    assert WaitersInOrder(w, m);
    var s := w.waiters[m];
    forall u | u in s ensures u in w.tasks && w.tasks[u].priority <= w.tasks[s[0]].priority {
      var k :| 0 <= k < |s| && s[k] == u;
      SortedAt(s, ItemValues(w.tasks), 0, k);
    }
    hide Sorted, WaitsOnce;
  }
}
