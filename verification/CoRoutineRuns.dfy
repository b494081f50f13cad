/** Whole runs of the co-routine scheduler: batches of ticks, delays, events from
    interrupts, creations and selections in any order. */
module CoRoutineRuns {
  import opened Tick
  import opened Epochs
  import opened EpochLists
  import opened Lists
  import opened RoundRobin
  import opened CoRoutines

  // ---------------------------------------------------------------- where a co-routine is

  /** Whoever waits for an event, or was readied by one, still waits for its tick too. */
  ghost predicate EventsOk(r: Roster) {
    && NoDup(r.pending)
    && (forall c :: c in r.pending ==> c !in r.event && Waits(r, c))
    && (forall c :: c in r.event ==> Waits(r, c))
  }

  ghost predicate RingsOk(r: Roster) {
    forall p :: p in r.ready ==>
      NoDup(r.ready[p].items) && forall c :: c in r.ready[p].items ==> c in r.priority && r.priority[c] == p
  }

  /** A co-routine is ready or waits, and not both. */
  ghost predicate OnOneList(r: Roster) {
    forall c :: c in r.priority ==> (Waits(r, c) <==> !IsReady(r, c))
  }

  /** uxTopCoRoutineReadyPriority bounds the ready co-routines. */
  ghost predicate TopOk(r: Roster) {
    forall p :: p in r.ready && r.ready[p].items != [] ==> p <= r.top
  }

  ghost predicate Placed(r: Roster) {
    EventsOk(r) && RingsOk(r) && OnOneList(r) && TopOk(r) && r.current in r.priority
  }

  ghost predicate Ok(r: Roster) { RosterOk(r) && Placed(r) }

  /** c joined its ready list. */
  ghost predicate JoinedReady(r: Roster, s: Roster, c: CoRoutine) {
    && s.priority == r.priority && c in r.priority && r.priority[c] in r.ready
    && r.ready[r.priority[c]].index <= |r.ready[r.priority[c]].items|
    && s.ready == r.ready[r.priority[c] := InsertEnd(r.ready[r.priority[c]], c)]
    && s.top == (if r.priority[c] > r.top then r.priority[c] else r.top)
  }

  /** c went from where it waited to its ready list. */
  ghost predicate Readied(r: Roster, s: Roster, c: CoRoutine) {
    JoinedReady(r, s, c) && Waits(r, c) && forall u :: Waits(s, u) <==> Waits(r, u) && u != c
  }

  lemma ReadiedPlaced(r: Roster, s: Roster, c: CoRoutine)
    requires RingsOk(r) && OnOneList(r) && TopOk(r) && Readied(r, s, c)
    ensures RingsOk(s) && OnOneList(s) && TopOk(s)
  {
    hide IsReady, Waits, RingsOk, TopOk;
    JoinedKeeps(r, s, c);
  }

  lemma JoinedKeeps(r: Roster, s: Roster, c: CoRoutine)
    requires RingsOk(r) && TopOk(r) && JoinedReady(r, s, c) && !IsReady(r, c)
    ensures RingsOk(s) && TopOk(s) && forall u :: IsReady(s, u) <==> u == c || IsReady(r, u)
  {
    hide RingsOk;
    RingAt(r, r.priority[c]);
    RoundRobin.InsertEndKeeps(r.ready[r.priority[c]], c);
    forall p | p in s.ready
      ensures NoDup(s.ready[p].items) && forall u :: u in s.ready[p].items ==> u in s.priority && s.priority[u] == p
    {
      RingAt(r, p);
    }
    RingsAre(s);
    hide InsertEnd;
  }

  lemma RingAt(r: Roster, p: nat)
    requires RingsOk(r) && p in r.ready
    ensures NoDup(r.ready[p].items) && forall u :: u in r.ready[p].items ==> u in r.priority && r.priority[u] == p
  {
  }

  lemma RingsAre(r: Roster)
    requires forall p :: p in r.ready ==>
      NoDup(r.ready[p].items) && forall c :: c in r.ready[p].items ==> c in r.priority && r.priority[c] == p
    ensures RingsOk(r)
  {
  }

  // ---------------------------------------------------------------- every operation keeps it

  lemma WakeHeadPlaced(r: Roster)
    requires Formed(r) && ListsOk(r) && r.delayed != [] && Placed(r)
    ensures Placed(WakeHead(r)) && WakeHead(r).event <= r.event
    ensures forall c :: c in WakeHead(r).pending ==> c in r.pending
  {
    hide RingsOk, OnOneList, TopOk, InsertEnd;
    WakeHeadReadies(r);
    ReadiedPlaced(r, WakeHead(r), r.delayed[0]);
    RemoveKeeps(r.pending, r.delayed[0]);
  }

  lemma WakeHeadReadies(r: Roster)
    requires Formed(r) && ListsOk(r) && r.delayed != []
    ensures Readied(r, WakeHead(r), r.delayed[0])
  {
    var c := r.delayed[0];
    assert c !in r.delayed[1..] && c !in r.overflow;
    assert forall u :: u in r.delayed <==> u == c || u in r.delayed[1..];
    hide Sorted, InsertEnd;
  }

  lemma {:induction false} WakeHeadsPlaced(r: Roster)
    requires Formed(r) && ListsOk(r) && NotLate(r) && Placed(r)
    ensures var s := WakeHeads(r); Placed(s) && s.event <= r.event && forall c :: c in s.pending ==> c in r.pending
    decreases |r.delayed|
  {
    hide Formed, ListsOk, NotLate, Placed, WakeHead;
    if r.delayed != [] {
      HeadKnown(r);
      if r.count.tick >= r.due[r.delayed[0]].tick {
        WakeHeadForms(r);
        WakeHeadKeeps(r);
        WakeHeadPlaced(r);
        WakeHeadShortens(r);
        WakeHeadsPlaced(WakeHead(r));
      }
    }
  }

  lemma WakeHeadShortens(r: Roster)
    requires Formed(r) && r.delayed != []
    ensures |WakeHead(r).delayed| == |r.delayed| - 1
  {
  }

  /** What only renames the lists or moves the clock. */
  lemma SamePlaces(r: Roster, s: Roster)
    requires Placed(r) && s.ready == r.ready && s.priority == r.priority && s.top == r.top && s.current == r.current
    requires s.event == r.event && s.pending == r.pending && forall c :: Waits(s, c) <==> Waits(r, c)
    ensures Placed(s)
  {
    hide Waits;
  }

  lemma OneTickPlaced(r: Roster)
    requires RosterOk(r) && Placed(r)
    ensures Formed(r)
    ensures var s := OneTick(r); Placed(s) && s.event <= r.event && forall c :: c in s.pending ==> c in r.pending
  {
    hide RosterOk, Formed, ListsOk, NotLate, Placed, Waits;
    RosterForms(r);
    IncrementKeeps(r);
    SamePlaces(r, Increment(r));
    WakeHeadsPlaced(Increment(r));
  }

  lemma {:induction false} CatchUpPlaced(r: Roster, passed: nat)
    requires RosterOk(r) && Placed(r)
    ensures Formed(r)
    ensures var s := CatchUp(r, passed); Placed(s) && s.event <= r.event && forall c :: c in s.pending ==> c in r.pending
    decreases passed
  {
    hide RosterOk, Formed, Placed, OneTick, Served;
    RosterForms(r);
    if passed > 0 {
      OneTickServes(r, 0);
      OneTickPlaced(r);
      CatchUpPlaced(OneTick(r), passed - 1);
    }
  }

  lemma DelayPlaced(r: Roster, c: CoRoutine, ticks: nat, onEvent: bool)
    requires Ok(r) && IsReady(r, c) && !Waits(r, c) && 0 < ticks < M
    ensures Formed(r) && Placed(DelayFor(r, c, ticks, onEvent))
    ensures forall u :: u != c ==> (IsReady(DelayFor(r, c, ticks, onEvent), u) <==> IsReady(r, u))
  {
    hide RosterOk, RingsOk, TopOk, Abs, Waits, Formed, RemoveItem;
    RosterForms(r);
    DelayKeeps(r, c, ticks, onEvent);
    DelayFrame(r, c, ticks, onEvent);
    var s := DelayFor(r, c, ticks, onEvent);
    hide DelayFor;
    LessRings(r, s, c);
    forall u ensures IsReady(s, u) <==> IsReady(r, u) && u != c { LessReady(r, s, c, u); }
    hide IsReady;
  }

  lemma DelayFrame(r: Roster, c: CoRoutine, ticks: nat, onEvent: bool)
    requires Formed(r) && IsReady(r, c) && ticks < M
    ensures var s := DelayFor(r, c, ticks, onEvent);
      && s.event == (if onEvent then r.event + {c} else r.event) && s.pending == r.pending
      && s.ready == r.ready[r.priority[c] := RemoveItem(r.ready[r.priority[c]], c)]
      && s.priority == r.priority && s.top == r.top
      && r.ready[r.priority[c]].index <= |r.ready[r.priority[c]].items|
  {
    hide InsertSorted, RemoveItem;
  }

  lemma LessReady(r: Roster, s: Roster, c: CoRoutine, u: CoRoutine)
    requires RingsOk(r) && IsReady(r, c) && r.ready[r.priority[c]].index <= |r.ready[r.priority[c]].items|
    requires s.priority == r.priority && s.ready == r.ready[r.priority[c] := RemoveItem(r.ready[r.priority[c]], c)]
    ensures IsReady(s, u) <==> IsReady(r, u) && u != c
  {
    hide RingsOk, RemoveItem;
    RingAt(r, r.priority[c]);
    RemoveItemKeeps(r.ready[r.priority[c]], c);
  }

  lemma LessRings(r: Roster, s: Roster, c: CoRoutine)
    requires RingsOk(r) && TopOk(r) && IsReady(r, c) && r.ready[r.priority[c]].index <= |r.ready[r.priority[c]].items|
    requires s.priority == r.priority && s.ready == r.ready[r.priority[c] := RemoveItem(r.ready[r.priority[c]], c)]
    requires s.top == r.top
    ensures RingsOk(s) && TopOk(s)
  {
    hide RingsOk, RemoveItem;
    RingAt(r, r.priority[c]);
    RemoveItemKeeps(r.ready[r.priority[c]], c);
    forall p | p in s.ready
      ensures NoDup(s.ready[p].items) && forall u :: u in s.ready[p].items ==> u in s.priority && s.priority[u] == p
    {
      RingAt(r, p);
    }
    RingsAre(s);
  }

  lemma EventKeeps(r: Roster, c: CoRoutine)
    requires Ok(r) && c in r.event
    ensures Ok(EventOccurs(r, c))
  {
    hide ListsOk, NotDue, Formed, RingsOk, IsReady, Waits;
    var s := EventOccurs(r, c);
    EventForms(r, c);
    SameLists(r, s);
    SameItems(r, s);
  }

  lemma ReadyPendingPlaced(r: Roster)
    requires Ok(r) && r.pending != []
    ensures r.pending[0] in r.priority && Formed(r) && Placed(ReadyPending(r))
  {
    hide RosterOk, Formed, RingsOk, OnOneList, TopOk, ReadyPending, Readied, Waits, IsReady, WakesOf;
    PendingKnown(r);
    ReadyPendingKeeps(r);
    ReadyPendingReadies(r);
    ReadiedPlaced(r, ReadyPending(r), r.pending[0]);
    ReadyPendingFrame(r);
  }

  lemma PendingKnown(r: Roster)
    requires Ok(r) && r.pending != []
    ensures r.pending[0] in r.priority && Waits(r, r.pending[0]) && Formed(r)
  {
    assert r.pending[0] in r.pending;
  }

  lemma ReadyPendingFrame(r: Roster)
    requires Formed(r) && r.pending != [] && r.pending[0] in r.priority
    ensures ReadyPending(r).event == r.event && ReadyPending(r).pending == r.pending[1..] && ReadyPending(r).current == r.current
  {
    hide Formed;
  }

  lemma ReadyPendingReadies(r: Roster)
    requires RosterOk(r) && r.pending != [] && r.pending[0] in r.priority && Waits(r, r.pending[0])
    ensures Readied(r, ReadyPending(r), r.pending[0])
  {
    ReadyPendingKeeps(r);
    PendingForms(r);
    hide RosterOk, WakesOf, Remove, IsReady, InsertEnd;
  }

  /** prvCheckPendingReadyList */
  function DrainPending(r: Roster): Roster
    requires Ok(r)
    decreases |r.pending|
  {
    if r.pending == [] then r
    else
      ReadyPendingOk(r);
      DrainPending(ReadyPending(r))
  }

  lemma ReadyPendingOk(r: Roster)
    requires Ok(r) && r.pending != []
    ensures r.pending[0] in r.priority && Formed(r) && Ok(ReadyPending(r))
    ensures ReadyPending(r).event == r.event && ReadyPending(r).pending == r.pending[1..]
  {
    hide RosterOk, Placed, ReadyPending, Waits, IsReady, WakesOf;
    OkParts(r);
    PendingKnown(r);
    ReadyPendingKeeps(r);
    ReadyPendingPlaced(r);
    ReadyPendingFrame(r);
  }

  lemma OkParts(r: Roster)
    requires Ok(r)
    ensures RosterOk(r) && Placed(r) && Formed(r)
  {
  }

  /** The loop makes exactly the pending co-routines ready, each by one event. */
  lemma {:induction false} DrainPendingServes(r: Roster, c: CoRoutine)
    requires Ok(r)
    ensures var s := DrainPending(r);
      && Ok(s) && s.pending == [] && s.event == r.event && s.count == r.count && s.due == r.due && s.priority == r.priority
      && (Waits(s, c) <==> Waits(r, c) && c !in r.pending) && (IsReady(s, c) <==> IsReady(r, c) || c in r.pending)
      && WakesOf(s.log, c) == WakesOf(r.log, c) + if c in r.pending then [Wake(c, r.count, true)] else []
    decreases |r.pending|
  {
    hide RosterOk, Placed, ReadyPending, Waits, IsReady, WakesOf;
    if r.pending != [] {
      PendingOnce(r, c);
      PendingKnown(r);
      ReadyPendingKeeps(r);
      ReadyPendingOk(r);
      DrainPendingServes(ReadyPending(r), c);
    }
  }

  lemma PendingOnce(r: Roster, c: CoRoutine)
    requires Ok(r) && r.pending != []
    ensures RosterOk(r) && (c in r.pending <==> c == r.pending[0] || c in r.pending[1..]) && r.pending[0] !in r.pending[1..]
  {
  }

  lemma CreateKeeps(r: Roster, c: CoRoutine, priority: nat)
    requires Ok(r) && c !in r.priority
    ensures Formed(r) && Ok(AddNew(r, c, priority))
    ensures var s := AddNew(r, c, priority);
      && s.count == r.count && s.log == r.log && s.due == r.due && s.event == r.event && s.pending == r.pending
      && (forall u :: Waits(s, u) <==> Waits(r, u)) && (forall u :: IsReady(s, u) <==> u == c || IsReady(r, u))
      && c in s.priority && s.priority == r.priority[c := s.priority[c]] && s.current == r.current
      && s.priority[c] == if priority < MAX_CO_ROUTINE_PRIORITIES then priority else MAX_CO_ROUTINE_PRIORITIES - 1
  {
    hide Formed, ListsOk, NotDue, RingsOk, TopOk, IsReady, Waits, InsertEnd;
    CreateForms(r, c, priority);
    var s := AddNew(r, c, priority);
    SameLists(r, s);
    var m := r.(priority := s.priority);
    NewKeeps(r, m, c);
    JoinedKeeps(m, s, c);
    hide AddNew, AddReady;
  }

  lemma CreateForms(r: Roster, c: CoRoutine, priority: nat)
    requires Formed(r) && c !in r.priority
    ensures Formed(AddNew(r, c, priority)) && !Waits(r, c)
    ensures var s := AddNew(r, c, priority); JoinedReady(r.(priority := s.priority), s, c)
    ensures var s := AddNew(r, c, priority); s.priority.Keys == r.priority.Keys + {c} && forall u :: u in r.priority ==> s.priority[u] == r.priority[u]
  {
  }

  lemma SameLists(r: Roster, s: Roster)
    requires ListsOk(r) && NotDue(r)
    requires s.delayed == r.delayed && s.overflow == r.overflow && s.due == r.due && s.count == r.count
    ensures ListsOk(s) && NotDue(s) && forall c :: Waits(s, c) <==> Waits(r, c)
  {
    hide ListOk;
  }

  /** A co-routine that is new is on no ready list. */
  lemma NewKeeps(r: Roster, m: Roster, c: CoRoutine)
    requires RingsOk(r) && TopOk(r) && c !in r.priority && m == r.(priority := m.priority)
    requires m.priority.Keys == r.priority.Keys + {c} && forall u :: u in r.priority ==> m.priority[u] == r.priority[u]
    ensures RingsOk(m) && TopOk(m) && !IsReady(m, c) && forall u :: u != c ==> (IsReady(m, u) <==> IsReady(r, u))
  {
  }

  lemma SelectKeeps(r: Roster)
    requires Ok(r)
    ensures Formed(r) && Ok(SelectNext(r))
    ensures var s := SelectNext(r);
      && s.count == r.count && s.log == r.log && s.due == r.due && s.event == r.event && s.pending == r.pending
      && forall u :: (Waits(s, u) <==> Waits(r, u)) && (IsReady(s, u) <==> IsReady(r, u))
  {
    hide ListsOk, NotDue, RingsOk, TopOk, IsReady, Waits, Highest;
    SelectForms(r);
    var s := SelectNext(r);
    SameLists(r, s);
    SelectTop(r);
    SameItems(r, s);
    hide SelectNext, Formed;
  }

  lemma SelectForms(r: Roster)
    requires Formed(r)
    ensures var s := SelectNext(r);
      && Formed(s) && s.priority == r.priority && s.ready.Keys == r.ready.Keys
      && forall p :: p in r.ready ==> s.ready[p].items == r.ready[p].items
  {
    HighestBelow(r, r.top);
    hide Highest;
  }

  lemma SelectTop(r: Roster)
    requires Formed(r) && TopOk(r)
    ensures TopOk(SelectNext(r))
  {
    HighestBelow(r, r.top);
    hide Highest;
  }

  lemma SameItems(r: Roster, s: Roster)
    requires s.priority == r.priority && s.ready.Keys == r.ready.Keys
    requires forall p :: p in r.ready ==> s.ready[p].items == r.ready[p].items
    ensures RingsOk(r) ==> RingsOk(s)
    ensures forall u :: IsReady(s, u) <==> IsReady(r, u)
  {
  }

  /** The co-routine that is called is ready and none that is ready is more urgent. */
  lemma SelectRight(r: Roster)
    requires Ok(r)
    ensures Formed(r)
    ensures var s := SelectNext(r);
      if exists c :: IsReady(r, c) then
        IsReady(s, s.current) && forall c :: IsReady(r, c) ==> r.priority[c] <= s.priority[s.current]
      else s.current == r.current
  {
    hide ListsOk, NotDue, EventsOk, OnOneList, Highest;
    var p := Highest(r, r.top);
    HighestBelow(r, r.top);
    forall c | IsReady(r, c) ensures r.priority[c] <= p && r.ready[p].items != [] {
      assert r.priority[c] <= r.top;
    }
    if r.ready[p].items != [] {
      var c := Selected(Advance(r.ready[p]));
      assert c in r.ready[p].items;
      assert IsReady(r, c);
    }
  }

  // ---------------------------------------------------------------- runs

  datatype Op =
    | Clock(passed: nat)                                   // prvCheckDelayedList finds so many ticks gone
    | Delay(c: CoRoutine, ticks: nat, onEvent: bool)       // by the co-routine that runs
    | Event(c: CoRoutine)                                  // an interrupt finds it at the head of an event list
    | CheckPending                                         // one turn of prvCheckPendingReadyList
    | Create(c: CoRoutine, priority: nat)
    | Select

  predicate Enabled(r: Roster, op: Op) {
    match op
    case Clock(_) => true
    case Delay(c, ticks, _) => c == r.current && IsReady(r, c) && 0 < ticks < M
    case Event(c) => c in r.event
    case CheckPending => r.pending != []
    case Create(c, _) => c !in r.priority
    case Select => true
  }

  lemma OkFacts(r: Roster)
    requires Ok(r)
    ensures RosterOk(r) && Formed(r) && (r.pending != [] ==> r.pending[0] in r.priority && Waits(r, r.pending[0]))
    ensures forall c :: IsReady(r, c) ==> !Waits(r, c)
  {
    if r.pending != [] { PendingKnown(r); }
    hide ListsOk, NotDue, Waits;
  }

  function Step(r: Roster, op: Op): Roster
    requires Ok(r) && Enabled(r, op)
  {
    OkFacts(r);
    match op
    case Clock(passed) => CatchUp(r, passed)
    case Delay(c, ticks, onEvent) => DelayFor(r, c, ticks, onEvent)
    case Event(c) => EventOccurs(r, c)
    case CheckPending => ReadyPending(r)
    case Create(c, priority) => AddNew(r, c, priority)
    case Select => SelectNext(r)
  }

  /** Every operation keeps both delayed lists epoch-pure and in order, every co-routine
      either ready or waiting, and the event lists to those that wait. */
  lemma StepKeeps(r: Roster, op: Op)
    requires Ok(r) && Enabled(r, op)
    ensures Ok(Step(r, op))
  {
    hide RosterOk, EventsOk, RingsOk, OnOneList, TopOk, Served, IsReady, Waits, Abs;
    OkFacts(r);
    match op
    case Clock(passed) => CatchUpServes(r, passed, 0); CatchUpPlaced(r, passed);
    case Delay(c, ticks, onEvent) => DelayKeeps(r, c, ticks, onEvent); DelayPlaced(r, c, ticks, onEvent);
    case Event(c) => EventKeeps(r, c);
    case CheckPending => ReadyPendingKeeps(r); ReadyPendingPlaced(r);
    case Create(c, priority) => CreateKeeps(r, c, priority);
    case Select => SelectKeeps(r);
  }

  ghost predicate CanRun(r: Roster, ops: seq<Op>)
    requires Ok(r)
    decreases |ops|
  {
    ops == [] || (Enabled(r, ops[0]) && (StepKeeps(r, ops[0]); CanRun(Step(r, ops[0]), ops[1..])))
  }

  function After(r: Roster, ops: seq<Op>): Roster
    requires Ok(r) && CanRun(r, ops)
    decreases |ops|
  {
    if ops == [] then r else StepKeeps(r, ops[0]); After(Step(r, ops[0]), ops[1..])
  }

  /** The state after the first co-routine was created. */
  function Boot(c: CoRoutine, priority: nat): Roster
    requires MAX_CO_ROUTINE_PRIORITIES > 0
  {
    var p := if priority >= MAX_CO_ROUTINE_PRIORITIES then MAX_CO_ROUTINE_PRIORITIES - 1 else priority;
    Roster(Stamp(0, 0), [], [], map[], map[c := p],
           FirstLists(MAX_CO_ROUTINE_PRIORITIES)[p := Ring([c], 0)], p, c, {}, [], [])
  }

  /** prvInitialiseCoRoutineLists */
  function FirstLists(n: nat): (lists: map<nat, Ring<CoRoutine>>)
    ensures forall p: nat :: p in lists <==> p < n
    ensures forall p :: p in lists ==> lists[p] == Ring([], 0)
  {
    if n == 0 then map[] else FirstLists(n - 1)[n - 1 := Ring([], 0)]
  }

  lemma BootOk(c: CoRoutine, priority: nat)
    requires MAX_CO_ROUTINE_PRIORITIES > 0
    ensures Ok(Boot(c, priority))
  {
  }

  // ---------------------------------------------------------------- what a run does to one co-routine

  predicate Delays(op: Op, c: CoRoutine) { op.Delay? && op.c == c }

  ghost predicate StillWaits(r: Roster, s: Roster, c: CoRoutine) {
    && Waits(s, c) && WakesOf(s.log, c) == WakesOf(r.log, c)
    && c in r.due && c in s.due && s.due[c] == r.due[c]
    && (c in s.event ==> c in r.event)
  }

  ghost predicate TimedOut(r: Roster, s: Roster, c: CoRoutine) {
    && !Waits(s, c) && IsReady(s, c)
    && c in r.due && NotAfter(r.due[c], s.count) && WakesOf(s.log, c) == WakesOf(r.log, c) + [Wake(c, r.due[c], false)]
  }

  /** Readied by an event before its own tick came. */
  ghost predicate EventFirst(r: Roster, s: Roster, c: CoRoutine, at: Time) {
    && !Waits(s, c) && IsReady(s, c)
    && c in r.due && NotAfter(r.count, at) && NotAfter(at, s.count) && !NotAfter(r.due[c], at)
    && WakesOf(s.log, c) == WakesOf(r.log, c) + [Wake(c, at, true)]
  }

  ghost predicate StaysOff(r: Roster, s: Roster, c: CoRoutine) {
    !Waits(s, c) && WakesOf(s.log, c) == WakesOf(r.log, c) && (IsReady(r, c) ==> IsReady(s, c))
  }

  /** One step, seen by a co-routine that does not delay itself in it. */
  ghost predicate StepFate(r: Roster, s: Roster, op: Op, c: CoRoutine) {
    && NotAfter(r.count, s.count)
    && if Waits(r, c) then
         || (StillWaits(r, s, c) && (c in s.pending ==> c in r.pending || (op == Event(c) && c in r.event)))
         || TimedOut(r, s, c)
         || (EventFirst(r, s, c, r.count) && c in r.pending)
       else StaysOff(r, s, c)
  }

  /** Who waits is not yet due. */
  lemma WaitsNotDue(r: Roster, c: CoRoutine)
    requires RosterOk(r) && Waits(r, c)
    ensures c in r.due && !NotAfter(r.due[c], r.count)
  {
  }

  lemma StepServes(r: Roster, op: Op, c: CoRoutine)
    requires Ok(r) && Enabled(r, op) && !Delays(op, c)
    ensures StepFate(r, Step(r, op), op, c)
  {
    hide RosterOk, EventsOk, RingsOk, OnOneList, TopOk, Waits, WakesOf, NotAfter, IsReady, Abs;
    OkFacts(r);
    NotAfterIsAbs(r.count, r.count);
    if Waits(r, c) { WaitsNotDue(r, c); }
    match op
    case Clock(passed) => ClockServes(r, passed, c);
    case Delay(u, ticks, onEvent) => DelayServes(r, u, ticks, onEvent, c);
    case Event(u) => EventServes(r, u, c);
    case CheckPending => ReadyPendingKeeps(r); ReadyPendingFrame(r);
    case Create(u, priority) => CreateKeeps(r, u, priority);
    case Select => SelectKeeps(r);
  }

  lemma ClockServes(r: Roster, passed: nat, c: CoRoutine)
    requires Ok(r)
    ensures StepFate(r, Step(r, Clock(passed)), Clock(passed), c)
  {
    hide RosterOk, EventsOk, RingsOk, OnOneList, TopOk, Waits, WakesOf, NotAfter, IsReady, Abs;
    OkFacts(r);
    CatchUpServes(r, passed, c);
    CatchUpPlaced(r, passed);
    var s := CatchUp(r, passed);
    NotAfterIsAbs(r.count, s.count);
    if Waits(r, c) { WaitsNotDue(r, c); }
  }

  lemma DelayServes(r: Roster, u: CoRoutine, ticks: nat, onEvent: bool, c: CoRoutine)
    requires Ok(r) && Enabled(r, Delay(u, ticks, onEvent)) && u != c
    ensures StepFate(r, Step(r, Delay(u, ticks, onEvent)), Delay(u, ticks, onEvent), c)
  {
    hide RosterOk, EventsOk, RingsOk, OnOneList, TopOk, Waits, WakesOf, NotAfter, IsReady, Abs;
    OkFacts(r);
    DelayKeeps(r, u, ticks, onEvent);
    DelayPlaced(r, u, ticks, onEvent);
    DelayFrame(r, u, ticks, onEvent);
    NotAfterIsAbs(r.count, r.count);
    if Waits(r, c) { WaitsNotDue(r, c); }
  }

  lemma EventServes(r: Roster, u: CoRoutine, c: CoRoutine)
    requires Ok(r) && u in r.event
    ensures StepFate(r, Step(r, Event(u)), Event(u), c)
  {
    hide RosterOk, EventsOk, RingsOk, OnOneList, TopOk, WakesOf, NotAfter, Abs;
    OkFacts(r);
    NotAfterIsAbs(r.count, r.count);
    if Waits(r, c) { WaitsNotDue(r, c); }
  }

  ghost predicate NoDelayBy(ops: seq<Op>, c: CoRoutine) { forall i :: 0 <= i < |ops| ==> !Delays(ops[i], c) }

  lemma {:induction false} StaysOffAlong(r: Roster, ops: seq<Op>, c: CoRoutine)
    requires Ok(r) && CanRun(r, ops) && NoDelayBy(ops, c) && !Waits(r, c)
    ensures StaysOff(r, After(r, ops), c) && NotAfter(r.count, After(r, ops).count)
    decreases |ops|
  {
    hide Ok, Enabled, Step, Waits, WakesOf, IsReady, Delays;
    if ops != [] {
      StepKeeps(r, ops[0]);
      StepServes(r, ops[0], c);
      StaysOffAlong(Step(r, ops[0]), ops[1..], c);
    }
  }

  /** What has become of a co-routine that waited at r. */
  ghost predicate Fate(r: Roster, s: Roster, ops: seq<Op>, c: CoRoutine) {
    || StillWaits(r, s, c)
    || TimedOut(r, s, c)
    || ((c in r.pending || (c in r.event && Event(c) in ops)) && exists at :: EventFirst(r, s, c, at))
  }

  lemma {:induction false} RunServes(r: Roster, ops: seq<Op>, c: CoRoutine)
    requires Ok(r) && CanRun(r, ops) && NoDelayBy(ops, c) && Waits(r, c)
    ensures Fate(r, After(r, ops), ops, c) && NotAfter(r.count, After(r, ops).count)
    decreases |ops|
  {
    hide Ok, Enabled, Step, Waits, WakesOf, IsReady, Delays, StillWaits, TimedOut, EventFirst, StaysOff, NotAfter;
    if ops == [] {
      WaitsAtFirst(r, c);
    } else {
      var op := ops[0];
      StepKeeps(r, op);
      StepServes(r, op, c);
      var m := Step(r, op);
      if Waits(m, c) {
        RunServes(m, ops[1..], c);
        FateOn(r, m, After(m, ops[1..]), ops, c);
      } else {
        StaysOffAlong(m, ops[1..], c);
        FateDone(r, m, After(m, ops[1..]), ops, c);
      }
    }
  }

  lemma WaitsAtFirst(r: Roster, c: CoRoutine)
    requires Ok(r) && Waits(r, c)
    ensures StillWaits(r, r, c) && NotAfter(r.count, r.count)
  {
  }

  lemma FateOn(r: Roster, m: Roster, s: Roster, ops: seq<Op>, c: CoRoutine)
    requires ops != [] && Waits(r, c) && Waits(m, c)
    requires StepFate(r, m, ops[0], c) && Fate(m, s, ops[1..], c) && NotAfter(m.count, s.count)
    ensures Fate(r, s, ops, c) && NotAfter(r.count, s.count)
  {
    hide Waits, WakesOf, IsReady;
    if at :| EventFirst(m, s, c, at) {
      assert EventFirst(r, s, c, at);
    }
  }

  lemma FateDone(r: Roster, m: Roster, s: Roster, ops: seq<Op>, c: CoRoutine)
    requires ops != [] && Waits(r, c) && !Waits(m, c)
    requires StepFate(r, m, ops[0], c) && StaysOff(m, s, c) && NotAfter(m.count, s.count)
    ensures Fate(r, s, ops, c) && NotAfter(r.count, s.count)
  {
    hide Waits, WakesOf, IsReady;
    if EventFirst(r, m, c, r.count) && c in r.pending {
      assert EventFirst(r, s, c, r.count);
    }
  }

  /** A co-routine that delays itself n ticks at t, whatever the batches the clock
      advances in, whoever else delays itself, and whatever events come: up to its next
      delay it is either still waiting and t + n has not come; or was made ready once, by
      the clock, at exactly t + n; or was made ready once, by an event it waited for,
      before t + n. */
  lemma DelayIsExact(r: Roster, c: CoRoutine, ticks: nat, onEvent: bool, ops: seq<Op>)
    requires Ok(r) && Enabled(r, Delay(c, ticks, onEvent))
    requires Ok(Step(r, Delay(c, ticks, onEvent))) && CanRun(Step(r, Delay(c, ticks, onEvent)), ops) && NoDelayBy(ops, c)
    ensures var s := After(Step(r, Delay(c, ticks, onEvent)), ops);
      || (Waits(s, c) && !IsReady(s, c) && Abs(s.count) < Abs(r.count) + ticks && WakesOf(s.log, c) == WakesOf(r.log, c))
      || (!Waits(s, c) && IsReady(s, c) && Abs(s.count) >= Abs(r.count) + ticks
          && WakesOf(s.log, c) == WakesOf(r.log, c) + [Wake(c, Later(r.count, ticks), false)])
      || (!Waits(s, c) && IsReady(s, c) && onEvent && Event(c) in ops
          && exists at :: Abs(r.count) <= Abs(at) < Abs(r.count) + ticks
               && WakesOf(s.log, c) == WakesOf(r.log, c) + [Wake(c, at, true)])
  {
    hide RosterOk, EventsOk, RingsOk, OnOneList, TopOk, Waits, WakesOf, IsReady, Abs, NotAfter, CanRun, After, Later;
    OkFacts(r);
    NotPending(r, c);
    DelayKeeps(r, c, ticks, onEvent);
    DelayFrame(r, c, ticks, onEvent);
    var d := Step(r, Delay(c, ticks, onEvent));
    hide DelayFor;
    RunServes(d, ops, c);
    var s := After(d, ops);
    RunKeeps(d, ops);
    NotAfterIsAbs(d.due[c], s.count);
    if StillWaits(d, s, c) {
      WaitsNotDue(s, c);
      OkFacts(s);
    } else if at :| EventFirst(d, s, c, at) {
      NotAfterIsAbs(d.count, at);
      NotAfterIsAbs(d.due[c], at);
    }
  }

  lemma NotPending(r: Roster, c: CoRoutine)
    requires Ok(r) && IsReady(r, c)
    ensures c !in r.pending && c !in r.event
  {
    OkFacts(r);
    hide RosterOk, IsReady, Waits, OnOneList, RingsOk, TopOk;
  }

  lemma {:induction false} RunKeeps(r: Roster, ops: seq<Op>)
    requires Ok(r) && CanRun(r, ops)
    ensures Ok(After(r, ops))
    decreases |ops|
  {
    hide Ok, Enabled, Step;
    if ops != [] {
      StepKeeps(r, ops[0]);
      RunKeeps(Step(r, ops[0]), ops[1..]);
    }
  }
}
