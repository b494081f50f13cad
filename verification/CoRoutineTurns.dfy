/** Co-routines of the same priority take turns, and those that events ready join in the
    order of the events. */
module CoRoutineTurns {
  import opened Tick
  import opened Epochs
  import opened EpochLists
  import opened Lists
  import opened RoundRobin
  import opened CoRoutines
  import CoRoutineRuns

  type Rings = map<nat, Ring<CoRoutine>>

  ghost predicate At(r: Roster, p: nat, c: CoRoutine) { c in r.priority && r.priority[c] == p && IsReady(r, c) }

  /** c is still on the ready list of priority p, and no further from its turn. */
  ghost predicate Kept(a: Rings, b: Rings, p: nat, c: CoRoutine) {
    && p in a && p in b && Valid(a[p]) && Valid(b[p]) && c in a[p].items && c in b[p].items
    && NoFurther(b[p], a[p], c)
  }

  lemma InPlace(r: Roster, p: nat, c: CoRoutine)
    requires CoRoutineRuns.Ok(r) && At(r, p, c)
    ensures p in r.ready && Valid(r.ready[p]) && c in r.ready[p].items
  {
    hide ListsOk, NotDue, CoRoutineRuns.EventsOk, CoRoutineRuns.OnOneList, CoRoutineRuns.TopOk;
  }

  lemma KeptSame(r: Roster, s: Roster, p: nat, c: CoRoutine)
    requires p in r.ready && Valid(r.ready[p]) && c in r.ready[p].items && p in s.ready && s.ready[p] == r.ready[p]
    ensures Kept(r.ready, s.ready, p, c)
  {
  }

  lemma KeptTwice(a: Rings, b: Rings, d: Rings, p: nat, c: CoRoutine)
    requires Kept(a, b, p, c) && Kept(b, d, p, c)
    ensures Kept(a, d, p, c)
  {
    NoFurtherTwice(d[p], b[p], a[p], c);
    hide NoFurther, Valid;
  }

  /** Somebody else joined a ready list. */
  lemma JoinKept(r: Roster, s: Roster, u: CoRoutine, p: nat, c: CoRoutine)
    requires CoRoutineRuns.RingsOk(r) && CoRoutineRuns.JoinedReady(r, s, u) && !IsReady(r, u)
    requires p in r.ready && Valid(r.ready[p]) && c in r.ready[p].items
    ensures Kept(r.ready, s.ready, p, c)
  {
    hide InsertEnd, CoRoutineRuns.RingsOk, NoFurther;
    if r.priority[u] == p {
      InsertEndNoFurther(r.ready[p], c, u);
      RoundRobin.InsertEndKeeps(r.ready[p], u);
    } else {
      NotMoved(r.ready[p], c);
    }
  }

  lemma NotMoved(l: Ring<CoRoutine>, c: CoRoutine)
    requires Valid(l) && c in l.items
    ensures NoFurther(l, l, c)
  {
  }

  lemma {:induction false} WakeHeadsKept(r: Roster, p: nat, c: CoRoutine)
    requires Formed(r) && ListsOk(r) && NotLate(r) && CoRoutineRuns.Placed(r)
    requires p in r.ready && Valid(r.ready[p]) && c in r.ready[p].items
    ensures Kept(r.ready, WakeHeads(r).ready, p, c)
    decreases |r.delayed|
  {
    hide Formed, ListsOk, NotLate, CoRoutineRuns.Placed, WakeHead, Kept, Valid;
    KeptSame(r, r, p, c);
    if r.delayed != [] {
      HeadKnown(r);
      if r.count.tick >= r.due[r.delayed[0]].tick {
        WakeHeadForms(r);
        WakeHeadKeeps(r);
        CoRoutineRuns.WakeHeadPlaced(r);
        CoRoutineRuns.WakeHeadShortens(r);
        WakeHeadKept(r, p, c);
        KeptIn(r.ready, WakeHead(r).ready, p, c);
        WakeHeadsKept(WakeHead(r), p, c);
        KeptTwice(r.ready, WakeHead(r).ready, WakeHeads(WakeHead(r)).ready, p, c);
      }
    }
  }

  lemma KeptIn(a: Rings, b: Rings, p: nat, c: CoRoutine)
    requires Kept(a, b, p, c)
    ensures p in b && Valid(b[p]) && c in b[p].items
  {
  }

  lemma WakeHeadKept(r: Roster, p: nat, c: CoRoutine)
    requires Formed(r) && ListsOk(r) && r.delayed != [] && CoRoutineRuns.Placed(r)
    requires p in r.ready && Valid(r.ready[p]) && c in r.ready[p].items
    ensures Kept(r.ready, WakeHead(r).ready, p, c)
  {
    hide Formed, ListsOk, CoRoutineRuns.EventsOk, CoRoutineRuns.RingsOk, CoRoutineRuns.TopOk, WakeHead, Kept, Valid;
    HeadKnown(r);
    CoRoutineRuns.WakeHeadReadies(r);
    JoinKept(r, WakeHead(r), r.delayed[0], p, c);
  }

  lemma OneTickKept(r: Roster, p: nat, c: CoRoutine)
    requires RosterOk(r) && CoRoutineRuns.Placed(r) && p in r.ready && Valid(r.ready[p]) && c in r.ready[p].items
    ensures Formed(r) && Kept(r.ready, OneTick(r).ready, p, c)
  {
    hide RosterOk, Formed, ListsOk, NotLate, CoRoutineRuns.Placed, Waits, Kept, Valid;
    RosterForms(r);
    IncrementKeeps(r);
    CoRoutineRuns.SamePlaces(r, Increment(r));
    WakeHeadsKept(Increment(r), p, c);
  }

  lemma {:induction false} CatchUpKept(r: Roster, passed: nat, p: nat, c: CoRoutine)
    requires RosterOk(r) && CoRoutineRuns.Placed(r) && p in r.ready && Valid(r.ready[p]) && c in r.ready[p].items
    ensures Formed(r) && Kept(r.ready, CatchUp(r, passed).ready, p, c)
    decreases passed
  {
    hide RosterOk, Formed, CoRoutineRuns.Placed, OneTick, Served, Kept, Valid;
    RosterForms(r);
    KeptSame(r, r, p, c);
    if passed > 0 {
      OneTickServes(r, 0);
      CoRoutineRuns.OneTickPlaced(r);
      OneTickKept(r, p, c);
      KeptIn(r.ready, OneTick(r).ready, p, c);
      CatchUpKept(OneTick(r), passed - 1, p, c);
      KeptTwice(r.ready, OneTick(r).ready, CatchUp(OneTick(r), passed - 1).ready, p, c);
    }
  }

  lemma DelayKept(r: Roster, u: CoRoutine, ticks: nat, onEvent: bool, p: nat, c: CoRoutine)
    requires CoRoutineRuns.Ok(r) && IsReady(r, u) && 0 < ticks < M && At(r, p, c) && u != c
    ensures Formed(r) && Kept(r.ready, DelayFor(r, u, ticks, onEvent).ready, p, c)
  {
    hide RosterOk, CoRoutineRuns.Placed, Formed, NoFurther, RemoveItem, DelayFor;
    CoRoutineRuns.OkFacts(r);
    InPlace(r, p, c);
    RingHolds(r, u);
    CoRoutineRuns.DelayFrame(r, u, ticks, onEvent);
    NotMoved(r.ready[p], c);
    if r.priority[u] == p {
      RemoveItemNoFurther(r.ready[p], c, u);
      RemoveItemKeeps(r.ready[p], u);
    }
  }

  lemma RingHolds(r: Roster, u: CoRoutine)
    requires IsReady(r, u)
    ensures u in r.ready[r.priority[u]].items
  {
  }

  predicate IsTurn(op: CoRoutineRuns.Op) { op.Select? }

  /** No step but a selection moves a co-routine that stays ready further from its turn. */
  lemma StepKept(r: Roster, op: CoRoutineRuns.Op, p: nat, c: CoRoutine)
    requires CoRoutineRuns.Ok(r) && CoRoutineRuns.Enabled(r, op) && At(r, p, c) && !IsTurn(op)
    requires At(CoRoutineRuns.Step(r, op), p, c)
    ensures Kept(r.ready, CoRoutineRuns.Step(r, op).ready, p, c)
  {
    hide RosterOk, CoRoutineRuns.EventsOk, CoRoutineRuns.RingsOk, CoRoutineRuns.TopOk, Kept, Valid, WakesOf, Formed, Waits, IsReady, CoRoutineRuns.JoinedReady;
    CoRoutineRuns.OkFacts(r);
    InPlace(r, p, c);
    KeptSame(r, r, p, c);
    match op
    case Clock(passed) => CatchUpKept(r, passed, p, c);
    case Delay(u, ticks, onEvent) =>
      if u == c { CoRoutineRuns.StepKeeps(r, op); DelayKeeps(r, u, ticks, onEvent); CoRoutineRuns.OkFacts(CoRoutineRuns.Step(r, op)); }
      else { DelayKept(r, u, ticks, onEvent, p, c); }
    case Event(u) =>
    case CheckPending =>
      CoRoutineRuns.PendingKnown(r);
      CoRoutineRuns.ReadyPendingReadies(r);
      PendingJoins(r);
      JoinKept(r, ReadyPending(r), r.pending[0], p, c);
    case Create(u, priority) =>
      CoRoutineRuns.CreateForms(r, u, priority);
      CreateKept(r, u, priority, p, c);
  }

  lemma PendingJoins(r: Roster)
    requires CoRoutineRuns.Ok(r) && r.pending != [] && Formed(r) && r.pending[0] in r.priority
    requires CoRoutineRuns.Readied(r, ReadyPending(r), r.pending[0])
    ensures CoRoutineRuns.JoinedReady(r, ReadyPending(r), r.pending[0]) && !IsReady(r, r.pending[0])
  {
    hide RosterOk, CoRoutineRuns.EventsOk, CoRoutineRuns.RingsOk, CoRoutineRuns.TopOk, CoRoutineRuns.JoinedReady, ReadyPending, Waits, IsReady, Formed;
  }

  lemma CreateKept(r: Roster, u: CoRoutine, priority: nat, p: nat, c: CoRoutine)
    requires CoRoutineRuns.Ok(r) && u !in r.priority && Formed(r) && At(r, p, c)
    ensures Kept(r.ready, AddNew(r, u, priority).ready, p, c)
  {
    hide ListsOk, NotDue, Formed, CoRoutineRuns.RingsOk, CoRoutineRuns.TopOk, IsReady, Waits, InsertEnd, Kept, Valid, AddNew;
    InPlace(r, p, c);
    CoRoutineRuns.CreateForms(r, u, priority);
    var s := AddNew(r, u, priority);
    var m := r.(priority := s.priority);
    CoRoutineRuns.NewKeeps(r, m, u);
    JoinKept(m, s, u, p, c);
  }

  // ---------------------------------------------------------------- turns

  ghost predicate RunsAt(states: nat -> Roster, ops: nat -> CoRoutineRuns.Op, i: nat) {
    && CoRoutineRuns.Ok(states(i)) && CoRoutineRuns.Enabled(states(i), ops(i))
    && states(i + 1) == CoRoutineRuns.Step(states(i), ops(i))
  }

  ghost predicate Endless(states: nat -> Roster, ops: nat -> CoRoutineRuns.Op) { forall i: nat :: RunsAt(states, ops, i) }

  /** c is ready at priority p, and none that is ready is more urgent. */
  ghost predicate TopAt(r: Roster, p: nat, c: CoRoutine) {
    At(r, p, c) && forall u :: IsReady(r, u) ==> r.priority[u] <= p
  }

  ghost predicate StaysTop(states: nat -> Roster, p: nat, c: CoRoutine, from: nat) {
    forall i: nat :: i >= from ==> TopAt(states(i), p, c)
  }

  ghost predicate SelectFrom(ops: nat -> CoRoutineRuns.Op, i: nat) { exists j: nat :: j >= i && IsTurn(ops(j)) }

  function RingAt(r: Roster, p: nat): Ring<CoRoutine> { if p in r.ready then r.ready[p] else Ring([], 0) }

  /** A selection takes the next one round the top ready list. */
  lemma SelectIsAdvance(r: Roster, p: nat, c: CoRoutine)
    requires CoRoutineRuns.Ok(r) && TopAt(r, p, c)
    ensures Formed(r)
    ensures var s := SelectNext(r);
      && RingAt(r, p).items != [] && RingAt(s, p) == Advance(RingAt(r, p))
      && 0 < RingAt(s, p).index <= |RingAt(s, p).items| && s.current == Selected(RingAt(s, p))
  {
    hide ListsOk, NotDue, CoRoutineRuns.EventsOk, CoRoutineRuns.OnOneList, Highest;
    InPlace(r, p, c);
    HighestBelow(r, r.top);
    var h := Highest(r, r.top);
    if r.ready[h].items != [] { SomebodyReady(r, h); }
  }

  lemma SomebodyReady(r: Roster, h: nat)
    requires CoRoutineRuns.RingsOk(r) && h in r.ready && r.ready[h].items != []
    ensures exists u :: IsReady(r, u) && r.priority[u] == h
  {
    var u := r.ready[h].items[0];
    assert u in r.ready[h].items;
    assert IsReady(r, u);
  }

  lemma TurnTaken(states: nat -> Roster, ops: nat -> CoRoutineRuns.Op, ring: nat -> Ring<CoRoutine>, turn: nat -> bool, p: nat, c: CoRoutine, k: nat)
    requires RunsAt(states, ops, k) && RunsAt(states, ops, k + 1) && TopAt(states(k), p, c) && TopAt(states(k + 1), p, c)
    requires ring(k) == RingAt(states(k), p) && ring(k + 1) == RingAt(states(k + 1), p) && turn(k) == IsTurn(ops(k))
    ensures TurnAt(ring, turn, c, k)
    ensures turn(k) ==> 0 < ring(k + 1).index <= |ring(k + 1).items| && states(k + 1).current == Selected(ring(k + 1))
  {
    hide RosterOk, CoRoutineRuns.Placed, CoRoutineRuns.Enabled, NoFurther, Valid, IsReady;
    InPlace(states(k), p, c);
    InPlace(states(k + 1), p, c);
    if turn(k) {
      SelectIsAdvance(states(k), p, c);
    } else {
      StepKept(states(k), ops(k), p, c);
    }
  }

  /** Of the co-routines that stay ready at the top priority each is called again and again. */
  lemma TurnsComeRound(states: nat -> Roster, ops: nat -> CoRoutineRuns.Op, p: nat, c: CoRoutine, from: nat, i: nat) returns (n: nat)
    requires Endless(states, ops) && StaysTop(states, p, c, from) && i >= from && forall k :: SelectFrom(ops, k)
    ensures n > i && states(n).current == c && IsTurn(ops(n - 1))
  {
    hide RunsAt, TopAt, IsTurn, TurnAt;
    var ring := (k: nat) => RingAt(states(k), p);
    var turn := (k: nat) => IsTurn(ops(k));
    forall k: nat | k >= from ensures TurnAt(ring, turn, c, k) {
      assert RunsAt(states, ops, k) && RunsAt(states, ops, k + 1) && TopAt(states(k), p, c) && TopAt(states(k + 1), p, c);
      TurnTaken(states, ops, ring, turn, p, c, k);
    }
    forall k: nat ensures TurnFrom(turn, k) {
      assert SelectFrom(ops, k);
      var j: nat :| j >= k && IsTurn(ops(j));
      assert turn(j);
    }
    assert TurnAt(ring, turn, c, i);
    FirstRing(ring, turn, c, i);
    n := ItsTurnComes(ring, turn, c, from, i);
    assert RunsAt(states, ops, n) && RunsAt(states, ops, n + 1) && TopAt(states(n), p, c) && TopAt(states(n + 1), p, c);
    TurnTaken(states, ops, ring, turn, p, c, n);
    n := n + 1;
  }

  lemma FirstRing(ring: nat -> Ring<CoRoutine>, turn: nat -> bool, c: CoRoutine, i: nat)
    requires TurnAt(ring, turn, c, i)
    ensures Valid(ring(i)) && c in ring(i).items
  {
  }

  // ---------------------------------------------------------------- in the order of the events

  lemma PendingRing(r: Roster, p: nat)
    requires CoRoutineRuns.Ok(r) && r.pending != [] && Formed(r) && r.pending[0] in r.priority && p in r.ready
    ensures p in ReadyPending(r).ready && r.ready[p].index <= |r.ready[p].items|
    ensures ReadyPending(r).ready[p] == if r.priority[r.pending[0]] == p then InsertEnd(r.ready[p], r.pending[0]) else r.ready[p]
    ensures ReadyPending(r).priority == r.priority
  {
    hide ListsOk, NotDue, CoRoutineRuns.Placed, InsertEnd, Remove;
  }

  lemma RingFits(r: Roster, p: nat)
    requires CoRoutineRuns.Ok(r) && p in r.ready
    ensures r.ready[p].index <= |r.ready[p].items|
  {
    hide ListsOk, NotDue, CoRoutineRuns.Placed;
  }

  lemma PendingHavePriority(r: Roster)
    requires CoRoutineRuns.Ok(r)
    ensures forall c :: c in r.pending ==> c in r.priority
  {
    hide ListsOk, NotDue, CoRoutineRuns.RingsOk, CoRoutineRuns.OnOneList, CoRoutineRuns.TopOk;
  }

  /** The co-routines that events readied join the ready list of their priority in the order
      of the events. */
  lemma {:induction false} DrainInOrder(r: Roster, p: nat)
    requires CoRoutineRuns.Ok(r) && p in r.ready
    ensures (forall c :: c in r.pending ==> c in r.priority) && r.ready[p].index <= |r.ready[p].items|
    ensures p in CoRoutineRuns.DrainPending(r).ready
    ensures CoRoutineRuns.DrainPending(r).ready[p] == JoinAll(r.ready[p], Having(r.pending, r.priority, p))
    decreases |r.pending|
  {
    hide RosterOk, CoRoutineRuns.Placed, ReadyPending, InsertEnd;
    PendingHavePriority(r);
    RingFits(r, p);
    if r.pending != [] {
      CoRoutineRuns.PendingKnown(r);
      CoRoutineRuns.ReadyPendingOk(r);
      PendingRing(r, p);
      var m := ReadyPending(r);
      DrainInOrder(m, p);
      JoinFirst(r.ready[p], r.pending, r.priority, p);
    }
  }

  /** One interrupt after the other. */
  function Events(cs: seq<CoRoutine>): seq<CoRoutineRuns.Op> {
    if cs == [] then [] else [CoRoutineRuns.Event(cs[0])] + Events(cs[1..])
  }

  /** After any number of events the co-routines they readied join the ready list of their
      priority in the order of the events. */
  lemma EventsJoinInOrder(r: Roster, cs: seq<CoRoutine>, p: nat)
    requires CoRoutineRuns.Ok(r) && r.pending == [] && p in r.ready && CoRoutineRuns.CanRun(r, Events(cs))
    ensures var s := CoRoutineRuns.After(r, Events(cs));
      && CoRoutineRuns.Ok(s) && (forall c :: c in cs ==> c in r.priority) && r.ready[p].index <= |r.ready[p].items|
      && p in CoRoutineRuns.DrainPending(s).ready
      && CoRoutineRuns.DrainPending(s).ready[p] == JoinAll(r.ready[p], Having(cs, r.priority, p))
  {
    hide CoRoutineRuns.Ok, CoRoutineRuns.CanRun, CoRoutineRuns.After, CoRoutineRuns.DrainPending;
    EventsQueueUp(r, cs);
    DrainInOrder(CoRoutineRuns.After(r, Events(cs)), p);
    assert r.pending + cs == cs;
  }

  lemma {:induction false} EventsQueueUp(r: Roster, cs: seq<CoRoutine>)
    requires CoRoutineRuns.Ok(r) && CoRoutineRuns.CanRun(r, Events(cs))
    ensures var s := CoRoutineRuns.After(r, Events(cs));
      CoRoutineRuns.Ok(s) && s.pending == r.pending + cs && s.ready == r.ready && s.priority == r.priority
    decreases |cs|
  {
    hide CoRoutineRuns.Ok;
    if cs == [] {
      assert r.pending + cs == r.pending;
    } else {
      CoRoutineRuns.StepKeeps(r, CoRoutineRuns.Event(cs[0]));
      assert Events(cs)[0] == CoRoutineRuns.Event(cs[0]) && Events(cs)[1..] == Events(cs[1..]);
      var m := CoRoutineRuns.Step(r, CoRoutineRuns.Event(cs[0]));
      EventsQueueUp(m, cs[1..]);
      assert (r.pending + [cs[0]]) + cs[1..] == r.pending + cs;
    }
  }
}
