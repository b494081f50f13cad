/** The co-routine scheduler's clock: it catches up with the kernel's tick count in
    batches, one tick at a time, over its own two delayed lists. */
module CoRoutines {
  import opened Tick
  import opened Epochs
  import opened EpochLists
  import opened Lists
  import opened RoundRobin

  type CoRoutine = nat

  const MAX_CO_ROUTINE_PRIORITIES: nat

  /** A co-routine made ready after a delay, the tick at which, and whether an event did it. */
  datatype Wake = Wake(c: CoRoutine, at: Time, byEvent: bool)

  datatype Roster = Roster(
    count: Time,                              // xCoRoutineTickCount, and xLastTickCount between calls
    delayed: seq<CoRoutine>,                  // pxDelayedCoRoutineList
    overflow: seq<CoRoutine>,                 // pxOverflowDelayedCoRoutineList
    due: map<CoRoutine, Time>,                // the generic items' values
    priority: map<CoRoutine, nat>,
    ready: map<nat, Ring<CoRoutine>>,         // pxReadyCoRoutineLists
    top: nat,                                 // uxTopCoRoutineReadyPriority
    current: CoRoutine,                       // pxCurrentCoRoutine
    event: set<CoRoutine>,                    // whose event items are on an event list
    pending: seq<CoRoutine>,                  // xPendingReadyCoRoutineList
    log: seq<Wake>)

  predicate Waits(r: Roster, c: CoRoutine) { c in r.delayed || c in r.overflow }

  predicate IsReady(r: Roster, c: CoRoutine) {
    c in r.priority && r.priority[c] in r.ready && c in r.ready[r.priority[c]].items
  }

  // ---------------------------------------------------------------- invariant

  /** Everyone's values and ready list exist. */
  ghost predicate Formed(r: Roster) {
    && (forall c :: Waits(r, c) ==> c in r.due)
    && (forall c :: c in r.priority ==> r.priority[c] in r.ready && r.priority[c] < MAX_CO_ROUTINE_PRIORITIES)
    && (forall p: nat :: p < MAX_CO_ROUTINE_PRIORITIES ==> p in r.ready)
    && r.top < MAX_CO_ROUTINE_PRIORITIES
    && (forall c :: c in r.due ==> c in r.priority)
    && (forall p :: p in r.ready ==> r.ready[p].index <= |r.ready[p].items|)
  }

  ghost predicate ListsOk(r: Roster) {
    && ListOk(r.delayed, r.due, r.count.epoch) && ListOk(r.overflow, r.due, r.count.epoch + 1)
    && (forall c :: c in r.delayed ==> c !in r.overflow)
  }

  /** Nobody on the current list is overdue; between calls nobody is due either. */
  ghost predicate NotLate(r: Roster) { forall c :: c in r.delayed && c in r.due ==> r.due[c].tick >= r.count.tick }

  ghost predicate NotDue(r: Roster) { forall c :: c in r.delayed && c in r.due ==> r.due[c].tick > r.count.tick }

  ghost predicate RosterOk(r: Roster) { Formed(r) && ListsOk(r) && NotDue(r) }

  // ---------------------------------------------------------------- the clock

  /** prvAddCoRoutineToReadyQueue */
  function AddReady(r: Roster, c: CoRoutine): Roster
    requires Formed(r) && c in r.priority
  {
    var p := r.priority[c];
    r.(ready := r.ready[p := InsertEnd(r.ready[p], c)], top := if p > r.top then p else r.top)
  }

  /** The head of the delayed list has timed out. */
  function WakeHead(r: Roster): Roster
    requires Formed(r) && r.delayed != []
  {
    var c := r.delayed[0];
    assert Waits(r, c);
    AddReady(r, c).(delayed := r.delayed[1..], event := r.event - {c}, pending := Remove(r.pending, c),
                    log := r.log + [Wake(c, r.count, false)])
  }

  lemma WakeHeadForms(r: Roster)
    requires Formed(r) && r.delayed != []
    ensures Formed(WakeHead(r))
  {
  }

  /** The inner loop of prvCheckDelayedList. */
  function WakeHeads(r: Roster): Roster
    requires Formed(r)
    decreases |r.delayed|
  {
    if r.delayed == [] then r
    else
      assert Waits(r, r.delayed[0]);
      if r.count.tick < r.due[r.delayed[0]].tick then r
      else
        WakeHeadForms(r);
        WakeHeads(WakeHead(r))
  }

  /** The increment, and the swap when it wraps. */
  function Increment(r: Roster): Roster {
    var n := r.(count := Later(r.count, 1));
    if n.count.tick == 0 then n.(delayed := r.overflow, overflow := r.delayed) else n
  }

  lemma IncrementForms(r: Roster)
    requires Formed(r)
    ensures Formed(Increment(r))
  {
  }

  function OneTick(r: Roster): Roster
    requires Formed(r)
  {
    IncrementForms(r);
    WakeHeads(Increment(r))
  }

  lemma {:induction false} WakeHeadsForms(r: Roster)
    requires Formed(r)
    ensures Formed(WakeHeads(r))
    decreases |r.delayed|
  {
    hide Formed;
    if r.delayed != [] {
      HeadKnown(r);
      if r.count.tick >= r.due[r.delayed[0]].tick {
        WakeHeadForms(r);
        WakeHeadsForms(WakeHead(r));
      }
    }
  }

  lemma HeadKnown(r: Roster)
    requires Formed(r) && r.delayed != []
    ensures r.delayed[0] in r.due && r.delayed[0] in r.priority
  {
  }

  lemma OneTickForms(r: Roster)
    requires Formed(r)
    ensures Formed(OneTick(r))
  {
    IncrementForms(r);
    WakeHeadsForms(Increment(r));
  }

  /** The outer loop of prvCheckDelayedList, over xPassedTicks. */
  function CatchUp(r: Roster, passed: nat): Roster
    requires Formed(r)
    decreases passed
  {
    if passed == 0 then r
    else
      OneTickForms(r);
      CatchUp(OneTick(r), passed - 1)
  }

  // ---------------------------------------------------------------- exact wake-up

  function WakesOf(log: seq<Wake>, c: CoRoutine): seq<Wake> {
    if log == [] then []
    else WakesOf(log[..|log| - 1], c) + if log[|log| - 1].c == c then [log[|log| - 1]] else []
  }

  lemma WakesOfOne(log: seq<Wake>, w: Wake, c: CoRoutine)
    ensures WakesOf(log + [w], c) == WakesOf(log, c) + if w.c == c then [w] else []
  {
  }

  ghost predicate Untouched(r: Roster, s: Roster, c: CoRoutine) {
    WakesOf(s.log, c) == WakesOf(r.log, c) && (Waits(s, c) <==> Waits(r, c)) && (IsReady(r, c) ==> IsReady(s, c))
  }

  /** What the clock did for one co-routine: woken once, at its own tick, if that tick
      was reached; otherwise left waiting, or left alone. */
  ghost predicate Served(r: Roster, s: Roster, c: CoRoutine) {
    if Waits(r, c) && c in r.due && NotAfter(r.due[c], s.count) then
      WakesOf(s.log, c) == WakesOf(r.log, c) + [Wake(c, r.due[c], false)] && !Waits(s, c) && IsReady(s, c)
    else
      Untouched(r, s, c)
  }

  ghost predicate Same(r: Roster, s: Roster) { s.due == r.due && s.priority == r.priority }

  lemma WakeHeadServes(r: Roster, c: CoRoutine)
    requires Formed(r) && ListsOk(r) && r.delayed != [] && r.delayed[0] in r.due && r.due[r.delayed[0]] == r.count
    ensures Served(r, WakeHead(r), c) || (c != r.delayed[0] && Untouched(r, WakeHead(r), c))
    ensures c == r.delayed[0] ==> Served(r, WakeHead(r), c)
  {
    var h := r.delayed[0];
    assert Waits(r, h);
    WakesOfOne(r.log, Wake(h, r.count, false), c);
    assert c in r.delayed <==> c == h || c in r.delayed[1..];
    assert h !in r.delayed[1..] && h !in r.overflow;
    InsertedThere(r.ready[r.priority[h]], h, c);
    hide InsertEnd, NoDup, Sorted;
  }

  lemma InsertedThere(l: Ring<CoRoutine>, h: CoRoutine, c: CoRoutine)
    requires l.index <= |l.items|
    ensures h in InsertEnd(l, h).items && (c in l.items ==> c in InsertEnd(l, h).items)
  {
  }

  lemma WakeHeadKeeps(r: Roster)
    requires Formed(r) && ListsOk(r) && NotLate(r) && r.delayed != []
    ensures ListsOk(WakeHead(r)) && NotLate(WakeHead(r)) && Same(r, WakeHead(r)) && WakeHead(r).count == r.count
  {
  }

  /** With nothing overdue, the inner loop wakes exactly those due at this tick. */
  lemma {:induction false} WakeHeadsServe(r: Roster, c: CoRoutine)
    requires Formed(r) && ListsOk(r) && NotLate(r)
    ensures var s := WakeHeads(r);
      Formed(s) && RosterOk(s) && Same(r, s) && s.count == r.count && Served(r, s, c)
    decreases |r.delayed|
  {
    hide Formed, ListsOk, NotLate, WakesOf;
    if r.delayed == [] {
      NobodyDue(r, c);
    } else {
      HeadKnown(r);
      if r.count.tick < r.due[r.delayed[0]].tick {
        NobodyDue(r, c);
      } else {
        HeadIsDue(r);
        WakeHeadForms(r);
        WakeHeadKeeps(r);
        WakeHeadServes(r, c);
        var m := WakeHead(r);
        hide WakeHead;
        WakeHeadsServe(m, c);
        ServedOn(r, m, WakeHeads(m), c);
      }
    }
  }

  lemma HeadIsDue(r: Roster)
    requires Formed(r) && ListsOk(r) && NotLate(r) && r.delayed != []
    requires r.delayed[0] in r.due && r.count.tick >= r.due[r.delayed[0]].tick
    ensures r.due[r.delayed[0]] == r.count
  {
  }

  lemma NobodyDue(r: Roster, c: CoRoutine)
    requires Formed(r) && ListsOk(r)
    requires r.delayed == [] || (r.delayed[0] in r.due && r.count.tick < r.due[r.delayed[0]].tick)
    ensures RosterOk(r) && Served(r, r, c)
  {
  }

  lemma ServedOn(r: Roster, m: Roster, s: Roster, c: CoRoutine)
    requires Same(r, m) && Same(m, s) && s.count == m.count && m.count == r.count
    requires Served(r, m, c) || Untouched(r, m, c)
    requires Served(m, s, c)
    ensures Served(r, s, c)
  {
  }

  lemma HeadIn(list: seq<CoRoutine>)
    ensures list != [] ==> list[0] in list
  {
  }

  /** The current list is empty at every swap. */
  lemma EmptyAtSwap(r: Roster)
    requires RosterOk(r) && r.count.tick == M - 1
    ensures r.delayed == []
  {
    HeadIn(r.delayed);
  }

  lemma IncrementKeeps(r: Roster)
    requires RosterOk(r)
    ensures var n := Increment(r);
      Formed(n) && ListsOk(n) && NotLate(n) && Same(r, n) && n.count == Later(r.count, 1) && n.log == r.log && n.ready == r.ready
      && forall c :: Waits(n, c) <==> Waits(r, c)
  {
    IncrementForms(r);
    if r.count.tick == M - 1 { EmptyAtSwap(r); }
  }

  lemma OneTickServes(r: Roster, c: CoRoutine)
    requires RosterOk(r)
    ensures var s := OneTick(r);
      RosterOk(s) && Same(r, s) && s.count == Later(r.count, 1) && Served(r, s, c)
  {
    hide RosterOk, ListsOk, NotLate, WakesOf, Formed;
    IncrementKeeps(r);
    RosterForms(r);
    var n := Increment(r);
    WakeHeadsServe(n, c);
    hide Increment;
    assert Served(n, WakeHeads(n), c) && n.log == r.log && n.ready == r.ready;
  }

  lemma RosterForms(r: Roster)
    requires RosterOk(r)
    ensures Formed(r)
  {
  }

  /** For any number of missed ticks, wraps included, the batch ends at the sampled tick,
      and every co-routine whose time came meanwhile was readied once, at its own tick. */
  lemma {:induction false} CatchUpServes(r: Roster, passed: nat, c: CoRoutine)
    requires RosterOk(r)
    ensures Formed(r)
    ensures var s := CatchUp(r, passed);
      RosterOk(s) && Same(r, s) && Abs(s.count) == Abs(r.count) + passed && Served(r, s, c)
    decreases passed
  {
    hide RosterOk, Formed, WakesOf, Abs, NotAfter, Later, Served;
    RosterForms(r);
    if passed == 0 {
      NothingPassed(r, c);
    } else {
      OneTickServes(r, c);
      LaterIsAbs(r.count, 1);
      var m := OneTick(r);
      hide OneTick;
      CatchUpServes(m, passed - 1, c);
      var s := CatchUp(m, passed - 1);
      NotAfterIsAbs(m.count, s.count);
      ServedAlong(r, m, s, c);
    }
  }

  lemma NothingPassed(r: Roster, c: CoRoutine)
    requires RosterOk(r)
    ensures Same(r, r) && Served(r, r, c)
  {
  }

  lemma ServedAlong(r: Roster, m: Roster, s: Roster, c: CoRoutine)
    requires Same(r, m) && Same(m, s) && NotAfter(m.count, s.count)
    requires Served(r, m, c) && Served(m, s, c)
    ensures Served(r, s, c)
  {
  }

  // ---------------------------------------------------------------- delaying

  /** vCoRoutineAddToDelayedList for a running co-routine, with or without an event list. */
  function DelayFor(r: Roster, c: CoRoutine, ticks: nat, onEvent: bool): Roster
    requires Formed(r) && IsReady(r, c) && ticks < M
  {
    var wake := Later(r.count, ticks);
    var d := r.due[c := wake];
    var p := r.priority[c];
    var off := r.(due := d, ready := r.ready[p := RemoveItem(r.ready[p], c)],
                  event := if onEvent then r.event + {c} else r.event);
    if wake.tick < r.count.tick then off.(overflow := InsertSorted(r.overflow, c, Values(d)))
    else off.(delayed := InsertSorted(r.delayed, c, Values(d)))
  }

  /** A delay of n > 0 ticks waits for the tick n from now, on the list of its epoch,
      and moves nobody else. */
  lemma DelayKeeps(r: Roster, c: CoRoutine, ticks: nat, onEvent: bool)
    requires RosterOk(r) && IsReady(r, c) && !Waits(r, c) && 0 < ticks < M
    ensures Formed(r)
    ensures var s := DelayFor(r, c, ticks, onEvent);
      && RosterOk(s) && Waits(s, c) && s.due[c] == Later(r.count, ticks) && Abs(s.due[c]) == Abs(r.count) + ticks
      && s.count == r.count && s.log == r.log && s.priority == r.priority
      && (forall u :: u != c ==> (Waits(s, u) <==> Waits(r, u)))
      && (forall u :: u in r.due && u != c ==> u in s.due && s.due[u] == r.due[u])
  {
    hide ListsOk, Formed, Abs, InsertSorted, RemoveItem;
    LaterIsAbs(r.count, ticks);
    DelayLists(r, c, ticks, onEvent);
    DelayForms(r, c, ticks, onEvent);
  }

  lemma DelayForms(r: Roster, c: CoRoutine, ticks: nat, onEvent: bool)
    requires Formed(r) && IsReady(r, c) && ticks < M
    ensures Formed(DelayFor(r, c, ticks, onEvent))
  {
    var p := r.priority[c];
    assert RemoveItem(r.ready[p], c).index <= |RemoveItem(r.ready[p], c).items|;
    hide RemoveItem, InsertSorted;
    var s := DelayFor(r, c, ticks, onEvent);
    assert forall u :: Waits(s, u) ==> u == c || Waits(r, u);
  }

  lemma DelayLists(r: Roster, c: CoRoutine, ticks: nat, onEvent: bool)
    requires RosterOk(r) && IsReady(r, c) && !Waits(r, c) && 0 < ticks < M
    ensures var s := DelayFor(r, c, ticks, onEvent);
      ListsOk(s) && NotDue(s) && Waits(s, c) && forall u :: u != c ==> (Waits(s, u) <==> Waits(r, u))
  {
    hide Formed, NoDup, Sorted, InsertSorted, RemoveItem;
    var d := r.due[c := Later(r.count, ticks)];
    SameValues(r.delayed, r.due, d);
    SameValues(r.overflow, r.due, d);
    InsertSortedKeeps(r.delayed, c, Values(d));
    InsertSortedKeeps(r.overflow, c, Values(d));
  }

  // ---------------------------------------------------------------- events

  /** xCoRoutineRemoveFromEventList, from an interrupt: c is the head of an event list. */
  function EventOccurs(r: Roster, c: CoRoutine): Roster
    requires c in r.event
  {
    r.(event := r.event - {c}, pending := r.pending + [c])
  }

  /** An interrupt between two wake-ups of the clock might as well have come before both. */
  lemma EventMayComeFirst(r: Roster, c: CoRoutine)
    requires Formed(r) && r.delayed != [] && c in r.event && NoDup(r.pending) && c !in r.pending
    ensures Formed(EventOccurs(r, c))
    ensures if c == r.delayed[0] then WakeHead(EventOccurs(r, c)) == WakeHead(r)
            else c in WakeHead(r).event && WakeHead(EventOccurs(r, c)) == EventOccurs(WakeHead(r), c)
  {
    hide Formed, InsertEnd;
    EventForms(r, c);
    HeadKnown(r);
    RemoveOver(r.pending, c, r.delayed[0]);
  }

  lemma EventForms(r: Roster, c: CoRoutine)
    requires Formed(r) && c in r.event
    ensures Formed(EventOccurs(r, c))
  {
  }

  lemma {:induction false} RemoveOver(s: seq<CoRoutine>, c: CoRoutine, x: CoRoutine)
    requires c !in s
    ensures Remove(s + [c], x) == if x == c then s else Remove(s, x) + [c]
  {
    if s != [] {
      assert (s + [c])[1..] == s[1..] + [c];
      RemoveOver(s[1..], c, x);
    }
  }

  /** One turn of prvCheckPendingReadyList. */
  function ReadyPending(r: Roster): Roster
    requires Formed(r) && r.pending != [] && r.pending[0] in r.priority
  {
    var c := r.pending[0];
    AddReady(r, c).(pending := r.pending[1..], delayed := Remove(r.delayed, c), overflow := Remove(r.overflow, c),
                    log := r.log + [Wake(c, r.count, true)])
  }

  lemma ReadyPendingKeeps(r: Roster)
    requires RosterOk(r) && r.pending != [] && r.pending[0] in r.priority
    ensures RosterOk(ReadyPending(r)) && IsReady(ReadyPending(r), r.pending[0]) && !Waits(ReadyPending(r), r.pending[0])
    ensures forall c :: c != r.pending[0] ==> (Waits(ReadyPending(r), c) <==> Waits(r, c))
    ensures Same(r, ReadyPending(r)) && ReadyPending(r).count == r.count
    ensures forall c :: WakesOf(ReadyPending(r).log, c) ==
                        WakesOf(r.log, c) + if c == r.pending[0] then [Wake(c, r.count, true)] else []
    ensures forall c :: IsReady(ReadyPending(r), c) <==> c == r.pending[0] || IsReady(r, c)
  {
    hide NoDup, Sorted, Remove, InsertEnd, ListsOk, Formed;
    RosterForms(r);
    var c := r.pending[0];
    PendingForms(r);
    PendingLists(r);
    forall u ensures WakesOf(ReadyPending(r).log, u) ==
                     WakesOf(r.log, u) + if u == c then [Wake(u, r.count, true)] else [] {
      WakesOfOne(r.log, Wake(c, r.count, true), u);
    }
    forall u ensures IsReady(ReadyPending(r), u) <==> u == c || IsReady(r, u) { AddReadyReady(r, c, u); }
  }

  lemma AddReadyReady(r: Roster, c: CoRoutine, u: CoRoutine)
    requires Formed(r) && c in r.priority
    ensures IsReady(AddReady(r, c), u) <==> u == c || IsReady(r, u)
  {
  }

  lemma PendingForms(r: Roster)
    requires Formed(r) && r.pending != [] && r.pending[0] in r.priority
    ensures Formed(ReadyPending(r)) && r.priority[r.pending[0]] in r.ready
  {
  }

  lemma PendingLists(r: Roster)
    requires RosterOk(r) && r.pending != [] && r.pending[0] in r.priority
    ensures ListsOk(ReadyPending(r)) && NotDue(ReadyPending(r)) && !Waits(ReadyPending(r), r.pending[0])
    ensures forall c :: c != r.pending[0] ==> (Waits(ReadyPending(r), c) <==> Waits(r, c))
  {
    hide NoDup, Sorted, Remove, InsertEnd, Formed;
    var c := r.pending[0];
    RemoveKeeps(r.delayed, c);
    RemoveKeeps(r.overflow, c);
    RemoveKeepsOrder(r.delayed, c, Values(r.due));
    RemoveKeepsOrder(r.overflow, c, Values(r.due));
  }

  // ---------------------------------------------------------------- creating and selecting

  /** xCoRoutineCreate, after the first one. */
  function AddNew(r: Roster, c: CoRoutine, priority: nat): Roster
    requires Formed(r) && c !in r.priority
  {
    var p := if priority >= MAX_CO_ROUTINE_PRIORITIES then MAX_CO_ROUTINE_PRIORITIES - 1 else priority;
    AddReady(r.(priority := r.priority[c := p]), c)
  }

  /** The downward search of vCoRoutineSchedule. */
  function Highest(r: Roster, p: nat): nat
    requires Formed(r) && p < MAX_CO_ROUTINE_PRIORITIES
  {
    if r.ready[p].items != [] || p == 0 then p else Highest(r, p - 1)
  }

  lemma {:induction false} HighestBelow(r: Roster, p: nat)
    requires Formed(r) && p < MAX_CO_ROUTINE_PRIORITIES
    ensures var h := Highest(r, p); h <= p && forall q :: h < q <= p ==> r.ready[q].items == []
    ensures r.ready[Highest(r, p)].items == [] ==> Highest(r, p) == 0
  {
    if r.ready[p].items == [] && p > 0 { HighestBelow(r, p - 1); }
  }

  /** The end of vCoRoutineSchedule: which co-routine is called, if any is ready. */
  function SelectNext(r: Roster): Roster
    requires Formed(r)
  {
    var p := Highest(r, r.top);
    HighestBelow(r, r.top);
    if r.ready[p].items == [] then r.(top := p)
    else
      var l := Advance(r.ready[p]);
      r.(top := p, ready := r.ready[p := l], current := Selected(l))
  }
}
