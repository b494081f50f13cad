/** The loops of croutine.c in place, proved to compute the machine's steps. */
module CoRoutineLoops {
  import opened Tick
  import opened Epochs
  import opened EpochLists
  import opened Lists
  import opened RoundRobin
  import opened CoRoutines
  import opened CoRoutineRuns

  /** The times cut down to what a list item holds. */
  ghost predicate Cut(value: map<CoRoutine, nat>, due: map<CoRoutine, Time>) {
    value.Keys == due.Keys && forall c :: c in value ==> value[c] == due[c].tick
  }

  /** The variables of croutine.c. */
  class CoRoutineScheduler {
    var tickCount: nat            // xCoRoutineTickCount
    var lastTickCount: nat        // xLastTickCount
    var delayed: seq<CoRoutine>
    var overflow: seq<CoRoutine>
    var value: map<CoRoutine, nat>
    var priority: map<CoRoutine, nat>
    var ready: map<nat, Ring<CoRoutine>>
    var top: nat
    var current: CoRoutine
    var event: set<CoRoutine>
    var pending: seq<CoRoutine>
    ghost var r: Roster

    /** The real fields are the roster's, with every time cut down to its tick count. */
    ghost predicate Linked()
      reads this
    {
      && Formed(r)
      && tickCount == r.count.tick && delayed == r.delayed && overflow == r.overflow
      && priority == r.priority && ready == r.ready && top == r.top
      && current == r.current && event == r.event && pending == r.pending
      && Cut(value, r.due)
    }

    ghost predicate Valid()
      reads this
    {
      Linked() && Ok(r) && lastTickCount == tickCount
    }

    /** prvAddCoRoutineToReadyQueue */
    method AddToReadyQueue(c: CoRoutine)
      requires Linked() && c in priority
      modifies this`ready, this`top, this`r
      ensures Linked() && r == AddReady(old(r), c)
    {
      InsertEndFits(ready[priority[c]], c);
      hide InsertEnd;
      var p := priority[c];
      if p > top {
        top := p;
      }
      ready := ready[p := InsertEnd(ready[p], c)];
      r := AddReady(r, c);
    }

    /** The head of the delayed list leaves it, and the pending list, and is ready. */
    method ReadyHead()
      requires Linked() && delayed != []
      modifies this`delayed, this`event, this`pending, this`ready, this`top, this`r
      ensures Linked() && r == WakeHead(old(r))
    {
      hide Formed, Remove, AddReady;
      HeadKnown(r);
      WakeHeadForms(r);
      ghost var s := r;
      var c := delayed[0];
      AddToReadyQueue(c);
      delayed := delayed[1..];
      event := event - {c};
      pending := Remove(pending, c);
      r := r.(delayed := delayed, event := event, pending := pending, log := s.log + [Wake(c, s.count, false)]);
      AddReadyFrame(s, c);
    }

    /** The inner loop of prvCheckDelayedList. */
    method WakeTimedOut()
      requires Linked()
      modifies this`delayed, this`event, this`pending, this`ready, this`top, this`r
      ensures Linked() && r == WakeHeads(old(r))
    {
      hide Formed, WakeHead;
      while delayed != []
        invariant Linked() && WakeHeads(r) == WakeHeads(old(r))
        decreases |delayed|
      {
        HeadKnown(r);
        if tickCount < value[delayed[0]] {
          break;
        }
        WakeHeadShortens(r);
        ReadyHead();
      }
    }

    /** One turn of the outer loop of prvCheckDelayedList. */
    method CountTick()
      requires Linked()
      modifies this`tickCount, this`delayed, this`overflow, this`event, this`pending, this`ready, this`top, this`r
      ensures Linked() && Formed(old(r)) && r == OneTick(old(r))
    {
      hide Formed;
      IncrementForms(r);
      tickCount := Plus(tickCount, 1);
      if tickCount == 0 {
        delayed, overflow := overflow, delayed;
      }
      r := Increment(r);
      WakeTimedOut();
    }

    /** prvCheckDelayedList, with the kernel's tick count. */
    method CheckDelayedList(kernelTick: nat, ghost now: Time)
      requires Valid() && kernelTick == now.tick && Within(r.count, now)
      modifies this
      ensures Valid() && Formed(old(r)) && r == CatchUp(old(r), Minus(kernelTick, old(lastTickCount)))
      ensures r.count == now
    {
      hide Formed, RosterOk, Placed, Abs, OneTick, Served, Within;
      ghost var before := r;
      RosterForms(r);
      var passed := Minus(kernelTick, lastTickCount);
      ghost var all := passed;
      while passed > 0
        invariant passed <= all && Linked() && Ok(r)
        invariant CatchUp(r, passed) == CatchUp(before, all)
      {
        OneTickServes(r, 0);
        OneTickPlaced(r);
        CountTick();
        passed := passed - 1;
      }
      lastTickCount := tickCount;
      CatchUpServes(before, all, 0);
      MinusIsElapsed(before.count, now);
      SameTime(r.count, now);
    }

    /** One turn of the loop of prvCheckPendingReadyList. */
    method ReadyPendingHead()
      requires Linked() && pending != [] && pending[0] in priority
      modifies this`pending, this`delayed, this`overflow, this`ready, this`top, this`r
      ensures Linked() && Formed(old(r)) && r == ReadyPending(old(r))
    {
      hide Formed, Remove, AddReady;
      PendingForms(r);
      ghost var s := r;
      var c := pending[0];
      AddToReadyQueue(c);
      pending := pending[1..];
      delayed := Remove(delayed, c);
      overflow := Remove(overflow, c);
      AddReadyFrame(s, c);
      r := r.(pending := pending, delayed := delayed, overflow := overflow, log := s.log + [Wake(c, s.count, true)]);
    }

    /** prvCheckPendingReadyList */
    method CheckPendingReadyList()
      requires Valid()
      modifies this`pending, this`delayed, this`overflow, this`ready, this`top, this`r
      ensures Valid() && r == DrainPending(old(r))
    {
      hide Ok, Formed, ReadyPending;
      while pending != []
        invariant Valid() && DrainPending(r) == DrainPending(old(r))
        decreases |pending|
      {
        ReadyPendingOk(r);
        ReadyPendingHead();
      }
    }

    /** vCoRoutineSchedule, up to the call of the selected co-routine: it returns whether
        there is one. */
    method Schedule(kernelTick: nat, ghost now: Time) returns (found: bool)
      requires Valid() && kernelTick == now.tick && Within(r.count, now)
      modifies this
      ensures Valid() && r.count == now
      ensures Ok(old(r)) && Formed(DrainPending(old(r)))
      ensures var m := CatchUp(DrainPending(old(r)), Minus(kernelTick, old(lastTickCount)));
        Ok(m) && Formed(m) && r == SelectNext(m) && (found <==> exists c :: IsReady(m, c))
    {
      hide Ok, Formed, Within, DrainPending, CatchUp, IsReady, SelectNext;
      DrainPendingServes(r, 0);
      CheckPendingReadyList();
      OkParts(r);
      CheckDelayedList(kernelTick, now);
      ghost var m := r;
      SelectKeeps(m);
      FoundIsReady(m);
      found := SelectHighest();
    }

    /** The search of vCoRoutineSchedule, and listGET_OWNER_OF_NEXT_ENTRY. */
    method SelectHighest() returns (found: bool)
      requires Linked()
      modifies this`top, this`ready, this`current, this`r
      ensures Linked() && Formed(old(r)) && r == SelectNext(old(r))
      ensures found <==> old(r).ready[Highest(old(r), old(r).top)].items != []
    {
      hide Formed;
      SelectForms(r);
      TopFits(r);
      HighestBelow(r, r.top);
      ghost var before := r;
      while ready[top].items == []
        invariant Formed(before) && top < MAX_CO_ROUTINE_PRIORITIES && before.top < MAX_CO_ROUTINE_PRIORITIES
        invariant top in ready && ready == before.ready && r == before && current == before.current
        invariant Highest(before, top) == Highest(before, before.top)
        decreases top
      {
        if top == 0 {
          r := SelectNext(before);
          return false;
        }
        top := top - 1;
        ReadyThere(before, top);
      }
      ready := ready[top := Advance(ready[top])];
      current := Selected(ready[top]);
      r := SelectNext(before);
      return true;
    }

    /** vCoRoutineAddToDelayedList, by the co-routine that runs. */
    method AddToDelayedList(ticks: nat, onEvent: bool)
      requires Valid() && IsReady(r, current) && 0 < ticks < M
      modifies this`value, this`ready, this`event, this`delayed, this`overflow, this`r
      ensures Valid() && Ok(old(r)) && Formed(old(r)) && r == DelayFor(old(r), current, ticks, onEvent)
    {
      hide Ok, Formed, InsertSorted, RemoveItem, DelayFor, Values, IsReady, Later, Cut;
      DelayParts(r, current, ticks, onEvent);
      var wake := Plus(tickCount, ticks);
      CutOne(value, r.due, current, Later(r.count, ticks));
      ready := ready[priority[current] := RemoveItem(ready[priority[current]], current)];
      value := value[current := wake];
      FileByWake(current, wake);
      event := if onEvent then event + {current} else event;
      r := DelayFor(r, current, ticks, onEvent);
    }

    /** A wake time that wrapped belongs on the overflow list. */
    method FileByWake(c: CoRoutine, wake: nat)
      requires c in value && forall u :: u in delayed || u in overflow ==> u in value
      modifies this`delayed, this`overflow
      ensures delayed == (if wake < tickCount then old(delayed) else InsertSorted(old(delayed), c, value))
      ensures overflow == (if wake < tickCount then InsertSorted(old(overflow), c, value) else old(overflow))
    {
      hide InsertSorted;
      if wake < tickCount {
        overflow := InsertSorted(overflow, c, value);
      } else {
        delayed := InsertSorted(delayed, c, value);
      }
    }

    /** xCoRoutineRemoveFromEventList, from an interrupt, for the head of an event list. */
    method RemoveFromEventList(c: CoRoutine) returns (urgent: bool)
      requires Valid() && c in event
      modifies this`event, this`pending, this`r
      ensures Valid() && c in old(event) && r == EventOccurs(old(r), c)
      ensures urgent <==> c in priority && priority[c] >= priority[current]
    {
      hide Formed, Ok;
      EventKeeps(r, c);
      EventForms(r, c);
      EventKnown(r, c);
      event := event - {c};
      pending := pending + [c];
      r := EventOccurs(r, c);
      urgent := priority[c] >= priority[current];
    }

    /** xCoRoutineCreate, after the first one. */
    method Create(c: CoRoutine, wanted: nat)
      requires Valid() && c !in priority
      modifies this`priority, this`ready, this`top, this`r
      ensures Valid() && Formed(old(r)) && c !in old(r).priority && r == AddNew(old(r), c, wanted)
    {
      hide Formed, Ok, InsertEnd, Cut;
      CreateKeeps(r, c, wanted);
      TopFits(r);
      NewForms(r, c, wanted);
      var p := if wanted >= MAX_CO_ROUTINE_PRIORITIES then MAX_CO_ROUTINE_PRIORITIES - 1 else wanted;
      ghost var m := r.(priority := r.priority[c := p]);
      priority := priority[c := p];
      r := m;
      AddToReadyQueue(c);
    }
  }

  lemma AddReadyFrame(r: Roster, c: CoRoutine)
    requires Formed(r) && c in r.priority
    ensures var s := AddReady(r, c); s == r.(ready := s.ready, top := s.top)
  {
  }

  lemma TopFits(r: Roster)
    requires Formed(r)
    ensures r.top < MAX_CO_ROUTINE_PRIORITIES && r.top in r.ready
  {
  }

  lemma ReadyThere(r: Roster, p: nat)
    requires Formed(r) && p < MAX_CO_ROUTINE_PRIORITIES
    ensures p in r.ready
  {
  }

  lemma EventKnown(r: Roster, c: CoRoutine)
    requires Ok(r) && c in r.event
    ensures c in r.priority && r.current in r.priority
  {
  }

  lemma DelayParts(r: Roster, c: CoRoutine, ticks: nat, onEvent: bool)
    requires Ok(r) && IsReady(r, c) && 0 < ticks < M
    ensures Formed(r) && Ok(DelayFor(r, c, ticks, onEvent)) && Formed(DelayFor(r, c, ticks, onEvent))
    ensures c in r.priority && r.priority[c] in r.ready && c in r.ready[r.priority[c]].items
    ensures var s, wake := DelayFor(r, c, ticks, onEvent), Later(r.count, ticks);
      && s.due == r.due[c := wake] && (forall u :: u in r.delayed || u in r.overflow ==> u in s.due)
      && s.delayed == (if wake.tick < r.count.tick then r.delayed else InsertSorted(r.delayed, c, Values(s.due)))
      && s.overflow == (if wake.tick < r.count.tick then InsertSorted(r.overflow, c, Values(s.due)) else r.overflow)
      && s.ready == r.ready[r.priority[c] := RemoveItem(r.ready[r.priority[c]], c)]
      && s.event == (if onEvent then r.event + {c} else r.event)
      && s.count == r.count && s.priority == r.priority && s.top == r.top && s.current == r.current && s.pending == r.pending
  {
    hide RosterOk, Placed, Abs, InsertSorted, RemoveItem;
    OkFacts(r);
    DelayKeeps(r, c, ticks, onEvent);
    DelayPlaced(r, c, ticks, onEvent);
    DelayForms(r, c, ticks, onEvent);
    hide Waits, IsReady;
  }

  /** A time set in both. */
  lemma CutOne(value: map<CoRoutine, nat>, due: map<CoRoutine, Time>, c: CoRoutine, t: Time)
    requires Cut(value, due)
    ensures Cut(value[c := t.tick], due[c := t]) && value[c := t.tick] == Values(due[c := t])
    ensures value.Keys == due.Keys
  {
  }

  /** The search finds a ready co-routine if there is one. */
  lemma FoundIsReady(r: Roster)
    requires Ok(r)
    ensures Formed(r) && Highest(r, r.top) in r.ready
    ensures r.ready[Highest(r, r.top)].items != [] <==> exists c :: IsReady(r, c)
  {
    hide ListsOk, NotDue, EventsOk, OnOneList, Highest;
    HighestBelow(r, r.top);
    var l := r.ready[Highest(r, r.top)].items;
    if l != [] {
      assert l[0] in l;
      assert IsReady(r, l[0]);
    }
  }

  lemma NewForms(r: Roster, c: CoRoutine, wanted: nat)
    requires Formed(r) && c !in r.priority
    ensures var p := if wanted >= MAX_CO_ROUTINE_PRIORITIES then MAX_CO_ROUTINE_PRIORITIES - 1 else wanted;
      Formed(r.(priority := r.priority[c := p]))
  {
  }

  lemma InsertEndFits(l: Ring<CoRoutine>, c: CoRoutine)
    requires l.index <= |l.items|
    ensures InsertEnd(l, c).index <= |InsertEnd(l, c).items|
  {
  }

  lemma SameTime(a: Time, b: Time)
    requires Abs(a) == Abs(b)
    ensures a == b
  {
    NotAfterIsAbs(a, b);
    NotAfterIsAbs(b, a);
  }
}
