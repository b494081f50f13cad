/** Which list every task's two list items are on: the containers recorded in the
    items (tasks.c, list.h) agree with the contents of the lists. */
module TaskLists {
  import opened Lists
  import opened RoundRobin

  type Task = nat

  const MAX_PRIORITIES: nat   // configMAX_PRIORITIES

  /** The lists a state item can be on.  The two delayed lists swap roles. */
  datatype ListName = ReadyList(priority: nat) | DelayedList1 | DelayedList2 | SuspendedList | TerminationList

  /** The lists an event item can be on. */
  datatype EventPlace = NoEvent | PendingReady | EventList(id: nat)

  datatype TCB = TCB(priority: nat, wake: nat, at: ListName, on: EventPlace)

  type Tasks = map<Task, TCB>
  type StateLists = map<ListName, Ring<Task>>
  type EventLists = map<EventPlace, seq<Task>>

  /** Every task's state item is on exactly one list, the one its container names. */
  ghost predicate StateItemsOk(lists: StateLists, tcb: Tasks) {
    && (forall l :: l in lists ==> Valid(lists[l]) && (!l.ReadyList? ==> lists[l].index == 0))
    && (forall l, t :: l in lists && t in lists[l].items ==> t in tcb && tcb[t].at == l)
    && (forall t :: t in tcb ==> tcb[t].at in lists && t in lists[tcb[t].at].items)
  }

  /** An event item is on the list its container names, or on none. */
  ghost predicate EventItemsOk(events: EventLists, tcb: Tasks) {
    && NoEvent !in events && PendingReady in events
    && (forall e :: e in events ==> NoDup(events[e]))
    && (forall e, t :: e in events && t in events[e] ==> t in tcb && tcb[t].on == e)
    && (forall t :: t in tcb && tcb[t].on != NoEvent ==> tcb[t].on in events && t in events[tcb[t].on])
  }

  /** The ready lists are the tasks' own priorities, and a waiting task is not ready. */
  ghost predicate TasksOk(lists: StateLists, tcb: Tasks) {
    && (forall p: nat :: p < MAX_PRIORITIES <==> ReadyList(p) in lists)
    && DelayedList1 in lists && DelayedList2 in lists && SuspendedList in lists && TerminationList in lists
    && (forall t :: t in tcb ==> tcb[t].priority < MAX_PRIORITIES)
    && (forall t :: t in tcb && tcb[t].at.ReadyList? ==> tcb[t].at.priority == tcb[t].priority && tcb[t].on == NoEvent)
    && (forall t :: t in tcb && tcb[t].at.TerminationList? ==> tcb[t].on == NoEvent)
  }

  function Wakes(tcb: Tasks): map<Task, int> { map t | t in tcb :: tcb[t].wake }

  function Urgency(tcb: Tasks): map<Task, int> { map t | t in tcb :: MAX_PRIORITIES - tcb[t].priority }

  // ---------------------------------------------------------------- moving

  function TakeOff(lists: StateLists, tcb: Tasks, t: Task): StateLists
    requires t in tcb && tcb[t].at in lists && t in lists[tcb[t].at].items
  {
    lists[tcb[t].at := RemoveItem(lists[tcb[t].at], t)]
  }

  /** uxListRemove and vListInsertEnd of a state item. */
  function PutLast(lists: StateLists, tcb: Tasks, t: Task, to: ListName): StateLists
    requires StateItemsOk(lists, tcb) && t in tcb && to in lists
  {
    var l := TakeOff(lists, tcb, t);
    RemoveItemKeeps(lists[tcb[t].at], t);
    l[to := InsertEnd(l[to], t)]
  }

  /** uxListRemove and vListInsert of a state item. */
  function PutByWake(lists: StateLists, tcb: Tasks, t: Task, to: ListName, wake: nat): StateLists
    requires StateItemsOk(lists, tcb) && t in tcb && to in lists
  {
    var l := TakeOff(lists, tcb, t);
    RemoveItemKeeps(lists[tcb[t].at], t);
    l[to := Ring(InsertSorted(l[to].items, t, Wakes(tcb)[t := wake]), 0)]
  }

  function TakeEvent(events: EventLists, tcb: Tasks, t: Task): EventLists
    requires t in tcb && (tcb[t].on != NoEvent ==> tcb[t].on in events)
  {
    if tcb[t].on == NoEvent then events else events[tcb[t].on := Remove(events[tcb[t].on], t)]
  }

  lemma TakeOffFacts(lists: StateLists, tcb: Tasks, t: Task)
    requires StateItemsOk(lists, tcb) && t in tcb
    ensures StateItemsOk(TakeOff(lists, tcb, t), tcb - {t})
    ensures TakeOff(lists, tcb, t).Keys == lists.Keys
  {
    RemoveItemKeeps(lists[tcb[t].at], t);
    hide RemoveItem;
  }

  lemma PutLastKeeps(lists: StateLists, tcb: Tasks, t: Task, to: ListName, c: TCB)
    requires StateItemsOk(lists, tcb) && t in tcb && to in lists && c.at == to
    ensures StateItemsOk(PutLast(lists, tcb, t, to), tcb[t := c])
    ensures PutLast(lists, tcb, t, to).Keys == lists.Keys
  {
    hide TakeOff, StateItemsOk, InsertEnd;
    WhereAbouts(lists, tcb, t);
    TakeOffFacts(lists, tcb, t);
    var l := TakeOff(lists, tcb, t);
    AddLastKeeps(l, tcb - {t}, t, to, c);
    assert (tcb - {t})[t := c] == tcb[t := c];
  }

  lemma AddLastKeeps(lists: StateLists, tcb: Tasks, t: Task, to: ListName, c: TCB)
    requires StateItemsOk(lists, tcb) && t !in tcb && to in lists && c.at == to
    ensures StateItemsOk(lists[to := InsertEnd(lists[to], t)], tcb[t := c])
  {
    InsertEndKeeps(lists[to], t);
    assert lists[to].index == 0 ==> InsertEnd(lists[to], t).index == 0;
    hide InsertEnd;
  }

  lemma ListedTasks(lists: StateLists, tcb: Tasks, l: ListName)
    requires StateItemsOk(lists, tcb) && l in lists
    ensures forall t :: t in lists[l].items ==> t in tcb
  {
  }

  lemma PutByWakeKeeps(lists: StateLists, tcb: Tasks, t: Task, to: ListName, wake: nat, c: TCB)
    requires StateItemsOk(lists, tcb) && t in tcb && to in lists && c.at == to
    ensures StateItemsOk(PutByWake(lists, tcb, t, to, wake), tcb[t := c])
    ensures PutByWake(lists, tcb, t, to, wake).Keys == lists.Keys
  {
    hide TakeOff, StateItemsOk, InsertSorted;
    WhereAbouts(lists, tcb, t);
    TakeOffFacts(lists, tcb, t);
    var l := TakeOff(lists, tcb, t);
    ListedTasks(l, tcb - {t}, to);
    AddByWakeKeeps(l, tcb - {t}, t, to, Wakes(tcb)[t := wake], c);
    assert (tcb - {t})[t := c] == tcb[t := c];
  }

  lemma AddByWakeKeeps(lists: StateLists, tcb: Tasks, t: Task, to: ListName, key: map<Task, int>, c: TCB)
    requires StateItemsOk(lists, tcb) && t !in tcb && to in lists && c.at == to
    requires t in key && forall y :: y in lists[to].items ==> y in key
    ensures StateItemsOk(lists[to := Ring(InsertSorted(lists[to].items, t, key), 0)], tcb[t := c])
  {
    hide NoDup, InsertSorted;
    InsertSortedKeeps(lists[to].items, t, key);
  }

  lemma TakeEventKeeps(events: EventLists, tcb: Tasks, t: Task, c: TCB)
    requires EventItemsOk(events, tcb) && t in tcb && c.on == NoEvent
    ensures EventItemsOk(TakeEvent(events, tcb, t), tcb[t := c])
  {
    if tcb[t].on != NoEvent { RemoveKeeps(events[tcb[t].on], t); }
    hide Remove;
  }

  /** An event list with t added, by priority (vListInsert) or last (vListInsertEnd). */
  function Joined(events: EventLists, tcb: Tasks, t: Task, e: EventPlace, byPriority: bool): seq<Task>
    requires EventItemsOk(events, tcb) && t in tcb && e in events
  {
    if byPriority then InsertSorted(events[e], t, Urgency(tcb)) else events[e] + [t]
  }

  lemma JoinedKeeps(events: EventLists, tcb: Tasks, t: Task, e: EventPlace, byPriority: bool, c: TCB)
    requires EventItemsOk(events, tcb) && t in tcb && tcb[t].on == NoEvent && e in events && c.on == e
    ensures EventItemsOk(events[e := Joined(events, tcb, t, e, byPriority)], tcb[t := c])
  {
    JoinedFacts(events, tcb, t, e, byPriority);
    hide Joined, NoDup;
  }

  lemma JoinedFacts(events: EventLists, tcb: Tasks, t: Task, e: EventPlace, byPriority: bool)
    requires EventItemsOk(events, tcb) && t in tcb && tcb[t].on == NoEvent && e in events
    ensures var with := Joined(events, tcb, t, e, byPriority);
      && NoDup(with) && t in with
      && (forall y :: y in with ==> y == t || y in events[e])
      && (forall y :: y in events[e] ==> y in with)
  {
    assert t !in events[e];
    if byPriority { InsertSortedKeeps(events[e], t, Urgency(tcb)); }
  }

  lemma SameAtKeeps(lists: StateLists, tcb: Tasks, t: Task, c: TCB)
    requires StateItemsOk(lists, tcb) && t in tcb && c.at == tcb[t].at
    ensures StateItemsOk(lists, tcb[t := c])
  {
  }

  lemma SameOnKeeps(events: EventLists, tcb: Tasks, t: Task, c: TCB)
    requires EventItemsOk(events, tcb) && t in tcb && c.on == tcb[t].on
    ensures EventItemsOk(events, tcb[t := c])
  {
  }

  lemma TasksOkKeeps(lists: StateLists, tcb: Tasks, lists': StateLists, t: Task, c: TCB)
    requires TasksOk(lists, tcb) && lists'.Keys == lists.Keys
    requires c.priority < MAX_PRIORITIES
    requires c.at.ReadyList? ==> c.at.priority == c.priority && c.on == NoEvent
    requires c.at.TerminationList? ==> c.on == NoEvent
    ensures TasksOk(lists', tcb[t := c])
  {
  }

  lemma DropKeeps(lists: StateLists, events: EventLists, tcb: Tasks, t: Task)
    requires StateItemsOk(lists, tcb) && EventItemsOk(events, tcb) && TasksOk(lists, tcb)
    requires t in tcb && tcb[t].on == NoEvent
    ensures EventItemsOk(events, tcb - {t}) && TasksOk(TakeOff(lists, tcb, t), tcb - {t})
  {
    assert TakeOff(lists, tcb, t).Keys == lists.Keys;
    hide StateItemsOk, TakeOff, NoDup;
  }

  lemma AddTaskKeeps(lists: StateLists, events: EventLists, tcb: Tasks, t: Task, with: Ring<Task>, c: TCB)
    requires EventItemsOk(events, tcb) && TasksOk(lists, tcb) && t !in tcb
    requires c.on == NoEvent && c.priority < MAX_PRIORITIES && c.at == ReadyList(c.priority)
    ensures EventItemsOk(events, tcb[t := c]) && TasksOk(lists[c.at := with], tcb[t := c])
  {
  }

  lemma AddTaskOrder(lists: StateLists, tcb: Tasks, t: Task, l: ListName, with: Ring<Task>, c: TCB, d: ListName)
    requires InOrder(lists, tcb, d) && t !in tcb && l != d
    ensures InOrder(lists[l := with], tcb[t := c], d)
  {
  }

  /** What the moves need to know of the containers' agreement. */
  lemma WhereAbouts(lists: StateLists, tcb: Tasks, t: Task)
    requires StateItemsOk(lists, tcb) && t in tcb
    ensures tcb[t].at in lists && t in lists[tcb[t].at].items
  {
  }

  // ---------------------------------------------------------------- wake order

  /** A delayed list is in wake order. */
  ghost predicate InOrder(lists: StateLists, tcb: Tasks, d: ListName) {
    && d in lists
    && (forall t :: t in lists[d].items ==> t in tcb)
    && Sorted(lists[d].items, Wakes(tcb))
  }

  lemma SameOrder(items: seq<Task>, a: map<Task, int>, b: map<Task, int>)
    requires forall t :: t in items ==> t in a && t in b && a[t] == b[t]
    requires Sorted(items, a)
    ensures Sorted(items, b)
  {
  }

  lemma OrderKeeps(lists: StateLists, tcb: Tasks, t: Task, c: TCB, d: ListName)
    requires InOrder(lists, tcb, d) && t in tcb && c.wake == tcb[t].wake
    ensures InOrder(lists, tcb[t := c], d)
  {
  }

  /** Taking a task off leaves both orders, even when the task then changes. */
  lemma TakeOffOrder(lists: StateLists, tcb: Tasks, t: Task, d: ListName)
    requires StateItemsOk(lists, tcb) && InOrder(lists, tcb, d) && t in tcb
    ensures InOrder(TakeOff(lists, tcb, t), tcb - {t}, d)
    ensures t !in TakeOff(lists, tcb, t)[d].items
  {
    hide NoDup, Sorted, RemoveItem;
    RemoveItemKeeps(lists[tcb[t].at], t);
    if tcb[t].at == d {
      RemoveItemOrder(lists[d], t, Wakes(tcb));
      SameOrder(RemoveItem(lists[d], t).items, Wakes(tcb), Wakes(tcb - {t}));
    } else {
      SameOrder(lists[d].items, Wakes(tcb), Wakes(tcb - {t}));
    }
  }

  lemma RemoveItemOrder(r: Ring<Task>, x: Task, key: map<Task, int>)
    requires x in r.items && forall y :: y in r.items ==> y in key
    requires Sorted(r.items, key)
    ensures forall y :: y in RemoveItem(r, x).items ==> y in r.items
    ensures Sorted(RemoveItem(r, x).items, key)
  {
  }

  lemma PutLastOrder(lists: StateLists, tcb: Tasks, t: Task, to: ListName, c: TCB, d: ListName)
    requires StateItemsOk(lists, tcb) && InOrder(lists, tcb, d) && t in tcb && to in lists && to != d
    ensures InOrder(PutLast(lists, tcb, t, to), tcb[t := c], d)
  {
    hide NoDup, Sorted;
    TakeOffOrder(lists, tcb, t, d);
    var l := TakeOff(lists, tcb, t);
    assert PutLast(lists, tcb, t, to)[d] == l[d];
    SameOrder(l[d].items, Wakes(tcb - {t}), Wakes(tcb[t := c]));
  }

  lemma PutByWakeOrder(lists: StateLists, tcb: Tasks, t: Task, to: ListName, wake: nat, c: TCB, d: ListName)
    requires StateItemsOk(lists, tcb) && InOrder(lists, tcb, d) && t in tcb && to in lists && c.wake == wake
    ensures InOrder(PutByWake(lists, tcb, t, to, wake), tcb[t := c], d)
  {
    hide StateItemsOk, NoDup, Sorted, InsertSorted, RemoveItem;
    WhereAbouts(lists, tcb, t);
    TakeOffOrder(lists, tcb, t, d);
    var l := TakeOff(lists, tcb, t);
    PutByWakeAt(lists, tcb, t, to, wake);
    hide TakeOff, PutByWake;
    if to == d {
      InsertedInOrder(l[d].items, tcb, t, wake, c);
    } else {
      SameOrder(l[d].items, Wakes(tcb - {t}), Wakes(tcb[t := c]));
    }
  }

  lemma PutByWakeAt(lists: StateLists, tcb: Tasks, t: Task, to: ListName, wake: nat)
    requires StateItemsOk(lists, tcb) && t in tcb && to in lists && tcb[t].at in lists && t in lists[tcb[t].at].items
    ensures var l := TakeOff(lists, tcb, t);
      && to in l && (forall u :: u in l[to].items ==> u in tcb)
      && PutByWake(lists, tcb, t, to, wake) == l[to := Ring(InsertSorted(l[to].items, t, Wakes(tcb)[t := wake]), 0)]
  {
    hide StateItemsOk, Valid, InsertSorted, RemoveItem;
    ItemsKnown(lists, tcb, tcb[t].at);
    ItemsKnown(lists, tcb, to);
    RemoveItemKeeps(lists[tcb[t].at], t);
  }

  lemma ItemsKnown(lists: StateLists, tcb: Tasks, l: ListName)
    requires StateItemsOk(lists, tcb) && l in lists
    ensures Valid(lists[l]) && forall u :: u in lists[l].items ==> u in tcb
  {
  }

  lemma InsertedInOrder(items: seq<Task>, tcb: Tasks, t: Task, wake: nat, c: TCB)
    requires t in tcb && c.wake == wake && t !in items && (forall u :: u in items ==> u in tcb)
    requires Sorted(items, Wakes(tcb - {t}))
    ensures Sorted(InsertSorted(items, t, Wakes(tcb)[t := wake]), Wakes(tcb[t := c]))
  {
    hide Sorted, NoDup, InsertSorted;
    var key := Wakes(tcb)[t := wake];
    SameOrder(items, Wakes(tcb - {t}), key);
    InsertSortedKeeps(items, t, key);
    SameOrder(InsertSorted(items, t, key), key, Wakes(tcb[t := c]));
  }
}
