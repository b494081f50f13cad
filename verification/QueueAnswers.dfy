/** What the queue calls do to the messages, how a blocking call comes to return, and in
    what order tasks that wait are woken. */
module QueueAnswers {
  import opened Lists
  import opened QueueLock

  // ---------------------------------------------------------------- messages

  /** The task is at the critical section of an operation. */
  predicate Tries(s: System, e: Event, op: Op) { e.Try? && e.t in s.pc && s.pc[e.t].Top? && s.pc[e.t].op == op }

  predicate SendSucceeds(s: System, e: Event) {
    || (Tries(s, e, Send) && s.messages < s.length)
    || Tries(s, e, Overwrite)
    || (e.SendFromISR? && (s.messages < s.length || e.overwrite))
  }

  predicate ReceiveSucceeds(s: System, e: Event) {
    (Tries(s, e, Receive) || e.ReceiveFromISR?) && s.messages > 0
  }

  /** The messages a step adds: an overwrite of a full queue replaces one. */
  function Added(s: System, e: Event): nat {
    if !SendSucceeds(s, e) then 0
    else if (Tries(s, e, Overwrite) || (e.SendFromISR? && e.overwrite)) && s.messages > 0 then 0
    else 1
  }

  /** The messages it takes away: a peek takes none. */
  function Taken(s: System, e: Event): nat { if ReceiveSucceeds(s, e) then 1 else 0 }

  lemma StepCounts(s: System, e: Event)
    requires Enabled(s, e)
    ensures Step(s, e).messages == s.messages + Added(s, e) - Taken(s, e) && Step(s, e).length == s.length
  {
    hide Side.WakeOne, Side.Notify, Side.Lock, Side.Unlock, Side.Retried, Side.Withdraw;
  }

  function AddedBy(states: seq<System>, events: seq<Event>, n: nat): nat
    requires n <= |states| && n <= |events|
  {
    if n == 0 then 0 else AddedBy(states, events, n - 1) + Added(states[n - 1], events[n - 1])
  }

  function TakenBy(states: seq<System>, events: seq<Event>, n: nat): nat
    requires n <= |states| && n <= |events|
  {
    if n == 0 then 0 else TakenBy(states, events, n - 1) + Taken(states[n - 1], events[n - 1])
  }

  /** Message conservation: in any interleaving uxMessagesWaiting is what was there, plus
      what tasks and interrupts sent, minus what they received. */
  lemma {:induction false} MessagesAreConserved(states: seq<System>, events: seq<Event>, n: nat)
    requires Run(states, events) && n < |states|
    ensures states[n].messages == states[0].messages + AddedBy(states, events, n) - TakenBy(states, events, n)
    ensures states[n].messages <= states[n].length == states[0].length
  {
    RunKeeps(states, events, n);
    hide Initial, Inv, Step, Enabled;
    if n > 0 {
      MessagesAreConserved(states, events, n - 1);
      RunAt(states, events, n - 1);
      StepCounts(states[n - 1], events[n - 1]);
    }
    BoundOf(states[n]);
  }

  lemma BoundOf(s: System)
    requires Inv(s)
    ensures s.messages <= s.length
  {
  }

  lemma RunLength(states: seq<System>, events: seq<Event>)
    requires Run(states, events)
    ensures |states| == |events| + 1
  {
  }

  lemma RunAt(states: seq<System>, events: seq<Event>, i: nat)
    requires Run(states, events) && i < |events|
    ensures Enabled(states[i], events[i]) && CountFits(states[i], events[i]) && states[i + 1] == Step(states[i], events[i])
  {
  }

  // ---------------------------------------------------------------- how a call returns

  ghost predicate TimedOut(events: seq<Event>, t: Task, a: nat, n: nat) {
    exists k :: a < k < n && k < |events| && events[k] == CheckTimeOut(t, true)
  }

  ghost predicate Placed(events: seq<Event>, t: Task, a: nat, n: nat) {
    exists k :: a < k < n && k < |events| && events[k] == Place(t)
  }

  /** It saw what it needs after all, and looks again. */
  ghost predicate SawMore(states: seq<System>, events: seq<Event>, t: Task, op: Op, a: nat, n: nat) {
    exists k :: a < k < n && k < |events| && k < |states| && Missing(states[k], op) == false
      && (events[k] == CheckResource(t) || events[k] == LastLook(t))
  }

  /** What the operation needs is not there. */
  predicate Missing(s: System, op: Op) {
    match op
    case Receive => s.messages == 0
    case Peek => s.messages == 0
    case Send => s.messages >= s.length
    case Overwrite => false
  }

  /** The start of a call that may block, or a try of it that found nothing. */
  predicate Begins(s: System, e: Event, t: Task, op: Op) {
    || e == Start(t, op, true)
    || (e == Try(t) && t in s.pc && s.pc[t] == Top(op, true) && Missing(s, op))
  }

  /** How far the call got since then. */
  ghost predicate Phase(states: seq<System>, events: seq<Event>, t: Task, op: Op, a: nat, n: nat)
    requires n < |states| && a < |events|
  {
    t in states[n].pc &&
    match states[n].pc[t]
    case Outside => false
    case Top(o, canBlock) =>
      o == op && canBlock && (events[a].Start? || Placed(events, t, a, n) || SawMore(states, events, t, op, a, n))
    case Entry(o) => o == op
    case Suspended(o) => o == op
    case Locked(o) => o == op
    case Checked(o) => o == op
    case Placing(o) => o == op
    case UnlockingTx(o, next) => o == op && Why(states, events, t, op, a, n, next)
    case UnlockingRx(o, next) => o == op && Why(states, events, t, op, a, n, next)
    case Resuming(o, next) => o == op && Why(states, events, t, op, a, n, next)
    case ExpiredEmpty(o) => o == op && WaitsForData(op) && TimedOut(events, t, a, n)
  }

  ghost predicate Why(states: seq<System>, events: seq<Event>, t: Task, op: Op, a: nat, n: nat, next: After) {
    match next
    case Sleep => Placed(events, t, a, n)
    case Again => SawMore(states, events, t, op, a, n)
    case Expired => TimedOut(events, t, a, n)
  }

  /** From a to n the task stays in its call, and does not try. */
  ghost predicate InCall(states: seq<System>, events: seq<Event>, t: Task, a: nat, n: nat)
    requires n < |states| && n <= |events|
  {
    forall k :: a < k < n ==> events[k] != Try(t) && t in states[k + 1].pc && states[k + 1].pc[t] != Outside
  }

  lemma InCallBefore(states: seq<System>, events: seq<Event>, t: Task, a: nat, n: nat)
    requires 0 < n < |states| && n <= |events| && InCall(states, events, t, a, n)
    ensures InCall(states, events, t, a, n - 1)
    ensures a < n - 1 ==> events[n - 1] != Try(t) && t in states[n].pc && states[n].pc[t] != Outside
  {
  }

  lemma {:induction false} PhaseAt(states: seq<System>, events: seq<Event>, t: Task, op: Op, a: nat, n: nat)
    requires Run(states, events) && a < n < |states| && n <= |events|
    requires Begins(states[a], events[a], t, op) && InCall(states, events, t, a, n)
    ensures Phase(states, events, t, op, a, n)
    decreases n
  {
    hide Run, Begins, Phase, InCall;
    InCallBefore(states, events, t, a, n);
    RunAt(states, events, n - 1);
    if n == a + 1 {
      PhaseFirst(states, events, t, op, a);
    } else {
      PhaseAt(states, events, t, op, a, n - 1);
      PhaseNext(states, events, t, op, a, n - 1);
    }
  }

  lemma PhaseFirst(states: seq<System>, events: seq<Event>, t: Task, op: Op, a: nat)
    requires a + 1 < |states| && a < |events| && Begins(states[a], events[a], t, op)
    requires Enabled(states[a], events[a]) && states[a + 1] == Step(states[a], events[a])
    ensures Phase(states, events, t, op, a, a + 1)
  {
    hide Transfer, Why;
  }

  /** A step of somebody else leaves the task where it is. */
  lemma OthersMove(s: System, e: Event, t: Task)
    requires Enabled(s, e) && t in s.pc && Others(e, t)
    ensures t in Step(s, e).pc && Step(s, e).pc[t] == s.pc[t]
  {
    hide Side.WakeOne, Side.Notify, Side.Lock, Side.Unlock, Side.Retried, Side.Withdraw;
  }

  /** What has happened stays so. */
  lemma WhyOn(states: seq<System>, events: seq<Event>, t: Task, op: Op, a: nat, n: nat)
    ensures TimedOut(events, t, a, n) ==> TimedOut(events, t, a, n + 1)
    ensures Placed(events, t, a, n) ==> Placed(events, t, a, n + 1)
    ensures SawMore(states, events, t, op, a, n) ==> SawMore(states, events, t, op, a, n + 1)
  {
  }

  /** A step of its own takes it on, until it returns or tries. */
  lemma PhaseNext(states: seq<System>, events: seq<Event>, t: Task, op: Op, a: nat, n: nat)
    requires a < n && n + 1 < |states| && n < |events| && Enabled(states[n], events[n]) && states[n + 1] == Step(states[n], events[n])
    requires Phase(states, events, t, op, a, n) && events[n] != Try(t)
    ensures t in states[n + 1].pc
    ensures states[n + 1].pc[t] != Outside ==> Phase(states, events, t, op, a, n + 1)
    ensures states[n + 1].pc[t] == Outside ==>
      TimedOut(events, t, a, n) && if WaitsForData(op) then events[n] == LastLook(t) && Missing(states[n], op) else events[n] == ResumeAll(t)
  {
    hide Step, Placed, SawMore, TimedOut;
    WhyOn(states, events, t, op, a, n);
    var e := events[n];
    if Others(e, t) {
      OthersMove(states[n], e, t);
    } else {
      OwnPc(states[n], e, t);
      OwnMove(states, events, t, op, a, n);
    }
  }

  predicate Others(e: Event, t: Task) {
    e.SendFromISR? || e.ReceiveFromISR? || e.Leave? || e.ChangeItemValue? || e.t != t
  }

  /** Where the task's own steps lead. */
  lemma OwnPc(s: System, e: Event, t: Task)
    requires Enabled(s, e) && !Others(e, t) && e != Try(t) && t in s.pc && s.pc[t] != Outside && !s.pc[t].Top?
    ensures t in Step(s, e).pc && var pc, op := Step(s, e).pc[t], s.pc[t].op;
      match s.pc[t]
      case Entry(_) => pc == Suspended(op)
      case Suspended(_) => pc == Locked(op)
      case Locked(_) => pc == Checked(op) || (pc == UnlockingTx(op, Expired) && e == CheckTimeOut(t, true))
      case Checked(_) => e == CheckResource(t) && pc == if Missing(s, op) then Placing(op) else UnlockingTx(op, Again)
      case Placing(_) => pc == UnlockingTx(op, Sleep) && e == Place(t)
      case UnlockingTx(_, next) => pc == UnlockingRx(op, next)
      case UnlockingRx(_, next) => pc == Resuming(op, next)
      case Resuming(_, next) =>
        e == ResumeAll(t) && pc == if next != Expired then Top(op, true) else if WaitsForData(op) then ExpiredEmpty(op) else Outside
      case ExpiredEmpty(_) => e == LastLook(t) && pc == if s.messages == 0 then Outside else Top(op, true)
      case _ => true
  {
    hide Side.Lock, Side.Unlock;
  }

  lemma OwnMove(states: seq<System>, events: seq<Event>, t: Task, op: Op, a: nat, n: nat)
    requires a < n && n < |states| && n < |events|
    ensures events[n] == CheckTimeOut(t, true) ==> TimedOut(events, t, a, n + 1)
    ensures events[n] == Place(t) ==> Placed(events, t, a, n + 1)
    ensures (events[n] == CheckResource(t) || events[n] == LastLook(t)) && !Missing(states[n], op) ==> SawMore(states, events, t, op, a, n + 1)
  {
  }

  /** A call that may block returns from a try that finds what it needs, or after its
      time-out; and a receive that gives up has looked once more and found nothing. */
  lemma ReturnsExactly(states: seq<System>, events: seq<Event>, t: Task, op: Op, a: nat, b: nat)
    requires Run(states, events) && a < b < |events| && Begins(states[a], events[a], t, op)
    requires forall k :: a < k < b ==> events[k] != Try(t)
    requires forall k :: a < k <= b ==> t in states[k].pc && states[k].pc[t] != Outside
    requires t in states[b + 1].pc && states[b + 1].pc[t] == Outside
    ensures (Tries(states[b], events[b], op) && events[b].t == t && !Missing(states[b], op))
         || (TimedOut(events, t, a, b) && if WaitsForData(op) then events[b] == LastLook(t) && Missing(states[b], op) else events[b] == ResumeAll(t))
  {
    hide Run, Begins, Step, Enabled, TimedOut;
    RunLength(states, events);
    assert InCall(states, events, t, a, b);
    PhaseAt(states, events, t, op, a, b);
    RunAt(states, events, b);
    if events[b] == Try(t) {
      TryMoves(states[b], t, op) by { PhaseTop(states, events, t, op, a, b); }
    } else {
      PhaseNext(states, events, t, op, a, b);
    }
  }

  lemma PhaseTop(states: seq<System>, events: seq<Event>, t: Task, op: Op, a: nat, n: nat)
    requires n < |states| && a < |events| && Phase(states, events, t, op, a, n) && Enabled(states[n], Try(t))
    ensures t in states[n].pc && states[n].pc[t] == Top(op, true)
    ensures events[a].Start? || Placed(events, t, a, n) || SawMore(states, events, t, op, a, n)
  {
    hide Placed, SawMore, Why;
  }

  lemma TryMoves(s: System, t: Task, op: Op)
    requires Enabled(s, Try(t)) && s.pc[t] == Top(op, true)
    ensures t in Step(s, Try(t)).pc && Step(s, Try(t)).pc[t] == if Missing(s, op) then Entry(op) else Outside
  {
    hide Side.WakeOne, Side.Retried;
  }

  /** Between two tries of one call the task was put to sleep on the event list, or saw
      what it needs turn up. */
  lemma TriesAgainExactly(states: seq<System>, events: seq<Event>, t: Task, op: Op, a: nat, b: nat)
    requires Run(states, events) && a < b < |events| && events[a] == events[b] == Try(t)
    requires Begins(states[a], events[a], t, op)
    requires forall k :: a < k < b ==> events[k] != Try(t)
    requires forall k :: a < k <= b ==> t in states[k].pc && states[k].pc[t] != Outside
    ensures Placed(events, t, a, b) || SawMore(states, events, t, op, a, b)
  {
    hide Run, Begins, Step, Enabled, Placed, SawMore;
    RunLength(states, events);
    assert InCall(states, events, t, a, b);
    PhaseAt(states, events, t, op, a, b);
    RunAt(states, events, b);
    PhaseTop(states, events, t, op, a, b);
  }

  /** A call that must not block returns from its one try, which succeeds exactly if what it
      needs is there. */
  lemma OneTryExactly(s: System, t: Task, op: Op)
    requires Enabled(s, Try(t)) && s.pc[t] == Top(op, false)
    ensures var r := Step(s, Try(t));
      && t in r.pc && r.pc[t] == Outside
      && (Missing(s, op) ==> r.messages == s.messages && r.receivers.waiters == s.receivers.waiters && r.senders.waiters == s.senders.waiters)
  {
    hide Side.WakeOne;
  }

  // ---------------------------------------------------------------- sleeping and waking

  function SideOf(s: System, op: Op): Side { if WaitsForData(op) then s.receivers else s.senders }

  /** Placing puts the task to sleep on its side, behind all that are as urgent or more. */
  lemma PlacedAt(s: System, t: Task) returns (k: nat)
    requires Enabled(s, Place(t)) && !Asleep(s, t)
    ensures t in s.itemValue && forall u :: u in SideOf(s, s.pc[t].op).waiters ==> u in s.itemValue
    ensures var was, r := SideOf(s, s.pc[t].op).waiters, Step(s, Place(t));
      && k <= |was| && SideOf(r, s.pc[t].op).waiters == was[..k] + [t] + was[k..]
      && (forall i :: 0 <= i < k ==> s.itemValue[was[i]] <= s.itemValue[t])
      && (k < |was| ==> s.itemValue[was[k]] > s.itemValue[t])
      && Asleep(r, t) && r.messages == s.messages
  {
    hide InsertSorted;
    k := InsertSortedSplit(SideOf(s, s.pc[t].op).waiters, t, s.itemValue);
  }

  /** A task that sleeps leaves its event list only by being woken, or by its time-out or
      suspension. */
  lemma StillAsleep(s: System, e: Event, t: Task)
    requires Inv(s) && Enabled(s, e) && Asleep(s, t) && e != Leave(t)
    ensures var r := Step(s, e); Asleep(r, t) || t in r.receivers.woken || t in r.senders.woken
  {
    hide Inv, InsertSorted, Remove, Side.WakeOne, Side.Notify, Side.Unlock;
    HeldIsKnown(s);
    var r := Step(s, e);
    match e
    case SendFromISR(_) => WakesOrKeeps(s.receivers, t);
    case ReceiveFromISR => WakesOrKeeps(s.senders, t);
    case UnlockTx(_) => UnlocksOrKeeps(s.receivers, t);
    case UnlockRx(_) => UnlocksOrKeeps(s.senders, t);
    case Try(u) =>
      WakesOrKeeps(s.receivers.Retried(u), t);
      WakesOrKeeps(s.senders.Retried(u), t);
    case _ =>
  }

  lemma HeldIsKnown(s: System)
    requires Inv(s)
    ensures ItemValues(s)
  {
  }

  lemma WakesOrKeeps(side: Side, t: Task)
    ensures t in side.waiters ==> t in side.WakeOne().waiters || t in side.WakeOne().woken
    ensures t in side.waiters ==> t in side.Notify().waiters || t in side.Notify().woken
  {
  }

  lemma UnlocksOrKeeps(side: Side, t: Task)
    ensures t in side.waiters ==> t in side.Unlock().waiters || t in side.Unlock().woken
  {
  }

  // ---------------------------------------------------------------- in order of urgency

  ghost predicate SideInOrder(side: Side, value: map<Task, int>) {
    (forall t :: t in side.waiters ==> t in value) && Sorted(side.waiters, value)
  }

  ghost predicate InOrder(s: System) { SideInOrder(s.receivers, s.itemValue) && SideInOrder(s.senders, s.itemValue) }

  /** A priority change leaves a waiter's item where it is, so its new value has to fit. */
  ghost predicate ValueFits(s: System, e: Event) {
    && InOrder(s)
    && (e.ChangeItemValue? ==>
          FitsAt(s.receivers.waiters, s.itemValue, e.t, e.value) && FitsAt(s.senders.waiters, s.itemValue, e.t, e.value))
  }

  lemma TailInOrder(side: Side, value: map<Task, int>, r: Side, n: nat)
    requires SideInOrder(side, value) && n <= |side.waiters| && r.waiters == side.waiters[n..]
    ensures SideInOrder(r, value)
  {
  }

  lemma WakeInOrder(side: Side, value: map<Task, int>)
    requires SideInOrder(side, value)
    ensures SideInOrder(side.WakeOne(), value) && SideInOrder(side.Notify(), value) && SideInOrder(side.Unlock(), value)
  {
    hide Sorted;
    TailInOrder(side, value, side.(waiters := side.waiters[0..]), 0);
    if side.waiters != [] { TailInOrder(side, value, side.WakeOne(), 1); }
    TailInOrder(side, value, side.Unlock(), Min(Max(side.lock, 0), |side.waiters|));
    assert SideInOrder(side.(lock := IncrementInt8(side.lock)), value) && side.waiters[0..] == side.waiters;
  }

  lemma WithdrawInOrder(side: Side, value: map<Task, int>, t: Task)
    requires SideInOrder(side, value)
    ensures SideInOrder(side.Withdraw(t), value)
  {
    hide Sorted, Remove;
    RemoveKeepsOrder(side.waiters, t, value);
  }

  lemma InsertInOrder(side: Side, value: map<Task, int>, t: Task)
    requires SideInOrder(side, value) && t in value
    ensures SideInOrder(side.(waiters := InsertSorted(side.waiters, t, value)), value)
  {
    hide Sorted, InsertSorted;
    InsertSortedKeeps(side.waiters, t, value);
  }

  lemma RekeyInOrder(side: Side, value: map<Task, int>, t: Task, v: int)
    requires SideInOrder(side, value) && NoDup(side.waiters) && FitsAt(side.waiters, value, t, v)
    ensures SideInOrder(side, value[t := v])
  {
    hide Sorted, NoDup, FitsAt;
    RekeyedInOrder(side.waiters, value, value[t := v], t, v);
  }

  lemma SameWaitersInOrder(side: Side, value: map<Task, int>, r: Side)
    requires SideInOrder(side, value) && r.waiters == side.waiters
    ensures SideInOrder(r, value)
  {
  }

  lemma NoDups(s: System)
    requires Inv(s)
    ensures NoDup(s.receivers.waiters) && NoDup(s.senders.waiters)
  {
  }

  /** Every step keeps both event lists in order of the item values. */
  lemma StepInOrder(s: System, e: Event)
    requires Inv(s) && Enabled(s, e) && ValueFits(s, e)
    ensures InOrder(Step(s, e))
  {
    hide Inv, SideInOrder, FitsAt, NoDup, InsertSorted, Side.WakeOne, Side.Notify, Side.Unlock, Side.Withdraw;
    NoDups(s);
    match e
    case Try(t) =>
      SameWaitersInOrder(s.receivers, s.itemValue, s.receivers.Retried(t));
      SameWaitersInOrder(s.senders, s.itemValue, s.senders.Retried(t));
      WakeInOrder(s.receivers.Retried(t), s.itemValue);
      WakeInOrder(s.senders.Retried(t), s.itemValue);
    case LockQueue(t) =>
      SameWaitersInOrder(s.receivers, s.itemValue, s.receivers.Lock());
      SameWaitersInOrder(s.senders, s.itemValue, s.senders.Lock());
    case Place(t) =>
      KnownHere(s, t);
      InsertInOrder(s.receivers, s.itemValue, t);
      InsertInOrder(s.senders, s.itemValue, t);
    case UnlockTx(_) => WakeInOrder(s.receivers, s.itemValue);
    case UnlockRx(_) => WakeInOrder(s.senders, s.itemValue);
    case SendFromISR(_) => WakeInOrder(s.receivers, s.itemValue);
    case ReceiveFromISR => WakeInOrder(s.senders, s.itemValue);
    case Leave(t) =>
      WithdrawInOrder(s.receivers, s.itemValue, t);
      WithdrawInOrder(s.senders, s.itemValue, t);
    case ChangeItemValue(t, v) =>
      RekeyInOrder(s.receivers, s.itemValue, t, v);
      RekeyInOrder(s.senders, s.itemValue, t, v);
    case _ =>
  }

  lemma KnownHere(s: System, t: Task)
    requires Enabled(s, Place(t))
    ensures t in s.itemValue
  {
  }

  lemma {:induction false} RunInOrder(states: seq<System>, events: seq<Event>, n: nat)
    requires Run(states, events) && n < |states|
    requires forall i :: 0 <= i < n && events[i].ChangeItemValue? ==> ValueFits(states[i], events[i])
    ensures InOrder(states[n])
  {
    if n == 0 {
    } else {
      hide Initial, Inv, Step, Enabled, InOrder;
      RunLength(states, events);
      RunInOrder(states, events, n - 1);
      RunKeeps(states, events, n - 1);
      RunAt(states, events, n - 1);
      FitsAnyway(states[n - 1], events[n - 1]);
      StepInOrder(states[n - 1], events[n - 1]);
    }
  }

  lemma FitsAnyway(s: System, e: Event)
    requires InOrder(s)
    ensures !e.ChangeItemValue? ==> ValueFits(s, e)
  {
  }

  /** The tasks a step wakes on one side are as urgent as any that go on waiting there. */
  ghost predicate WokenFirst(side: Side, r: Side, value: map<Task, int>) {
    forall t, u :: t in r.woken && t !in side.woken && u in r.waiters && u in side.waiters && t in value && u in value ==>
      value[t] <= value[u]
  }

  lemma WakeFirst(side: Side, value: map<Task, int>)
    requires SideInOrder(side, value)
    ensures WokenFirst(side, side.WakeOne(), value) && WokenFirst(side, side.Notify(), value)
    ensures WokenFirst(side, side.Unlock(), value)
  {
  }

  /** The most urgent are woken first, after any run in which changed values fit. */
  lemma MostUrgentWokenFirst(states: seq<System>, events: seq<Event>, n: nat)
    requires Run(states, events) && n < |events|
    requires forall i :: 0 <= i < n && events[i].ChangeItemValue? ==> ValueFits(states[i], events[i])
    ensures var s, r := states[n], states[n + 1];
      WokenFirst(s.receivers, r.receivers, s.itemValue) && WokenFirst(s.senders, r.senders, s.itemValue)
  {
    hide Run, Inv, SideInOrder, WokenFirst;
    RunLength(states, events);
    RunInOrder(states, events, n);
    RunAt(states, events, n);
    StepWokenFirst(states[n], events[n]);
  }

  lemma StepWokenFirst(s: System, e: Event)
    requires Enabled(s, e) && InOrder(s)
    ensures var r := Step(s, e);
      WokenFirst(s.receivers, r.receivers, s.itemValue) && WokenFirst(s.senders, r.senders, s.itemValue)
  {
    hide SideInOrder, WokenFirst, InsertSorted, Side.WakeOne, Side.Notify, Side.Unlock;
    WakeFirst(s.receivers, s.itemValue);
    WakeFirst(s.senders, s.itemValue);
    NobodyWoken(s.receivers, Step(s, e).receivers, s.itemValue);
    NobodyWoken(s.senders, Step(s, e).senders, s.itemValue);
    if e.Try? {
      RetriedFirst(s.receivers, s.itemValue, e.t);
      RetriedFirst(s.senders, s.itemValue, e.t);
    }
  }

  lemma NobodyWoken(side: Side, r: Side, value: map<Task, int>)
    ensures r.woken <= side.woken ==> WokenFirst(side, r, value)
  {
  }

  lemma RetriedFirst(side: Side, value: map<Task, int>, t: Task)
    requires SideInOrder(side, value)
    ensures WokenFirst(side, side.Retried(t), value) && WokenFirst(side, side.Retried(t).WakeOne(), value)
  {
  }

  // ---------------------------------------------------------------- no wake-up without a reason

  /** A message came, or a peek left one. */
  predicate DataStays(s: System, e: Event) { SendSucceeds(s, e) || (Tries(s, e, Peek) && s.messages > 0) }

  ghost predicate WakesAtMost(side: Side, r: Side, n: nat) { |r.woken - side.woken| <= n }

  /** A step wakes at most one receiver, and only if a message came or was left; the unlock
      wakes at most as many as were counted. */
  lemma StepWakesReceivers(s: System, e: Event)
    requires Enabled(s, e)
    ensures WakesAtMost(s.receivers, Step(s, e).receivers,
                        if e.UnlockTx? then Max(s.receivers.lock, 0) else if DataStays(s, e) then 1 else 0)
  {
    hide WakesAtMost, InsertSorted, Side.WakeOne, Side.Notify, Side.Unlock;
    WakesOne(s.receivers);
    if e.Try? { RetriedWakes(s.receivers, e.t); }
    WakesNone(s.receivers, Step(s, e).receivers);
  }

  /** Likewise senders and space. */
  lemma StepWakesSenders(s: System, e: Event)
    requires Enabled(s, e)
    ensures WakesAtMost(s.senders, Step(s, e).senders,
                        if e.UnlockRx? then Max(s.senders.lock, 0) else if ReceiveSucceeds(s, e) then 1 else 0)
  {
    hide WakesAtMost, InsertSorted, Side.WakeOne, Side.Notify, Side.Unlock;
    WakesOne(s.senders);
    if e.Try? { RetriedWakes(s.senders, e.t); }
    WakesNone(s.senders, Step(s, e).senders);
  }

  lemma WakesNone(side: Side, r: Side)
    ensures r.woken <= side.woken ==> WakesAtMost(side, r, 0) && WakesAtMost(side, r, 1)
  {
    if r.woken <= side.woken { assert r.woken - side.woken == {}; }
  }

  lemma WakesOne(side: Side)
    ensures WakesAtMost(side, side.WakeOne(), 1) && WakesAtMost(side, side.Notify(), 1)
    ensures WakesAtMost(side, side.Unlock(), Max(side.lock, 0))
  {
    if side.waiters != [] { assert side.WakeOne().woken - side.woken <= {side.waiters[0]}; Smaller(side.WakeOne().woken - side.woken, {side.waiters[0]}); }
    UnlockWakes(side, Min(Max(side.lock, 0), |side.waiters|));
  }

  lemma Smaller<T>(a: set<T>, b: set<T>)
    requires a <= b
    ensures |a| <= |b|
  {
    if a != {} {
      var x :| x in a;
      Smaller(a - {x}, b - {x});
    }
  }

  lemma {:induction false} UnlockWakes(side: Side, k: nat)
    requires k <= |side.waiters|
    ensures |(set i | 0 <= i < k :: side.waiters[i])| <= k
  {
    var all := set i | 0 <= i < k :: side.waiters[i];
    if k > 0 {
      UnlockWakes(side, k - 1);
      var rest := set i | 0 <= i < k - 1 :: side.waiters[i];
      Smaller(all, rest + {side.waiters[k - 1]});
    }
  }

  lemma RetriedWakes(side: Side, t: Task)
    ensures WakesAtMost(side, side.Retried(t), 0) && WakesAtMost(side, side.Retried(t).WakeOne(), 1)
  {
    assert side.Retried(t).woken - side.woken == {};
    if side.waiters != [] { Smaller(side.Retried(t).WakeOne().woken - side.woken, {side.waiters[0]}); }
  }

  // ---------------------------------------------------------------- leaving, and a reset

  /** A waiter that times out or is suspended is on neither event list; nobody is woken. */
  lemma LeaveExact(s: System, t: Task)
    requires Inv(s) && Enabled(s, Leave(t))
    ensures var r := Step(s, Leave(t));
      && !Asleep(r, t) && (forall u :: u != t ==> (Asleep(r, u) <==> Asleep(s, u)))
      && r.receivers.woken == s.receivers.woken && r.senders.woken == s.senders.woken && r.messages == s.messages
  {
    hide Inv, Remove, NoDup;
    NoDups(s);
    RemoveKeeps(s.receivers.waiters, t);
    RemoveKeeps(s.senders.waiters, t);
  }

  /** A reset empties and unlocks the queue and wakes the first sender; receivers wait on. */
  lemma ResetExact(s: System)
    requires Inv(s)
    ensures var r, first := Reset(s), s.senders.waiters;
      && r.messages == 0 && r.length == s.length && r.receivers.lock == r.senders.lock == UNLOCKED
      && r.receivers.waiters == s.receivers.waiters && r.receivers.woken == s.receivers.woken
      && r.senders.waiters == (if first == [] then [] else first[1..])
      && r.senders.woken == s.senders.woken + (if first == [] then {} else {first[0]})
  {
    hide Inv;
  }
}
