/** The blocking and wake-up protocol of queue.c: critical sections are atomic
    steps, and between two of them interrupts (and, while the scheduler is
    running, other tasks) may step. */
module QueueLock {
  import opened Lists

  type Task = nat

  const UNLOCKED: int := -1
  const LOCKED_UNMODIFIED: int := 0
  const INT8_MAX: int := 127
  const INT8_MIN: int := -128

  function Min(a: nat, b: nat): nat { if a < b then a else b }

  function Max(a: int, b: int): int { if a < b then b else a }

  /** The lock counts are int8_t and nothing guards their increment. */
  function IncrementInt8(c: int): int { if c == INT8_MAX then INT8_MIN else c + 1 }

  /** One direction of a queue: an event list, the lock count that stands in for
      it while the queue is locked (cTxLock for receivers, cRxLock for senders),
      and the tasks taken off the list by an event that have not yet retried. */
  datatype Side = Side(waiters: seq<Task>, lock: int, woken: set<Task>) {

    /** xTaskRemoveFromEventList behind its not-empty check. */
    function WakeOne(): Side {
      if waiters == [] then this
      else this.(waiters := waiters[1..], woken := woken + {waiters[0]})
    }

    /** What an interrupt does: wake when unlocked, else count in an int8_t. */
    function Notify(): Side {
      if lock == UNLOCKED then WakeOne()
      else this.(lock := IncrementInt8(lock))
    }

    function Lock(): Side {
      if lock == UNLOCKED then this.(lock := LOCKED_UNMODIFIED) else this
    }

    /** prvUnlockQueue: as many wake-ups as were counted, as far as waiters last. */
    function Unlock(): Side {
      var k := Min(Max(lock, 0), |waiters|);
      Side(waiters[k..], UNLOCKED, woken + (set i | 0 <= i < k :: waiters[i]))
    }

    function Retried(t: Task): Side { this.(woken := woken - {t}) }

    function Withdraw(t: Task): Side { this.(waiters := Remove(waiters, t)) }
  }

  /** Nobody sleeps on a resource that no wake-up, given or counted, accounts for. */
  ghost predicate NoLostWakeUp(s: Side, available: int) {
    s.waiters != [] ==> available <= |s.woken| + Max(s.lock, 0)
  }

  datatype Op = Receive | Peek | Send | Overwrite

  predicate WaitsForData(op: Op) { op.Receive? || op.Peek? }

  /** What follows once the queue is unlocked: sleep, look again, or give up. */
  datatype After = Sleep | Again | Expired

  /** Where a task is inside xQueueGenericSend or xQueueGenericReceive. */
  datatype Pc =
    | Outside
    | Top(op: Op, canBlock: bool)       // about to enter the first critical section
    | Entry(op: Op)                     // resource missing, before vTaskSuspendAll
    | Suspended(op: Op)                 // scheduler suspended, before prvLockQueue
    | Locked(op: Op)                    // before xTaskCheckForTimeOut
    | Checked(op: Op)                   // before prvIsQueueEmpty / prvIsQueueFull
    | Placing(op: Op)                   // before vTaskPlaceOnEventList
    | UnlockingTx(op: Op, next: After)  // before the cTxLock half of prvUnlockQueue
    | UnlockingRx(op: Op, next: After)  // before the cRxLock half
    | Resuming(op: Op, next: After)     // before xTaskResumeAll
    | ExpiredEmpty(op: Op)              // receive only: the last look after a timeout

  datatype Holder = Nobody | By(task: Task)

  datatype System = System(
    length: nat,
    messages: nat,
    receivers: Side,
    senders: Side,
    holder: Holder,             // the task that has the scheduler suspended
    pc: map<Task, Pc>,
    itemValue: map<Task, int>)  // event list item values, the smaller the more urgent

  datatype Event =
    | Start(t: Task, op: Op, canBlock: bool)
    | Try(t: Task)
    | SuspendAll(t: Task)
    | LockQueue(t: Task)
    | CheckTimeOut(t: Task, expired: bool)
    | CheckResource(t: Task)
    | Place(t: Task)
    | UnlockTx(t: Task)
    | UnlockRx(t: Task)
    | ResumeAll(t: Task)
    | LastLook(t: Task)
    | SendFromISR(overwrite: bool)
    | ReceiveFromISR
    | Leave(t: Task)            // a waiter times out, or vTaskSuspend takes it away
    | ChangeItemValue(t: Task, value: int)

  /** The tasks that may execute: all of them, or only the one that suspended the
      scheduler.  A task on an event list still unlocks the queue and resumes the
      scheduler; that it is off the list again is what Try asks for. */
  predicate Runs(s: System, t: Task) {
    && t in s.pc
    && (s.holder == Nobody || s.holder == By(t))
  }

  predicate Asleep(s: System, t: Task) {
    t in s.receivers.waiters || t in s.senders.waiters
  }

  function Free(s: System): int { s.length - s.messages }

  predicate ResourceThere(s: System, op: Op) {
    match op
    case Receive => s.messages > 0
    case Peek => s.messages > 0
    case Send => s.messages < s.length
    case Overwrite => true
  }

  predicate Enabled(s: System, e: Event) {
    match e
    case Start(t, op, canBlock) =>
      && Runs(s, t) && s.pc[t] == Outside
      && (op == Overwrite ==> s.length == 1)
      && (s.holder == By(t) ==> !canBlock)
    case Try(t) => Runs(s, t) && s.pc[t].Top? && !Asleep(s, t)
    case SuspendAll(t) => Runs(s, t) && (s.pc[t].Entry? || (s.pc[t] == Outside && s.holder == Nobody))
    case LockQueue(t) => Runs(s, t) && s.pc[t].Suspended?
    case CheckTimeOut(t, _) => Runs(s, t) && s.pc[t].Locked?
    case CheckResource(t) => Runs(s, t) && s.pc[t].Checked?
    case Place(t) => Runs(s, t) && s.pc[t].Placing? && ItemValues(s)
    case UnlockTx(t) => Runs(s, t) && s.pc[t].UnlockingTx?
    case UnlockRx(t) => Runs(s, t) && s.pc[t].UnlockingRx?
    case ResumeAll(t) => Runs(s, t) && s.holder == By(t) && (s.pc[t].Resuming? || s.pc[t] == Outside)
    case LastLook(t) => Runs(s, t) && s.pc[t].ExpiredEmpty?
    case SendFromISR(overwrite) => overwrite ==> s.length == 1
    case ReceiveFromISR => true
    case Leave(t) => s.holder == Nobody && Asleep(s, t)
    case ChangeItemValue(t, _) => t in s.pc
  }

  /** A successful transfer seen by the two sides: a send notifies the receivers
      and a receive the senders; a peek passes its wake-up on (queue.c:1312-1329). */
  function Transfer(s: System, op: Op): System
    requires ResourceThere(s, op)
  {
    match op
    case Receive => s.(messages := s.messages - 1, senders := s.senders.WakeOne())
    case Peek => s.(receivers := s.receivers.WakeOne())
    case Send => s.(messages := s.messages + 1, receivers := s.receivers.WakeOne())
    case Overwrite => s.(messages := if s.messages > 0 then s.messages else s.messages + 1,
                         receivers := s.receivers.WakeOne())
  }

  function Retry(s: System, t: Task): System {
    s.(receivers := s.receivers.Retried(t), senders := s.senders.Retried(t))
  }

  function Goto(s: System, t: Task, pc: Pc): System { s.(pc := s.pc[t := pc]) }

  function PlaceOn(s: System, t: Task, op: Op): System
    requires t in s.itemValue && forall y :: y in s.receivers.waiters ==> y in s.itemValue
    requires forall y :: y in s.senders.waiters ==> y in s.itemValue
  {
    if WaitsForData(op)
    then s.(receivers := s.receivers.(waiters := InsertSorted(s.receivers.waiters, t, s.itemValue)))
    else s.(senders := s.senders.(waiters := InsertSorted(s.senders.waiters, t, s.itemValue)))
  }

  /** The first critical section of the send and receive loops. */
  function TryOnce(s: System, t: Task, op: Op, canBlock: bool): System {
    if ResourceThere(s, op) then Goto(Transfer(Retry(s, t), op), t, Outside)
    else Goto(Retry(s, t), t, if canBlock then Entry(op) else Outside)
  }

  function Step(s: System, e: Event): System
    requires Enabled(s, e)
  {
    match e
    case Start(t, op, canBlock) => Goto(s, t, Top(op, canBlock))
    case Try(t) => TryOnce(s, t, s.pc[t].op, s.pc[t].canBlock)
    case SuspendAll(t) =>
      Goto(s, t, if s.pc[t] == Outside then Outside else Suspended(s.pc[t].op)).(holder := By(t))
    case LockQueue(t) =>
      Goto(s, t, Locked(s.pc[t].op)).(receivers := s.receivers.Lock(), senders := s.senders.Lock())
    case CheckTimeOut(t, expired) =>
      var op := s.pc[t].op;
      Goto(s, t, if expired then UnlockingTx(op, Expired) else Checked(op))
    case CheckResource(t) =>
      var op := s.pc[t].op;
      Goto(s, t, if ResourceThere(s, op) then UnlockingTx(op, Again) else Placing(op))
    case Place(t) =>
      Goto(PlaceOn(s, t, s.pc[t].op), t, UnlockingTx(s.pc[t].op, Sleep))
    case UnlockTx(t) =>
      Goto(s, t, UnlockingRx(s.pc[t].op, s.pc[t].next)).(receivers := s.receivers.Unlock())
    case UnlockRx(t) =>
      Goto(s, t, Resuming(s.pc[t].op, s.pc[t].next)).(senders := s.senders.Unlock())
    case ResumeAll(t) =>
      var r := s.(holder := Nobody);
      if s.pc[t] == Outside then r else
      var op := s.pc[t].op;
      Goto(r, t, match s.pc[t].next
                 case Expired => if WaitsForData(op) then ExpiredEmpty(op) else Outside
                 case _ => Top(op, true))
    case LastLook(t) =>
      Goto(s, t, if s.messages == 0 then Outside else Top(s.pc[t].op, true))
    case SendFromISR(overwrite) =>
      if s.messages < s.length || overwrite then
        s.(messages := if overwrite && s.messages > 0 then s.messages else s.messages + 1,
           receivers := s.receivers.Notify())
      else s
    case ReceiveFromISR =>
      if s.messages > 0 then s.(messages := s.messages - 1, senders := s.senders.Notify()) else s
    case Leave(t) => s.(receivers := s.receivers.Withdraw(t), senders := s.senders.Withdraw(t))
    case ChangeItemValue(t, value) => s.(itemValue := s.itemValue[t := value])
  }

  predicate ItemValues(s: System) {
    && s.pc.Keys == s.itemValue.Keys
    && (forall t :: t in s.receivers.waiters ==> t in s.itemValue)
    && (forall t :: t in s.senders.waiters ==> t in s.itemValue)
  }

  /** The only step that the int8_t counters do not survive. */
  predicate CountFits(s: System, e: Event) {
    match e
    case SendFromISR(_) => s.receivers.lock < INT8_MAX
    case ReceiveFromISR => s.senders.lock < INT8_MAX
    case _ => true
  }

  // ---------------------------------------------------------------- invariant

  predicate InsideSuspension(pc: Pc) {
    pc.Suspended? || pc.Locked? || pc.Checked? || pc.Placing? || pc.UnlockingTx? || pc.UnlockingRx? || pc.Resuming?
  }

  /** A task on an event list, or woken from one, is on its way back to the loop's top. */
  predicate Sleeper(pc: Pc, data: bool) {
    && (pc.Top? || pc.UnlockingTx? || pc.UnlockingRx? || pc.Resuming?)
    && (if pc.Top? then pc.canBlock else pc.next == Sleep)
    && pc.op != Overwrite
    && WaitsForData(pc.op) == data
  }

  ghost predicate SideOk(side: Side, pc: map<Task, Pc>, data: bool) {
    && NoDup(side.waiters)
    && (forall t :: t in side.waiters ==> t in pc && Sleeper(pc[t], data) && t !in side.woken)
    && (forall t :: t in side.woken ==> t in pc && Sleeper(pc[t], data))
    && UNLOCKED <= side.lock <= INT8_MAX
  }

  predicate HoldsLock(pc: Pc) { pc.Locked? || pc.Checked? || pc.Placing? || pc.UnlockingTx? }

  /** The queue is locked exactly while the holder is between lock and unlock. */
  predicate LocksOk(s: System) {
    match s.holder
    case Nobody => s.receivers.lock == UNLOCKED && s.senders.lock == UNLOCKED
    case By(t) =>
      && t in s.pc
      && (s.receivers.lock != UNLOCKED <==> HoldsLock(s.pc[t]))
      && (s.senders.lock != UNLOCKED <==> HoldsLock(s.pc[t]) || s.pc[t].UnlockingRx?)
  }

  /** Between finding the resource missing and joining the event list, every unit
      that turned up was counted by the lock. */
  predicate PlacingOk(s: System) {
    s.holder != Nobody && s.holder.task in s.pc && s.pc[s.holder.task].Placing? ==>
      var op := s.pc[s.holder.task].op;
      && op != Overwrite
      && (if WaitsForData(op) then s.messages <= s.receivers.lock else Free(s) <= s.senders.lock)
  }

  /** Only the holder is inside a suspension, and an overwrite never blocks. */
  ghost predicate ProgramsOk(s: System) {
    && (forall t :: t in s.pc && InsideSuspension(s.pc[t]) ==> s.holder == By(t))
    && (forall t :: t in s.pc && s.pc[t] != Outside && s.pc[t].op == Overwrite ==> s.pc[t].Top? && s.length == 1)
  }

  ghost predicate Inv(s: System) {
    && s.messages <= s.length
    && ItemValues(s)
    && ProgramsOk(s)
    && SideOk(s.receivers, s.pc, true)
    && SideOk(s.senders, s.pc, false)
    && LocksOk(s)
    && PlacingOk(s)
    && NoLostWakeUp(s.receivers, s.messages)
    && NoLostWakeUp(s.senders, Free(s))
  }

  ghost predicate Initial(s: System) {
    && s.messages <= s.length
    && s.pc.Keys == s.itemValue.Keys
    && s.receivers == Side([], UNLOCKED, {})
    && s.senders == Side([], UNLOCKED, {})
    && s.holder == Nobody
    && forall t :: t in s.pc ==> s.pc[t] == Outside
  }

  // ---------------------------------------------------------------- the steps

  lemma WakeOneKeeps(side: Side, pc: map<Task, Pc>, data: bool)
    requires SideOk(side, pc, data)
    ensures SideOk(side.WakeOne(), pc, data)
    ensures side.waiters != [] ==> |side.WakeOne().woken| == |side.woken| + 1
  {
  }

  lemma {:induction false} UnlockKeeps(side: Side, pc: map<Task, Pc>, data: bool, available: int)
    requires SideOk(side, pc, data)
    requires NoLostWakeUp(side, available)
    ensures SideOk(side.Unlock(), pc, data)
    ensures NoLostWakeUp(side.Unlock(), available)
    ensures side.Unlock().lock == UNLOCKED
    ensures forall t :: t in side.Unlock().waiters ==> t in side.waiters
    decreases side.lock
  {
    if side.waiters == [] || side.lock <= 0 {
      assert side.waiters[0..] == side.waiters;
    } else {
      var next := side.WakeOne().(lock := side.lock - 1);
      WakeOneKeeps(side, pc, data);
      UnlockKeeps(next, pc, data, available);
      UnlockPeels(side);
    }
  }

  /** One turn of the loop in prvUnlockQueue. */
  lemma UnlockPeels(side: Side)
    requires side.waiters != [] && side.lock > 0
    ensures side.Unlock() == side.WakeOne().(lock := side.lock - 1).Unlock()
  {
  }

  /** Moving one task's program counter disturbs neither side as long as a task
      that sleeps or was woken stays on its way back to the loop's top. */
  lemma GotoKeepsSides(s: System, t: Task, to: Pc)
    requires SideOk(s.receivers, s.pc, true) && SideOk(s.senders, s.pc, false) && t in s.pc
    requires forall data :: Sleeper(s.pc[t], data) ==> Sleeper(to, data)
    ensures SideOk(s.receivers, s.pc[t := to], true) && SideOk(s.senders, s.pc[t := to], false)
  {
  }

  lemma UnlockTxKeeps(s: System, t: Task)
    requires Inv(s) && Enabled(s, UnlockTx(t))
    ensures Inv(Step(s, UnlockTx(t)))
  {
    hide Side.Unlock, SideOk;
    UnlockKeeps(s.receivers, s.pc, true, s.messages);
    GotoKeepsSides(s.(receivers := s.receivers.Unlock()), t, UnlockingRx(s.pc[t].op, s.pc[t].next));
  }

  lemma UnlockRxKeeps(s: System, t: Task)
    requires Inv(s) && Enabled(s, UnlockRx(t))
    ensures Inv(Step(s, UnlockRx(t)))
  {
    hide Side.Unlock, SideOk;
    UnlockKeeps(s.senders, s.pc, false, Free(s));
    GotoKeepsSides(s.(senders := s.senders.Unlock()), t, Resuming(s.pc[t].op, s.pc[t].next));
  }

  lemma SendFromISRKeeps(s: System, overwrite: bool)
    requires Inv(s) && Enabled(s, SendFromISR(overwrite)) && s.receivers.lock < INT8_MAX
    ensures Inv(Step(s, SendFromISR(overwrite)))
  {
    hide SideOk;
    NotifyKeeps(s.receivers, s.pc, true, s.messages);
  }

  lemma ReceiveFromISRKeeps(s: System)
    requires Inv(s) && s.senders.lock < INT8_MAX
    ensures Inv(Step(s, ReceiveFromISR))
  {
    hide SideOk;
    NotifyKeeps(s.senders, s.pc, false, Free(s));
  }

  lemma NotifyKeeps(side: Side, pc: map<Task, Pc>, data: bool, available: int)
    requires SideOk(side, pc, data) && side.lock < INT8_MAX && NoLostWakeUp(side, available)
    ensures SideOk(side.Notify(), pc, data) && NoLostWakeUp(side.Notify(), available + 1)
    ensures side.lock == UNLOCKED <==> side.Notify().lock == UNLOCKED
    ensures side.lock != UNLOCKED ==> side.Notify() == side.(lock := side.lock + 1)
    ensures forall t :: t in side.Notify().waiters ==> t in side.waiters
  {
  }

  /** Retrying uses the wake-up up and leaves the task free to go anywhere. */
  lemma RetriedKeeps(side: Side, pc: map<Task, Pc>, data: bool, t: Task, to: Pc)
    requires SideOk(side, pc, data) && t !in side.waiters
    ensures SideOk(side.Retried(t), pc[t := to], data)
    ensures t in side.woken ==> t in pc && Sleeper(pc[t], data)
  {
  }

  lemma TryKeeps(s: System, t: Task, op: Op, canBlock: bool)
    requires Inv(s) && t in s.pc && s.pc[t] == Top(op, canBlock) && !Asleep(s, t)
    requires s.holder == Nobody || s.holder == By(t)
    ensures Inv(TryOnce(s, t, op, canBlock))
  {
    hide SideOk, ProgramsOk, ItemValues, NoLostWakeUp;
    var n := TryOnce(s, t, op, canBlock);
    TryKeepsPrograms(s, t, n, n.pc[t]);
    RetriedKeeps(s.receivers, s.pc, true, t, n.pc[t]);
    RetriedKeeps(s.senders, s.pc, false, t, n.pc[t]);
    if ResourceThere(s, op) {
      TransferKeeps(s, t, op, n.pc[t]);
    } else {
      TryFails(s, t, op);
    }
    TryKeepsItemValues(s, t, op, canBlock);
  }

  lemma TryFails(s: System, t: Task, op: Op)
    requires !ResourceThere(s, op) && s.messages <= s.length
    requires NoLostWakeUp(s.receivers, s.messages) && NoLostWakeUp(s.senders, Free(s))
    requires t in s.receivers.woken ==> WaitsForData(op)
    requires t in s.senders.woken ==> op == Send
    ensures NoLostWakeUp(s.receivers.Retried(t), s.messages) && NoLostWakeUp(s.senders.Retried(t), Free(s))
  {
  }

  lemma TryKeepsItemValues(s: System, t: Task, op: Op, canBlock: bool)
    requires ItemValues(s) && t in s.pc
    ensures ItemValues(TryOnce(s, t, op, canBlock))
  {
  }

  lemma TryKeepsPrograms(s: System, t: Task, n: System, to: Pc)
    requires ProgramsOk(s) && t in s.pc && s.pc[t].Top?
    requires n.pc == s.pc[t := to] && n.holder == s.holder && n.length == s.length
    requires to == Outside || (to == Entry(s.pc[t].op) && s.pc[t].op != Overwrite)
    ensures ProgramsOk(n)
    ensures s.pc[t].op == Overwrite ==> s.length == 1
  {
  }

  /** A successful retry: the unit it takes pays for the wake-up it uses up, and a
      unit it adds, or leaves behind after a peek, comes with a new wake-up. */
  lemma TransferKeeps(s: System, t: Task, op: Op, to: Pc)
    requires ResourceThere(s, op) && s.messages <= s.length && (op == Overwrite ==> s.length == 1)
    requires s.receivers.lock == UNLOCKED && s.senders.lock == UNLOCKED
    requires NoLostWakeUp(s.receivers, s.messages) && NoLostWakeUp(s.senders, Free(s))
    requires SideOk(s.receivers.Retried(t), s.pc[t := to], true)
    requires SideOk(s.senders.Retried(t), s.pc[t := to], false)
    requires t in s.receivers.woken ==> WaitsForData(op)
    requires t in s.senders.woken ==> op == Send
    ensures var n := Transfer(Retry(s, t), op);
      && n.messages <= s.length
      && SideOk(n.receivers, s.pc[t := to], true) && SideOk(n.senders, s.pc[t := to], false)
      && NoLostWakeUp(n.receivers, n.messages) && NoLostWakeUp(n.senders, Free(n))
      && n.receivers.lock == UNLOCKED && n.senders.lock == UNLOCKED
  {
    hide SideOk;
    WakeOneKeeps(s.receivers.Retried(t), s.pc[t := to], true);
    WakeOneKeeps(s.senders.Retried(t), s.pc[t := to], false);
    RetriedCount(s.receivers, t);
    RetriedCount(s.senders, t);
  }

  lemma RetriedCount(side: Side, t: Task)
    ensures |side.Retried(t).woken| == |side.woken| - if t in side.woken then 1 else 0
  {
  }

  lemma PlaceKeeps(s: System, t: Task)
    requires Inv(s) && Enabled(s, Place(t))
    ensures Inv(Step(s, Place(t)))
  {
    var op := s.pc[t].op;
    var to := UnlockingTx(op, Sleep);
    PlaceKeepsSide(if WaitsForData(op) then s.receivers else s.senders, s, t, WaitsForData(op), to);
    PlaceMovesOther(if WaitsForData(op) then s.senders else s.receivers, s.pc, t, !WaitsForData(op), to);
    hide SideOk;
  }

  lemma PlaceKeepsSide(side: Side, s: System, t: Task, data: bool, to: Pc)
    requires ItemValues(s) && (side == s.receivers || side == s.senders)
    requires SideOk(side, s.pc, data) && t in s.pc && s.pc[t].Placing? && Sleeper(to, data)
    ensures SideOk(side.(waiters := InsertSorted(side.waiters, t, s.itemValue)), s.pc[t := to], data)
    ensures t !in side.woken
  {
    hide InsertSorted, NoDup, Sorted, Sleeper;
    PlacingIsNoSleeper(side, s.pc, t, data);
    InsertSortedKeeps(side.waiters, t, s.itemValue);
  }

  lemma PlacingIsNoSleeper(side: Side, pc: map<Task, Pc>, t: Task, data: bool)
    requires SideOk(side, pc, data) && t in pc && pc[t].Placing?
    ensures t !in side.waiters && t !in side.woken
  {
    hide NoDup;
  }

  lemma PlaceMovesOther(side: Side, pc: map<Task, Pc>, t: Task, data: bool, to: Pc)
    requires SideOk(side, pc, data) && t in pc && pc[t].Placing?
    ensures SideOk(side, pc[t := to], data)
  {
  }

  lemma LeaveKeeps(s: System, t: Task)
    requires Inv(s) && Enabled(s, Leave(t))
    ensures Inv(Step(s, Leave(t)))
  {
    WithdrawKeeps(s.receivers, s.pc, t, true);
    WithdrawKeeps(s.senders, s.pc, t, false);
    hide SideOk;
  }

  lemma WithdrawKeeps(side: Side, pc: map<Task, Pc>, t: Task, data: bool)
    requires SideOk(side, pc, data)
    ensures SideOk(side.Withdraw(t), pc, data)
    ensures side.waiters == [] ==> side.Withdraw(t).waiters == []
  {
    RemoveKeeps(side.waiters, t);
  }

  lemma LockBound(side: Side, pc: map<Task, Pc>, data: bool)
    requires SideOk(side, pc, data)
    ensures UNLOCKED <= side.lock
  {
  }

  lemma MoveKeeps(s: System, e: Event)
    requires Inv(s) && Enabled(s, e)
    requires e.Start? || e.CheckTimeOut? || e.CheckResource? || e.LastLook?
    ensures Inv(Step(s, e))
  {
    hide SideOk;
    LockBound(s.receivers, s.pc, true);
    LockBound(s.senders, s.pc, false);
    var n := Step(s, e);
    GotoKeepsSides(s, e.t, n.pc[e.t]);
    assert n == Goto(s, e.t, n.pc[e.t]) && ProgramsOk(n);
  }

  lemma SuspensionKeeps(s: System, e: Event)
    requires Inv(s) && Enabled(s, e)
    requires e.SuspendAll? || e.ResumeAll?
    ensures Inv(Step(s, e))
  {
    hide SideOk;
    assert s.pc[e.t := s.pc[e.t]] == s.pc;
    var n := Step(s, e);
    GotoKeepsSides(s, e.t, n.pc[e.t]);
    assert SideOk(n.receivers, n.pc, true) && SideOk(n.senders, n.pc, false);
    assert ProgramsOk(n);
  }

  lemma LockQueueKeeps(s: System, t: Task)
    requires Inv(s) && Enabled(s, LockQueue(t))
    ensures Inv(Step(s, LockQueue(t)))
  {
    var to := Locked(s.pc[t].op);
    GotoKeepsSides(s, t, to);
    assert SideOk(s.receivers.Lock(), s.pc[t := to], true);
    assert SideOk(s.senders.Lock(), s.pc[t := to], false);
    hide SideOk;
  }

  /** Every step of every task and every interrupt keeps the invariant. */
  lemma StepKeeps(s: System, e: Event)
    requires Inv(s) && Enabled(s, e) && CountFits(s, e)
    ensures Inv(Step(s, e))
  {
    match e
    case Start(_, _, _) => MoveKeeps(s, e);
    case Try(t) => TryKeeps(s, t, s.pc[t].op, s.pc[t].canBlock);
    case SuspendAll(_) => SuspensionKeeps(s, e);
    case LockQueue(t) => LockQueueKeeps(s, t);
    case CheckTimeOut(_, _) => MoveKeeps(s, e);
    case CheckResource(_) => MoveKeeps(s, e);
    case Place(t) => PlaceKeeps(s, t);
    case UnlockTx(t) => UnlockTxKeeps(s, t);
    case UnlockRx(t) => UnlockRxKeeps(s, t);
    case ResumeAll(_) => SuspensionKeeps(s, e);
    case LastLook(_) => MoveKeeps(s, e);
    case SendFromISR(overwrite) => SendFromISRKeeps(s, overwrite);
    case ReceiveFromISR => ReceiveFromISRKeeps(s);
    case Leave(t) => LeaveKeeps(s, t);
    case ChangeItemValue(_, _) =>
  }

  // ---------------------------------------------------------------- whole runs

  /** The states an interleaving passes through. */
  ghost predicate Run(states: seq<System>, events: seq<Event>) {
    && |states| == |events| + 1
    && Initial(states[0])
    && forall i :: 0 <= i < |events| ==>
         Enabled(states[i], events[i]) && CountFits(states[i], events[i]) && states[i + 1] == Step(states[i], events[i])
  }

  lemma {:induction false} RunKeeps(states: seq<System>, events: seq<Event>, n: nat)
    requires Run(states, events) && n < |states|
    ensures Inv(states[n])
  {
    if n > 0 {
      RunKeeps(states, events, n - 1);
      StepKeeps(states[n - 1], events[n - 1]);
    }
  }

  /** The promise of the lock protocol, in every interleaving: while the scheduler
      runs and a receiver sleeps, every message is matched by a woken receiver that
      can go and fetch it; and likewise free space for senders. */
  lemma NoWakeUpIsLost(states: seq<System>, events: seq<Event>, n: nat)
    requires Run(states, events) && n < |states| && states[n].holder == Nobody
    ensures var s := states[n];
      && (s.receivers.waiters != [] ==> s.messages <= |s.receivers.woken|)
      && (s.senders.waiters != [] ==> Free(s) <= |s.senders.woken|)
      && (forall t :: t in s.receivers.woken || t in s.senders.woken ==> Enabled(s, Try(t)))
  {
    RunKeeps(states, events, n);
    WokenCanTry(states[n]);
  }

  lemma WokenCanTry(s: System)
    requires Inv(s) && s.holder == Nobody
    ensures forall t :: t in s.receivers.woken || t in s.senders.woken ==> Enabled(s, Try(t))
  {
  }

  /** Once nobody is on the way back from a wake-up, a receiver sleeps only on an
      empty queue and a sender only on a full one. */
  lemma SleepersAreJustified(states: seq<System>, events: seq<Event>, n: nat)
    requires Run(states, events) && n < |states| && states[n].holder == Nobody
    requires states[n].receivers.woken == {} && states[n].senders.woken == {}
    ensures states[n].receivers.waiters != [] ==> states[n].messages == 0
    ensures states[n].senders.waiters != [] ==> states[n].messages == states[n].length
  {
    NoWakeUpIsLost(states, events, n);
    RunKeeps(states, events, n);
  }

  // ------------------------------------------- where the promise stops holding

  /** xQueueGenericReset on a queue in use. */
  function Reset(s: System): System {
    s.(messages := 0,
       receivers := s.receivers.(lock := UNLOCKED),
       senders := s.senders.(lock := UNLOCKED).WakeOne())
  }

  /** A reset frees the whole queue but wakes one sender, so it strands senders
      exactly when a second one waits and too few are already on their way. */
  lemma ResetStrandsExactly(s: System)
    requires Inv(s) && s.receivers.lock == UNLOCKED && s.senders.lock == UNLOCKED
    ensures NoLostWakeUp(Reset(s).receivers, Reset(s).messages)
    ensures NoLostWakeUp(Reset(s).senders, Free(Reset(s)))
       <==> |s.senders.waiters| <= 1 || s.length <= |s.senders.woken| + 1
  {
  }

  lemma ResetCanStrandASender()
    ensures exists s :: Inv(s) && s.holder == Nobody && !NoLostWakeUp(Reset(s).senders, Free(Reset(s)))
  {
    var s := System(2, 2, Side([], UNLOCKED, {}), Side([0, 1], UNLOCKED, {}), Nobody,
                    map[0 := Top(Send, true), 1 := Top(Send, true)], map[0 := 1, 1 := 1]);
    assert Inv(s);
    ResetStrandsExactly(s);
  }

  /** The 128th interrupt while the queue is locked wraps the count below zero, and
      the unlock then wakes nobody: exactly then can a wake-up be lost. */
  lemma CountOverflowLosesExactly(side: Side, pc: map<Task, Pc>, data: bool, available: int)
    requires SideOk(side, pc, data) && side.lock != UNLOCKED && side.waiters != []
    requires NoLostWakeUp(side, available)
    ensures NoLostWakeUp(side.Notify().Unlock(), available + 1)
       <==> side.lock < INT8_MAX || available + 1 <= |side.woken|
  {
    if side.lock < INT8_MAX {
      NotifyKeeps(side, pc, data, available);
      UnlockKeeps(side.Notify(), pc, data, available + 1);
    } else {
      assert side.Notify().Unlock().woken == side.woken;
    }
  }

  /** One receiver sleeps, another has the queue locked, and 127 interrupts have sent. */
  function Counted(): System {
    System(200, INT8_MAX, Side([0], INT8_MAX, {}), Side([], LOCKED_UNMODIFIED, {}), By(1),
           map[0 := Top(Receive, true), 1 := Locked(Receive)], map[0 := 1, 1 := 1])
  }

  /** One more interrupt, the other receiver's time-out and its unlock: 128 messages are
      there and the receiver sleeps on, with no wake-up given or counted. */
  lemma CountOverflowCanStrandAReceiver()
    ensures Inv(Counted()) && Enabled(Counted(), SendFromISR(false)) && !CountFits(Counted(), SendFromISR(false))
    ensures var a := Step(Counted(), SendFromISR(false));
      Enabled(a, CheckTimeOut(1, true)) && Enabled(Step(a, CheckTimeOut(1, true)), UnlockTx(1))
    ensures var r := Step(Step(Step(Counted(), SendFromISR(false)), CheckTimeOut(1, true)), UnlockTx(1));
      r.receivers == Side([0], UNLOCKED, {}) && r.messages == 128 && !NoLostWakeUp(r.receivers, r.messages)
  {
    hide Inv;
    CountedOk();
    OverflowUnlocks();
    var a := Step(Counted(), SendFromISR(false));
    assert a == Counted().(messages := 128, receivers := Counted().receivers.Notify());
    hide Side.Unlock, Side.Notify;
    var b := Step(a, CheckTimeOut(1, true));
    assert b == a.(pc := a.pc[1 := UnlockingTx(Receive, Expired)]);
    assert Step(b, UnlockTx(1)).receivers == b.receivers.Unlock();
  }

  lemma OverflowUnlocks()
    ensures Counted().receivers.Notify().Unlock() == Side([0], UNLOCKED, {})
    ensures !NoLostWakeUp(Side([0], UNLOCKED, {}), 128)
  {
    hide Side.Unlock;
    UnlockNothing(Counted().receivers.Notify());
  }

  lemma UnlockNothing(side: Side)
    requires side.lock <= 0
    ensures side.Unlock() == side.(lock := UNLOCKED)
  {
    assert side.waiters[0..] == side.waiters;
  }

  lemma CountedOk()
    ensures Inv(Counted())
  {
    hide SideOk;
    CountedSides();
  }

  lemma CountedSides()
    ensures var s := Counted(); SideOk(s.receivers, s.pc, true) && SideOk(s.senders, s.pc, false)
  {
  }

  // ---------------------------------------------------------------- the queue

  /** The bookkeeping half of Queue_t.  Each method is one critical section; `w`
      is the rest of the system, which the queue does not touch. */
  class Queue {
    const length: nat
    var messagesWaiting: nat
    var waitingToReceive: seq<Task>
    var waitingToSend: seq<Task>
    var rxLock: int
    var txLock: int
    ghost var wokenReceivers: set<Task>
    ghost var wokenSenders: set<Task>

    ghost function Receivers(): Side
      reads this
    {
      Side(waitingToReceive, txLock, wokenReceivers)
    }

    ghost function Senders(): Side
      reads this
    {
      Side(waitingToSend, rxLock, wokenSenders)
    }

    ghost function State(w: System): System
      reads this
    {
      w.(length := length, messages := messagesWaiting, receivers := Receivers(), senders := Senders())
    }

    constructor (length: nat)
      ensures this.length == length && messagesWaiting == 0
      ensures Receivers() == Senders() == Side([], UNLOCKED, {})
    {
      this.length := length;
      messagesWaiting := 0;
      waitingToReceive, waitingToSend := [], [];
      rxLock, txLock := UNLOCKED, UNLOCKED;
      wokenReceivers, wokenSenders := {}, {};
    }

    method WakeReceiver()
      modifies this`waitingToReceive, this`wokenReceivers
      ensures Receivers() == old(Receivers().WakeOne())
    {
      if waitingToReceive != [] {
        wokenReceivers := wokenReceivers + {waitingToReceive[0]};
        waitingToReceive := waitingToReceive[1..];
      }
    }

    method WakeSender()
      modifies this`waitingToSend, this`wokenSenders
      ensures Senders() == old(Senders().WakeOne())
    {
      if waitingToSend != [] {
        wokenSenders := wokenSenders + {waitingToSend[0]};
        waitingToSend := waitingToSend[1..];
      }
    }

    /** prvLockQueue */
    method Lock()
      modifies this`rxLock, this`txLock
      ensures Receivers() == old(Receivers().Lock()) && Senders() == old(Senders().Lock())
    {
      if rxLock == UNLOCKED { rxLock := LOCKED_UNMODIFIED; }
      if txLock == UNLOCKED { txLock := LOCKED_UNMODIFIED; }
    }

    /** prvUnlockQueue, first critical section */
    method UnlockTx()
      modifies this`txLock, this`waitingToReceive, this`wokenReceivers
      ensures Receivers() == old(Receivers().Unlock())
    {
      hide Side.Unlock;
      var count := txLock;
      ghost var start := Receivers();
      while count > LOCKED_UNMODIFIED
        invariant txLock == old(txLock)
        invariant Receivers().(lock := count).Unlock() == start.Unlock()
        decreases count
      {
        if waitingToReceive == [] {
          break;
        }
        UnlockPeels(Receivers().(lock := count));
        WakeReceiver();
        count := count - 1;
      }
      UnlockDone(Receivers().(lock := count));
      txLock := UNLOCKED;
    }

    /** prvUnlockQueue, second critical section */
    method UnlockRx()
      modifies this`rxLock, this`waitingToSend, this`wokenSenders
      ensures Senders() == old(Senders().Unlock())
    {
      hide Side.Unlock;
      var count := rxLock;
      ghost var start := Senders();
      while count > LOCKED_UNMODIFIED
        invariant rxLock == old(rxLock)
        invariant Senders().(lock := count).Unlock() == start.Unlock()
        decreases count
      {
        if waitingToSend == [] {
          break;
        }
        UnlockPeels(Senders().(lock := count));
        WakeSender();
        count := count - 1;
      }
      UnlockDone(Senders().(lock := count));
      rxLock := UNLOCKED;
    }

    /** The first critical section of xQueueGenericSend. */
    method TrySend(t: Task, overwrite: bool, ghost w: System) returns (sent: bool)
      requires overwrite ==> length == 1
      modifies this`messagesWaiting, this`waitingToReceive, this`wokenReceivers, this`wokenSenders
      ensures var s, op := old(State(w)), if overwrite then Overwrite else Send;
        && sent == ResourceThere(s, op)
        && State(w) == if sent then Transfer(Retry(s, t), op) else Retry(s, t)
    {
      wokenReceivers, wokenSenders := wokenReceivers - {t}, wokenSenders - {t};
      sent := messagesWaiting < length || overwrite;
      if sent {
        messagesWaiting := (if overwrite && messagesWaiting > 0 then messagesWaiting - 1 else messagesWaiting) + 1;
        WakeReceiver();
      }
    }

    /** The first critical section of xQueueGenericReceive. */
    method TryReceive(t: Task, justPeeking: bool, ghost w: System) returns (received: bool)
      modifies this`messagesWaiting, this`waitingToReceive, this`waitingToSend, this`wokenReceivers, this`wokenSenders
      ensures var s, op := old(State(w)), if justPeeking then Peek else Receive;
        && received == ResourceThere(s, op)
        && State(w) == if received then Transfer(Retry(s, t), op) else Retry(s, t)
    {
      wokenReceivers, wokenSenders := wokenReceivers - {t}, wokenSenders - {t};
      received := messagesWaiting > 0;
      if received {
        if justPeeking {
          WakeReceiver();
        } else {
          messagesWaiting := messagesWaiting - 1;
          WakeSender();
        }
      }
    }

    method GiveFromISR(overwrite: bool, ghost w: System) returns (sent: bool)
      requires overwrite ==> length == 1
      modifies this`messagesWaiting, this`waitingToReceive, this`wokenReceivers, this`txLock
      ensures State(w) == Step(old(State(w)), SendFromISR(overwrite))
      ensures sent == (old(messagesWaiting) < length || overwrite)
    {
      sent := messagesWaiting < length || overwrite;
      if sent {
        messagesWaiting := (if overwrite && messagesWaiting > 0 then messagesWaiting - 1 else messagesWaiting) + 1;
        if txLock == UNLOCKED {
          WakeReceiver();
        } else {
          txLock := IncrementInt8(txLock);
        }
      }
    }

    method TakeFromISR(ghost w: System) returns (received: bool)
      modifies this`messagesWaiting, this`waitingToSend, this`wokenSenders, this`rxLock
      ensures State(w) == Step(old(State(w)), ReceiveFromISR)
      ensures received == (old(messagesWaiting) > 0)
    {
      received := messagesWaiting > 0;
      if received {
        messagesWaiting := messagesWaiting - 1;
        if rxLock == UNLOCKED {
          WakeSender();
        } else {
          rxLock := IncrementInt8(rxLock);
        }
      }
    }

    /** vTaskPlaceOnEventList, as far as this queue sees it. */
    method PlaceOnEventList(t: Task, op: Op, itemValue: map<Task, int>, ghost w: System)
      requires w.itemValue == itemValue && t in itemValue
      requires forall y :: y in waitingToReceive ==> y in itemValue
      requires forall y :: y in waitingToSend ==> y in itemValue
      modifies this`waitingToReceive, this`waitingToSend
      ensures State(w) == PlaceOn(old(State(w)), t, op)
    {
      if WaitsForData(op) {
        waitingToReceive := InsertSorted(waitingToReceive, t, itemValue);
      } else {
        waitingToSend := InsertSorted(waitingToSend, t, itemValue);
      }
    }

    /** xQueueGenericReset with xNewQueue false. */
    method Clear(ghost w: System)
      modifies this
      ensures State(w) == Reset(old(State(w)))
    {
      messagesWaiting := 0;
      rxLock, txLock := UNLOCKED, UNLOCKED;
      WakeSender();
    }
  }

  lemma UnlockDone(side: Side)
    requires side.lock <= 0 || side.waiters == []
    ensures side.Unlock() == side.(lock := UNLOCKED)
  {
  }
}
