/** What the event group calls answer, bit by bit, and what becomes of a bit that a wait
    has consumed. */
module EventAnswers {
  import opened Lists
  import opened TaskLists
  import opened EventGroups

  /** The condition as event_groups.h words it: all of the bits, or any of them. */
  ghost predicate Holds(bits: Word, waited: Word, all: bool) {
    if all then forall b :: b in waited ==> b in bits else exists b :: b in waited && b in bits
  }

  lemma MetExactly(bits: Word, waited: Word, all: bool)
    ensures Met(bits, waited, all) <==> Holds(bits, waited, all)
  {
    if !all && Holds(bits, waited, all) {
      var b :| b in waited && b in bits;
      assert b in bits * waited;
    }
    if !all && Met(bits, waited, all) {
      var b :| b in bits * waited;
    }
  }

  /** What a blocked task's item says about its wait. */
  ghost predicate Stored(value: Word, waited: Word, clear: bool, all: bool) {
    && Waited(value) == waited && (CLEAR_ON_EXIT in value <==> clear) && (WAIT_FOR_ALL in value <==> all)
    && IN_USE in value && UNBLOCKED !in value
  }

  /** t joined the waiters as the last of them, and nobody else's item changed. */
  ghost predicate Joined(g: Group, r: Group, t: Task, waited: Word, clear: bool, all: bool) {
    && r.waiting == g.waiting + [t] && t in r.items && Stored(r.items[t], waited, clear, all)
    && r.items.Keys == g.items.Keys + {t} && forall u :: u in g.items && u != t ==> r.items[u] == g.items[u]
  }

  // ---------------------------------------------------------------- one call

  /** A wait returns at once exactly if its condition holds or it must not block, with the
      bits as they were; it takes the bits it waited for exactly if the condition held and
      it was to clear them.  Otherwise it blocks, and nothing happens to the bits. */
  lemma WaitExact(g: Group, t: Task, waited: Word, clear: bool, all: bool, mayBlock: bool)
    requires Plain(waited)
    ensures var r := WaitBits(g, t, waited, clear, all, mayBlock);
      && (r.Returned? <==> Holds(g.bits, waited, all) || !mayBlock)
      && (forall b :: b in r.group.bits <==> b in g.bits && !(Holds(g.bits, waited, all) && clear && b in waited))
      && (r.Returned? ==> r.value == g.bits && r.group.waiting == g.waiting && r.group.items == g.items)
      && (r.Blocked? ==> Joined(g, r.group, t, waited, clear, all))
  {
    hide Holds, Met, Encode;
    MetExactly(g.bits, waited, all);
    EncodeReads(waited, clear, all);
  }

  /** A rendezvous sets its bits first, whatever comes of it; if all it waits for are there
      then it returns old and new bits together and takes those it waited for. */
  lemma SyncExact(g: Group, t: Task, on: Word, waited: Word, mayBlock: bool)
    requires ListOk(g) && Plain(on) && Plain(waited)
    ensures var s, r, there := SetBits(g, on), Sync(g, t, on, waited, mayBlock), Holds(g.bits + on, waited, true);
      && (r.Returned? <==> there || !mayBlock)
      && (forall b :: b in r.group.bits <==>
            (b in g.bits || b in on) && b !in ToClear(g.waiting, g.items, g.bits + on) && !(there && b in waited))
      && (r.Returned? ==> r.value == (if there then g.bits + on else r.group.bits))
      && (r.Returned? ==> r.group.waiting == s.waiting && r.group.items == s.items)
      && (r.Blocked? ==> Joined(s, r.group, t, waited, true, true))
  {
    SetBitsExact(g, on);
    EncodeReads(waited, true, true);
    MetExactly(g.bits + on, waited, true);
    hide SetBits, ToClear, Matches, Holds, Encode, NoDup;
  }

  lemma ClearExact(g: Group, off: Word)
    ensures var r := ClearBits(g, off);
      && (forall b :: b in r.bits <==> b in g.bits && b !in off) && r.waiting == g.waiting && r.items == g.items
  {
  }

  /** A task that runs again after blocking has its own event item back.  Woken by a set it
      returns the bits it was handed; after a time-out the bits as they are, and it takes
      those it waited for exactly if they came in the meantime and it was to clear them. */
  lemma ResumeExact(g: Group, t: Task, waited: Word, clear: bool, all: bool, own: Word)
    requires t in g.items
    ensures var (value, r) := Resume(g, t, waited, clear, all, own);
      && r.waiting == g.waiting && r.items == g.items[t := own]
      && if UNBLOCKED in g.items[t] then
           value == Waited(g.items[t]) && r.bits == g.bits
         else
           && value == g.bits
           && forall b :: b in r.bits <==> b in g.bits && !(Holds(g.bits, waited, all) && clear && b in waited)
  {
    hide Holds, Met;
    MetExactly(g.bits, waited, all);
  }

  /** A time-out takes the waiter off the list, the others staying in their order. */
  lemma TimeOutExact(g: Group, t: Task) returns (k: nat)
    requires ListOk(g) && t in g.waiting
    ensures k < |g.waiting| && g.waiting[k] == t
    ensures var r := TimeOut(g, t);
      r.waiting == g.waiting[..k] + g.waiting[k + 1..] && t !in r.waiting && r.bits == g.bits && r.items == g.items
  {
    hide NoDup;
    k := RemoveSplit(g.waiting, t);
    RemoveKeeps(g.waiting, t);
  }

  // ---------------------------------------------------------------- consumed bits

  predicate Sets(op: Op, b: nat) { (op.SetOp? || op.SyncOp?) && b in op.on }

  lemma NotSetByStep(g: Group, op: Op, b: nat)
    requires GroupOk(g) && Enabled(g, op) && b !in g.bits && !Sets(op, b)
    ensures b !in Step(g, op).bits
  {
    hide Quiet, Met, Encode, Waited, Matches;
    match op
    case SetOp(on) => SetBitsExact(g, on);
    case SyncOp(t, on, waited, mayBlock) => SyncExact(g, t, on, waited, mayBlock);
    case _ =>
  }

  /** No call but one that sets it brings a bit back. */
  lemma {:induction false} NotSetByRun(g: Group, ops: seq<Op>, b: nat)
    requires GroupOk(g) && CanRun(g, ops) && b !in g.bits && forall op :: op in ops ==> !Sets(op, b)
    ensures GroupOk(After(g, ops)) && b !in After(g, ops).bits
    decreases |ops|
  {
    hide Quiet, NoDup, Enabled, Step, Sets;
    if ops != [] {
      assert ops[0] in ops;
      StepKeeps(g, ops[0]);
      NotSetByStep(g, ops[0], b);
      NotSetByRun(Step(g, ops[0]), ops[1..], b);
    }
  }

  /** A bit that a wait consumed satisfies no later wait until it is set again: a later
      wait that needs it blocks, or gives up with a value that lacks it. */
  lemma ConsumedOnce(g: Group, t: Task, waited: Word, all: bool, mayBlock: bool, ops: seq<Op>, b: nat,
                     u: Task, waited': Word, clear': bool, all': bool, mayBlock': bool)
    requires GroupOk(g) && Enabled(g, WaitOp(t, waited, true, all, mayBlock)) && Holds(g.bits, waited, all) && b in waited
    requires var r := Step(g, WaitOp(t, waited, true, all, mayBlock)); GroupOk(r) && CanRun(r, ops)
    requires (forall op :: op in ops ==> !Sets(op, b)) && Plain(waited') && b in waited' && (all' || waited' == {b})
    ensures var r := After(Step(g, WaitOp(t, waited, true, all, mayBlock)), ops);
      && !Holds(r.bits, waited', all')
      && var a := WaitBits(r, u, waited', clear', all', mayBlock');
         (a.Blocked? <==> mayBlock') && (a.Returned? ==> b !in a.value) && a.group.bits == r.bits
  {
    hide Quiet, NoDup, CanRun, After, Met, Encode;
    WaitExact(g, t, waited, true, all, mayBlock);
    var s := Step(g, WaitOp(t, waited, true, all, mayBlock));
    NotSetByRun(s, ops, b);
    var r := After(s, ops);
    WaitExact(r, u, waited', clear', all', mayBlock');
  }

  // ---------------------------------------------------------------- borrowed items

  /** A priority change rewrites the task's event item exactly if it holds no event bits. */
  lemma SetItemExact(g: Group, t: Task, own: Word)
    requires t in g.items
    ensures var r := SetItem(g, t, own);
      && r.bits == g.bits && r.waiting == g.waiting && r.items.Keys == g.items.Keys
      && r.items[t] == (if IN_USE in g.items[t] then g.items[t] else own)
      && forall u :: u in g.items && u != t ==> r.items[u] == g.items[u]
  {
  }
}
