/** Event groups in the 32-bit build.  A word is the set of its one bits; the top byte
    of an event item's value holds control bits, the rest the bits waited for.  A call
    runs with the scheduler suspended, so it is one step. */
module EventGroups {
  import opened Lists
  import opened TaskLists

  type Word = set<nat>

  const FIRST_CONTROL_BIT: nat := 24   // eventEVENT_BITS_CONTROL_BYTES is 0xff000000
  const CLEAR_ON_EXIT: nat := 24       // eventCLEAR_EVENTS_ON_EXIT_BIT is 0x01000000
  const UNBLOCKED: nat := 25           // eventUNBLOCKED_DUE_TO_BIT_SET is 0x02000000
  const WAIT_FOR_ALL: nat := 26        // eventWAIT_FOR_ALL_BITS is 0x04000000
  const IN_USE: nat := 31              // taskEVENT_LIST_ITEM_VALUE_IN_USE is 0x80000000

  /** No control bits. */
  predicate Plain(w: Word) { forall b :: b in w ==> b < FIRST_CONTROL_BIT }

  /** prvTestWaitCondition */
  predicate Met(bits: Word, waited: Word, all: bool) {
    if all then waited <= bits else bits * waited != {}
  }

  // ---------------------------------------------------------------- item values

  /** What a task that blocks stores in its event item. */
  function Encode(waited: Word, clear: bool, all: bool): Word {
    waited + (if clear then {CLEAR_ON_EXIT} else {}) + (if all then {WAIT_FOR_ALL} else {}) + {IN_USE}
  }

  function Waited(value: Word): Word { set b | b in value && b < FIRST_CONTROL_BIT }

  predicate Matches(bits: Word, value: Word) { Met(bits, Waited(value), WAIT_FOR_ALL in value) }

  /** What a task that its bits woke finds in its event item. */
  function Handed(bits: Word): Word { bits + {UNBLOCKED, IN_USE} }

  /** Control bits and waited-for bits do not get in each other's way. */
  lemma EncodeReads(waited: Word, clear: bool, all: bool)
    requires Plain(waited)
    ensures var v := Encode(waited, clear, all);
      && Waited(v) == waited && (CLEAR_ON_EXIT in v <==> clear) && (WAIT_FOR_ALL in v <==> all)
      && IN_USE in v && UNBLOCKED !in v
  {
  }

  lemma HandedReads(bits: Word)
    requires Plain(bits)
    ensures Waited(Handed(bits)) == bits && UNBLOCKED in Handed(bits) && IN_USE in Handed(bits)
  {
  }

  // ---------------------------------------------------------------- the group

  /** The group, and the event items of all tasks. */
  datatype Group = Group(bits: Word, waiting: seq<Task>, items: map<Task, Word>)

  /** One pass over the waiters: who stays, what the items become, what to clear. */
  datatype Passed = Passed(kept: seq<Task>, items: map<Task, Word>, clear: Word)

  /** The loop of xEventGroupSetBits. */
  function Pass(list: seq<Task>, items: map<Task, Word>, bits: Word, clear: Word): Passed
    requires forall t :: t in list ==> t in items
  {
    if list == [] then Passed([], items, clear)
    else
      var t := list[0];
      if Matches(bits, items[t]) then
        Pass(list[1..], items[t := Handed(bits)], bits, if CLEAR_ON_EXIT in items[t] then clear + Waited(items[t]) else clear)
      else
        var rest := Pass(list[1..], items, bits, clear);
        rest.(kept := [t] + rest.kept)
  }

  /** The bits the satisfied waiters clear on exit. */
  function ToClear(list: seq<Task>, items: map<Task, Word>, bits: Word): Word
    requires forall t :: t in list ==> t in items
  {
    set t, b | t in list && Matches(bits, items[t]) && CLEAR_ON_EXIT in items[t] && b in Waited(items[t]) :: b
  }

  /** The waiters that stay, in their order. */
  function Unsatisfied(list: seq<Task>, items: map<Task, Word>, bits: Word): seq<Task>
    requires forall t :: t in list ==> t in items
  {
    if list == [] then []
    else (if Matches(bits, items[list[0]]) then [] else [list[0]]) + Unsatisfied(list[1..], items, bits)
  }

  ghost predicate AllHanded(list: seq<Task>, items: map<Task, Word>, bits: Word, r: map<Task, Word>)
    requires forall t :: t in list ==> t in items
  {
    && r.Keys == items.Keys
    && forall t :: t in items ==> r[t] == if t in list && Matches(bits, items[t]) then Handed(bits) else items[t]
  }

  /** One pass with one value of the bits wakes exactly the satisfied waiters, gives each
      of them that value, and gathers exactly the bits they clear. */
  lemma {:induction false} PassExact(list: seq<Task>, items: map<Task, Word>, bits: Word, clear: Word)
    requires NoDup(list) && forall t :: t in list ==> t in items
    ensures var r := Pass(list, items, bits, clear);
      && r.kept == Unsatisfied(list, items, bits) && AllHanded(list, items, bits, r.items)
      && r.clear == clear + ToClear(list, items, bits)
  {
    if list != [] {
      var t := list[0];
      var rest := list[1..];
      assert t !in rest && forall u :: u in list <==> u == t || u in rest;
      hide NoDup, Matches, Waited, Handed, ToClear, AllHanded;
      ToClearOn(list, items, bits);
      if Matches(bits, items[t]) {
        var next := items[t := Handed(bits)];
        var cleared := if CLEAR_ON_EXIT in items[t] then clear + Waited(items[t]) else clear;
        PassExact(rest, next, bits, cleared);
        SameUnsatisfied(rest, items, next, bits);
        HandedFirst(list, items, bits, Pass(rest, next, bits, cleared).items);
      } else {
        PassExact(rest, items, bits, clear);
        PassedFirst(list, items, bits, Pass(rest, items, bits, clear).items);
      }
    }
  }

  lemma HandedFirst(list: seq<Task>, items: map<Task, Word>, bits: Word, r: map<Task, Word>)
    requires NoDup(list) && list != [] && (forall t :: t in list ==> t in items) && Matches(bits, items[list[0]])
    requires AllHanded(list[1..], items[list[0] := Handed(bits)], bits, r)
    ensures AllHanded(list, items, bits, r)
  {
    assert list[0] !in list[1..] && forall u :: u in list <==> u == list[0] || u in list[1..];
    hide NoDup, Matches, Handed;
  }

  lemma PassedFirst(list: seq<Task>, items: map<Task, Word>, bits: Word, r: map<Task, Word>)
    requires list != [] && (forall t :: t in list ==> t in items) && !Matches(bits, items[list[0]])
    requires AllHanded(list[1..], items, bits, r)
    ensures AllHanded(list, items, bits, r)
  {
    assert forall u :: u in list <==> u == list[0] || u in list[1..];
    hide Matches, Handed;
  }

  lemma ToClearOn(list: seq<Task>, items: map<Task, Word>, bits: Word)
    requires list != [] && forall t :: t in list ==> t in items
    ensures forall t :: t in list[1..] ==> t in items
    ensures var t := list[0];
      ToClear(list, items, bits) ==
        (if Matches(bits, items[t]) && CLEAR_ON_EXIT in items[t] then Waited(items[t]) else {}) + ToClear(list[1..], items, bits)
  {
    assert forall u :: u in list <==> u == list[0] || u in list[1..];
    hide Matches, Waited;
  }

  lemma {:induction false} SameUnsatisfied(list: seq<Task>, a: map<Task, Word>, b: map<Task, Word>, bits: Word)
    requires forall t :: t in list ==> t in a && t in b && a[t] == b[t]
    ensures Unsatisfied(list, a, bits) == Unsatisfied(list, b, bits) && ToClear(list, a, bits) == ToClear(list, b, bits)
  {
    if list != [] { SameUnsatisfied(list[1..], a, b, bits); }
  }

  lemma {:induction false} UnsatisfiedExact(list: seq<Task>, items: map<Task, Word>, bits: Word)
    requires NoDup(list) && forall t :: t in list ==> t in items
    ensures var r := Unsatisfied(list, items, bits);
      NoDup(r) && forall t :: t in r <==> t in list && !Matches(bits, items[t])
  {
    if list != [] { UnsatisfiedExact(list[1..], items, bits); }
  }

  /** The order of the waiters does not matter to anyone. */
  lemma OrderIsNoMatter(a: seq<Task>, b: seq<Task>, items: map<Task, Word>, bits: Word)
    requires NoDup(a) && NoDup(b) && (forall t :: t in a <==> t in b) && forall t :: t in a ==> t in items
    ensures var x, y := Pass(a, items, bits, {}), Pass(b, items, bits, {});
      && x.items == y.items && x.clear == y.clear && forall t :: t in x.kept <==> t in y.kept
  {
    hide Pass, Unsatisfied, NoDup, ToClear, AllHanded, Matches;
    PassExact(a, items, bits, {});
    PassExact(b, items, bits, {});
    UnsatisfiedExact(a, items, bits);
    UnsatisfiedExact(b, items, bits);
    SameToClear(a, b, items, bits);
    SameHanded(a, b, items, bits, Pass(a, items, bits, {}).items, Pass(b, items, bits, {}).items);
  }

  lemma SameToClear(a: seq<Task>, b: seq<Task>, items: map<Task, Word>, bits: Word)
    requires (forall t :: t in a <==> t in b) && forall t :: t in a ==> t in items
    ensures ToClear(a, items, bits) == ToClear(b, items, bits)
  {
    hide Matches, Waited;
  }

  lemma SameHanded(a: seq<Task>, b: seq<Task>, items: map<Task, Word>, bits: Word, x: map<Task, Word>, y: map<Task, Word>)
    requires (forall t :: t in a <==> t in b) && forall t :: t in a ==> t in items
    requires AllHanded(a, items, bits, x) && AllHanded(b, items, bits, y)
    ensures x == y
  {
    hide Matches, Handed;
  }

  // ---------------------------------------------------------------- the calls

  ghost predicate ListOk(g: Group) {
    && NoDup(g.waiting) && (forall t :: t in g.waiting ==> t in g.items)
    && Plain(g.bits)
  }

  /** A waiter's item is what it stored when it blocked, and it is not satisfied. */
  ghost predicate Quiet(g: Group) {
    forall t :: t in g.waiting && t in g.items ==>
      && IN_USE in g.items[t] && UNBLOCKED !in g.items[t] && Waited(g.items[t]) != {}
      && !Matches(g.bits, g.items[t])
  }

  ghost predicate GroupOk(g: Group) { ListOk(g) && Quiet(g) }

  /** xEventGroupSetBits */
  function SetBits(g: Group, on: Word): Group
    requires forall t :: t in g.waiting ==> t in g.items
  {
    var r := Pass(g.waiting, g.items, g.bits + on, {});
    Group(g.bits + on - r.clear, r.kept, r.items)
  }

  /** xEventGroupClearBits */
  function ClearBits(g: Group, off: Word): Group { g.(bits := g.bits - off) }

  datatype Outcome = Returned(value: Word, group: Group) | Blocked(group: Group)

  /** xEventGroupWaitBits up to where the task blocks. */
  function WaitBits(g: Group, t: Task, waited: Word, clear: bool, all: bool, mayBlock: bool): Outcome {
    if Met(g.bits, waited, all) then Returned(g.bits, if clear then g.(bits := g.bits - waited) else g)
    else if !mayBlock then Returned(g.bits, g)
    else Blocked(g.(waiting := g.waiting + [t], items := g.items[t := Encode(waited, clear, all)]))
  }

  /** xEventGroupSync up to where the task blocks. */
  function Sync(g: Group, t: Task, on: Word, waited: Word, mayBlock: bool): Outcome
    requires forall u :: u in g.waiting ==> u in g.items
  {
    var s := SetBits(g, on);
    if waited <= g.bits + on then Returned(g.bits + on, s.(bits := s.bits - waited))
    else if !mayBlock then Returned(s.bits, s)
    else Blocked(s.(waiting := s.waiting + [t], items := s.items[t := Encode(waited, true, true)]))
  }

  /** The rest of a wait or sync, once the task runs again: what it returns, and the group. */
  function Resume(g: Group, t: Task, waited: Word, clear: bool, all: bool, own: Word): (Word, Group)
    requires t in g.items
  {
    var r := g.(items := g.items[t := own]);
    if UNBLOCKED in g.items[t] then (Waited(g.items[t]), r)
    else (g.bits, if Met(g.bits, waited, all) && clear then r.(bits := g.bits - waited) else r)
  }

  /** The block time of a waiter runs out. */
  function TimeOut(g: Group, t: Task): Group { g.(waiting := Remove(g.waiting, t)) }

  /** vTaskPrioritySet and vTaskPriorityInherit, as far as the event item goes. */
  function SetItem(g: Group, t: Task, own: Word): Group
    requires t in g.items
  {
    if IN_USE in g.items[t] then g else g.(items := g.items[t := own])
  }

  // ---------------------------------------------------------------- what a set does

  /** Setting bits wakes exactly the waiters that old and new bits together satisfy, hands
      each of them that value, and clears exactly what they clear on exit. */
  lemma SetBitsExact(g: Group, on: Word)
    requires ListOk(g) && Plain(on)
    ensures var r := SetBits(g, on);
      && (forall t :: t in r.waiting <==> t in g.waiting && !Matches(g.bits + on, g.items[t]))
      && r.items.Keys == g.items.Keys
      && (forall t :: t in g.waiting && t !in r.waiting ==> r.items[t] == Handed(g.bits + on))
      && (forall t :: t in g.items && (t !in g.waiting || t in r.waiting) ==> r.items[t] == g.items[t])
      && r.bits == (g.bits + on) - ToClear(g.waiting, g.items, g.bits + on)
      && NoDup(r.waiting)
  {
    PassExact(g.waiting, g.items, g.bits + on, {});
    UnsatisfiedExact(g.waiting, g.items, g.bits + on);
    hide Pass, ToClear, Unsatisfied, NoDup;
  }

  lemma FewerBits(a: Word, b: Word, value: Word)
    requires a <= b && !Matches(b, value)
    ensures !Matches(a, value) || Waited(value) == {}
  {
  }

  lemma SetBitsKeeps(g: Group, on: Word)
    requires GroupOk(g) && Plain(on)
    ensures GroupOk(SetBits(g, on))
  {
    SetBitsExact(g, on);
    var r := SetBits(g, on);
    hide Pass, ToClear, NoDup, Matches, Waited;
    forall t | t in r.waiting ensures !Matches(r.bits, r.items[t]) {
      FewerBits(r.bits, g.bits + on, g.items[t]);
    }
  }

  lemma LessIsQuiet(g: Group, bits: Word)
    requires GroupOk(g) && bits <= g.bits
    ensures GroupOk(g.(bits := bits))
  {
  }

  /** Blocking: only a task whose condition is not met joins the waiters. */
  lemma JoinKeeps(g: Group, t: Task, waited: Word, clear: bool, all: bool)
    requires GroupOk(g) && t !in g.waiting && Plain(waited) && waited != {} && !Met(g.bits, waited, all)
    ensures GroupOk(g.(waiting := g.waiting + [t], items := g.items[t := Encode(waited, clear, all)]))
  {
  }

  // ---------------------------------------------------------------- runs

  datatype Op =
    | SetOp(on: Word)
    | ClearOp(off: Word)
    | WaitOp(t: Task, waited: Word, clear: bool, all: bool, mayBlock: bool)
    | SyncOp(t: Task, on: Word, waited: Word, mayBlock: bool)
    | ResumeOp(t: Task, waited: Word, clear: bool, all: bool, own: Word)
    | TimeOutOp(t: Task)
    | SetItemOp(t: Task, own: Word)

  /** What the calls assert.  A waiting task calls nothing, and a value that stands for
      a priority has no control bits. */
  ghost predicate Enabled(g: Group, op: Op) {
    match op
    case SetOp(on) => Plain(on)
    case ClearOp(off) => Plain(off)
    case WaitOp(t, waited, _, _, _) => t !in g.waiting && Plain(waited) && waited != {}
    case SyncOp(t, on, waited, _) => t !in g.waiting && Plain(on) && Plain(waited) && waited != {}
    case ResumeOp(t, waited, _, _, own) => t in g.items && t !in g.waiting && Plain(own)
    case TimeOutOp(t) => t in g.waiting
    case SetItemOp(t, own) => t in g.items && Plain(own)
  }

  function Step(g: Group, op: Op): Group
    requires ListOk(g) && Enabled(g, op)
  {
    match op
    case SetOp(on) => SetBits(g, on)
    case ClearOp(off) => ClearBits(g, off)
    case WaitOp(t, waited, clear, all, mayBlock) => WaitBits(g, t, waited, clear, all, mayBlock).group
    case SyncOp(t, on, waited, mayBlock) => Sync(g, t, on, waited, mayBlock).group
    case ResumeOp(t, waited, clear, all, own) => Resume(g, t, waited, clear, all, own).1
    case TimeOutOp(t) => TimeOut(g, t)
    case SetItemOp(t, own) => SetItem(g, t, own)
  }

  /** Between calls no waiter is left that the bits satisfy. */
  lemma StepKeeps(g: Group, op: Op)
    requires GroupOk(g) && Enabled(g, op)
    ensures GroupOk(Step(g, op))
  {
    hide NoDup, Matches, Waited, Quiet, Pass;
    match op
    case SetOp(on) => SetBitsKeeps(g, on);
    case ClearOp(off) => LessIsQuiet(g, g.bits - off);
    case WaitOp(t, waited, clear, all, mayBlock) =>
      LessIsQuiet(g, g.bits - waited);
      if !Met(g.bits, waited, all) { JoinKeeps(g, t, waited, clear, all); }
    case SyncOp(t, on, waited, mayBlock) => SyncKeeps(g, t, on, waited, mayBlock);
    case ResumeOp(t, waited, clear, all, own) => ResumeKeeps(g, t, waited, own);
    case TimeOutOp(t) => TimeOutKeeps(g, t);
    case SetItemOp(t, own) => SetItemKeeps(g, t, own);
  }

  lemma SyncKeeps(g: Group, t: Task, on: Word, waited: Word, mayBlock: bool)
    requires GroupOk(g) && Enabled(g, SyncOp(t, on, waited, mayBlock))
    ensures GroupOk(Sync(g, t, on, waited, mayBlock).group)
  {
    SetBitsKeeps(g, on);
    SetBitsExact(g, on);
    var s := SetBits(g, on);
    hide SetBits, GroupOk, ToClear;
    LessIsQuiet(s, s.bits - waited);
    if !(waited <= g.bits + on) { JoinKeeps(s, t, waited, true, true); }
  }

  lemma ResumeKeeps(g: Group, t: Task, waited: Word, own: Word)
    requires GroupOk(g) && t in g.items && t !in g.waiting
    ensures GroupOk(g.(items := g.items[t := own]))
    ensures GroupOk(g.(items := g.items[t := own], bits := g.bits - waited))
  {
  }

  lemma TimeOutKeeps(g: Group, t: Task)
    requires GroupOk(g) && t in g.waiting
    ensures GroupOk(TimeOut(g, t)) && t !in TimeOut(g, t).waiting
  {
    RemoveKeeps(g.waiting, t);
    hide NoDup, Matches, Waited, Remove;
  }

  lemma SetItemKeeps(g: Group, t: Task, own: Word)
    requires GroupOk(g) && t in g.items
    ensures GroupOk(SetItem(g, t, own))
  {
  }

  /** The task a call is made by. */
  predicate By(op: Op, t: Task) {
    match op
    case WaitOp(u, _, _, _, _) => u == t
    case SyncOp(u, _, _, _) => u == t
    case ResumeOp(u, _, _, _, _) => u == t
    case _ => false
  }

  ghost predicate CanRun(g: Group, ops: seq<Op>)
    requires GroupOk(g)
    decreases |ops|
  {
    ops == [] || (Enabled(g, ops[0]) && (StepKeeps(g, ops[0]); CanRun(Step(g, ops[0]), ops[1..])))
  }

  function After(g: Group, ops: seq<Op>): Group
    requires GroupOk(g) && CanRun(g, ops)
    decreases |ops|
  {
    if ops == [] then g else StepKeeps(g, ops[0]); After(Step(g, ops[0]), ops[1..])
  }

  /** A value handed to a woken task is left alone by everyone else, priority changes included. */
  lemma HandedStays(g: Group, op: Op, t: Task)
    requires GroupOk(g) && Enabled(g, op) && !By(op, t)
    requires t in g.items && t !in g.waiting && IN_USE in g.items[t]
    ensures var r := Step(g, op); t in r.items && t !in r.waiting && r.items[t] == g.items[t]
  {
    hide Matches, Waited, Quiet, NoDup, Pass, Encode;
    match op
    case SetOp(on) => SetBitsExact(g, on);
    case SyncOp(u, on, _, _) => SetBitsExact(g, on);
    case _ =>
  }

  lemma {:induction false} HandedStaysOn(g: Group, ops: seq<Op>, t: Task)
    requires GroupOk(g) && CanRun(g, ops) && forall op :: op in ops ==> !By(op, t)
    requires t in g.items && t !in g.waiting && IN_USE in g.items[t]
    ensures var r := After(g, ops); GroupOk(r) && t in r.items && t !in r.waiting && r.items[t] == g.items[t]
    decreases |ops|
  {
    hide Quiet, Enabled, Step, NoDup;
    if ops != [] {
      assert ops[0] in ops;
      StepKeeps(g, ops[0]);
      HandedStays(g, ops[0], t);
      HandedStaysOn(Step(g, ops[0]), ops[1..], t);
    }
  }

  /** A waiter that a set of bits satisfies returns the bits as they were before anything
      was cleared, whatever happens between the set and the time it runs. */
  lemma WokenWithTheBits(g: Group, on: Word, ops: seq<Op>, t: Task, waited: Word, clear: bool, all: bool, own: Word)
    requires GroupOk(g) && Plain(on) && t in g.waiting && Matches(g.bits + on, g.items[t])
    requires GroupOk(SetBits(g, on)) && CanRun(SetBits(g, on), ops) && forall op :: op in ops ==> !By(op, t)
    ensures var r := After(SetBits(g, on), ops);
      t in r.items && Resume(r, t, waited, clear, all, own).0 == g.bits + on
  {
    SetBitsExact(g, on);
    HandedReads(g.bits + on);
    hide SetBits, GroupOk, Matches, Handed, Waited;
    HandedStaysOn(SetBits(g, on), ops, t);
  }

  // ---------------------------------------------------------------- in place

  /** EventGroup_t and the event items, updated in place. */
  class EventGroup {
    var bits: Word
    var waiting: seq<Task>
    var items: map<Task, Word>

    ghost function View(): Group
      reads this
    {
      Group(bits, waiting, items)
    }

    /** xEventGroupSetBits: one walk along the waiters; satisfied ones leave on the way. */
    method Set(on: Word) returns (now: Word)
      requires GroupOk(View()) && Plain(on)
      modifies this
      ensures View() == SetBits(old(View()), on) && GroupOk(View()) && now == bits
    {
      hide NoDup, Quiet, Matches;
      ghost var g := View();
      SetBitsKeeps(g, on);
      bits := bits + on;
      var clear: Word := {};
      var k := 0;
      while k < |waiting|
        invariant k <= |waiting| && bits == g.bits + on
        invariant forall t :: t in waiting[k..] ==> t in items
        invariant Passes(Pass(g.waiting, g.items, bits, {}), waiting[..k], waiting[k..], items, bits, clear)
        decreases |waiting| - k
      {
        var t := waiting[k];
        ghost var left, todo := waiting[..k], waiting[k..];
        assert todo[0] == t && forall u :: u in todo[1..] ==> u in todo;
        if Matches(bits, items[t]) {
          if CLEAR_ON_EXIT in items[t] {
            clear := clear + Waited(items[t]);
          }
          items := items[t := Handed(bits)];
          waiting := waiting[..k] + waiting[k + 1..];
          assert waiting[..k] == left && waiting[k..] == todo[1..];
        } else {
          k := k + 1;
          assert waiting[..k] == left + [t] && waiting[k..] == todo[1..];
          PassesOn(left, t, Pass(todo[1..], items, bits, clear));
        }
      }
      assert waiting[..k] == waiting && waiting[k..] == [];
      bits := bits - clear;
      now := bits;
    }

    /** xEventGroupClearBits */
    method Clear(off: Word) returns (before: Word)
      requires GroupOk(View())
      modifies this`bits
      ensures View() == ClearBits(old(View()), off) && GroupOk(View()) && before == old(bits)
    {
      LessIsQuiet(View(), bits - off);
      before := bits;
      bits := bits - off;
    }

    /** xEventGroupWaitBits, up to where the task blocks. */
    method Wait(t: Task, waited: Word, clear: bool, all: bool, mayBlock: bool) returns (blocked: bool, value: Word)
      requires GroupOk(View()) && Enabled(View(), WaitOp(t, waited, clear, all, mayBlock))
      modifies this
      ensures GroupOk(View())
      ensures WaitBits(old(View()), t, waited, clear, all, mayBlock) == if blocked then Blocked(View()) else Returned(value, View())
    {
      StepKeeps(View(), WaitOp(t, waited, clear, all, mayBlock));
      hide GroupOk;
      blocked, value := false, bits;
      if Met(bits, waited, all) {
        if clear {
          bits := bits - waited;
        }
      } else if mayBlock {
        var control: Word := {};
        if clear {
          control := control + {CLEAR_ON_EXIT};
        }
        if all {
          control := control + {WAIT_FOR_ALL};
        }
        assert waited + control + {IN_USE} == Encode(waited, clear, all);
        items := items[t := waited + control + {IN_USE}];
        waiting := waiting + [t];
        blocked := true;
      }
    }

    /** xEventGroupSync, up to where the task blocks. */
    method Rendezvous(t: Task, on: Word, waited: Word, mayBlock: bool) returns (blocked: bool, value: Word)
      requires GroupOk(View()) && Enabled(View(), SyncOp(t, on, waited, mayBlock))
      modifies this
      ensures GroupOk(View())
      ensures Sync(old(View()), t, on, waited, mayBlock) == if blocked then Blocked(View()) else Returned(value, View())
    {
      ghost var g := View();
      SyncKeeps(g, t, on, waited, mayBlock);
      hide Quiet, NoDup, SetBits;
      var original := bits;
      value := Set(on);
      blocked := false;
      if waited <= original + on {
        value := original + on;
        bits := bits - waited;
      } else if mayBlock {
        value := {};
        items := items[t := waited + {CLEAR_ON_EXIT} + {WAIT_FOR_ALL} + {IN_USE}];
        waiting := waiting + [t];
        blocked := true;
      }
    }

    /** What a task that blocked in a wait or a sync does when it runs again. */
    method Unblocked(t: Task, waited: Word, clear: bool, all: bool, own: Word) returns (value: Word)
      requires GroupOk(View()) && Enabled(View(), ResumeOp(t, waited, clear, all, own))
      modifies this`items, this`bits
      ensures (value, View()) == Resume(old(View()), t, waited, clear, all, own) && GroupOk(View())
    {
      ResumeKeeps(View(), t, waited, own);
      hide GroupOk;
      var found := items[t];
      items := items[t := own];
      if UNBLOCKED in found {
        value := Waited(found);
      } else {
        value := bits;
        if Met(bits, waited, all) && clear {
          bits := bits - waited;
        }
      }
    }

    /** vEventGroupDelete: every waiter is woken with no bits set. */
    method Delete()
      requires GroupOk(View())
      modifies this`waiting, this`items
      ensures waiting == [] && items.Keys == old(items).Keys
      ensures forall t :: t in items ==> items[t] == if t in old(waiting) then Handed({}) else old(items)[t]
    {
      while waiting != []
        invariant items.Keys == old(items).Keys && forall t :: t in waiting ==> t in old(waiting)
        invariant forall t :: t in old(waiting) ==> t in items
        invariant forall t :: t in items ==>
            items[t] == if t in old(waiting) && t !in waiting then Handed({}) else old(items)[t]
        invariant NoDup(waiting)
        decreases |waiting|
      {
        var t := waiting[0];
        assert forall u :: u in waiting <==> u == t || u in waiting[1..];
        items := items[t := Handed({})];
        waiting := waiting[1..];
      }
    }
  }

  /** What the whole pass comes to, after the first waiters. */
  ghost predicate Passes(whole: Passed, left: seq<Task>, todo: seq<Task>, items: map<Task, Word>, bits: Word, clear: Word)
    requires forall t :: t in todo ==> t in items
  {
    var rest := Pass(todo, items, bits, clear);
    whole == rest.(kept := left + rest.kept)
  }

  lemma PassesOn(left: seq<Task>, t: Task, rest: Passed)
    ensures left + ([t] + rest.kept) == (left + [t]) + rest.kept
  {
  }
}
