/** The storage of a queue: a ring of equal slots in a byte buffer, used from both
    ends, refines a bounded double-ended queue. */
module QueueStore {

  type Byte = bv8
  type Item = seq<Byte>

  /** The ring by slots.  `read` is the slot before the first message, as pcReadFrom is;
      `write` is where pcWriteTo points. */
  datatype Store = Store(slots: seq<Item>, read: nat, write: nat, count: nat)

  /** One conditional subtraction, as the pointers are wrapped. */
  function Wrap(k: nat, length: nat): nat { if k >= length then k - length else k }

  function Next(k: nat, length: nat): nat { Wrap(k + 1, length) }

  function Previous(k: nat, length: nat): nat
    requires k < length
  {
    if k == 0 then length - 1 else k - 1
  }

  /** The occupied slots are the `count` slots after `read`. */
  predicate StoreOk(s: Store) {
    && 0 < |s.slots| && s.read < |s.slots| && s.write < |s.slots| && s.count <= |s.slots|
    && s.write == Wrap(Next(s.read, |s.slots|) + s.count, |s.slots|)
  }

  function SlotOf(s: Store, i: nat): nat
    requires StoreOk(s) && i < |s.slots|
    ensures SlotOf(s, i) < |s.slots|
  {
    Wrap(Next(s.read, |s.slots|) + i, |s.slots|)
  }

  function Contents(s: Store): seq<Item>
    requires StoreOk(s)
  {
    seq(s.count, i requires 0 <= i < s.count => s.slots[SlotOf(s, i)])
  }

  // ---------------------------------------------------------------- the copies

  /** prvCopyDataToQueue with queueSEND_TO_BACK. */
  function PutBack(s: Store, x: Item): Store
    requires StoreOk(s)
  {
    s.(slots := s.slots[s.write := x], write := Next(s.write, |s.slots|), count := s.count + 1)
  }

  /** prvCopyDataToQueue with queueSEND_TO_FRONT. */
  function PutFront(s: Store, x: Item): Store
    requires StoreOk(s)
  {
    s.(slots := s.slots[s.read := x], read := Previous(s.read, |s.slots|), count := s.count + 1)
  }

  /** prvCopyDataToQueue with queueOVERWRITE. */
  function Overwrite(s: Store, x: Item): Store
    requires StoreOk(s)
  {
    PutFront(s, x).(count := if s.count > 0 then s.count else 1)
  }

  /** prvCopyDataFromQueue and the decrement. */
  function TakeFront(s: Store): Store
    requires StoreOk(s) && s.count > 0
  {
    s.(read := Next(s.read, |s.slots|), count := s.count - 1)
  }

  function Front(s: Store): Item
    requires StoreOk(s)
  {
    s.slots[Next(s.read, |s.slots|)]
  }

  // ---------------------------------------------------------------- the deque

  datatype Op = SendToBack(x: Item) | SendToFront(x: Item) | SendOver(x: Item) | Receive | Peek

  datatype Reply = Sent | Full | Got(x: Item) | Empty

  /** What a call without block time does and returns. */
  function Step(s: Store, op: Op): (Reply, Store)
    requires StoreOk(s)
  {
    match op
    case SendToBack(x) => if s.count < |s.slots| then (Sent, PutBack(s, x)) else (Full, s)
    case SendToFront(x) => if s.count < |s.slots| then (Sent, PutFront(s, x)) else (Full, s)
    case SendOver(x) => (Sent, Overwrite(s, x))
    case Receive => if s.count > 0 then (Got(Front(s)), TakeFront(s)) else (Empty, s)
    case Peek => if s.count > 0 then (Got(Front(s)), s) else (Empty, s)
  }

  /** The same on a bounded double-ended queue. */
  function DequeStep(q: seq<Item>, length: nat, op: Op): (Reply, seq<Item>) {
    match op
    case SendToBack(x) => if |q| < length then (Sent, q + [x]) else (Full, q)
    case SendToFront(x) => if |q| < length then (Sent, [x] + q) else (Full, q)
    case SendOver(x) => (Sent, [x])
    case Receive => if q != [] then (Got(q[0]), q[1..]) else (Empty, q)
    case Peek => if q != [] then (Got(q[0]), q) else (Empty, q)
  }

  lemma PutBackRefines(s: Store, x: Item)
    requires StoreOk(s) && s.count < |s.slots|
    ensures StoreOk(PutBack(s, x)) && Contents(PutBack(s, x)) == Contents(s) + [x]
  {
  }

  lemma PutFrontRefines(s: Store, x: Item)
    requires StoreOk(s) && s.count < |s.slots|
    ensures StoreOk(PutFront(s, x)) && Contents(PutFront(s, x)) == [x] + Contents(s)
  {
    var r := PutFront(s, x);
    assert SlotOf(r, 0) == s.read;
    forall i | 0 <= i < s.count ensures SlotOf(r, i + 1) == SlotOf(s, i) != s.read {}
  }

  lemma OverwriteRefines(s: Store, x: Item)
    requires StoreOk(s) && |s.slots| == 1
    ensures StoreOk(Overwrite(s, x)) && Contents(Overwrite(s, x)) == [x]
  {
  }

  lemma TakeFrontRefines(s: Store)
    requires StoreOk(s) && s.count > 0
    ensures Front(s) == Contents(s)[0]
    ensures StoreOk(TakeFront(s)) && Contents(TakeFront(s)) == Contents(s)[1..]
  {
  }

  /** Every call returns and does to the ring what it does on the deque. */
  lemma StepRefines(s: Store, op: Op)
    requires StoreOk(s) && (op.SendOver? ==> |s.slots| == 1)
    ensures var (reply, r) := Step(s, op);
      && StoreOk(r) && |r.slots| == |s.slots|
      && (reply, Contents(r)) == DequeStep(Contents(s), |s.slots|, op)
  {
    match op
    case SendToBack(x) => if s.count < |s.slots| { PutBackRefines(s, x); }
    case SendToFront(x) => if s.count < |s.slots| { PutFrontRefines(s, x); }
    case SendOver(x) => OverwriteRefines(s, x);
    case Receive => if s.count > 0 { TakeFrontRefines(s); }
    case Peek => if s.count > 0 { TakeFrontRefines(s); }
  }

  function Replies(s: Store, ops: seq<Op>): seq<Reply>
    requires StoreOk(s) && (|s.slots| == 1 || forall op :: op in ops ==> !op.SendOver?)
    decreases |ops|
  {
    if ops == [] then []
    else
      assert ops[0] in ops;
      StepRefines(s, ops[0]);
      [Step(s, ops[0]).0] + Replies(Step(s, ops[0]).1, ops[1..])
  }

  function DequeReplies(q: seq<Item>, length: nat, ops: seq<Op>): seq<Reply>
    decreases |ops|
  {
    if ops == [] then [] else [DequeStep(q, length, ops[0]).0] + DequeReplies(DequeStep(q, length, ops[0]).1, length, ops[1..])
  }

  /** No sequence of calls can tell the ring from a bounded double-ended queue. */
  lemma {:induction false} RingIsDeque(s: Store, ops: seq<Op>)
    requires StoreOk(s) && (|s.slots| == 1 || forall op :: op in ops ==> !op.SendOver?)
    ensures Replies(s, ops) == DequeReplies(Contents(s), |s.slots|, ops)
    decreases |ops|
  {
    hide StoreOk, Contents, Step, DequeStep;
    if ops != [] {
      assert ops[0] in ops;
      StepRefines(s, ops[0]);
      RingIsDeque(Step(s, ops[0]).1, ops[1..]);
    }
  }

  // ---------------------------------------------------------------- bytes

  lemma SlotsApart(j: nat, k: nat, size: nat)
    requires j < k
    ensures j * size + size <= k * size
  {
    assert (k - j - 1) * size >= 0;
    assert k * size == j * size + size + (k - j - 1) * size;
  }

  /** The bytes of one slot. */
  function Slot(bytes: seq<Byte>, size: nat, k: nat): Item
    requires k * size + size <= |bytes|
  {
    bytes[k * size..k * size + size]
  }

  ghost function Slots(bytes: seq<Byte>, size: nat, length: nat): seq<Item>
    requires |bytes| == length * size
  {
    seq(length, k requires 0 <= k < length => (SlotsApart(k, length, size); Slot(bytes, size, k)))
  }

  /** `x` was written at byte `at`, and nothing else. */
  ghost predicate Written(a: seq<Byte>, b: seq<Byte>, at: nat, x: Item) {
    |a| == |b| && at + |x| <= |a| && forall i :: 0 <= i < |a| ==> b[i] == if at <= i < at + |x| then x[i - at] else a[i]
  }

  /** Writing one slot leaves the others alone, byte for byte. */
  lemma OneSlotWritten(a: seq<Byte>, b: seq<Byte>, size: nat, length: nat, k: nat, x: Item)
    requires |a| == |b| == length * size && k < length && |x| == size && Written(a, b, k * size, x)
    ensures Slots(b, size, length) == Slots(a, size, length)[k := x]
  {
    hide Written;
    forall j | 0 <= j < length ensures Slots(b, size, length)[j] == if j == k then x else Slots(a, size, length)[j] {
      SlotWritten(a, b, size, length, k, x, j);
    }
    assert |Slots(a, size, length)| == |Slots(b, size, length)| == length;
    hide Slots;
  }

  lemma SlotWritten(a: seq<Byte>, b: seq<Byte>, size: nat, length: nat, k: nat, x: Item, j: nat)
    requires |a| == |b| == length * size && k < length && |x| == size && Written(a, b, k * size, x) && j < length
    ensures Slots(b, size, length)[j] == if j == k then x else Slots(a, size, length)[j]
  {
    hide Written;
    SlotsApart(j, length, size);
    if j < k { SlotsApart(j, k, size); } else if k < j { SlotsApart(k, j, size); }
    SlotAt(a, size, length, j);
    SlotAt(b, size, length, j);
    SliceWritten(a, b, k * size, j * size, x);
    hide Slots;
  }

  lemma SlotAt(bytes: seq<Byte>, size: nat, length: nat, j: nat)
    requires |bytes| == length * size && j < length && j * size + size <= |bytes|
    ensures Slots(bytes, size, length)[j] == bytes[j * size..j * size + size]
  {
  }

  lemma SliceWritten(a: seq<Byte>, b: seq<Byte>, at: nat, from: nat, x: Item)
    requires Written(a, b, at, x) && from + |x| <= |a| && (from == at || from + |x| <= at || at + |x| <= from)
    ensures b[from..from + |x|] == if from == at then x else a[from..from + |x|]
  {
  }

  /** The storage part of Queue_t, for items of at least one byte.  Positions are
      offsets from pcHead, and pcTail is the length of the buffer. */
  class Buffer {
    const itemSize: nat
    const length: nat
    const bytes: array<Byte>
    var writeTo: nat            // pcWriteTo
    var readFrom: nat           // pcReadFrom
    var messagesWaiting: nat    // uxMessagesWaiting
    ghost var writeSlot: nat
    ghost var readSlot: nat

    ghost predicate Laid()
      reads this, bytes
    {
      && 0 < itemSize && bytes.Length == length * itemSize
      && writeSlot < length && readSlot < length
      && writeTo == writeSlot * itemSize && readFrom == readSlot * itemSize
    }

    ghost function View(): Store
      reads this, bytes
      requires Laid()
    {
      Store(Slots(bytes[..], itemSize, length), readSlot, writeSlot, messagesWaiting)
    }

    ghost predicate Valid()
      reads this, bytes
    {
      Laid() && StoreOk(View())
    }

    /** xQueueGenericReset of a new queue. */
    constructor (length: nat, itemSize: nat)
      requires 0 < length && 0 < itemSize
      ensures Valid() && fresh(bytes) && |View().slots| == length && Contents(View()) == []
    {
      this.length, this.itemSize := length, itemSize;
      bytes := new Byte[length * itemSize];
      messagesWaiting := 0;
      writeTo := 0;
      readFrom := (length - 1) * itemSize;
      writeSlot, readSlot := 0, length - 1;
    }

    /** memcpy into the slot at an offset. */
    method CopyIn(at: nat, x: Item, ghost slot: nat)
      requires Laid() && slot < length && at == slot * itemSize && |x| == itemSize
      modifies bytes
      ensures Laid() && View() == old(View()).(slots := old(View()).slots[slot := x])
    {
      SlotsApart(slot, length, itemSize);
      var i := 0;
      while i < itemSize
        invariant i <= itemSize
        invariant forall j :: 0 <= j < bytes.Length ==>
            bytes[j] == if at <= j < at + i then x[j - at] else old(bytes[j])
      {
        bytes[at + i] := x[i];
        i := i + 1;
      }
      OneSlotWritten(old(bytes[..]), bytes[..], itemSize, length, slot, x);
    }

    /** memcpy from the slot at an offset. */
    method CopyOut(at: nat, ghost slot: nat) returns (x: Item)
      requires Laid() && slot < length && at == slot * itemSize
      ensures x == View().slots[slot]
    {
      SlotsApart(slot, length, itemSize);
      x := [];
      var i := 0;
      while i < itemSize
        invariant i <= itemSize && x == bytes[at..at + i]
      {
        x := x + [bytes[at + i]];
        i := i + 1;
      }
    }

    /** pcWriteTo moves on, over pcTail. */
    method AdvanceWrite()
      requires Laid()
      modifies this`writeTo, this`writeSlot
      ensures Laid() && writeSlot == Next(old(writeSlot), length)
    {
      Step(writeSlot);
      writeTo := writeTo + itemSize;
      if writeTo >= bytes.Length {
        writeTo := 0;
      }
      writeSlot := Next(writeSlot, length);
    }

    /** pcReadFrom moves on, over pcTail. */
    method AdvanceRead()
      requires Laid()
      modifies this`readFrom, this`readSlot
      ensures Laid() && readSlot == Next(old(readSlot), length)
    {
      Step(readSlot);
      readFrom := readFrom + itemSize;
      if readFrom >= bytes.Length {
        readFrom := 0;
      }
      readSlot := Next(readSlot, length);
    }

    /** pcReadFrom moves back, over pcHead. */
    method RetreatRead()
      requires Laid()
      modifies this`readFrom, this`readSlot
      ensures Laid() && readSlot == Previous(old(readSlot), length)
    {
      Step(length - 1);
      if readSlot > 0 { Step(readSlot - 1); }
      if readFrom < itemSize {
        readFrom := bytes.Length - itemSize;
      } else {
        readFrom := readFrom - itemSize;
      }
      readSlot := Previous(readSlot, length);
    }

    /** prvCopyDataToQueue with queueSEND_TO_BACK. */
    method CopyToBack(x: Item)
      requires Valid() && |x| == itemSize
      modifies this, bytes
      ensures Laid() && View() == PutBack(old(View()), x)
    {
      CopyIn(writeTo, x, writeSlot);
      AdvanceWrite();
      messagesWaiting := messagesWaiting + 1;
    }

    /** prvCopyDataToQueue with queueSEND_TO_FRONT or queueOVERWRITE. */
    method CopyToFront(x: Item, overwrite: bool)
      requires Valid() && |x| == itemSize
      modifies this, bytes
      ensures Laid() && View() == if overwrite then Overwrite(old(View()), x) else PutFront(old(View()), x)
    {
      var waiting := messagesWaiting;
      CopyIn(readFrom, x, readSlot);
      RetreatRead();
      if overwrite && waiting > 0 {
        waiting := waiting - 1;
      }
      messagesWaiting := waiting + 1;
    }

    /** prvCopyDataFromQueue: pcReadFrom moves on, then the slot is copied. */
    method CopyFrom() returns (x: Item)
      requires Valid()
      modifies this`readFrom, this`readSlot
      ensures Laid() && View() == old(View()).(read := Next(old(View()).read, length)) && x == Front(old(View()))
    {
      AdvanceRead();
      x := CopyOut(readFrom, readSlot);
    }

    /** Where the next slot starts, and that only the last one reaches pcTail. */
    lemma Step(slot: nat)
      requires Laid() && slot < length
      ensures (slot + 1) * itemSize == slot * itemSize + itemSize
      ensures slot * itemSize + itemSize >= bytes.Length <==> slot + 1 == length
      ensures slot + 1 == length ==> slot * itemSize == bytes.Length - itemSize
    {
      if slot + 1 < length { SlotsApart(slot + 1, length, itemSize); }
    }

    /** xQueueGenericSend without block time, at the back. */
    method Send(x: Item) returns (sent: bool)
      requires Valid() && |x| == itemSize
      modifies this, bytes
      ensures Valid() && |View().slots| == |old(View()).slots|
      ensures sent <==> |old(Contents(View()))| < length
      ensures Contents(View()) == if sent then old(Contents(View())) + [x] else old(Contents(View()))
    {
      if messagesWaiting < length {
        PutBackRefines(View(), x);
        CopyToBack(x);
        sent := true;
      } else {
        sent := false;
      }
    }

    /** The same at the front. */
    method SendFront(x: Item) returns (sent: bool)
      requires Valid() && |x| == itemSize
      modifies this, bytes
      ensures Valid() && |View().slots| == |old(View()).slots|
      ensures sent <==> |old(Contents(View()))| < length
      ensures Contents(View()) == if sent then [x] + old(Contents(View())) else old(Contents(View()))
    {
      if messagesWaiting < length {
        PutFrontRefines(View(), x);
        CopyToFront(x, false);
        sent := true;
      } else {
        sent := false;
      }
    }

    /** xQueueOverwrite, for a queue of length one. */
    method SendOverwriting(x: Item)
      requires Valid() && |x| == itemSize && length == 1
      modifies this, bytes
      ensures Valid() && Contents(View()) == [x]
    {
      OverwriteRefines(View(), x);
      CopyToFront(x, true);
    }

    /** xQueueGenericReceive without block time, taking or peeking. */
    method TryReceive(justPeeking: bool) returns (r: Reply)
      requires Valid()
      modifies this`readFrom, this`readSlot, this`messagesWaiting
      ensures Valid()
      ensures (r, Contents(View())) == DequeStep(old(Contents(View())), length, if justPeeking then Peek else Receive)
    {
      ghost var s := View();
      if messagesWaiting > 0 {
        TakeFrontRefines(s);
        var original := readFrom;
        var x := CopyFrom();
        if justPeeking {
          readFrom := original;
          readSlot := s.read;
        } else {
          messagesWaiting := messagesWaiting - 1;
        }
        r := Got(x);
      } else {
        r := Empty;
      }
    }
  }
}
