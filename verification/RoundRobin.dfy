/** The list of list.c as a value: the items between end marker and end marker, and
    pxIndex as a position (0 is the marker, k the k-th item).  ListRing.dfy proves
    that the pointer operations compute these functions. */
module RoundRobin {
  import opened Lists

  datatype Ring<T> = Ring(items: seq<T>, index: nat)

  ghost predicate Valid<T>(r: Ring<T>) {
    r.index <= |r.items| && NoDup(r.items)
  }

  function Empty<T>(): Ring<T> { Ring([], 0) }

  /** vListInsertEnd: just in front of pxIndex, so last in the walk. */
  function InsertEnd<T>(r: Ring<T>, x: T): Ring<T>
    requires r.index <= |r.items|
  {
    if r.index == 0 then Ring(r.items + [x], 0)
    else Ring(r.items[..r.index - 1] + [x] + r.items[r.index - 1..], r.index + 1)
  }

  /** A splice in front of the k-th item (counting from 0); pxIndex keeps its item. */
  function InsertAt<T>(r: Ring<T>, k: nat, x: T): Ring<T>
    requires k <= |r.items|
  {
    Ring(r.items[..k] + [x] + r.items[k..], if r.index > k then r.index + 1 else r.index)
  }

  function Position<T(==)>(s: seq<T>, x: T): (k: nat)
    requires x in s
    ensures k < |s| && s[k] == x && x !in s[..k]
  {
    if s[0] == x then 0 else 1 + Position(s[1..], x)
  }

  /** uxListRemove: pxIndex steps back when it pointed at the item. */
  function RemoveItem<T(==)>(r: Ring<T>, x: T): Ring<T>
    requires x in r.items
  {
    var k := Position(r.items, x);
    Ring(r.items[..k] + r.items[k + 1..], if r.index > k then r.index - 1 else r.index)
  }

  /** listGET_OWNER_OF_NEXT_ENTRY: one step on, over the end marker. */
  function Advance<T>(r: Ring<T>): Ring<T>
    requires r.items != []
  {
    r.(index := if r.index >= |r.items| then 1 else r.index + 1)
  }

  function Selected<T>(r: Ring<T>): T
    requires 0 < r.index <= |r.items|
  {
    r.items[r.index - 1]
  }

  lemma InsertEndKeeps<T>(r: Ring<T>, x: T)
    requires Valid(r) && x !in r.items
    ensures Valid(InsertEnd(r, x))
    ensures forall y :: y in InsertEnd(r, x).items <==> y == x || y in r.items
    ensures r.index > 0 ==> Selected(InsertEnd(r, x)) == Selected(r)
  {
  }

  lemma RemoveItemKeeps<T>(r: Ring<T>, x: T)
    requires Valid(r) && x in r.items
    ensures Valid(RemoveItem(r, x)) && |RemoveItem(r, x).items| == |r.items| - 1
    ensures forall y :: y in RemoveItem(r, x).items <==> y in r.items && y != x
    ensures r.index > 0 && Selected(r) != x ==> RemoveItem(r, x).index > 0 && Selected(RemoveItem(r, x)) == Selected(r)
  {
  }

  // ------------------------------------------------------- no item is starved

  /** How far x is from being selected: lexicographically, whether the walk must
      still pass the end marker, and the steps left on this side of it. */
  function Lap<T(==)>(r: Ring<T>, x: T): nat
    requires x in r.items
  {
    if Position(r.items, x) + 1 > r.index then 0 else 1
  }

  function Steps<T(==)>(r: Ring<T>, x: T): nat
    requires x in r.items && r.index <= |r.items|
  {
    var at := Position(r.items, x) + 1;
    if at > r.index then at - r.index else |r.items| - r.index
  }

  ghost predicate Closer<T>(r: Ring<T>, was: Ring<T>, x: T)
    requires x in r.items && x in was.items && r.index <= |r.items| && was.index <= |was.items|
  {
    Lap(r, x) < Lap(was, x) || (Lap(r, x) == Lap(was, x) && Steps(r, x) < Steps(was, x))
  }

  ghost predicate NoFurther<T>(r: Ring<T>, was: Ring<T>, x: T)
    requires x in r.items && x in was.items && r.index <= |r.items| && was.index <= |was.items|
  {
    Lap(r, x) < Lap(was, x) || (Lap(r, x) == Lap(was, x) && Steps(r, x) <= Steps(was, x))
  }

  lemma PositionIs<T>(s: seq<T>, x: T, k: nat)
    requires NoDup(s) && k < |s| && s[k] == x
    ensures Position(s, x) == k
  {
  }

  lemma InsertEndNoFurther<T>(r: Ring<T>, x: T, y: T)
    requires Valid(r) && x in r.items && y !in r.items
    ensures x in InsertEnd(r, y).items && NoFurther(InsertEnd(r, y), r, x)
  {
    InsertEndKeeps(r, y);
    var k := Position(r.items, x);
    PositionIs(InsertEnd(r, y).items, x, if r.index == 0 || k < r.index - 1 then k else k + 1);
  }

  lemma RemoveItemNoFurther<T>(r: Ring<T>, x: T, y: T)
    requires Valid(r) && x in r.items && y in r.items && x != y
    ensures x in RemoveItem(r, y).items && NoFurther(RemoveItem(r, y), r, x)
  {
  }

  lemma AdvanceCloser<T>(r: Ring<T>, x: T)
    requires Valid(r) && x in r.items
    ensures Valid(Advance(r)) && Advance(r).index > 0
    ensures Selected(Advance(r)) == x || Closer(Advance(r), r, x)
  {
  }

  /** One vListInsertEnd after the other. */
  function JoinAll<T>(r: Ring<T>, q: seq<T>): Ring<T>
    requires r.index <= |r.items|
    decreases |q|
  {
    if q == [] then r else JoinAll(InsertEnd(r, q[0]), q[1..])
  }

  lemma JoinFirst<T>(r: Ring<T>, q: seq<T>, key: map<T, int>, k: int)
    requires r.index <= |r.items| && q != [] && forall x :: x in q ==> x in key
    ensures InsertEnd(r, q[0]).index <= |InsertEnd(r, q[0]).items|
    ensures JoinAll(r, Having(q, key, k)) ==
            JoinAll(if key[q[0]] == k then InsertEnd(r, q[0]) else r, Having(q[1..], key, k))
  {
    if key[q[0]] == k {
      var rest := Having(q[1..], key, k);
      assert Having(q, key, k) == [q[0]] + rest && ([q[0]] + rest)[1..] == rest;
    } else {
      assert Having(q, key, k) == Having(q[1..], key, k);
    }
  }

  // ------------------------------------------------------- whose turn is when

  /** How many selections from now x is selected, if nothing changes. */
  function Distance<T(==)>(r: Ring<T>, x: T): (d: nat)
    requires x in r.items && r.index <= |r.items|
    ensures 1 <= d <= |r.items|
  {
    var at := Position(r.items, x) + 1;
    if at > r.index then at - r.index else |r.items| - r.index + at
  }

  /** A selection is of the item whose turn it is, brings every other one nearer, and puts
      the selected one behind all others. */
  lemma AdvanceInTurn<T>(r: Ring<T>, x: T)
    requires Valid(r) && x in r.items
    ensures var a := Advance(r);
      && 0 < a.index <= |a.items| && x in a.items
      && (Selected(a) == x <==> Distance(r, x) == 1)
      && Distance(a, x) == if Selected(a) == x then |r.items| else Distance(r, x) - 1
  {
    PositionIs(r.items, x, Position(r.items, x));
  }

  /** An item inserted at the end has its turn after everyone else's but that of the
      selected one, and nobody's turn comes later for it but the selected one's. */
  lemma InsertEndInTurn<T>(r: Ring<T>, x: T, y: T)
    requires Valid(r) && x !in r.items && y in r.items
    ensures var i := InsertEnd(r, x);
      && i.index <= |i.items| && x in i.items && y in i.items
      && Distance(i, x) == |r.items| + (if r.index == 0 then 1 else 0)
      && Distance(i, y) == Distance(r, y) + if r.index > 0 && y == Selected(r) then 1 else 0
  {
    InsertEndKeeps(r, x);
    var k := Position(r.items, y);
    PositionIs(InsertEnd(r, x).items, y, if r.index == 0 || k < r.index - 1 then k else k + 1);
    PositionIs(InsertEnd(r, x).items, x, if r.index == 0 then |r.items| else r.index - 1);
  }

  /** A removal brings forward exactly those whose turn was to come after the removed
      item's. */
  lemma RemoveItemInTurn<T>(r: Ring<T>, x: T, y: T)
    requires Valid(r) && x in r.items && y in r.items && x != y
    ensures var d := RemoveItem(r, x);
      && d.index <= |d.items| && y in d.items
      && Distance(d, y) == Distance(r, y) - if Distance(r, x) < Distance(r, y) then 1 else 0
  {
    RemoveItemKeeps(r, x);
    var k, j := Position(r.items, x), Position(r.items, y);
    PositionIs(RemoveItem(r, x).items, y, if j < k then j else j - 1);
  }

  datatype Op<T> = Insert(item: T) | Drop(item: T) | Select

  ghost predicate Enabled<T>(r: Ring<T>, op: Op<T>) {
    match op
    case Insert(y) => y !in r.items
    case Drop(y) => y in r.items
    case Select => r.items != []
  }

  function Apply<T(==)>(r: Ring<T>, op: Op<T>): Ring<T>
    requires r.index <= |r.items| && Enabled(r, op)
  {
    match op
    case Insert(y) => InsertEnd(r, y)
    case Drop(y) => RemoveItem(r, y)
    case Select => Advance(r)
  }

  lemma ApplyKeeps<T>(r: Ring<T>, op: Op<T>)
    requires Valid(r) && Enabled(r, op)
    ensures Valid(Apply(r, op))
  {
  }

  /** An endless history of one ready list. */
  ghost predicate History<T(!new)>(ring: nat -> Ring<T>, op: nat -> Op<T>) {
    && Valid(ring(0))
    && forall i: nat :: Enabled(ring(i), op(i)) && ring(i).index <= |ring(i).items| && ring(i + 1) == Apply(ring(i), op(i))
  }

  ghost predicate SelectFrom<T(!new)>(op: nat -> Op<T>, i: nat) {
    exists j: nat :: j >= i && op(j) == Select
  }

  ghost predicate SelectsAgainAndAgain<T(!new)>(op: nat -> Op<T>) {
    forall i: nat :: SelectFrom(op, i)
  }

  ghost predicate SelectedAt<T(!new)>(ring: nat -> Ring<T>, op: nat -> Op<T>, n: nat, x: T) {
    op(n) == Select && 0 < ring(n + 1).index <= |ring(n + 1).items| && Selected(ring(n + 1)) == x
  }

  lemma {:induction false} HistoryValid<T(!new)>(ring: nat -> Ring<T>, op: nat -> Op<T>, n: nat)
    requires History(ring, op)
    ensures Valid(ring(n))
  {
    if n > 0 {
      HistoryValid(ring, op, n - 1);
      ApplyKeeps(ring(n - 1), op(n - 1));
    }
  }

  // ------------------------------------------------------- turns

  /** A step is a selection, or takes x no further from its turn. */
  ghost predicate TurnAt<T>(ring: nat -> Ring<T>, turn: nat -> bool, x: T, k: nat) {
    && Valid(ring(k)) && x in ring(k).items && Valid(ring(k + 1)) && x in ring(k + 1).items
    && if turn(k) then ring(k + 1) == Advance(ring(k)) else NoFurther(ring(k + 1), ring(k), x)
  }

  /** An endless history of such steps, from some time on. */
  ghost predicate Turns<T(!new)>(ring: nat -> Ring<T>, turn: nat -> bool, x: T, from: nat) {
    forall k: nat :: k >= from ==> TurnAt(ring, turn, x, k)
  }

  ghost predicate TurnFrom(turn: nat -> bool, i: nat) {
    exists j: nat :: j >= i && turn(j)
  }

  ghost function NextTurn(turn: nat -> bool, i: nat, bound: nat): (n: nat)
    requires i <= bound && turn(bound)
    ensures i <= n <= bound && turn(n) && forall k: nat :: i <= k < n ==> !turn(k)
    decreases bound - i
  {
    if turn(i) then i else NextTurn(turn, i + 1, bound)
  }

  lemma NoFurtherTwice<T>(c: Ring<T>, b: Ring<T>, a: Ring<T>, x: T)
    requires x in a.items && x in b.items && x in c.items
    requires a.index <= |a.items| && b.index <= |b.items| && c.index <= |c.items|
    requires NoFurther(c, b, x) && NoFurther(b, a, x)
    ensures NoFurther(c, a, x)
  {
  }

  /** Up to the next selection at n, x stays where it is or comes nearer. */
  lemma {:induction false} WaitsForTurn<T(!new)>(ring: nat -> Ring<T>, turn: nat -> bool, x: T, from: nat, i: nat, n: nat)
    requires Turns(ring, turn, x, from) && from <= i <= n && forall k: nat :: i <= k < n ==> !turn(k)
    ensures Valid(ring(n)) && x in ring(n).items && Valid(ring(i)) && x in ring(i).items && NoFurther(ring(n), ring(i), x)
    decreases n - i
  {
    hide Lap, Steps;
    assert TurnAt(ring, turn, x, i);
    if i < n {
      WaitsForTurn(ring, turn, x, from, i + 1, n);
      NoFurtherTwice(ring(n), ring(i + 1), ring(i), x);
    } else {
      assert Lap(ring(n), x) == Lap(ring(i), x);
    }
  }

  /** If there is always another selection, x is selected. */
  lemma {:induction false} ItsTurnComes<T(!new)>(ring: nat -> Ring<T>, turn: nat -> bool, x: T, from: nat, i: nat) returns (n: nat)
    requires Turns(ring, turn, x, from) && from <= i && forall k :: TurnFrom(turn, k)
    requires Valid(ring(i)) && x in ring(i).items
    ensures n >= i && turn(n) && 0 < ring(n + 1).index <= |ring(n + 1).items| && Selected(ring(n + 1)) == x
    decreases Lap(ring(i), x), Steps(ring(i), x)
  {
    hide Lap, Steps;
    assert TurnFrom(turn, i);
    var bound: nat :| bound >= i && turn(bound);
    n := NextTurn(turn, i, bound);
    WaitsForTurn(ring, turn, x, from, i, n);
    assert TurnAt(ring, turn, x, n);
    AdvanceCloser(ring(n), x);
    if Selected(ring(n + 1)) != x {
      n := ItsTurnComes(ring, turn, x, from, n + 1);
    }
  }

  // ------------------------------------------------------- every item of a list

  lemma {:induction false} StaysIn<T(!new)>(ring: nat -> Ring<T>, op: nat -> Op<T>, x: T, i: nat, n: nat)
    requires History(ring, op) && i <= n && x in ring(i).items
    requires forall k: nat :: i <= k ==> op(k) != Drop(x)
    ensures x in ring(n).items && Valid(ring(n))
    decreases n - i
  {
    HistoryValid(ring, op, n);
    if i < n {
      HistoryValid(ring, op, i);
      match op(i) {
        case Insert(y) => InsertEndNoFurther(ring(i), x, y);
        case Drop(y) => RemoveItemNoFurther(ring(i), x, y);
        case Select =>
      }
      assert ring(i + 1) == Apply(ring(i), op(i));
      StaysIn(ring, op, x, i + 1, n);
    }
  }

  /** Starvation freedom: whatever is inserted and removed around it, an item that
      stays in the list is selected, again and again. */
  lemma EveryItemIsSelected<T(!new)>(ring: nat -> Ring<T>, op: nat -> Op<T>, x: T, i: nat) returns (n: nat)
    requires History(ring, op) && SelectsAgainAndAgain(op)
    requires x in ring(i).items && Valid(ring(i))
    requires forall k: nat :: i <= k ==> op(k) != Drop(x)
    ensures n >= i && SelectedAt(ring, op, n, x)
  {
    hide NoFurther, Lap, Steps;
    var turn := (k: nat) => op(k).Select?;
    forall k: nat | k >= i ensures TurnAt(ring, turn, x, k) {
      StaysIn(ring, op, x, i, k);
      StaysIn(ring, op, x, i, k + 1);
      StepNoFurther(ring, op, x, k);
    }
    assert Turns(ring, turn, x, i);
    forall k ensures TurnFrom(turn, k) {
      assert SelectFrom(op, k);
      var j: nat :| j >= k && op(j) == Select;
      assert turn(j);
    }
    n := ItsTurnComes(ring, turn, x, i, i);
  }

  lemma StepNoFurther<T(!new)>(ring: nat -> Ring<T>, op: nat -> Op<T>, x: T, k: nat)
    requires History(ring, op) && Valid(ring(k)) && x in ring(k).items && op(k) != Drop(x)
    ensures Valid(ring(k + 1)) && x in ring(k + 1).items
    ensures if op(k).Select? then ring(k + 1) == Advance(ring(k)) else NoFurther(ring(k + 1), ring(k), x)
  {
    HistoryValid(ring, op, k + 1);
    assert ring(k + 1) == Apply(ring(k), op(k));
    match op(k) {
      case Insert(y) => InsertEndNoFurther(ring(k), x, y);
      case Drop(y) => RemoveItemNoFurther(ring(k), x, y);
      case Select =>
    }
  }
}
