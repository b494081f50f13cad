/** list.c: a circular doubly linked list with an end marker. */
module ListRing {
  import opened Lists
  import opened RoundRobin
  import opened Tick

  class ListItem {
    var itemValue: nat
    var next: ListItem?
    var previous: ListItem?
    var container: List?

    /** vListInitialiseItem */
    constructor (value: nat)
      ensures itemValue == value && container == null
    {
      itemValue := value;
      next, previous, container := null, null, null;
    }
  }

  /** Around a ring of n nodes. */
  function After(i: nat, n: nat): nat { if i + 1 == n then 0 else i + 1 }

  ghost function With(s: seq<ListItem>, k: nat, x: ListItem): (r: seq<ListItem>)
    requires k <= |s|
    ensures |r| == |s| + 1 && r[k] == x
    ensures forall i :: 0 <= i < k ==> r[i] == s[i]
    ensures forall i :: k < i < |r| ==> r[i] == s[i - 1]
  {
    s[..k] + [x] + s[k..]
  }

  /** Read without the end marker. */
  lemma WithTail(s: seq<ListItem>, k: nat, x: ListItem)
    requires 1 <= k <= |s|
    ensures With(s, k, x)[1..] == s[1..][..k - 1] + [x] + s[1..][k - 1..]
  {
  }

  ghost function Without(s: seq<ListItem>, k: nat): (r: seq<ListItem>)
    requires k < |s|
    ensures |r| == |s| - 1
    ensures forall i :: 0 <= i < k ==> r[i] == s[i]
    ensures forall i :: k <= i < |r| ==> r[i] == s[i + 1]
  {
    s[..k] + s[k + 1..]
  }

  type Links = map<ListItem, ListItem?>

  ghost predicate LinkedAt(nodes: seq<ListItem>, next: Links, previous: Links, i: nat)
    requires i < |nodes|
  {
    var j := After(i, |nodes|);
    && nodes[i] in next && next[nodes[i]] == nodes[j]
    && nodes[j] in previous && previous[nodes[j]] == nodes[i]
  }

  /** Following next from a node and previous from its successor agree, all round. */
  ghost predicate IsRing(nodes: seq<ListItem>, next: Links, previous: Links) {
    NoDup(nodes) && forall i: nat :: i < |nodes| ==> LinkedAt(nodes, next, previous, i)
  }

  ghost function Nexts(repr: set<ListItem>): Links
    reads repr
  {
    map i | i in repr :: i.next
  }

  ghost function Previouses(repr: set<ListItem>): Links
    reads repr
  {
    map i | i in repr :: i.previous
  }

  /** next' and previous' differ from next and previous just around the new node. */
  ghost predicate Spliced(s: seq<ListItem>, next: Links, previous: Links, p: nat, x: ListItem, next': Links, previous': Links) {
    && p < |s| && x !in next
    && next.Keys == previous.Keys && next'.Keys == previous'.Keys == next.Keys + {x}
    && (forall i :: i in next && i != s[p] ==> next'[i] == next[i])
    && (forall i :: i in next && i != s[After(p, |s|)] && i in previous ==> previous'[i] == previous[i])
    && s[p] in next && next'[s[p]] == x && next'[x] == s[After(p, |s|)]
    && s[After(p, |s|)] in next && previous'[s[After(p, |s|)]] == x && previous'[x] == s[p]
  }

  lemma SplicedKeepsRing(s: seq<ListItem>, next: Links, previous: Links, p: nat, x: ListItem, next': Links, previous': Links)
    requires IsRing(s, next, previous) && Spliced(s, next, previous, p, x, next', previous')
    ensures IsRing(With(s, p + 1, x), next', previous')
  {
    var r := With(s, p + 1, x);
    hide With;
    forall i: nat | i < |s| ensures s[i] != x { assert LinkedAt(s, next, previous, i); }
    forall i: nat | i < |r| ensures LinkedAt(r, next', previous', i) {
      if i < p {
        assert LinkedAt(s, next, previous, i);
      } else if i > p + 1 {
        assert LinkedAt(s, next, previous, i - 1);
      }
    }
  }

  /** And here just around the missing one. */
  ghost predicate Unlinked(s: seq<ListItem>, next: Links, previous: Links, p: nat, next': Links, previous': Links) {
    && 1 <= p < |s|
    && next.Keys == previous.Keys && next'.Keys == previous'.Keys == next.Keys - {s[p]}
    && (forall i :: i in next' && i in next && i != s[p - 1] ==> next'[i] == next[i])
    && (forall i :: i in next' && i in previous && i != s[After(p, |s|)] ==> previous'[i] == previous[i])
    && s[p - 1] in next' && next'[s[p - 1]] == s[After(p, |s|)]
    && s[After(p, |s|)] in next' && previous'[s[After(p, |s|)]] == s[p - 1]
  }

  lemma UnlinkedKeepsRing(s: seq<ListItem>, next: Links, previous: Links, p: nat, next': Links, previous': Links)
    requires IsRing(s, next, previous) && Unlinked(s, next, previous, p, next', previous')
    ensures IsRing(Without(s, p), next', previous')
  {
    var r := Without(s, p);
    hide Without;
    forall i: nat | i < |r| ensures LinkedAt(r, next', previous', i) {
      if i < p - 1 {
        assert LinkedAt(s, next, previous, i);
      } else if i >= p {
        assert LinkedAt(s, next, previous, i + 1);
      }
    }
  }

  ghost predicate InsertedByValue(s: seq<ListItem>, x: ListItem, value: map<ListItem, int>, r: seq<ListItem>) {
    && x in value && (forall y :: y in s ==> y in value)
    && r == InsertSorted(s, x, value)
  }

  class List {
    const listEnd: ListItem
    var index: ListItem
    var numberOfItems: nat
    ghost var nodes: seq<ListItem>    // the end marker and then the items, in order
    ghost var at: nat                 // where in nodes the index points
    ghost var repr: set<ListItem>     // the same nodes, as a footprint

    ghost predicate Valid()
      reads this, repr
    {
      && nodes != [] && nodes[0] == listEnd
      && IsRing(nodes, Nexts(repr), Previouses(repr))
      && numberOfItems == |nodes| - 1
      && at < |nodes| && nodes[at] == index
      && listEnd in repr && listEnd.itemValue == MAX_DELAY
      && (forall i :: i in repr && i != listEnd ==> i.container == this && i.itemValue <= MAX_DELAY)
    }

    ghost function State(): Ring<ListItem>
      requires nodes != []
      reads this
    {
      Ring(nodes[1..], at)
    }

    /** The item values, as the ordered insertion reads them. */
    ghost function Values(): map<ListItem, int>
      reads this, repr
    {
      map i | i in repr :: i.itemValue
    }

    /** The neighbours of a node. */
    lemma Around(i: nat)
      requires Valid() && i < |nodes|
      ensures nodes[i].next == nodes[After(i, |nodes|)] && nodes[After(i, |nodes|)].previous == nodes[i]
      ensures nodes[i] in repr && nodes[After(i, |nodes|)] in repr
    {
      assert LinkedAt(nodes, Nexts(repr), Previouses(repr), i);
    }

    /** vListInitialise */
    constructor ()
      ensures Valid() && fresh(repr) && State() == Empty() && nodes == [listEnd]
    {
      var end := new ListItem(MAX_DELAY);
      listEnd, index := end, end;
      numberOfItems := 0;
      nodes, at, repr := [end], 0, {end};
      new;
      listEnd.next, listEnd.previous := listEnd, listEnd;
    }

    /** The pointer writes of both insertions: x goes between left and what follows it. */
    method LinkBehind(x: ListItem, left: ListItem, ghost right: ListItem)
      requires left.next == right && x != left && x != right
      modifies x, left, right
      ensures x.next == right && x.previous == left && left.next == x && right.previous == x && x.container == this
      ensures left != right ==> left.previous == old(left.previous) && right.next == old(right.next)
      ensures left.container == old(left.container) && right.container == old(right.container)
      ensures x.itemValue == old(x.itemValue) && left.itemValue == old(left.itemValue) && right.itemValue == old(right.itemValue)
    {
      x.next := left.next;
      x.next.previous := x;
      x.previous := left;
      left.next := x;
      x.container := this;
    }

    method LinkInRing(x: ListItem, left: ListItem, ghost p: nat)
      requires Valid() && x !in repr && p < |nodes| && nodes[p] == left
      modifies x, repr
      ensures Spliced(nodes, old(Nexts(repr)), old(Previouses(repr)), p, x, Nexts(repr + {x}), Previouses(repr + {x}))
      ensures x.container == this && x.itemValue == old(x.itemValue)
      ensures forall i :: i in repr ==> i.itemValue == old(i.itemValue) && i.container == old(i.container)
    {
      Around(p);
      hide IsRing;
      LinkBehind(x, left, nodes[After(p, |nodes|)]);
    }

    method Splice(x: ListItem, left: ListItem, ghost p: nat)
      requires Valid() && x !in repr && x.itemValue <= MAX_DELAY
      requires p < |nodes| && nodes[p] == left
      modifies this, x, repr
      ensures Valid() && x.container == this && repr == old(repr) + {x}
      ensures nodes == With(old(nodes), p + 1, x)
      ensures index == old(index) && at == if old(at) > p then old(at) + 1 else old(at)
      ensures x.itemValue == old(x.itemValue) && forall i :: i in old(repr) ==> i.itemValue == old(i.itemValue)
    {
      hide With, Spliced, IsRing;
      ghost var before, next, previous := nodes, Nexts(repr), Previouses(repr);
      LinkInRing(x, left, p);
      SplicedKeepsRing(before, next, previous, p, x, Nexts(repr + {x}), Previouses(repr + {x}));
      numberOfItems := numberOfItems + 1;
      nodes := With(before, p + 1, x);
      at := if at > p then at + 1 else at;
      repr := repr + {x};
    }

    /** vListInsertEnd */
    method InsertEnd(x: ListItem)
      requires Valid() && x !in repr && x.itemValue <= MAX_DELAY
      modifies this, x, repr
      ensures Valid() && x.container == this
      ensures State() == RoundRobin.InsertEnd(old(State()), x)
      ensures x.itemValue == old(x.itemValue) && forall i :: i in old(repr) ==> i.itemValue == old(i.itemValue)
    {
      ghost var p := if at == 0 then |nodes| - 1 else at - 1;
      Around(p);
      WithTail(nodes, p + 1, x);
      hide With;
      Splice(x, index.previous, p);
    }

    /** The scan of vListInsert: the last node whose value is not greater, except that
        portMAX_DELAY goes straight to the end because the marker would not stop it. */
    method FindPlace(value: nat) returns (scan: ListItem, ghost k: nat)
      requires Valid() && value <= MAX_DELAY
      ensures k < |nodes| && nodes[k] == scan
      ensures forall i :: 1 <= i <= k ==> nodes[i].itemValue <= value
      ensures k + 1 < |nodes| ==> nodes[k + 1].itemValue > value
    {
      Around(|nodes| - 1);
      scan, k := listEnd.previous, |nodes| - 1;
      forall i: nat | 1 <= i < |nodes| ensures nodes[i].itemValue <= MAX_DELAY { Around(i); }
      if value != MAX_DELAY {
        Around(0);
        scan, k := listEnd, 0;
        while scan.next.itemValue <= value
          invariant k < |nodes| && nodes[k] == scan && scan.next == nodes[After(k, |nodes|)]
          invariant forall i :: 1 <= i <= k ==> nodes[i].itemValue <= value
          decreases |nodes| - k
        {
          k := k + 1;
          Around(k);
          scan := scan.next;
        }
      }
    }

    /** vListInsert */
    method Insert(x: ListItem) returns (ghost k: nat)
      requires Valid() && x !in repr && x.itemValue <= MAX_DELAY
      modifies this, x, repr
      ensures Valid() && x.container == this
      ensures k <= |old(nodes)| - 1 && State() == InsertAt(old(State()), k, x)
      ensures InsertedByValue(old(State().items), x, old(Values())[x := old(x.itemValue)], State().items)
      ensures x.itemValue == old(x.itemValue) && forall i :: i in old(repr) ==> i.itemValue == old(i.itemValue)
    {
      hide With, InsertedByValue, InsertAt;
      var scan;
      scan, k := FindPlace(x.itemValue);
      PlaceIsByValue(x, k);
      InsertedIs(k, x);
      Splice(x, scan, k);
    }

    lemma InsertedIs(k: nat, x: ListItem)
      requires nodes != [] && k < |nodes|
      ensures InsertAt(State(), k, x).items == With(nodes, k + 1, x)[1..]
      ensures InsertAt(State(), k, x).index == if at > k then at + 1 else at
    {
    }

    lemma PlaceIsByValue(x: ListItem, k: nat)
      requires Valid() && x !in repr && k < |nodes|
      requires forall i :: 1 <= i <= k ==> nodes[i].itemValue <= x.itemValue
      requires k + 1 < |nodes| ==> nodes[k + 1].itemValue > x.itemValue
      ensures InsertedByValue(State().items, x, Values()[x := x.itemValue], InsertAt(State(), k, x).items)
    {
      forall y | y in nodes[1..] ensures y in repr && y != x {
        var i: nat :| i < |nodes| && nodes[i] == y;
        Around(i);
      }
      InsertSortedAt(nodes[1..], x, Values()[x := x.itemValue], k);
    }

    /** uxListRemove */
    static method Remove(x: ListItem) returns (count: nat)
      requires x.container != null && x.container.Valid() && x in x.container.nodes && x != x.container.listEnd
      modifies x.container, x.container.repr
      ensures x.container == null
      ensures var l := old(x.container); l.Valid() && l.State() == RemoveItem(old(l.State()), x) && count == |l.nodes| - 1
      ensures var l := old(x.container); forall i :: i in old(l.repr) ==> i.itemValue == old(i.itemValue)
    {
      var list := x.container;
      ghost var p := Position(list.nodes, x);
      list.Around(p - 1);
      list.Around(p);
      PositionIs(list.nodes[1..], x, p - 1);
      list.Unlink(x, p);
      count := list.numberOfItems;
    }

    method UnlinkFromRing(x: ListItem, ghost p: nat)
      requires Valid() && 1 <= p < |nodes| && nodes[p] == x
      modifies repr
      ensures Unlinked(nodes, old(Nexts(repr)), old(Previouses(repr)), p, Nexts(repr - {x}), Previouses(repr - {x}))
      ensures x.previous == nodes[p - 1]
      ensures forall i :: i in repr ==> i.itemValue == old(i.itemValue) && i.container == old(i.container)
    {
      Around(p - 1);
      Around(p);
      hide IsRing;
      LinkPast(x, nodes[p - 1], nodes[After(p, |nodes|)]);
    }

    method UnlinkAndForget(x: ListItem, ghost p: nat)
      requires Valid() && 1 <= p < |nodes| && nodes[p] == x && x in repr && x != listEnd
      modifies repr
      ensures IsRing(Without(nodes, p), Nexts(repr - {x}), Previouses(repr - {x}))
      ensures x.previous == nodes[p - 1] && x.container == null
      ensures forall i :: i in repr ==> i.itemValue == old(i.itemValue)
      ensures forall i :: i in repr && i != x ==> i.container == old(i.container)
    {
      hide Without, Unlinked, IsRing;
      UnlinkFromRing(x, p);
      UnlinkedKeepsRing(nodes, old(Nexts(repr)), old(Previouses(repr)), p, Nexts(repr - {x}), Previouses(repr - {x}));
      x.container := null;
    }

    lemma IndexIs(x: ListItem, p: nat)
      requires Valid() && p < |nodes| && nodes[p] == x
      ensures index == x <==> at == p
    {
    }

    method Unlink(x: ListItem, ghost p: nat)
      requires Valid() && 1 <= p < |nodes| && nodes[p] == x && x in repr && x != listEnd
      modifies this, repr
      ensures Valid() && x.container == null && repr == old(repr) - {x}
      ensures nodes == Without(old(nodes), p) && at == if old(at) >= p then old(at) - 1 else old(at)
      ensures forall i :: i in old(repr) ==> i.itemValue == old(i.itemValue)
    {
      hide Without, IsRing, Nexts, Previouses;
      IndexIs(x, p);
      UnlinkAndForget(x, p);
      ghost var next, previous := Nexts(repr - {x}), Previouses(repr - {x});
      if index == x {
        index := x.previous;
      }
      numberOfItems := numberOfItems - 1;
      at := if at >= p then at - 1 else at;
      nodes := Without(nodes, p);
      repr := repr - {x};
      assert Nexts(repr) == next && Previouses(repr) == previous;
    }

    method LinkPast(x: ListItem, ghost left: ListItem, ghost right: ListItem)
      requires x.previous == left && x.next == right && x != left && x != right
      modifies left, right
      ensures left.next == right && right.previous == left
      ensures left != right ==> left.previous == old(left.previous) && right.next == old(right.next)
      ensures left.container == old(left.container) && right.container == old(right.container)
      ensures left.itemValue == old(left.itemValue) && right.itemValue == old(right.itemValue)
    {
      x.next.previous := x.previous;
      x.previous.next := x.next;
    }

    /** listGET_OWNER_OF_NEXT_ENTRY, the item whose owner is selected */
    method Next() returns (x: ListItem)
      requires Valid() && numberOfItems > 0
      modifies this`index, this`at
      ensures Valid() && State() == Advance(old(State())) && x == Selected(State())
    {
      Around(at);
      Around(0);
      index := index.next;
      at := After(at, |nodes|);
      if index == listEnd {
        index := index.next;
        at := at + 1;
      }
      x := index;
    }
  }
}
