/** The kernel's lists read as sequences: the head is the entry after the end
    marker.  `InsertSorted` is the scan of vListInsert (the new item goes in
    front of the first item with a greater value, so behind its equals) and
    `Remove` is uxListRemove.  ListRing.dfy proves both against the pointers. */
module Lists {

  ghost predicate NoDup<T>(s: seq<T>) {
    forall i, j :: 0 <= i < j < |s| ==> s[i] != s[j]
  }

  ghost predicate Sorted<T>(s: seq<T>, key: map<T, int>)
    requires forall x :: x in s ==> x in key
  {
    forall i, j :: 0 <= i < j < |s| ==> key[s[i]] <= key[s[j]]
  }

  function InsertSorted<T(==)>(s: seq<T>, x: T, key: map<T, int>): (r: seq<T>)
    requires x in key && forall y :: y in s ==> y in key
    ensures |r| == |s| + 1
    ensures x in r
    ensures forall y :: y in r ==> y == x || y in s
    ensures forall y :: y in s ==> y in r
  {
    if s == [] || key[s[0]] > key[x] then [x] + s else [s[0]] + InsertSorted(s[1..], x, key)
  }

  function Remove<T(==)>(s: seq<T>, x: T): (r: seq<T>)
    ensures x !in s ==> r == s
    ensures x in s ==> |r| == |s| - 1
    ensures forall y :: y in r ==> y in s
    ensures forall y :: y in s && y != x ==> y in r
  {
    if s == [] then []
    else if s[0] == x then s[1..]
    else
      var r := [s[0]] + Remove(s[1..], x);
      assert forall y :: y in s ==> y == s[0] || y in s[1..];
      r
  }

  /** Cutting one place further on than in the tail. */
  lemma CutFurther<T>(s: seq<T>, j: nat)
    requires s != [] && j < |s|
    ensures s[..j + 1] == [s[0]] + s[1..][..j] && s[j + 1..] == s[1..][j..]
  {
  }

  lemma Behind<T>(h: T, a: seq<T>, x: T, b: seq<T>)
    ensures [h] + (a + [x] + b) == ([h] + a) + [x] + b
  {
  }

  lemma InsertSortedOn<T>(s: seq<T>, x: T, key: map<T, int>)
    requires x in key && (forall y :: y in s ==> y in key) && s != [] && key[s[0]] <= key[x]
    ensures InsertSorted(s, x, key) == [s[0]] + InsertSorted(s[1..], x, key)
  {
  }

  lemma {:induction false} InsertSortedSplit<T>(s: seq<T>, x: T, key: map<T, int>) returns (k: nat)
    requires x in key && forall y :: y in s ==> y in key
    ensures k <= |s| && InsertSorted(s, x, key) == s[..k] + [x] + s[k..]
    ensures forall i :: 0 <= i < k ==> key[s[i]] <= key[x]
    ensures k < |s| ==> key[s[k]] > key[x]
  {
    if s == [] || key[s[0]] > key[x] {
      k := 0;
    } else {
      InsertSortedOn(s, x, key);
      hide InsertSorted;
      var j := InsertSortedSplit(s[1..], x, key);
      k := j + 1;
      CutFurther(s, j);
      Behind(s[0], s[1..][..j], x, s[1..][j..]);
      forall i | 0 <= i < k ensures key[s[i]] <= key[x] {
        if i > 0 { assert s[i] == s[1..][i - 1]; }
      }
    }
  }

  lemma {:induction false} RemoveSplit<T>(s: seq<T>, x: T) returns (k: nat)
    requires x in s
    ensures k < |s| && s[k] == x && x !in s[..k] && Remove(s, x) == s[..k] + s[k + 1..]
  {
    if s[0] == x {
      k := 0;
    } else {
      assert Remove(s, x) == [s[0]] + Remove(s[1..], x);
      hide Remove;
      var j := RemoveSplit(s[1..], x);
      k := j + 1;
      CutFurther(s, j);
      CutFurther(s, j + 1);
    }
  }

  lemma SortedAt<T>(s: seq<T>, key: map<T, int>, i: nat, j: nat)
    requires forall x :: x in s ==> x in key
    requires Sorted(s, key) && i <= j < |s|
    ensures key[s[i]] <= key[s[j]]
  {
  }

  /** An item put between those not greater and those greater. */
  lemma PutAtSorted<T>(s: seq<T>, x: T, key: map<T, int>, k: nat)
    requires x in key && forall y :: y in s ==> y in key
    requires Sorted(s, key) && k <= |s| && (k > 0 ==> key[s[k - 1]] <= key[x]) && (k < |s| ==> key[s[k]] > key[x])
    ensures Sorted(s[..k] + [x] + s[k..], key)
  {
    hide Sorted;
    var t := s[..k] + [x] + s[k..];
    forall i, j | 0 <= i < j < |t| ensures key[t[i]] <= key[t[j]] {
      if j < k {
        SortedAt(s, key, i, j);
      } else if i > k {
        SortedAt(s, key, i - 1, j - 1);
      } else if i < k && j > k {
        SortedAt(s, key, i, j - 1);
      } else if j == k {
        SortedAt(s, key, i, k - 1);
      } else {
        SortedAt(s, key, k, j - 1);
      }
    }
    SortedIs(t, key);
  }

  lemma SortedIs<T>(s: seq<T>, key: map<T, int>)
    requires forall x :: x in s ==> x in key
    requires forall i, j :: 0 <= i < j < |s| ==> key[s[i]] <= key[s[j]]
    ensures Sorted(s, key)
  {
  }

  lemma PutAtNoDup<T>(s: seq<T>, x: T, k: nat)
    requires NoDup(s) && x !in s && k <= |s|
    ensures NoDup(s[..k] + [x] + s[k..])
  {
  }

  /** An ordered insertion keeps the order and adds exactly one occurrence. */
  lemma InsertSortedKeeps<T>(s: seq<T>, x: T, key: map<T, int>)
    requires x in key && forall y :: y in s ==> y in key
    ensures Sorted(s, key) ==> Sorted(InsertSorted(s, x, key), key)
    ensures NoDup(s) && x !in s ==> NoDup(InsertSorted(s, x, key))
  {
    hide Sorted, NoDup;
    var k := InsertSortedSplit(s, x, key);
    if Sorted(s, key) { PutAtSorted(s, x, key, k); }
    if NoDup(s) && x !in s { PutAtNoDup(s, x, k); }
    hide InsertSorted;
  }

  lemma RemoveKeeps<T>(s: seq<T>, x: T)
    requires NoDup(s)
    ensures NoDup(Remove(s, x)) && x !in Remove(s, x)
  {
    if x in s {
      var k := RemoveSplit(s, x);
    }
  }

  lemma RemoveKeepsOrder<T>(s: seq<T>, x: T, key: map<T, int>)
    requires forall y :: y in s ==> y in key
    requires Sorted(s, key)
    ensures Sorted(Remove(s, x), key)
  {
    if x in s {
      var k := RemoveSplit(s, x);
    }
  }

  /** Where the scan of vListInsert stops is where the item belongs. */
  lemma {:induction false} InsertSortedAt<T>(s: seq<T>, x: T, key: map<T, int>, k: nat)
    requires x in key && forall y :: y in s ==> y in key
    requires k <= |s| && (k < |s| ==> key[s[k]] > key[x])
    requires forall i :: 0 <= i < k ==> key[s[i]] <= key[x]
    ensures InsertSorted(s, x, key) == s[..k] + [x] + s[k..]
  {
    if k > 0 {
      InsertSortedOn(s, x, key);
      hide InsertSorted;
      InsertSortedAt(s[1..], x, key, k - 1);
      CutFurther(s, k - 1);
      Behind(s[0], s[1..][..k - 1], x, s[1..][k - 1..]);
    }
  }

  // ---------------------------------------------------------------- the items with one key

  /** In their order. */
  function Having<T(==)>(s: seq<T>, key: map<T, int>, k: int): seq<T>
    requires forall x :: x in s ==> x in key
  {
    if s == [] then [] else (if key[s[0]] == k then [s[0]] else []) + Having(s[1..], key, k)
  }

  lemma {:induction false} HavingSame<T>(s: seq<T>, a: map<T, int>, b: map<T, int>, k: int)
    requires forall x :: x in s ==> x in a && x in b && a[x] == b[x]
    ensures Having(s, a, k) == Having(s, b, k)
  {
    if s != [] { HavingSame(s[1..], a, b, k); }
  }

  // ---------------------------------------------------------------- a key that changes

  /** Where x is, its neighbours leave room for the key v. */
  ghost predicate FitsAt<T>(s: seq<T>, key: map<T, int>, x: T, v: int)
    requires forall y :: y in s ==> y in key
  {
    forall k {:trigger s[k]} :: 0 <= k < |s| && s[k] == x ==>
      (k > 0 ==> key[s[k - 1]] <= v) && (k + 1 < |s| ==> v <= key[s[k + 1]])
  }

  /** A list whose item's key is changed in place stays in order exactly if the new key
      fits where the item is. */
  lemma RekeyedInOrder<T>(s: seq<T>, key: map<T, int>, other: map<T, int>, x: T, v: int)
    requires NoDup(s) && (forall y :: y in s ==> y in key && y in other) && Sorted(s, key) && x in other && other[x] == v
    requires forall y :: y in s && y != x ==> other[y] == key[y]
    ensures Sorted(s, other) <==> FitsAt(s, key, x, v)
  {
    hide Sorted, NoDup, FitsAt;
    if Sorted(s, other) { OrderFits(s, key, other, x, v); }
    if FitsAt(s, key, x, v) { FitsOrder(s, key, other, x, v); }
  }

  lemma OrderFits<T>(s: seq<T>, key: map<T, int>, other: map<T, int>, x: T, v: int)
    requires NoDup(s) && (forall y :: y in s ==> y in key && y in other) && x in other && other[x] == v
    requires Sorted(s, other) && forall y :: y in s && y != x ==> other[y] == key[y]
    ensures FitsAt(s, key, x, v)
  {
    hide Sorted;
    forall k | 0 <= k < |s| && s[k] == x
      ensures (k > 0 ==> key[s[k - 1]] <= v) && (k + 1 < |s| ==> v <= key[s[k + 1]])
    {
      if k > 0 { SortedAt(s, other, k - 1, k); }
      if k + 1 < |s| { SortedAt(s, other, k, k + 1); }
    }
  }

  lemma FitsOrder<T>(s: seq<T>, key: map<T, int>, other: map<T, int>, x: T, v: int)
    requires NoDup(s) && (forall y :: y in s ==> y in key && y in other) && x in other && other[x] == v
    requires Sorted(s, key) && FitsAt(s, key, x, v) && forall y :: y in s && y != x ==> other[y] == key[y]
    ensures Sorted(s, other)
  {
    hide Sorted, NoDup;
    forall i, j | 0 <= i < j < |s| ensures other[s[i]] <= other[s[j]] {
      if s[i] == x {
        SortedAt(s, key, i + 1, j);
      } else if s[j] == x {
        SortedAt(s, key, i, j - 1);
      } else {
        SortedAt(s, key, i, j);
      }
    }
    SortedIs(s, other);
  }
}
