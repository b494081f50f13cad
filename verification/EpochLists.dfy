/** Lists of things that fall due, told apart by tick count alone because everything on
    one list falls due in one epoch: the delayed lists of timers and co-routines. */
module EpochLists {
  import opened Epochs
  import opened Lists

  type Id = nat

  /** What the list items hold: the tick counts. */
  function Values(due: map<Id, Time>): map<Id, int> { map x | x in due :: due[x].tick }

  /** A list holds what falls due in one epoch, in order. */
  ghost predicate ListOk(list: seq<Id>, due: map<Id, Time>, epoch: nat) {
    && NoDup(list)
    && (forall x :: x in list ==> x in due && due[x].epoch == epoch)
    && Sorted(list, Values(due))
  }

  lemma SameValues(list: seq<Id>, a: map<Id, Time>, b: map<Id, Time>)
    requires forall x :: x in list ==> x in a && x in b && a[x] == b[x]
    requires Sorted(list, Values(a))
    ensures Sorted(list, Values(b))
  {
  }
}
