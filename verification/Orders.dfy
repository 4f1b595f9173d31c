/** Sorting with ties broken arbitrarily. */
module Orders {
  import opened Common

  /** `order` lists `s` once each, never a larger element before a smaller one. */
  ghost predicate IsSortedListing(s: set<PeerId>, less: (PeerId, PeerId) -> bool, order: seq<PeerId>) {
    && NoDup(order)
    && (forall x :: x in order <==> x in s)
    && (forall i, j :: 0 <= i < j < |order| ==> !less(order[j], order[i]))
  }

  ghost predicate StrictOrder(less: (PeerId, PeerId) -> bool) {
    && (forall x :: !less(x, x))
    && (forall x, y, z :: less(x, y) && less(y, z) ==> less(x, z))
  }

  lemma {:induction false} MinimalExists(s: set<PeerId>, less: (PeerId, PeerId) -> bool) returns (m: PeerId)
    requires s != {} && StrictOrder(less)
    ensures m in s && forall x :: x in s ==> !less(x, m)
    decreases s
  {
    var y :| y in s;
    m := y;
    var smaller := set x | x in s && less(x, y);
    if smaller != {} {
      assert y !in smaller && smaller < s;
      m := MinimalExists(smaller, less);
      assert forall x :: x in s && less(x, m) ==> x in smaller;
    } else {
      assert forall x :: x in s && less(x, y) ==> x in smaller;
    }
  }

  /** `shuffle` followed by a stable sort: any sorted listing may come out. */
  method ShuffleAndSort(s: set<PeerId>, less: (PeerId, PeerId) -> bool) returns (order: seq<PeerId>)
    requires StrictOrder(less)
    ensures IsSortedListing(s, less, order)
  {
    order := [];
    var rest := s;
    while rest != {}
      invariant rest <= s && IsSortedListing(s - rest, less, order)
      invariant forall x, y :: x in order && y in rest ==> !less(y, x)
    {
      ghost var m := MinimalExists(rest, less);
      var p :| p in rest && forall x :: x in rest ==> !less(x, p);
      order := order + [p];
      rest := rest - {p};
    }
    assert s - rest == s;
  }
}
