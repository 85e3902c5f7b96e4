/** Stable insertion sort: what the slices.SortFunc family promises. */
module Sorting {
  ghost predicate TotalPreorder<T(!new)>(le: (T, T) -> bool) {
    && (forall x, y :: le(x, y) || le(y, x))
    && (forall x, y, z :: le(x, y) && le(y, z) ==> le(x, z))
  }

  ghost predicate SortedBy<T>(xs: seq<T>, le: (T, T) -> bool) {
    forall i, j | 0 <= i < j < |xs| :: le(xs[i], xs[j])
  }

  /** Places x behind every element that is not greater, so equal elements keep their order. */
  function Insert<T>(xs: seq<T>, x: T, le: (T, T) -> bool): (r: seq<T>)
    ensures multiset(r) == multiset(xs) + multiset{x}
  {
    if xs == [] || le(xs[|xs| - 1], x) then xs + [x]
    else
      assert xs == xs[..|xs| - 1] + [xs[|xs| - 1]];
      Insert(xs[..|xs| - 1], x, le) + [xs[|xs| - 1]]
  }

  function Sort<T>(xs: seq<T>, le: (T, T) -> bool): (r: seq<T>)
    ensures multiset(r) == multiset(xs)
  {
    if xs == [] then []
    else
      assert xs == xs[..|xs| - 1] + [xs[|xs| - 1]];
      Insert(Sort(xs[..|xs| - 1], le), xs[|xs| - 1], le)
  }

  lemma {:induction false} InsertKeepsSorted<T(!new)>(xs: seq<T>, x: T, le: (T, T) -> bool)
    requires TotalPreorder(le) && SortedBy(xs, le)
    ensures SortedBy(Insert(xs, x, le), le)
  {
    if xs == [] || le(xs[|xs| - 1], x) {
    } else {
      var front, last := xs[..|xs| - 1], xs[|xs| - 1];
      InsertKeepsSorted(front, x, le);
      forall y | y in Insert(front, x, le) ensures le(y, last) {
        assert y in multiset(front) + multiset{x};
      }
    }
  }

  lemma {:induction false} SortIsSorted<T(!new)>(xs: seq<T>, le: (T, T) -> bool)
    requires TotalPreorder(le)
    ensures SortedBy(Sort(xs, le), le)
  {
    if xs != [] {
      SortIsSorted(xs[..|xs| - 1], le);
      InsertKeepsSorted(Sort(xs[..|xs| - 1], le), xs[|xs| - 1], le);
    }
  }

  /** The elements that tie with y, in order. */
  function Ties<T>(xs: seq<T>, y: T, le: (T, T) -> bool): seq<T> {
    if xs == [] then []
    else
      var last := xs[|xs| - 1];
      Ties(xs[..|xs| - 1], y, le) + if le(last, y) && le(y, last) then [last] else []
  }

  lemma TiesSnoc<T>(xs: seq<T>, x: T, y: T, le: (T, T) -> bool)
    ensures Ties(xs + [x], y, le) == Ties(xs, y, le) + if le(x, y) && le(y, x) then [x] else []
  {
    assert (xs + [x])[..|xs|] == xs;
  }

  lemma {:induction false} InsertIsStable<T(!new)>(xs: seq<T>, x: T, y: T, le: (T, T) -> bool)
    requires TotalPreorder(le)
    ensures Ties(Insert(xs, x, le), y, le) == Ties(xs, y, le) + if le(x, y) && le(y, x) then [x] else []
  {
    if xs == [] || le(xs[|xs| - 1], x) {
      TiesSnoc(xs, x, y, le);
    } else {
      var front, last := xs[..|xs| - 1], xs[|xs| - 1];
      InsertIsStable(front, x, y, le);
      TiesSnoc(Insert(front, x, le), last, y, le);
    }
  }

  /** Elements that tie keep their order. */
  lemma {:induction false} SortIsStable<T(!new)>(xs: seq<T>, y: T, le: (T, T) -> bool)
    requires TotalPreorder(le)
    ensures Ties(Sort(xs, le), y, le) == Ties(xs, y, le)
  {
    if xs != [] {
      SortIsStable(xs[..|xs| - 1], y, le);
      InsertIsStable(Sort(xs[..|xs| - 1], le), xs[|xs| - 1], y, le);
    }
  }
}
