/** Ordered sets as strictly sorted sequences, the contents of Rust's BTree
    collections in iteration order. */
module Ordered {

  ghost predicate StrictOrder<T(!new)>(less: (T, T) -> bool) {
    && (forall x :: !less(x, x))
    && (forall x, y, z :: less(x, y) && less(y, z) ==> less(x, z))
    && (forall x, y :: x != y ==> less(x, y) || less(y, x))
  }

  ghost predicate Sorted<T>(less: (T, T) -> bool, xs: seq<T>) {
    forall i, j | 0 <= i < j < |xs| :: less(xs[i], xs[j])
  }

  /** Adds `x`, keeping an equal element that is already there. */
  function Insert<T(!new, ==)>(less: (T, T) -> bool, xs: seq<T>, x: T): (r: seq<T>)
    requires StrictOrder(less) && Sorted(less, xs)
    ensures Sorted(less, r)
    ensures forall y :: y in r <==> y in xs || y == x
  {
    if xs == [] then [x]
    else if x == xs[0] then xs
    else if less(x, xs[0]) then [x] + xs
    else
      var rest := Insert(less, xs[1..], x);
      assert xs == [xs[0]] + xs[1..];
      assert forall y | y in rest :: less(xs[0], y);
      [xs[0]] + rest
  }

  function InsertAll<T(!new, ==)>(less: (T, T) -> bool, xs: seq<T>): (r: seq<T>)
    requires StrictOrder(less)
    ensures Sorted(less, r)
    ensures forall y :: y in r <==> y in xs
  {
    if xs == [] then [] else
      assert xs == xs[..|xs| - 1] + [xs[|xs| - 1]];
      Insert(less, InsertAll(less, xs[..|xs| - 1]), xs[|xs| - 1])
  }

  /** A strictly sorted sequence is determined by its elements. */
  lemma {:induction false} SortedUnique<T(!new)>(less: (T, T) -> bool, xs: seq<T>, ys: seq<T>)
    requires StrictOrder(less) && Sorted(less, xs) && Sorted(less, ys)
    requires forall x :: x in xs <==> x in ys
    ensures xs == ys
    decreases |xs|
  {
    assert xs == [] <==> ys == [] by {
      assert xs != [] ==> xs[0] in ys;
      assert ys != [] ==> ys[0] in xs;
    }
    if xs != [] {
      assert xs[0] in ys && ys[0] in xs;
      assert xs[0] == ys[0];
      forall x ensures x in xs[1..] <==> x in ys[1..] {
        assert x in xs[1..] ==> x in xs && x != xs[0];
        assert x in ys[1..] ==> x in ys && x != ys[0];
        assert x in xs ==> x == xs[0] || x in xs[1..];
        assert x in ys ==> x == ys[0] || x in ys[1..];
      }
      SortedUnique(less, xs[1..], ys[1..]);
    }
  }

  lemma SortedAppend<T>(less: (T, T) -> bool, xs: seq<T>, ys: seq<T>)
    requires Sorted(less, xs) && Sorted(less, ys)
    requires forall x, y | x in xs && y in ys :: less(x, y)
    ensures Sorted(less, xs + ys)
  {}
}
