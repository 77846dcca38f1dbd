/** Stable ascending sort by a key, as the host language's `sorted`. */
module Sorting {

  function InsertAfter<T>(xs: seq<T>, x: T, key: T -> int): (r: seq<T>)
    ensures |r| == |xs| + 1 && multiset(r) == multiset(xs) + multiset{x}
  {
    if xs == [] then [x]
    else
      var n := |xs| - 1;
      assert xs == xs[..n] + [xs[n]];
      if key(xs[n]) <= key(x) then xs + [x] else InsertAfter(xs[..n], x, key) + [xs[n]]
  }

  /** Python's `sorted(xs, key=key)`: ascending and stable. */
  function Sorted<T>(xs: seq<T>, key: T -> int): (r: seq<T>)
    ensures |r| == |xs| && multiset(r) == multiset(xs)
  {
    if xs == [] then []
    else
      var n := |xs| - 1;
      assert xs == xs[..n] + [xs[n]];
      InsertAfter(Sorted(xs[..n], key), xs[n], key)
  }

  predicate Ascends<T>(xs: seq<T>, key: T -> int) {
    forall i, j :: 0 <= i < j < |xs| ==> key(xs[i]) <= key(xs[j])
  }

  predicate AtMost<T>(xs: seq<T>, key: T -> int, bound: int) {
    forall i :: 0 <= i < |xs| ==> key(xs[i]) <= bound
  }

  lemma {:induction false} InsertAtMost<T>(xs: seq<T>, x: T, key: T -> int, bound: int)
    requires AtMost(xs, key, bound) && key(x) <= bound
    ensures AtMost(InsertAfter(xs, x, key), key, bound)
  {
    if xs != [] && key(xs[|xs| - 1]) > key(x) {
      InsertAtMost(xs[..|xs| - 1], x, key, bound);
    }
  }

  lemma {:induction false} InsertAscends<T>(xs: seq<T>, x: T, key: T -> int)
    requires Ascends(xs, key)
    ensures Ascends(InsertAfter(xs, x, key), key)
  {
    if xs != [] {
      var n := |xs| - 1;
      if key(xs[n]) > key(x) {
        InsertAscends(xs[..n], x, key);
        InsertAtMost(xs[..n], x, key, key(xs[n]));
      }
    }
  }

  lemma {:induction false} SortedAscends<T>(xs: seq<T>, key: T -> int)
    ensures Ascends(Sorted(xs, key), key)
  {
    if xs != [] {
      SortedAscends(xs[..|xs| - 1], key);
      InsertAscends(Sorted(xs[..|xs| - 1], key), xs[|xs| - 1], key);
    }
  }

  /** The elements with one key, in order. */
  function WithKey<T>(xs: seq<T>, key: T -> int, k: int): seq<T> {
    if xs == [] then []
    else WithKey(xs[..|xs| - 1], key, k) + (if key(xs[|xs| - 1]) == k then [xs[|xs| - 1]] else [])
  }

  lemma WithKeySnoc<T>(xs: seq<T>, x: T, key: T -> int, k: int)
    ensures WithKey(xs + [x], key, k) == WithKey(xs, key, k) + (if key(x) == k then [x] else [])
  {
    assert (xs + [x])[..|xs|] == xs;
  }

  lemma InsertedBefore<T>(front: seq<T>, last: T, x: T, inserted: seq<T>, key: T -> int, k: int)
    requires key(x) < key(last)
    requires WithKey(inserted, key, k) == WithKey(front, key, k) + (if key(x) == k then [x] else [])
    ensures WithKey(inserted + [last], key, k) == WithKey(front + [last], key, k) + (if key(x) == k then [x] else [])
  {
    WithKeySnoc(front, last, key, k);
    WithKeySnoc(inserted, last, key, k);
  }

  lemma {:induction false} InsertStable<T>(xs: seq<T>, x: T, key: T -> int, k: int)
    ensures WithKey(InsertAfter(xs, x, key), key, k) == WithKey(xs, key, k) + (if key(x) == k then [x] else [])
  {
    if xs != [] {
      var n := |xs| - 1;
      if key(xs[n]) <= key(x) {
        WithKeySnoc(xs, x, key, k);
      } else {
        var front := xs[..n];
        assert xs == front + [xs[n]];
        InsertStable(front, x, key, k);
        InsertedBefore(front, xs[n], x, InsertAfter(front, x, key), key, k);
      }
    }
  }

  /** Stability: elements with equal keys keep their order. */
  lemma {:induction false} SortedStable<T>(xs: seq<T>, key: T -> int, k: int)
    ensures WithKey(Sorted(xs, key), key, k) == WithKey(xs, key, k)
  {
    if xs != [] {
      var n := |xs| - 1;
      SortedStable(xs[..n], key, k);
      InsertStable(Sorted(xs[..n], key), xs[n], key, k);
    }
  }

  /** The elements that satisfy p, in order. */
  function Select<T(!new)>(xs: seq<T>, p: T -> bool): (r: seq<T>)
    ensures forall x :: x in r <==> x in xs && p(x)
  {
    if xs == [] then []
    else
      var n := |xs| - 1;
      assert xs == xs[..n] + [xs[n]];
      Select(xs[..n], p) + (if p(xs[n]) then [xs[n]] else [])
  }

  /** Selecting by two tests of which at most one holds. */
  lemma {:induction false} SelectEither<T(!new)>(xs: seq<T>, p: T -> bool, q: T -> bool, either: T -> bool)
    requires forall x :: x in xs ==> !(p(x) && q(x)) && (either(x) <==> p(x) || q(x))
    ensures multiset(Select(xs, either)) == multiset(Select(xs, p)) + multiset(Select(xs, q))
  {
    if xs != [] {
      var n := |xs| - 1;
      assert xs == xs[..n] + [xs[n]];
      SelectEither(xs[..n], p, q, either);
    }
  }

  lemma SelectSnoc<T(!new)>(xs: seq<T>, x: T, p: T -> bool)
    ensures Select(xs + [x], p) == if p(x) then Select(xs, p) + [x] else Select(xs, p)
  {
    assert (xs + [x])[..|xs|] == xs;
  }

  lemma {:induction false} SelectTwice<T(!new)>(xs: seq<T>, p: T -> bool, q: T -> bool, both: T -> bool)
    requires forall x :: x in xs ==> (both(x) <==> p(x) && q(x))
    ensures Select(Select(xs, p), q) == Select(xs, both)
  {
    if xs != [] {
      var n := |xs| - 1;
      assert xs == xs[..n] + [xs[n]];
      SelectTwice(xs[..n], p, q, both);
      SelectSnoc(Select(xs[..n], p), xs[n], q);
      SelectSnoc(xs[..n], xs[n], p);
      SelectSnoc(xs[..n], xs[n], both);
    }
  }

  lemma {:induction false} WithKeySelects<T(!new)>(xs: seq<T>, key: T -> int, k: int, p: T -> bool)
    requires forall x :: x in xs ==> (p(x) <==> key(x) == k)
    ensures WithKey(xs, key, k) == Select(xs, p)
  {
    if xs != [] {
      var n := |xs| - 1;
      assert xs == xs[..n] + [xs[n]];
      WithKeySelects(xs[..n], key, k, p);
    }
  }
}
