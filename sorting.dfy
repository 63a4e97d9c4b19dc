/** Python's `sorted(xs, key=...)` for an integer key: an insertion sort
    that is stable, so that elements with equal keys keep their order. */
module Sorting {
  /** Every element's key is at most the keys of those after it. */
  predicate SortedBy<T>(key: T -> int, xs: seq<T>)
  {
    forall i, j :: 0 <= i < j < |xs| ==> key(xs[i]) <= key(xs[j])
  }

  /** Put `x` in front of the first element whose key is not smaller. */
  function Insert<T>(key: T -> int, x: T, xs: seq<T>): seq<T>
  {
    if xs == [] then [x]
    else if key(x) <= key(xs[0]) then [x] + xs
    else [xs[0]] + Insert(key, x, xs[1..])
  }

  /** Inserting into a sorted list keeps it sorted; what comes first is `x`
      or what came first before. */
  lemma {:induction false} InsertSorted<T>(key: T -> int, x: T, xs: seq<T>)
    requires SortedBy(key, xs)
    ensures SortedBy(key, Insert(key, x, xs))
    ensures Insert(key, x, xs)[0] == x || Insert(key, x, xs)[0] == xs[0]
  {
    if xs != [] && key(x) > key(xs[0]) {
      var rest := Insert(key, x, xs[1..]);
      InsertSorted(key, x, xs[1..]);
      assert key(xs[0]) <= key(rest[0]);
      assert Insert(key, x, xs) == [xs[0]] + rest;
    }
  }

  /** Inserting adds exactly `x`. */
  lemma {:induction false} InsertPermutes<T>(key: T -> int, x: T, xs: seq<T>)
    ensures multiset(Insert(key, x, xs)) == multiset(xs) + multiset{x}
  {
    if xs != [] && key(x) > key(xs[0]) {
      InsertPermutes(key, x, xs[1..]);
      assert xs == [xs[0]] + xs[1..];
    }
  }

  /** `sorted(xs, key=key)`: sorted, and a permutation of `xs`. */
  function SortBy<T>(key: T -> int, xs: seq<T>): (r: seq<T>)
    ensures SortedBy(key, r)
    ensures multiset(r) == multiset(xs)
  {
    if xs == [] then []
    else
      var rest := SortBy(key, xs[1..]);
      InsertSorted(key, xs[0], rest);
      InsertPermutes(key, xs[0], rest);
      assert xs == [xs[0]] + xs[1..];
      Insert(key, xs[0], rest)
  }

  /** The elements of `xs` whose key is `k`, in order. */
  function WithKey<T>(key: T -> int, xs: seq<T>, k: int): seq<T>
  {
    if xs == [] then [] else (if key(xs[0]) == k then [xs[0]] else []) + WithKey(key, xs[1..], k)
  }

  lemma WithKeyCons<T>(key: T -> int, y: T, ys: seq<T>, k: int)
    ensures WithKey(key, [y] + ys, k) == (if key(y) == k then [y] else []) + WithKey(key, ys, k)
  {
    assert ([y] + ys)[1..] == ys;
  }

  /** Inserting `x` leaves the other elements with `x`'s key behind it. */
  lemma {:induction false} InsertWithKey<T>(key: T -> int, x: T, xs: seq<T>, k: int)
    ensures WithKey(key, Insert(key, x, xs), k) == (if key(x) == k then [x] else []) + WithKey(key, xs, k)
  {
    if xs == [] {
      WithKeyCons(key, x, [], k);
    } else if key(x) <= key(xs[0]) {
      WithKeyCons(key, x, xs, k);
    } else {
      var rest := Insert(key, x, xs[1..]);
      var tail := WithKey(key, xs[1..], k);
      InsertWithKey(key, x, xs[1..], k);
      WithKeyCons(key, xs[0], rest, k);
      if key(x) == k {
        assert WithKey(key, Insert(key, x, xs), k) == [x] + tail;
      } else if key(xs[0]) == k {
        assert WithKey(key, xs, k) == [xs[0]] + tail;
      }
    }
  }

  /** The sort is stable: elements with equal keys keep their order. */
  lemma {:induction false} SortByStable<T>(key: T -> int, xs: seq<T>, k: int)
    ensures WithKey(key, SortBy(key, xs), k) == WithKey(key, xs, k)
  {
    if xs != [] {
      SortByStable(key, xs[1..], k);
      InsertWithKey(key, xs[0], SortBy(key, xs[1..]), k);
    }
  }
}
