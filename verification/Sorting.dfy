/** The stable sort of a list by an integer key. */
module Sorting {

  /** Inserts after every element whose key is not greater. */
  function Insert<T>(xs: seq<T>, x: T, key: T -> int): (ys: seq<T>)
    ensures multiset(ys) == multiset(xs) + multiset{x}
  {
    if xs == [] || key(xs[|xs| - 1]) <= key(x) then xs + [x]
    else
      var n := |xs| - 1;
      assert xs == xs[..n] + [xs[n]];
      Insert(xs[..n], x, key) + [xs[n]]
  }

  function Sort<T>(xs: seq<T>, key: T -> int): (ys: seq<T>)
    ensures multiset(ys) == multiset(xs)
  {
    if xs == [] then []
    else
      var n := |xs| - 1;
      assert xs == xs[..n] + [xs[n]];
      Insert(Sort(xs[..n], key), xs[n], key)
  }

  ghost predicate Sorted<T>(xs: seq<T>, key: T -> int) {
    forall i, j :: 0 <= i < j < |xs| ==> key(xs[i]) <= key(xs[j])
  }

  lemma {:induction false} InsertKeepsSorted<T>(xs: seq<T>, x: T, key: T -> int)
    requires Sorted(xs, key)
    ensures Sorted(Insert(xs, x, key), key)
  {
    if xs != [] && key(xs[|xs| - 1]) > key(x) {
      var n := |xs| - 1;
      InsertKeepsSorted(xs[..n], x, key);
      InsertMembers(xs[..n], x, key);
      AppendKeepsSorted(Insert(xs[..n], x, key), xs[n], key);
    }
  }

  lemma AppendKeepsSorted<T>(xs: seq<T>, x: T, key: T -> int)
    requires Sorted(xs, key) && forall i :: 0 <= i < |xs| ==> key(xs[i]) <= key(x)
    ensures Sorted(xs + [x], key)
  {
  }

  lemma {:induction false} InsertMembers<T>(xs: seq<T>, x: T, key: T -> int)
    ensures forall i :: 0 <= i < |Insert(xs, x, key)| ==> Insert(xs, x, key)[i] == x || Insert(xs, x, key)[i] in xs
  {
    if xs != [] && key(xs[|xs| - 1]) > key(x) {
      InsertMembers(xs[..|xs| - 1], x, key);
    }
  }

  lemma {:induction false} SortSorts<T>(xs: seq<T>, key: T -> int)
    ensures Sorted(Sort(xs, key), key)
  {
    if xs != [] {
      SortSorts(xs[..|xs| - 1], key);
      InsertKeepsSorted(Sort(xs[..|xs| - 1], key), xs[|xs| - 1], key);
    }
  }

  /** The elements with one key. */
  function WithKey<T>(xs: seq<T>, key: T -> int, k: int): seq<T> {
    if xs == [] then []
    else WithKey(xs[..|xs| - 1], key, k) + if key(xs[|xs| - 1]) == k then [xs[|xs| - 1]] else []
  }

  lemma WithKeySnoc<T>(xs: seq<T>, x: T, key: T -> int, k: int)
    ensures WithKey(xs + [x], key, k) == WithKey(xs, key, k) + if key(x) == k then [x] else []
  {
    assert (xs + [x])[..|xs|] == xs;
  }

  lemma {:induction false} InsertIsStable<T>(xs: seq<T>, x: T, key: T -> int, k: int)
    requires Sorted(xs, key)
    ensures WithKey(Insert(xs, x, key), key, k) == WithKey(xs, key, k) + if key(x) == k then [x] else []
  {
    if xs == [] || key(xs[|xs| - 1]) <= key(x) {
      WithKeySnoc(xs, x, key, k);
    } else {
      var n := |xs| - 1;
      InsertIsStable(xs[..n], x, key, k);
      WithKeySnoc(Insert(xs[..n], x, key), xs[n], key, k);
      assert key(xs[n]) == k && key(x) == k ==> false;
      assert WithKey(xs[..n], key, k) + [] == WithKey(xs[..n], key, k);
    }
  }

  /** Elements with equal keys keep their order. */
  lemma {:induction false} SortIsStable<T>(xs: seq<T>, key: T -> int, k: int)
    ensures WithKey(Sort(xs, key), key, k) == WithKey(xs, key, k)
  {
    if xs != [] {
      var n := |xs| - 1;
      SortSorts(xs[..n], key);
      SortIsStable(xs[..n], key, k);
      InsertIsStable(Sort(xs[..n], key), xs[n], key, k);
    }
  }

  lemma SortKeepsMembers<T>(xs: seq<T>, key: T -> int, x: T)
    ensures x in Sort(xs, key) <==> x in xs
    ensures |Sort(xs, key)| == |xs|
  {
    assert x in multiset(Sort(xs, key)) <==> x in multiset(xs);
    assert |multiset(Sort(xs, key))| == |multiset(xs)|;
  }
}
