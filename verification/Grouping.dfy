/** Grouping a list by a key, as the ordered dictionaries of the reports do. */
module Grouping {
  import opened Sums

  /** The members of one group, in list order. */
  function Select<T, K(==)>(xs: seq<T>, key: T -> K, k: K): seq<T> {
    if xs == [] then []
    else
      var x := xs[|xs| - 1];
      Select(xs[..|xs| - 1], key, k) + if key(x) == k then [x] else []
  }

  /** The group keys in order of first occurrence. */
  function KeysOf<T, K(==,!new)>(xs: seq<T>, key: T -> K): (ks: seq<K>)
    ensures Distinct(ks)
    ensures forall k :: k in ks <==> exists i :: 0 <= i < |xs| && key(xs[i]) == k
  {
    if xs == [] then []
    else
      var front := KeysOf(xs[..|xs| - 1], key);
      var k := key(xs[|xs| - 1]);
      assert key(xs[|xs| - 1]) == k;
      if k in front then front else front + [k]
  }

  ghost predicate Distinct<K>(ks: seq<K>) {
    forall i, j :: 0 <= i < j < |ks| ==> ks[i] != ks[j]
  }

  ghost function GroupTotal<T, K>(xs: seq<T>, key: T -> K, weight: T -> real): K -> real {
    k => Sum(Select(xs, key, k), weight)
  }

  lemma SelectSnoc<T, K>(xs: seq<T>, x: T, key: T -> K, k: K)
    ensures Select(xs + [x], key, k) == Select(xs, key, k) + if key(x) == k then [x] else []
  {
    assert (xs + [x])[..|xs|] == xs;
  }

  lemma KeysSnoc<T, K(!new)>(xs: seq<T>, x: T, key: T -> K)
    ensures KeysOf(xs + [x], key)
         == KeysOf(xs, key) + if key(x) in KeysOf(xs, key) then [] else [key(x)]
  {
    assert (xs + [x])[..|xs|] == xs;
  }

  /** The keys stand in order of first occurrence: an element's key is preceded only by keys of earlier elements. */
  lemma {:induction false} KeysKeepOrder<T, K(!new)>(xs: seq<T>, key: T -> K, i: nat, j: nat, m: nat) returns (l: nat)
    requires i < j < |KeysOf(xs, key)| && m < |xs| && key(xs[m]) == KeysOf(xs, key)[j]
    ensures l < m && key(xs[l]) == KeysOf(xs, key)[i]
  {
    var n := |xs| - 1;
    var front := KeysOf(xs[..n], key);
    if m == n && j == |front| {
      assert KeysOf(xs, key)[i] in front;
      l :| 0 <= l < n && key(xs[..n][l]) == KeysOf(xs, key)[i];
    } else if m == n {
      var e :| 0 <= e < n && key(xs[..n][e]) == front[j];
      l := KeysKeepOrder(xs[..n], key, i, j, e);
    } else {
      assert key(xs[..n][m]) in front;
      l := KeysKeepOrder(xs[..n], key, i, j, m);
    }
  }

  /** Adding one element raises exactly one group total. */
  lemma {:induction false} GroupTotalsSnoc<T, K>(ks: seq<K>, xs: seq<T>, x: T, key: T -> K, weight: T -> real)
    requires Distinct(ks)
    ensures Sum(ks, GroupTotal(xs + [x], key, weight))
         == Sum(ks, GroupTotal(xs, key, weight)) + if key(x) in ks then weight(x) else 0.0
  {
    if ks != [] {
      var n := |ks| - 1;
      var k := ks[n];
      GroupTotalsSnoc(ks[..n], xs, x, key, weight);
      GroupTotalSnoc(xs, x, key, weight, k);
      LastOrEarlier(ks, key(x));
    }
  }

  lemma GroupTotalSnoc<T, K>(xs: seq<T>, x: T, key: T -> K, weight: T -> real, k: K)
    ensures GroupTotal(xs + [x], key, weight)(k)
      == GroupTotal(xs, key, weight)(k) + if key(x) == k then weight(x) else 0.0
  {
    SelectSnoc(xs, x, key, k);
    if key(x) == k {
      SumSnoc(Select(xs, key, k), x, weight);
    } else {
      assert Select(xs, key, k) + [] == Select(xs, key, k);
    }
  }

  lemma LastOrEarlier<K>(ks: seq<K>, k: K)
    requires ks != [] && Distinct(ks)
    ensures k in ks <==> k == ks[|ks| - 1] || k in ks[..|ks| - 1]
    ensures k == ks[|ks| - 1] ==> k !in ks[..|ks| - 1]
  {
  }

  /** However the groups are ordered, their totals add up to the total of the list. */
  lemma {:induction false} GroupTotalsAddUp<T, K>(ks: seq<K>, xs: seq<T>, key: T -> K, weight: T -> real)
    requires Distinct(ks)
    requires forall x :: x in xs ==> key(x) in ks
    ensures Sum(ks, GroupTotal(xs, key, weight)) == Sum(xs, weight)
  {
    if xs == [] {
      EmptyTotals(ks, key, weight);
    } else {
      var n := |xs| - 1;
      assert xs == xs[..n] + [xs[n]];
      GroupTotalsAddUp(ks, xs[..n], key, weight);
      GroupTotalsSnoc(ks, xs[..n], xs[n], key, weight);
    }
  }

  lemma {:induction false} EmptyTotals<T, K>(ks: seq<K>, key: T -> K, weight: T -> real)
    ensures Sum(ks, GroupTotal([], key, weight)) == 0.0
  {
    if ks != [] {
      EmptyTotals(ks[..|ks| - 1], key, weight);
    }
  }

  lemma {:induction false} SelectMembers<T(!new), K>(xs: seq<T>, key: T -> K, k: K)
    ensures forall x :: x in Select(xs, key, k) <==> x in xs && key(x) == k
  {
    if xs != [] {
      SelectMembers(xs[..|xs| - 1], key, k);
      assert xs == xs[..|xs| - 1] + [xs[|xs| - 1]];
    }
  }
}
