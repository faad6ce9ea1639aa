/** Weighted sums and counts over a list, the only arithmetic the ledgers and reports share. */
module Sums {

  function Sum<T>(xs: seq<T>, weight: T -> real): real {
    if xs == [] then 0.0 else Sum(xs[..|xs| - 1], weight) + weight(xs[|xs| - 1])
  }

  lemma SumSnoc<T>(xs: seq<T>, x: T, weight: T -> real)
    ensures Sum(xs + [x], weight) == Sum(xs, weight) + weight(x)
  {
    assert (xs + [x])[..|xs|] == xs;
  }

  lemma SumPrefix<T>(xs: seq<T>, i: nat, weight: T -> real)
    requires i < |xs|
    ensures Sum(xs[..i + 1], weight) == Sum(xs[..i], weight) + weight(xs[i])
  {
    assert xs[..i + 1] == xs[..i] + [xs[i]];
    SumSnoc(xs[..i], xs[i], weight);
  }

  lemma {:induction false} SumUpdate<T>(xs: seq<T>, i: nat, x: T, weight: T -> real)
    requires i < |xs|
    ensures Sum(xs[i := x], weight) == Sum(xs, weight) - weight(xs[i]) + weight(x)
  {
    var n := |xs| - 1;
    if i == n {
      assert xs[i := x][..n] == xs[..n];
    } else {
      assert xs[i := x][..n] == xs[..n][i := x];
      SumUpdate(xs[..n], i, x, weight);
    }
  }

  lemma {:induction false} SumMonotone<T>(xs: seq<T>, low: T -> real, high: T -> real)
    requires forall x :: x in xs ==> low(x) <= high(x)
    ensures Sum(xs, low) <= Sum(xs, high)
  {
    if xs != [] {
      var x := xs[|xs| - 1];
      assert x in xs;
      SumMonotone(xs[..|xs| - 1], low, high);
    }
  }

  lemma {:induction false} SumAdd<T>(xs: seq<T>, whole: T -> real, part: T -> real, rest: T -> real)
    requires forall x :: x in xs ==> whole(x) == part(x) + rest(x)
    ensures Sum(xs, whole) == Sum(xs, part) + Sum(xs, rest)
  {
    if xs != [] {
      var x := xs[|xs| - 1];
      assert x in xs;
      SumAdd(xs[..|xs| - 1], whole, part, rest);
    }
  }

  lemma {:induction false} SumIsNonnegative<T>(xs: seq<T>, weight: T -> real)
    requires forall x :: x in xs ==> weight(x) >= 0.0
    ensures Sum(xs, weight) >= 0.0
    ensures Sum(xs, weight) == 0.0 <==> forall x :: x in xs ==> weight(x) == 0.0
  {
    if xs != [] {
      var x := xs[|xs| - 1];
      assert xs == xs[..|xs| - 1] + [x];
      SumIsNonnegative(xs[..|xs| - 1], weight);
    }
  }

  lemma SumSame<T>(xs: seq<T>, weight: T -> real, other: T -> real)
    requires forall x :: x in xs ==> weight(x) == other(x)
    ensures Sum(xs, weight) == Sum(xs, other)
  {
    SumMonotone(xs, weight, other);
    SumMonotone(xs, other, weight);
  }

  /** How many elements have a property. */
  function Count<T>(xs: seq<T>, holds: T -> bool): (n: nat)
    ensures n <= |xs|
  {
    if xs == [] then 0 else Count(xs[..|xs| - 1], holds) + if holds(xs[|xs| - 1]) then 1 else 0
  }

  /** The positions at which a property holds. */
  ghost function Positions<T>(xs: seq<T>, holds: T -> bool): set<nat> {
    set i: nat | i < |xs| && holds(xs[i])
  }

  lemma {:induction false} CountIsSize<T>(xs: seq<T>, holds: T -> bool)
    ensures Count(xs, holds) == |Positions(xs, holds)|
  {
    if xs != [] {
      var n := |xs| - 1;
      CountIsSize(xs[..n], holds);
      assert Positions(xs, holds) == Positions(xs[..n], holds) + if holds(xs[n]) then {n} else {};
    }
  }
}
