/** Facts of real arithmetic, one product at a time, for the proofs about forecasts. */
module Reals {

  function Abs(x: real): real { if x < 0.0 then -x else x }

  lemma Distribute(a: real, b: real, c: real)
    ensures a * (b + c) == a * b + a * c
  {
  }

  lemma PositiveFactor(n: real, t: real)
    requires n > 0.0 && n * t >= 0.0
    ensures t >= 0.0
  {
  }

  lemma ProductIsPositive(a: real, b: real)
    requires a > 0.0 && b > 0.0
    ensures a * b > 0.0
  {
  }

  function Times(a: real, b: real): real { a * b }

  lemma TimesIsPositive(a: real, b: real)
    requires (a > 0.0 && b > 0.0) || (a < 0.0 && b < 0.0)
    ensures Times(a, b) > 0.0
  {
    if a > 0.0 {
      ProductIsPositive(a, b);
    } else {
      ProductIsPositive(-a, -b);
      assert -a * -b == a * b;
    }
  }

  function Square(x: real): (square: real)
    ensures square >= 0.0
    ensures square == 0.0 <==> x == 0.0
  {
    if x == 0.0 then 0.0
    else
      TimesIsPositive(x, x);
      Times(x, x)
  }

  lemma SquareIsProduct(x: real)
    ensures Square(x) == x * x
  {
  }

  /** A weighted square vanishes only with its root. */
  lemma WeightedSquare(x: real, n: real)
    requires n > 0.0
    ensures Square(x) * n >= 0.0
    ensures x != 0.0 ==> Square(x) * n > 0.0
  {
    if x != 0.0 {
      ProductIsPositive(Square(x), n);
    }
  }

  lemma Cancel(a: real, b: real)
    requires b != 0.0
    ensures a * b / b == a && b * (a / b) == a && (a / b) * b == a
  {
  }

  lemma DivideMonotone(a: real, b: real, n: real)
    requires a <= b && n > 0.0
    ensures a / n <= b / n && (-a) / n == -(a / n)
  {
  }
}
