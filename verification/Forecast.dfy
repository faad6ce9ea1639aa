/**
 The forecasting baselines and their error measures (scripts/forecast_benchmark.py and
 scripts/forecast_baseline_report.py), over exact reals.

 The root of the mean squared error is represented by its square.
 */
module Forecast {
  import opened Wrappers
  import opened Sums
  import opened Reals

  // ----- Error measures -----

  datatype Pair = Pair(predicted: real, actual: real) {
    function Error(): real { predicted - actual }

    /** Twice the relative error, in percent; two zeros agree. */
    function RelativeError(): real {
      if Abs(predicted) + Abs(actual) == 0.0 then 0.0
      else 200.0 * Abs(predicted - actual) / (Abs(predicted) + Abs(actual))
    }
  }

  datatype Measures = Measures(mae: real, mse: real, smape: real, bias: real)

  datatype Score = Score(evaluated: nat, skipped: nat, measures: Option<Measures>)

  function Errors(): Pair -> real { (p: Pair) => p.Error() }
  function Absolute(): Pair -> real { (p: Pair) => Abs(p.Error()) }
  function Negated(): Pair -> real { (p: Pair) => -p.Error() }
  function Squared(): Pair -> real { (p: Pair) => Square(p.Error()) }
  function Relative(): Pair -> real { (p: Pair) => p.RelativeError() }

  function Mean<T>(xs: seq<T>, weight: T -> real): real
    requires xs != []
  {
    Sum(xs, weight) / |xs| as real
  }

  function Measure(pairs: seq<Pair>): Option<Measures> {
    if pairs == [] then None
    else Some(Measures(Mean(pairs, Absolute()), Mean(pairs, Squared()), Mean(pairs, Relative()), Mean(pairs, Errors())))
  }

  function ForecastScore(pairs: seq<Pair>, skipped: nat): Score { Score(|pairs|, skipped, Measure(pairs)) }

  // ----- What the measures promise -----

  lemma {:induction false} SumScale<T>(xs: seq<T>, c: real, weight: T -> real, scaled: T -> real)
    requires forall x :: x in xs ==> scaled(x) == c * weight(x)
    ensures Sum(xs, scaled) == c * Sum(xs, weight)
  {
    if xs != [] {
      var x := xs[|xs| - 1];
      assert x in xs;
      SumScale(xs[..|xs| - 1], c, weight, scaled);
    }
  }

  function Constant<T>(c: real): T -> real { (x: T) => c }

  lemma {:induction false} SumOfConstant<T>(xs: seq<T>, c: real)
    ensures Sum(xs, Constant(c)) == c * |xs| as real
  {
    if xs != [] {
      SumOfConstant(xs[..|xs| - 1], c);
      Distribute(c, (|xs| - 1) as real, 1.0);
    }
  }

  /** The bias is at most the mean absolute error. */
  lemma BiasIsAtMostMae(pairs: seq<Pair>)
    requires pairs != []
    ensures Abs(Mean(pairs, Errors())) <= Mean(pairs, Absolute())
  {
    SumMonotone(pairs, Errors(), Absolute());
    SumMonotone(pairs, Negated(), Absolute());
    SumScale(pairs, -1.0, Errors(), Negated());
    DivideMonotone(Sum(pairs, Errors()), Sum(pairs, Absolute()), |pairs| as real);
    DivideMonotone(-Sum(pairs, Errors()), Sum(pairs, Absolute()), |pairs| as real);
  }

  lemma CauchyStep(n: real, s1: real, s2: real, x: real)
    requires n > 0.0 && n * s2 >= s1 * s1
    ensures (n + 1.0) * (s2 + Square(x)) >= (s1 + Abs(x)) * (s1 + Abs(x))
  {
    SquareIsProduct(x);
    CauchyStepAbs(n, s1, s2, Abs(x));
    assert Abs(x) * Abs(x) == x * x;
  }

  lemma CauchyStart(x: real)
    ensures 1.0 * (0.0 + Square(x)) >= (0.0 + Abs(x)) * (0.0 + Abs(x))
  {
    SquareIsProduct(x);
    assert Abs(x) * Abs(x) == x * x;
  }

  lemma CauchyStepAbs(n: real, s1: real, s2: real, x: real)
    requires n > 0.0 && n * s2 >= s1 * s1
    ensures (n + 1.0) * (s2 + x * x) >= (s1 + x) * (s1 + x)
  {
    var t := s2 + n * x * x - 2.0 * s1 * x;
    SquareIsProduct(s1 - n * x);
    assert n * t == n * s2 + (n * x) * (n * x) - 2.0 * s1 * (n * x);
    PositiveFactor(n, t);
    assert (n + 1.0) * (s2 + x * x) == (n * s2 + x * x) + (s2 + n * x * x);
    assert (s1 + x) * (s1 + x) == s1 * s1 + 2.0 * s1 * x + x * x;
  }

  lemma {:induction false} CauchyInequality(pairs: seq<Pair>)
    ensures |pairs| as real * Sum(pairs, Squared()) >= Sum(pairs, Absolute()) * Sum(pairs, Absolute())
  {
    if pairs != [] {
      var front, e := pairs[..|pairs| - 1], pairs[|pairs| - 1].Error();
      CauchyInequality(front);
      assert |pairs| as real == |front| as real + 1.0;
      if front == [] {
        CauchyStart(e);
      } else {
        CauchyStep(|front| as real, Sum(front, Absolute()), Sum(front, Squared()), e);
      }
    }
  }

  lemma SquareOfQuotient(n: real, s1: real, s2: real)
    requires n > 0.0 && n * s2 >= s1 * s1
    ensures (s1 / n) * (s1 / n) <= s2 / n
  {
    var m := s1 / n;
    assert s1 == m * n;
    assert n * s2 >= (m * n) * (m * n);
    assert (m * n) * (m * n) == n * (m * m * n);
    assert n * (s2 - m * m * n) >= 0.0;
    PositiveFactor(n, s2 - m * m * n);
    assert s2 / n - m * m == (s2 - m * m * n) / n;
  }

  /** The square of the mean absolute error is at most the mean squared error. */
  lemma MaeIsAtMostRmse(pairs: seq<Pair>)
    requires pairs != []
    ensures Mean(pairs, Absolute()) * Mean(pairs, Absolute()) <= Mean(pairs, Squared())
  {
    CauchyInequality(pairs);
    SquareOfQuotient(|pairs| as real, Sum(pairs, Absolute()), Sum(pairs, Squared()));
  }

  lemma RelativeErrorIsBounded(p: Pair)
    ensures 0.0 <= p.RelativeError() <= 200.0
    ensures p.RelativeError() == 0.0 <==> p.Error() == 0.0
  {
    var size, error := Abs(p.predicted) + Abs(p.actual), Abs(p.Error());
    assert 0.0 <= error <= size;
    if size != 0.0 {
      assert 200.0 * error <= 200.0 * size;
      DivideMonotone(0.0, 200.0 * error, size);
      DivideMonotone(200.0 * error, 200.0 * size, size);
      Cancel(200.0, size);
    }
  }

  lemma SmapeIsBounded(pairs: seq<Pair>)
    requires pairs != []
    ensures 0.0 <= Mean(pairs, Relative()) <= 200.0
  {
    forall p | p in pairs ensures 0.0 <= Relative()(p) <= 200.0 {
      RelativeErrorIsBounded(p);
    }
    SumIsNonnegative(pairs, Relative());
    SumMonotone(pairs, Relative(), Constant(200.0));
    SumOfConstant(pairs, 200.0);
    DivideMonotone(Sum(pairs, Relative()), 200.0 * |pairs| as real, |pairs| as real);
  }

  function Predicted(): Pair -> real { (p: Pair) => p.predicted }
  function Actual(): Pair -> real { (p: Pair) => p.actual }

  /** The bias is the mean forecast less the mean actual value: forecasts that are too high make it positive. */
  lemma BiasIsMeanExcess(pairs: seq<Pair>)
    requires pairs != []
    ensures Measure(pairs).Some?
    ensures Measure(pairs).value.bias == (Sum(pairs, Predicted()) - Sum(pairs, Actual())) / |pairs| as real
    ensures (forall p :: p in pairs ==> p.predicted > p.actual) ==> Measure(pairs).value.bias > 0.0
    ensures (forall p :: p in pairs ==> p.predicted < p.actual) ==> Measure(pairs).value.bias < 0.0
  {
    ErrorsAreExcess(pairs);
    SignOfErrors(pairs);
    SignOfQuotient(Sum(pairs, Errors()), |pairs| as real);
  }

  lemma ErrorsAreExcess(pairs: seq<Pair>)
    ensures Sum(pairs, Errors()) == Sum(pairs, Predicted()) - Sum(pairs, Actual())
  {
    SumAdd(pairs, Predicted(), Errors(), Actual());
  }

  lemma SignOfErrors(pairs: seq<Pair>)
    requires pairs != []
    ensures (forall p :: p in pairs ==> p.predicted > p.actual) ==> Sum(pairs, Errors()) > 0.0
    ensures (forall p :: p in pairs ==> p.predicted < p.actual) ==> Sum(pairs, Errors()) < 0.0
  {
    assert pairs[0] in pairs;
    if forall p :: p in pairs ==> p.predicted > p.actual {
      SumIsNonnegative(pairs, Errors());
      assert Errors()(pairs[0]) > 0.0;
    }
    if forall p :: p in pairs ==> p.predicted < p.actual {
      SumIsNonnegative(pairs, Negated());
      SumScale(pairs, -1.0, Errors(), Negated());
      assert Negated()(pairs[0]) > 0.0;
    }
  }

  lemma SignOfQuotient(a: real, n: real)
    requires n > 0.0
    ensures (a > 0.0 ==> a / n > 0.0) && (a < 0.0 ==> a / n < 0.0)
  {
  }

  /** The distance of forecast and actual value, in percent of the mean of their sizes. */
  lemma RelativeErrorMeans(p: Pair)
    ensures var size := Abs(p.predicted) + Abs(p.actual);
      if size == 0.0 then p.RelativeError() == 0.0
      else p.RelativeError() * size == 200.0 * Abs(p.predicted - p.actual)
  {
    var size := Abs(p.predicted) + Abs(p.actual);
    if size != 0.0 {
      Cancel(200.0 * Abs(p.predicted - p.actual), size);
    }
  }

  function Distance(): Pair -> real { (p: Pair) => Abs(p.predicted - p.actual) }
  function SquaredDistance(): Pair -> real { (p: Pair) => (p.predicted - p.actual) * (p.predicted - p.actual) }

  /** The other three measures are the means of the distances, of their squares and of the relative errors. */
  lemma MeasuresAreMeans(pairs: seq<Pair>)
    requires pairs != []
    ensures Measure(pairs).Some?
    ensures var m := Measure(pairs).value;
      && m.mae == Mean(pairs, Distance()) && m.mse == Mean(pairs, SquaredDistance())
      && m.smape == Mean(pairs, Relative())
  {
    SumSame(pairs, Absolute(), Distance());
    SquaresAreSquared(pairs);
  }

  lemma SquaresAreSquared(pairs: seq<Pair>)
    requires pairs != []
    ensures Mean(pairs, Squared()) == Mean(pairs, SquaredDistance())
  {
    forall p | p in pairs ensures Squared()(p) == SquaredDistance()(p) {
      SquareIsProduct(p.predicted - p.actual);
    }
    SumSame(pairs, Squared(), SquaredDistance());
  }

  /** The mean of a list, times its length, is its sum. */
  lemma MeanTimes<T>(xs: seq<T>, weight: T -> real)
    requires xs != []
    ensures |xs| as real * Mean(xs, weight) == Sum(xs, weight)
  {
    Cancel(Sum(xs, weight), |xs| as real);
  }

  /** All four measures are consistent with each other, and vanish only for perfect forecasts. */
  lemma MeasuresAreConsistent(pairs: seq<Pair>)
    ensures match Measure(pairs)
      case None => pairs == []
      case Some(m) =>
        && pairs != []
        && Abs(m.bias) <= m.mae && m.mae * m.mae <= m.mse && 0.0 <= m.smape <= 200.0
        && (m.mae == 0.0 <==> forall p :: p in pairs ==> p.predicted == p.actual)
  {
    if pairs != [] {
      BiasIsAtMostMae(pairs);
      MaeIsAtMostRmse(pairs);
      SmapeIsBounded(pairs);
      SumIsNonnegative(pairs, Absolute());
      assert forall p: Pair :: Absolute()(p) == 0.0 <==> p.predicted == p.actual;
    }
  }
}
