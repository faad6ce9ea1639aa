/**
 The read-only forecast benchmark (scripts/forecast_benchmark.py:242-271) and the baseline report
 over stored forecasts (scripts/forecast_baseline_report.py:21-63).
 */
module ForecastBenchmark {
  import opened Wrappers
  import opened Sums
  import opened Reals
  import opened Forecast
  import opened LinearBaseline
  import Remainders

  datatype Model = Naive | SeasonalNaive | LinearTrend

  function AtLeast(low: nat, n: int): nat { if n < low then low else n }

  /** How the straight-line model continues a history of at least two points. */
  type Trend = (seq<real>, real) -> real

  function Continued(history: seq<real>, x: real): real {
    if |history| < 2 then 0.0 else Fit(history).At(x)
  }

  /** What a model says about ``horizon`` steps ahead; None when the history is too short. */
  function Prediction(model: Model, history: seq<real>, horizon: nat, season: nat, trend: Trend): Option<real>
    requires history != [] && season > 0
  {
    match model
    case Naive => Some(history[|history| - 1])
    case SeasonalNaive => if |history| < season then None else Some(history[|history| - season])
    case LinearTrend =>
      if |history| < 2 then None else Some(trend(history, (|history| - 1 + horizon) as real))
  }

  /** The evaluated pairs of the first ``n`` indices. */
  function Forecasts(model: Model, values: seq<real>, horizon: nat, season: nat, trend: Trend, n: nat): seq<Pair>
    requires n + horizon <= |values| && season > 0
  {
    if n == 0 then []
    else
      Forecasts(model, values, horizon, season, trend, n - 1)
      + match Prediction(model, values[..n], horizon, season, trend)
        case None => []
        case Some(predicted) => [Pair(predicted, values[n - 1 + horizon])]
  }

  /** The indices that have a target. */
  function Targets(values: seq<real>, horizon: nat): nat { if |values| < horizon then 0 else |values| - horizon }

  /** The score of one model over all indices with a target. */
  function Scored(model: Model, values: seq<real>, horizon: int, season: int): Score {
    var h, s := AtLeast(1, horizon), AtLeast(2, season);
    if |values| < h then ForecastScore([], 0)
    else
      var pairs := Forecasts(model, values, h, s, Continued, |values| - h);
      SkippedIndices(model, values, h, s, Continued, |values| - h);
      ForecastScore(pairs, |values| - h - |pairs|)
  }

  method RunForecastBenchmark(values: seq<real>, horizon: int, season: int)
    returns (naive: Score, seasonal: Score, linear: Score)
    ensures naive == Scored(Naive, values, horizon, season)
    ensures seasonal == Scored(SeasonalNaive, values, horizon, season)
    ensures linear == Scored(LinearTrend, values, horizon, season)
    ensures naive.evaluated + naive.skipped == Targets(values, AtLeast(1, horizon))
    ensures seasonal.evaluated + seasonal.skipped == linear.evaluated + linear.skipped
      == naive.evaluated + naive.skipped
  {
    var h, s := AtLeast(1, horizon), AtLeast(2, season);
    if |values| < h {
      return ForecastScore([], 0), ForecastScore([], 0), ForecastScore([], 0);
    }
    var pairs := CollectPairs(values, h, s, Continued);
    ScoredIs(Naive, values, horizon, season, pairs.naives, 0);
    ScoredIs(SeasonalNaive, values, horizon, season, pairs.seasonals, pairs.seasonalsSkipped);
    ScoredIs(LinearTrend, values, horizon, season, pairs.linears, pairs.linearsSkipped);
    naive := ForecastScore(pairs.naives, 0);
    seasonal := ForecastScore(pairs.seasonals, pairs.seasonalsSkipped);
    linear := ForecastScore(pairs.linears, pairs.linearsSkipped);
  }

  lemma ScoredIs(model: Model, values: seq<real>, horizon: int, season: int, pairs: seq<Pair>, skipped: nat)
    requires var h := AtLeast(1, horizon);
      && h <= |values| && |pairs| + skipped == |values| - h
      && pairs == Forecasts(model, values, h, AtLeast(2, season), Continued, |values| - h)
    ensures Scored(model, values, horizon, season) == ForecastScore(pairs, skipped)
  {
  }

  /** The pairs of the three models so far, and how many indices the last two skipped. */
  datatype Pairs =
    Pairs(naives: seq<Pair>, seasonals: seq<Pair>, linears: seq<Pair>, seasonalsSkipped: nat, linearsSkipped: nat)

  ghost predicate Collected(values: seq<real>, h: nat, s: nat, trend: Trend, n: nat, pairs: Pairs)
    requires n + h <= |values| && s > 0
  {
    && pairs.naives == Forecasts(Naive, values, h, s, trend, n)
    && pairs.seasonals == Forecasts(SeasonalNaive, values, h, s, trend, n)
    && pairs.linears == Forecasts(LinearTrend, values, h, s, trend, n)
    && |pairs.naives| == |pairs.seasonals| + pairs.seasonalsSkipped == |pairs.linears| + pairs.linearsSkipped == n
  }

  /** The loop over the indices that have a target. */
  method CollectPairs(values: seq<real>, h: nat, s: nat, trend: Trend) returns (pairs: Pairs)
    requires h <= |values| && s > 0
    ensures Collected(values, h, s, trend, |values| - h, pairs)
  {
    pairs := Pairs([], [], [], 0, 0);
    for index := 0 to |values| - h
      invariant Collected(values, h, s, trend, index, pairs)
    {
      pairs := CollectIndex(values, h, s, trend, index, pairs);
    }
  }

  /** One index: every model predicts or skips. */
  method CollectIndex(values: seq<real>, h: nat, s: nat, trend: Trend, index: nat, before: Pairs) returns (pairs: Pairs)
    requires index + 1 + h <= |values| && s > 0 && Collected(values, h, s, trend, index, before)
    ensures Collected(values, h, s, trend, index + 1, pairs)
  {
    var history, actual := values[..index + 1], values[index + h];
    ForecastsGrow(values, h, s, trend, index);
    pairs := before.(naives := before.naives + [Pair(history[index], actual)]);
    if |history| < s {
      pairs := pairs.(seasonalsSkipped := pairs.seasonalsSkipped + 1);
    } else {
      pairs := pairs.(seasonals := pairs.seasonals + [Pair(history[|history| - s], actual)]);
    }
    if |history| < 2 {
      pairs := pairs.(linearsSkipped := pairs.linearsSkipped + 1);
    } else {
      pairs := pairs.(linears := pairs.linears + [Pair(trend(history, (index + h) as real), actual)]);
    }
  }

  /** What one more index adds to the pairs of each model. */
  lemma ForecastsGrow(values: seq<real>, h: nat, s: nat, trend: Trend, i: nat)
    requires i + 1 + h <= |values| && s > 0
    ensures Forecasts(Naive, values, h, s, trend, i + 1)
         == Forecasts(Naive, values, h, s, trend, i) + [Pair(values[i], values[i + h])]
    ensures Forecasts(SeasonalNaive, values, h, s, trend, i + 1)
         == Forecasts(SeasonalNaive, values, h, s, trend, i)
           + if i + 1 < s then [] else [Pair(values[i + 1 - s], values[i + h])]
    ensures Forecasts(LinearTrend, values, h, s, trend, i + 1)
         == Forecasts(LinearTrend, values, h, s, trend, i)
            + if i == 0 then [] else [Pair(trend(values[..i + 1], (i + h) as real), values[i + h])]
  {
  }

  // ----- What the benchmark promises -----

  /** Only the start of the history is skipped: nothing, one season less one, one point. */
  lemma {:induction false} SkippedIndices(model: Model, values: seq<real>, horizon: nat, season: nat, trend: Trend,
      n: nat)
    requires n + horizon <= |values| && season > 0
    ensures var skipped := (match model case Naive => 0 case SeasonalNaive => season - 1 case LinearTrend => 1);
      |Forecasts(model, values, horizon, season, trend, n)| == if n <= skipped then 0 else n - skipped
  {
    if n > 0 {
      SkippedIndices(model, values, horizon, season, trend, n - 1);
    }
  }

  /** The naive model is scored at every target, the seasonal one from a full season on, the line from two points on. */
  lemma ScoredCounts(values: seq<real>, horizon: int, season: int)
    ensures var targets := Targets(values, AtLeast(1, horizon));
      && Scored(Naive, values, horizon, season).evaluated == targets
      && Scored(SeasonalNaive, values, horizon, season).skipped
         == (if targets < AtLeast(2, season) then targets else AtLeast(2, season) - 1)
      && Scored(LinearTrend, values, horizon, season).skipped == (if targets < 1 then targets else 1)
  {
    var h, s := AtLeast(1, horizon), AtLeast(2, season);
    if h <= |values| {
      SkippedIndices(Naive, values, h, s, Continued, |values| - h);
      SkippedIndices(SeasonalNaive, values, h, s, Continued, |values| - h);
      SkippedIndices(LinearTrend, values, h, s, Continued, |values| - h);
    }
  }

  ghost predicate SamePredictions(ps: seq<Pair>, qs: seq<Pair>) {
    |ps| == |qs| && forall i :: 0 <= i < |ps| ==> ps[i].predicted == qs[i].predicted
  }

  /** Values after an index cannot change what was predicted up to it. */
  lemma {:induction false} NoLookAhead(
      model: Model, values: seq<real>, others: seq<real>, horizon: nat, season: nat, trend: Trend, n: nat)
    requires n + horizon <= |values| && n + horizon <= |others| && season > 0
    requires values[..n] == others[..n]
    ensures SamePredictions(Forecasts(model, values, horizon, season, trend, n),
      Forecasts(model, others, horizon, season, trend, n))
  {
    if n > 0 {
      assert values[..n - 1] == values[..n][..n - 1];
      assert others[..n - 1] == others[..n][..n - 1];
      NoLookAhead(model, values, others, horizon, season, trend, n - 1);
    }
  }

  ghost predicate Perfect(score: Score) {
    score.measures.Some? ==> score.measures.value == Measures(0.0, 0.0, 0.0, 0.0)
  }

  lemma PairsScorePerfectlyIff(pairs: seq<Pair>, skipped: nat)
    ensures Perfect(ForecastScore(pairs, skipped)) <==> forall p :: p in pairs ==> p.predicted == p.actual
  {
    MeasuresAreConsistent(pairs);
    if forall p :: p in pairs ==> p.predicted == p.actual {
      ExactPairsScorePerfectly(pairs, skipped);
    }
  }

  lemma ExactPairsScorePerfectly(pairs: seq<Pair>, skipped: nat)
    requires forall p :: p in pairs ==> p.predicted == p.actual
    ensures Perfect(ForecastScore(pairs, skipped))
  {
    if pairs != [] {
      SumIsNonnegative(pairs, Absolute());
      SumIsNonnegative(pairs, Squared());
      forall p | p in pairs ensures Relative()(p) == 0.0 {
        RelativeErrorIsBounded(p);
      }
      SumIsNonnegative(pairs, Relative());
      SumIsNonnegative(pairs, Errors());
    }
  }

  /** The straight-line model forecasts a straight series without error, whatever the horizon. */
  lemma LinearSeriesScoresPerfectly(values: seq<real>, start: real, step: real, horizon: int, season: int)
    requires Linear(values, start, step)
    ensures Perfect(Scored(LinearTrend, values, horizon, season))
  {
    var h, s := AtLeast(1, horizon), AtLeast(2, season);
    if |values| >= h {
      LinearForecastsAreExact(values, start, step, h, s, |values| - h);
      ExactPairsScorePerfectly(Forecasts(LinearTrend, values, h, s, Continued, |values| - h),
        Scored(LinearTrend, values, horizon, season).skipped);
    }
  }

  lemma {:induction false} LinearForecastsAreExact(
      values: seq<real>, start: real, step: real, horizon: nat, season: nat, n: nat)
    requires Linear(values, start, step) && n + horizon <= |values| && season > 0
    ensures forall p :: p in Forecasts(LinearTrend, values, horizon, season, Continued, n) ==> p.predicted == p.actual
  {
    if n > 0 {
      LinearForecastsAreExact(values, start, step, horizon, season, n - 1);
      if n > 1 {
        LinearPredictionIsExact(values, start, step, horizon, season, n);
      }
    }
  }

  lemma LinearPredictionIsExact(values: seq<real>, start: real, step: real, horizon: nat, season: nat, n: nat)
    requires Linear(values, start, step) && 2 <= n && n + horizon <= |values| && season > 0
    ensures Prediction(LinearTrend, values[..n], horizon, season, Continued) == Some(values[n - 1 + horizon])
  {
    var target := n - 1 + horizon;
    PredictionIsContinued(values[..n], horizon, season);
    ContinuedIsExact(values[..n], start, step, target as real, values[target]);
  }

  lemma PredictionIsContinued(history: seq<real>, horizon: nat, season: nat)
    requires |history| >= 2 && season > 0
    ensures Prediction(LinearTrend, history, horizon, season, Continued)
         == Some(Continued(history, (|history| - 1 + horizon) as real))
  {
  }

  lemma ContinuedIsExact(history: seq<real>, start: real, step: real, x: real, y: real)
    requires |history| >= 2 && Linear(history, start, step) && y == start + step * x
    ensures Continued(history, x) == y
  {
    LinearSeriesIsExtrapolated(history, start, step, x);
  }

  ghost predicate Periodic(values: seq<real>, season: nat) {
    forall i, j :: 0 <= i < |values| && j == i + season && j < |values| ==> values[i] == values[j]
  }

  // ----- When the seasonal model is exact -----

  lemma {:induction false} SeasonsRepeat(values: seq<real>, season: nat, i: nat, count: nat)
    requires Periodic(values, season) && i + count * season < |values|
    ensures values[i + count * season] == values[i]
  {
    if count > 0 {
      assert i + count * season == (i + (count - 1) * season) + season;
      SeasonsRepeat(values, season, i, count - 1);
    }
  }

  /** When the horizon is one step beyond whole seasons, the last season holds the target. */
  lemma {:induction false} WholeSeasonsAreExact(values: seq<real>, horizon: nat, season: nat, n: nat)
    requires season > 0 && horizon > 0 && (horizon - 1) % season == 0
    requires Periodic(values, season) && n + horizon <= |values|
    ensures forall p :: p in Forecasts(SeasonalNaive, values, horizon, season, Continued, n) ==> p.predicted == p.actual
  {
    if n > 0 {
      WholeSeasonsAreExact(values, horizon, season, n - 1);
      if n >= season {
        var count := Remainders.NoRemainder(horizon - 1, season);
        assert (count + 1) * season == count * season + season;
        SeasonsRepeat(values, season, n - season, count + 1);
      }
    }
  }

  /** One at every season's start, zero in between. */
  function Pulse(season: nat, length: nat): (values: seq<real>)
    requires season > 0
    ensures |values| == length && forall i :: 0 <= i < length ==> values[i] == if i % season == 0 then 1.0 else 0.0
  {
    seq(length, i requires 0 <= i < length => if i % season == 0 then 1.0 else 0.0)
  }

  lemma PulseIsPeriodic(season: nat, length: nat)
    requires season > 0
    ensures Periodic(Pulse(season, length), season)
  {
    forall i, j | 0 <= i < length && j == i + season && j < length
      ensures Pulse(season, length)[i] == Pulse(season, length)[j]
    {
      Remainders.AddingDivisor(i, season);
    }
  }

  /** At any other horizon the model misses the one target of this series. */
  lemma PulseIsMissed(horizon: nat, season: nat)
    requires season > 0 && horizon > 0 && (horizon - 1) % season != 0
    ensures Forecasts(SeasonalNaive, Pulse(season, season + horizon), horizon, season, Continued, season)
      == [Pair(1.0, 0.0)]
  {
    var values := Pulse(season, season + horizon);
    SkippedIndices(SeasonalNaive, values, horizon, season, Continued, season - 1);
    Remainders.AddingDivisor(horizon - 1, season);
    Remainders.RemainderIs(0, 0, 0, season);
    assert values[..season][0] == values[0] == 1.0;
  }

  /** Every forecast of the model meets its target. */
  ghost predicate AllExact(model: Model, values: seq<real>, horizon: int, season: int) {
    var h := AtLeast(1, horizon);
    h <= |values| ==>
      forall p :: p in Forecasts(model, values, h, AtLeast(2, season), Continued, |values| - h) ==>
        p.predicted == p.actual
  }

  /** The seasonal model forecasts every periodic series without error. */
  ghost predicate ExactOnPeriodicSeries(horizon: int, season: int) {
    forall values: seq<real> :: Periodic(values, AtLeast(2, season)) ==>
      AllExact(SeasonalNaive, values, horizon, season)
  }

  /** The horizon is one step beyond a whole number of seasons. */
  predicate WholeSeasons(horizon: int, season: int) {
    (AtLeast(1, horizon) - 1) % AtLeast(2, season) == 0
  }

  /** The one condition on the arguments under which the seasonal model can be trusted. */
  lemma SeasonalModelIsExactIff(horizon: int, season: int)
    ensures ExactOnPeriodicSeries(horizon, season) <==> WholeSeasons(horizon, season)
  {
    if WholeSeasons(horizon, season) {
      forall values: seq<real> | Periodic(values, AtLeast(2, season))
        ensures AllExact(SeasonalNaive, values, horizon, season)
      {
        PeriodicSeriesAreExact(values, horizon, season);
      }
    } else {
      var values := OtherHorizonsMiss(horizon, season);
    }
  }

  lemma PeriodicSeriesAreExact(values: seq<real>, horizon: int, season: int)
    requires WholeSeasons(horizon, season) && Periodic(values, AtLeast(2, season))
    ensures AllExact(SeasonalNaive, values, horizon, season)
  {
    var h := AtLeast(1, horizon);
    if h <= |values| {
      WholeSeasonsAreExact(values, h, AtLeast(2, season), |values| - h);
    }
  }

  lemma OtherHorizonsMiss(horizon: int, season: int) returns (values: seq<real>)
    requires !WholeSeasons(horizon, season)
    ensures Periodic(values, AtLeast(2, season)) && !AllExact(SeasonalNaive, values, horizon, season)
  {
    var h, s := AtLeast(1, horizon), AtLeast(2, season);
    values := Pulse(s, s + h);
    PulseIsPeriodic(s, s + h);
    PulseIsMissed(h, s);
    NotAllExact(values, horizon, season, Pair(1.0, 0.0));
  }

  lemma NotAllExact(values: seq<real>, horizon: int, season: int, p: Pair)
    requires AtLeast(1, horizon) <= |values| && p.predicted != p.actual
    requires p in Forecasts(SeasonalNaive, values, AtLeast(1, horizon), AtLeast(2, season), Continued,
      |values| - AtLeast(1, horizon))
    ensures !AllExact(SeasonalNaive, values, horizon, season)
  {
  }

  /** The naive model is exact on a series if and only if every value repeats one horizon later. */
  lemma NaiveModelIsExactIff(values: seq<real>, horizon: int, season: int)
    ensures AllExact(Naive, values, horizon, season) <==>
      forall i, j :: 0 <= i && j == i + AtLeast(1, horizon) && j < |values| ==> values[i] == values[j]
  {
    var h := AtLeast(1, horizon);
    if h <= |values| {
      NaiveIsExactUpTo(values, h, AtLeast(2, season), |values| - h);
      assert AllExact(Naive, values, horizon, season) <==> Repeats(values, h, |values| - h);
    }
  }

  /** The seasonal model is exact on a series exactly when every value repeats a season less one and a horizon later. */
  lemma SeasonalModelIsExactOnIff(values: seq<real>, horizon: int, season: int)
    ensures AllExact(SeasonalNaive, values, horizon, season) <==>
      forall i, j :: 0 <= i && j == i + AtLeast(2, season) - 1 + AtLeast(1, horizon) && j < |values| ==>
        values[i] == values[j]
  {
    var h, s := AtLeast(1, horizon), AtLeast(2, season);
    if h <= |values| {
      SeasonalIsExactUpTo(values, h, s, |values| - h);
      assert AllExact(SeasonalNaive, values, horizon, season) <==> RepeatsAfterSeason(values, h, s, |values| - h);
    }
  }

  ghost predicate Repeats(values: seq<real>, h: nat, n: nat)
    requires n + h <= |values|
  {
    forall i, j :: 0 <= i < n && j == i + h ==> values[i] == values[j]
  }

  ghost predicate RepeatsAfterSeason(values: seq<real>, h: nat, s: nat, n: nat)
    requires n + h <= |values| && s > 0
  {
    forall i, j :: 0 <= i && i + s - 1 < n && j == i + s - 1 + h ==> values[i] == values[j]
  }

  ghost predicate Exact(pairs: seq<Pair>) { forall p :: p in pairs ==> p.predicted == p.actual }

  lemma {:induction false} NaiveIsExactUpTo(values: seq<real>, h: nat, s: nat, n: nat)
    requires n + h <= |values| && s > 0
    ensures Exact(Forecasts(Naive, values, h, s, Continued, n)) <==> Repeats(values, h, n)
  {
    if n > 0 {
      NaiveIsExactUpTo(values, h, s, n - 1);
      NaiveStep(values, h, s, n);
      RepeatsSnoc(values, h, n);
    }
  }

  lemma NaiveStep(values: seq<real>, h: nat, s: nat, n: nat)
    requires 0 < n && n + h <= |values| && s > 0
    ensures Exact(Forecasts(Naive, values, h, s, Continued, n))
      <==> Exact(Forecasts(Naive, values, h, s, Continued, n - 1)) && values[n - 1] == values[n - 1 + h]
  {
    ForecastsGrow(values, h, s, Continued, n - 1);
    ExactSnoc(Forecasts(Naive, values, h, s, Continued, n - 1), Pair(values[n - 1], values[n - 1 + h]));
  }

  lemma RepeatsSnoc(values: seq<real>, h: nat, n: nat)
    requires 0 < n && n + h <= |values|
    ensures Repeats(values, h, n) <==> Repeats(values, h, n - 1) && values[n - 1] == values[n - 1 + h]
  {
  }

  lemma {:induction false} SeasonalIsExactUpTo(values: seq<real>, h: nat, s: nat, n: nat)
    requires n + h <= |values| && s > 0
    ensures Exact(Forecasts(SeasonalNaive, values, h, s, Continued, n)) <==> RepeatsAfterSeason(values, h, s, n)
  {
    if n > 0 {
      SeasonalIsExactUpTo(values, h, s, n - 1);
      SeasonalStep(values, h, s, n);
      RepeatsAfterSeasonSnoc(values, h, s, n);
    }
  }

  lemma SeasonalStep(values: seq<real>, h: nat, s: nat, n: nat)
    requires 0 < n && n + h <= |values| && s > 0
    ensures Exact(Forecasts(SeasonalNaive, values, h, s, Continued, n))
      <==> Exact(Forecasts(SeasonalNaive, values, h, s, Continued, n - 1))
           && (n < s || values[n - s] == values[n - 1 + h])
  {
    var earlier := Forecasts(SeasonalNaive, values, h, s, Continued, n - 1);
    SeasonalGrows(values, h, s, n, earlier);
    if n >= s {
      ExactSnoc(earlier, Pair(values[n - s], values[n - 1 + h]));
    }
  }

  lemma SeasonalGrows(values: seq<real>, h: nat, s: nat, n: nat, earlier: seq<Pair>)
    requires 0 < n && n + h <= |values| && s > 0
    requires earlier == Forecasts(SeasonalNaive, values, h, s, Continued, n - 1)
    ensures Forecasts(SeasonalNaive, values, h, s, Continued, n)
         == if n < s then earlier else earlier + [Pair(values[n - s], values[n - 1 + h])]
  {
    var history := values[..n];
    assert n >= s ==> history[|history| - s] == values[n - s];
    assert Prediction(SeasonalNaive, history, h, s, Continued) == if n < s then None else Some(values[n - s]);
  }

  lemma RepeatsAfterSeasonSnoc(values: seq<real>, h: nat, s: nat, n: nat)
    requires 0 < n && n + h <= |values| && s > 0
    ensures RepeatsAfterSeason(values, h, s, n)
      <==> RepeatsAfterSeason(values, h, s, n - 1) && (n < s || values[n - s] == values[n - 1 + h])
  {
  }

  lemma ExactSnoc(pairs: seq<Pair>, p: Pair)
    ensures Exact(pairs + [p]) <==> Exact(pairs) && p.predicted == p.actual
  {
    assert p in pairs + [p];
  }

  /** A score is perfect exactly when all its forecasts are exact. */
  lemma ScoreIsPerfectIff(model: Model, values: seq<real>, horizon: int, season: int)
    ensures Perfect(Scored(model, values, horizon, season)) <==> AllExact(model, values, horizon, season)
  {
    var h, s := AtLeast(1, horizon), AtLeast(2, season);
    if h <= |values| {
      SkippedIndices(model, values, h, s, Continued, |values| - h);
      ForecastsScorePerfectlyIff(model, values, horizon, season,
        Forecasts(model, values, h, s, Continued, |values| - h));
    }
  }

  lemma ForecastsScorePerfectlyIff(model: Model, values: seq<real>, horizon: int, season: int, pairs: seq<Pair>)
    requires var h := AtLeast(1, horizon);
      && h <= |values| && |pairs| <= |values| - h
      && pairs == Forecasts(model, values, h, AtLeast(2, season), Continued, |values| - h)
    ensures Perfect(Scored(model, values, horizon, season)) <==> forall p :: p in pairs ==> p.predicted == p.actual
  {
    var skipped := |values| - AtLeast(1, horizon) - |pairs|;
    ScoredIs(model, values, horizon, season, pairs, skipped);
    PairsScorePerfectlyIff(pairs, skipped);
  }

  /** For instance, a series of period two is missed at horizon two. */
  lemma SeasonalModelIgnoresHorizon()
    ensures var values := [0.0, 1.0, 0.0, 1.0];
      Periodic(values, 2) && Forecasts(SeasonalNaive, values, 2, 2, Continued, 2) == [Pair(0.0, 1.0)]
  {
    var values := [0.0, 1.0, 0.0, 1.0];
    assert Forecasts(SeasonalNaive, values, 2, 2, Continued, 0) == [];
    assert Forecasts(SeasonalNaive, values, 2, 2, Continued, 1) == [];
    assert values[..2] == [0.0, 1.0];
  }

  // ----- The baseline report -----

  datatype Row = Row(value: real, actual: Option<real>, coverage: Option<real>, maxGap: Option<real>) {
    predicate QualityFailed() {
      (coverage.Some? && coverage.value < 1.0) || (maxGap.Some? && maxGap.value > 2.0)
    }
  }

  datatype Report = Report(
    rows: nat, labeled: nat, measures: Option<Measures>, labelRate: real,
    falsePositives: nat, alertVolume: nat, falsePositiveRate: Option<real>, qualityFailureRate: real)

  function Labeled(rows: seq<Row>): seq<Pair> {
    if rows == [] then []
    else
      var row := rows[|rows| - 1];
      Labeled(rows[..|rows| - 1]) + if row.actual.Some? then [Pair(row.value, row.actual.value)] else []
  }

  function Alerted(threshold: real): Pair -> bool { (p: Pair) => p.predicted >= threshold }
  function Quiet(threshold: real): Pair -> bool { (p: Pair) => p.actual < threshold }
  function FalselyAlerted(threshold: real): Pair -> bool {
    (p: Pair) => p.predicted >= threshold && p.actual < threshold
  }
  function QualityFailed(): Row -> bool { (r: Row) => r.QualityFailed() }

  function Rate(part: nat, whole: nat): real { if whole == 0 then 0.0 else part as real / whole as real }

  method BaselineMetrics(rows: seq<Row>, threshold: Option<real>) returns (report: Report)
    ensures var labeled := Labeled(rows);
      && report.rows == |rows| && report.labeled == |labeled| && report.measures == Measure(labeled)
      && report.labelRate == Rate(|labeled|, |rows|)
      && report.qualityFailureRate == Rate(Count(rows, QualityFailed()), |rows|)
      && match threshold
         case None => report.falsePositives == report.alertVolume == 0 && report.falsePositiveRate == None
         case Some(t) =>
           && report.falsePositives == Count(labeled, FalselyAlerted(t))
           && report.alertVolume == Count(labeled, Alerted(t))
           && report.falsePositiveRate
              == if Count(labeled, Quiet(t)) == 0 then None
                else Some(Rate(report.falsePositives, Count(labeled, Quiet(t))))
  {
    var labeled := Labeled(rows);
    var falsePositives, negatives, alerts := 0, 0, 0;
    if threshold.Some? {
      for i := 0 to |labeled|
        invariant falsePositives == Count(labeled[..i], FalselyAlerted(threshold.value))
        invariant negatives == Count(labeled[..i], Quiet(threshold.value))
        invariant alerts == Count(labeled[..i], Alerted(threshold.value))
      {
        assert labeled[..i + 1][..i] == labeled[..i];
        var predictedAlert := labeled[i].predicted >= threshold.value;
        var actualAlert := labeled[i].actual >= threshold.value;
        alerts := alerts + if predictedAlert then 1 else 0;
        negatives := negatives + if !actualAlert then 1 else 0;
        falsePositives := falsePositives + if predictedAlert && !actualAlert then 1 else 0;
      }
      assert labeled[..|labeled|] == labeled;
    }
    var failures := 0;
    for i := 0 to |rows|
      invariant failures == Count(rows[..i], QualityFailed())
    {
      assert rows[..i + 1][..i] == rows[..i];
      if rows[i].QualityFailed() {
        failures := failures + 1;
      }
    }
    assert rows[..|rows|] == rows;
    report := Report(|rows|, |labeled|, Measure(labeled), Rate(|labeled|, |rows|), falsePositives, alerts,
                     if negatives == 0 then None else Some(Rate(falsePositives, negatives)), Rate(failures, |rows|));
  }

  /** A row fails for coverage below one or a gap above two hours; what is not known does not count against it. */
  lemma {:induction false} NoFailureIff(rows: seq<Row>)
    ensures Count(rows, QualityFailed()) == 0 <==>
      forall r :: r in rows ==>
        && (r.coverage == None || r.coverage.value >= 1.0)
        && (r.maxGap == None || r.maxGap.value <= 2.0)
  {
    if rows != [] {
      NoFailureIff(rows[..|rows| - 1]);
      assert rows == rows[..|rows| - 1] + [rows[|rows| - 1]];
    }
  }

  /** The labelled rows are those with an actual value, in order. */
  lemma {:induction false} LabeledConcat(a: seq<Row>, b: seq<Row>)
    ensures Labeled(a + b) == Labeled(a) + Labeled(b)
  {
    if b == [] {
      assert a + b == a;
    } else {
      assert (a + b)[..|a + b| - 1] == a + b[..|b| - 1];
      LabeledConcat(a, b[..|b| - 1]);
    }
  }

  lemma LabeledOne(row: Row)
    ensures Labeled([row]) == if row.actual == None then [] else [Pair(row.value, row.actual.value)]
  {
    assert [row][..0] == [];
  }

  lemma {:induction false} LabeledIsShorter(rows: seq<Row>)
    ensures |Labeled(rows)| <= |rows|
  {
    if rows != [] {
      LabeledIsShorter(rows[..|rows| - 1]);
    }
  }

  lemma {:induction false} CountMonotone<T>(xs: seq<T>, fewer: T -> bool, more: T -> bool)
    requires forall x :: x in xs && fewer(x) ==> more(x)
    ensures Count(xs, fewer) <= Count(xs, more)
  {
    if xs != [] {
      assert xs[|xs| - 1] in xs;
      CountMonotone(xs[..|xs| - 1], fewer, more);
    }
  }

  /** A forecast at the threshold alerts, an actual value at it is no negative, and a false positive is both. */
  lemma ReportCounts(labeled: seq<Pair>, t: real)
    ensures Count(labeled, Alerted(t)) == |set i: nat | i < |labeled| && labeled[i].predicted >= t|
    ensures Count(labeled, Quiet(t)) == |set i: nat | i < |labeled| && labeled[i].actual < t|
    ensures Count(labeled, FalselyAlerted(t))
         == |set i: nat | i < |labeled| && labeled[i].predicted >= t && labeled[i].actual < t|
  {
    CountIsSize(labeled, Alerted(t));
    CountIsSize(labeled, Quiet(t));
    CountIsSize(labeled, FalselyAlerted(t));
    assert Positions(labeled, Alerted(t)) == set i: nat | i < |labeled| && labeled[i].predicted >= t;
    assert Positions(labeled, Quiet(t)) == set i: nat | i < |labeled| && labeled[i].actual < t;
    assert Positions(labeled, FalselyAlerted(t))
        == set i: nat | i < |labeled| && labeled[i].predicted >= t && labeled[i].actual < t;
  }

  lemma RateMeans(part: nat, whole: nat)
    requires whole > 0
    ensures Rate(part, whole) * whole as real == part as real
  {
    Cancel(part as real, whole as real);
  }

  lemma RateIsFraction(part: nat, whole: nat)
    requires part <= whole
    ensures 0.0 <= Rate(part, whole) <= 1.0
  {
    if whole != 0 {
      DivideMonotone(0.0, part as real, whole as real);
      DivideMonotone(part as real, whole as real, whole as real);
    }
  }

  /** The report obeys the same bounds as the benchmark, and its rates are fractions. */
  lemma ReportIsConsistent(rows: seq<Row>, t: real)
    ensures var labeled := Labeled(rows);
      && Count(labeled, FalselyAlerted(t)) <= Count(labeled, Alerted(t))
      && Count(labeled, FalselyAlerted(t)) <= Count(labeled, Quiet(t))
      && 0.0 <= Rate(Count(labeled, FalselyAlerted(t)), Count(labeled, Quiet(t))) <= 1.0
      && 0.0 <= Rate(|labeled|, |rows|) <= 1.0
      && 0.0 <= Rate(Count(rows, QualityFailed()), |rows|) <= 1.0
      && match Measure(labeled)
         case None => labeled == []
         case Some(m) => Abs(m.bias) <= m.mae && m.mae * m.mae <= m.mse && 0.0 <= m.smape <= 200.0
  {
    var labeled := Labeled(rows);
    CountMonotone(labeled, FalselyAlerted(t), Alerted(t));
    CountMonotone(labeled, FalselyAlerted(t), Quiet(t));
    RateIsFraction(Count(labeled, FalselyAlerted(t)), Count(labeled, Quiet(t)));
    LabeledIsShorter(rows);
    RateIsFraction(|labeled|, |rows|);
    RateIsFraction(Count(rows, QualityFailed()), |rows|);
    MeasuresAreConsistent(labeled);
  }
}
