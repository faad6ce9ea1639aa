/**
 Temporal-holdout replay of the online forecaster (scripts/river_linear_v2_runtime_replay.py).

 The online model is represented by the list of runs whose labels it has learned; what it
 predicts is any function of that list and the features. Feature building is a parameter too.
 Instants and gaps are integers in one unit.
 */
module RuntimeReplay {
  import opened Wrappers
  import opened Sorting
  import opened Reals

  const WINDOW: nat := 512

  datatype Point = Point(at: int, value: real)

  // ----- The telemetry segment given to feature building -----

  function AtOrBefore(points: seq<Point>, cutoff: int): seq<Point> {
    if points == [] then []
    else
      var p := points[|points| - 1];
      AtOrBefore(points[..|points| - 1], cutoff) + if p.at <= cutoff then [p] else []
  }

  lemma {:induction false} AtOrBeforeMembers(points: seq<Point>, cutoff: int, p: Point)
    ensures p in AtOrBefore(points, cutoff) <==> p in points && p.at <= cutoff
  {
    if points != [] {
      var n := |points| - 1;
      AtOrBeforeMembers(points[..n], cutoff, p);
      assert points == points[..n] + [points[n]];
    }
  }

  function TimeOf(): Point -> int { (p: Point) => p.at }

  function Ordered(points: seq<Point>, cutoff: int): seq<Point> {
    Sort(AtOrBefore(points, cutoff), TimeOf())
  }

  predicate GapBefore(ordered: seq<Point>, k: nat, maxGap: int)
    requires 0 < k < |ordered|
  {
    ordered[k].at - ordered[k - 1].at > maxGap
  }

  /** The segment that starts at ``k`` has no gap inside and could not start earlier. */
  ghost predicate LatestSegment(ordered: seq<Point>, k: nat, maxGap: int) {
    && k <= |ordered| && |ordered| - k <= WINDOW
    && (forall i :: k < i < |ordered| ==> !GapBefore(ordered, i, maxGap))
    && (k == 0 || |ordered| - k == WINDOW || (k < |ordered| && GapBefore(ordered, k, maxGap)))
  }

  lemma LatestSegmentIsUnique(ordered: seq<Point>, k: nat, k': nat, maxGap: int)
    requires LatestSegment(ordered, k, maxGap) && LatestSegment(ordered, k', maxGap)
    ensures k == k'
  {
  }

  /** Where the segment starts; the backwards scan of the source computes exactly this. */
  function SegmentStart(ordered: seq<Point>, maxGap: int): (k: nat)
    ensures LatestSegment(ordered, k, maxGap)
  {
    var boundary := LastGap(ordered, |ordered| - 1, maxGap);
    if |ordered| - boundary > WINDOW then |ordered| - WINDOW else boundary
  }

  /** The last position up to ``index`` that has an excessive gap before it, or 0. */
  function LastGap(ordered: seq<Point>, index: int, maxGap: int): (k: nat)
    requires index < |ordered|
    ensures k <= |ordered| && (k < |ordered| || ordered == [])
    ensures k == 0 || (k <= index && GapBefore(ordered, k, maxGap))
    ensures forall i :: k < i <= index ==> !GapBefore(ordered, i, maxGap)
    decreases if index < 0 then 0 else index
  {
    if index <= 0 then 0
    else if GapBefore(ordered, index, maxGap) then index
    else LastGap(ordered, index - 1, maxGap)
  }

  function HistoryUpTo(points: seq<Point>, cutoff: int, maxGap: int): seq<Point> {
    var ordered := Ordered(points, cutoff);
    ordered[SegmentStart(ordered, maxGap)..]
  }

  method ContinuousHistory(points: seq<Point>, cutoff: int, maxGap: int) returns (history: seq<Point>)
    ensures history == HistoryUpTo(points, cutoff, maxGap)
  {
    var ordered := Ordered(points, cutoff);
    if ordered == [] {
      return [];
    }
    var boundary := 0;
    var index := |ordered| - 1;
    while index > 0
      invariant 0 <= index < |ordered| && boundary == 0
      invariant forall i :: index < i < |ordered| ==> !GapBefore(ordered, i, maxGap)
    {
      var gap := ordered[index].at - ordered[index - 1].at;
      if gap > maxGap {
        boundary := index;
        break;
      }
      index := index - 1;
    }
    history := ordered[boundary..];
    var k := boundary;
    if |history| > WINDOW {
      k := |ordered| - WINDOW;
      history := history[|history| - WINDOW..];
    }
    assert history == ordered[k..];
    assert LatestSegment(ordered, k, maxGap);
    LatestSegmentIsUnique(ordered, k, SegmentStart(ordered, maxGap), maxGap);
  }

  lemma HistoryHasNoFuture(points: seq<Point>, cutoff: int, maxGap: int)
    ensures forall p :: p in HistoryUpTo(points, cutoff, maxGap) ==> p in points && p.at <= cutoff
  {
    forall p | p in HistoryUpTo(points, cutoff, maxGap) ensures p in points && p.at <= cutoff {
      SortKeepsMembers(AtOrBefore(points, cutoff), TimeOf(), p);
      AtOrBeforeMembers(points, cutoff, p);
    }
  }

  lemma HistoryHasNoGap(points: seq<Point>, cutoff: int, maxGap: int)
    ensures var h := HistoryUpTo(points, cutoff, maxGap);
      forall i :: 0 < i < |h| ==> h[i - 1].at <= h[i].at && h[i].at - h[i - 1].at <= maxGap
  {
    var ordered := Ordered(points, cutoff);
    var h, k := HistoryUpTo(points, cutoff, maxGap), SegmentStart(ordered, maxGap);
    SortSorts(AtOrBefore(points, cutoff), TimeOf());
    forall i | 0 < i < |h| ensures h[i - 1].at <= h[i].at && h[i].at - h[i - 1].at <= maxGap {
      assert !GapBefore(ordered, k + i, maxGap);
      assert TimeOf()(ordered[k + i - 1]) <= TimeOf()(ordered[k + i]);
    }
  }

  /** No point after the cutoff reaches the features, and consecutive ones are never further apart than the limit. */
  lemma HistoryHasNoFutureAndNoGap(points: seq<Point>, cutoff: int, maxGap: int)
    ensures var h := HistoryUpTo(points, cutoff, maxGap);
      && |h| <= WINDOW
      && (forall p :: p in h ==> p in points && p.at <= cutoff)
      && (forall i :: 0 < i < |h| ==> h[i - 1].at <= h[i].at && h[i].at - h[i - 1].at <= maxGap)
  {
    HistoryHasNoFuture(points, cutoff, maxGap);
    HistoryHasNoGap(points, cutoff, maxGap);
  }

  // ----- Runs, labels, features -----

  datatype Run =
    Run(id: string, predictedAt: int, targetAt: int, current: real, actual: Option<real>, baseline: Option<real>)

  /** ``verifiedOutcome``, ``fromEvaluator`` and ``hasEvidence`` are the source's three tests on the label row. */
  datatype Label =
    Label(value: real, verifiedOutcome: bool, fromEvaluator: bool, hasEvidence: bool, verifiedAt: Option<int>)

  datatype Quality = OK | GapDetected | Other(status: string)
  datatype FeatureSet = FeatureSet(quality: Quality, features: map<string, real>)

  type Builder = (seq<Point>, Run) -> FeatureSet
  type Predictor = (seq<(map<string, real>, real)>, map<string, real>) -> Option<real>

  datatype Input = Input(
    runs: seq<Run>, labels: map<string, Label>, observations: Option<seq<Point>>, maxGap: int,
    build: Builder, predict: Predictor)

  function PredictedAt(): Run -> int { (r: Run) => r.predictedAt }

  /** The runs that are replayed, in order of prediction. */
  function Window(input: Input): seq<Run> {
    var ordered := Sort(input.runs, PredictedAt());
    if |ordered| > WINDOW then ordered[|ordered| - WINDOW..] else ordered
  }

  function Fallback(runs: seq<Run>): (points: seq<Point>)
    ensures |points| == |runs|
    ensures forall i :: 0 <= i < |runs| ==> points[i] == Point(runs[i].predictedAt, runs[i].current)
  {
    if runs == [] then []
    else Fallback(runs[..|runs| - 1]) + [Point(runs[|runs| - 1].predictedAt, runs[|runs| - 1].current)]
  }

  /** The features of run ``i``, built from the telemetry up to its prediction or else from the runs so far. */
  function FeaturesOf(input: Input, runs: seq<Run>, i: nat): FeatureSet
    requires i < |runs|
  {
    var run := runs[i];
    match input.observations
    case None => input.build(Fallback(runs[..i + 1]), run)
    case Some(points) =>
      var history := HistoryUpTo(points, run.predictedAt, input.maxGap);
      var built := input.build(history, run);
      if history != [] && run.predictedAt - history[|history| - 1].at > input.maxGap then built.(quality := GapDetected)
      else built
  }

  /** A run with the features built for it. */
  datatype Case = Case(run: Run, built: FeatureSet)

  /** What is replayed: the window, each run with its features. */
  function CasesOf(input: Input): (cases: seq<Case>)
    ensures |cases| == |Window(input)|
    ensures forall i :: 0 <= i < |cases| ==> cases[i] == Case(Window(input)[i], FeaturesOf(input, Window(input), i))
  {
    seq(|Window(input)|,
      i requires 0 <= i < |Window(input)| => Case(Window(input)[i], FeaturesOf(input, Window(input), i)))
  }

  predicate LabelIsUsable(labels: map<string, Label>, run: Run) {
    run.id in labels && (
      var outcome := labels[run.id];
      && outcome.verifiedOutcome && outcome.fromEvaluator && outcome.hasEvidence
      && run.actual.Some? && Abs(outcome.value - run.actual.value) <= 0.01
      && outcome.verifiedAt.Some? && outcome.verifiedAt.value >= run.targetAt)
  }

  /** The feature names of the model: those of the first run of good quality. */
  function Schema(cases: seq<Case>, upTo: nat): Option<set<string>>
    requires upTo <= |cases|
  {
    if upTo == 0 then None
    else
      var earlier := Schema(cases, upTo - 1);
      if earlier.Some? then earlier
      else if cases[upTo - 1].built.quality == OK then Some(cases[upTo - 1].built.features.Keys)
      else None
  }

  predicate SchemaOk(cases: seq<Case>, i: nat)
    requires i < |cases|
  {
    cases[i].built.quality == OK && Schema(cases, i + 1) == Some(cases[i].built.features.Keys)
  }

  /** The runs whose labels score and, later, train. */
  predicate Accepted(labels: map<string, Label>, cases: seq<Case>, i: nat)
    requires i < |cases|
  {
    SchemaOk(cases, i) && LabelIsUsable(labels, cases[i].run)
  }

  function VerifiedAt(labels: map<string, Label>, cases: seq<Case>, i: nat): int
    requires i < |cases| && Accepted(labels, cases, i)
  {
    labels[cases[i].run.id].verifiedAt.value
  }

  // ----- The replay -----

  /** A label waiting to be verified, and after that what the model learned from it. */
  datatype Pending = Pending(verifiedAt: int, run: nat, features: map<string, real>, value: real)

  /** One scored forecast with the runs the model had learned when it was scored. */
  datatype Scored = Scored(run: nat, trainedOn: seq<Pending>, prediction: Option<real>)

  datatype Report = Report(
    scored: seq<Scored>, learned: seq<Pending>, pending: seq<Pending>,
    skippedQuality: nat, skippedSchema: nat, unlabelled: nat, verified: nat)

  function DueAt(pending: seq<Pending>, now: int): seq<Pending> {
    if pending == [] then []
    else
      var p := pending[|pending| - 1];
      DueAt(pending[..|pending| - 1], now) + if p.verifiedAt <= now then [p] else []
  }

  function LaterThan(pending: seq<Pending>, now: int): seq<Pending> {
    if pending == [] then []
    else
      var p := pending[|pending| - 1];
      LaterThan(pending[..|pending| - 1], now) + if p.verifiedAt > now then [p] else []
  }

  function RunsOf(pending: seq<Pending>): (runs: seq<nat>)
    ensures |runs| == |pending|
    ensures forall i :: 0 <= i < |pending| ==> runs[i] == pending[i].run
  {
    if pending == [] then [] else RunsOf(pending[..|pending| - 1]) + [pending[|pending| - 1].run]
  }

  function Lessons(learned: seq<Pending>): seq<(map<string, real>, real)> {
    if learned == [] then []
    else Lessons(learned[..|learned| - 1]) + [(learned[|learned| - 1].features, learned[|learned| - 1].value)]
  }

  ghost function AcceptedBefore(labels: map<string, Label>, cases: seq<Case>, i: nat): set<nat>
    requires i <= |cases|
  {
    set j: nat | 0 <= j < i && Accepted(labels, cases, j)
  }

  /** The labels that may train the model before run ``i`` is scored. */
  ghost function TrainingSet(labels: map<string, Label>, cases: seq<Case>, i: nat): set<nat>
    requires i < |cases|
  {
    set j: nat | 0 <= j < i && Accepted(labels, cases, j) && VerifiedAt(labels, cases, j) <= cases[i].run.predictedAt
  }

  lemma RunsOfSnoc(pending: seq<Pending>, p: Pending)
    ensures RunsOf(pending + [p]) == RunsOf(pending) + [p.run]
  {
    assert (pending + [p])[..|pending|] == pending;
  }

  lemma RunsOfConcat(a: seq<Pending>, b: seq<Pending>)
    ensures RunsOf(a + b) == RunsOf(a) + RunsOf(b)
  {
  }

  lemma BagsSnoc(a: seq<nat>, b: seq<nat>, c: seq<nat>, x: nat)
    requires multiset(a) + multiset(b) == multiset(c)
    ensures multiset(a + [x]) + multiset(b) == multiset(c + [x])
    ensures multiset(a) + multiset(b + [x]) == multiset(c + [x])
  {
    assert multiset(a + [x]) == multiset(a) + multiset{x};
    assert multiset(b + [x]) == multiset(b) + multiset{x};
    assert multiset(c + [x]) == multiset(c) + multiset{x};
  }

  lemma {:induction false} SplitKeepsRuns(pending: seq<Pending>, now: int)
    ensures multiset(RunsOf(DueAt(pending, now))) + multiset(RunsOf(LaterThan(pending, now)))
      == multiset(RunsOf(pending))
  {
    if pending != [] {
      var front, p := pending[..|pending| - 1], pending[|pending| - 1];
      SplitKeepsRuns(front, now);
      BagsSnoc(RunsOf(DueAt(front, now)), RunsOf(LaterThan(front, now)), RunsOf(front), p.run);
      if p.verifiedAt <= now {
        RunsOfSnoc(DueAt(front, now), p);
        assert LaterThan(pending, now) == LaterThan(front, now);
      } else {
        RunsOfSnoc(LaterThan(front, now), p);
        assert DueAt(pending, now) == DueAt(front, now);
      }
    }
  }

  lemma {:induction false} SplitByTime(pending: seq<Pending>, now: int, p: Pending)
    ensures p in DueAt(pending, now) <==> p in pending && p.verifiedAt <= now
    ensures p in LaterThan(pending, now) <==> p in pending && p.verifiedAt > now
  {
    if pending != [] {
      var n := |pending| - 1;
      SplitByTime(pending[..n], now, p);
      assert pending == pending[..n] + [pending[n]];
    }
  }

  /** The entry says what the source knows about its run. */
  ghost predicate Genuine(labels: map<string, Label>, cases: seq<Case>, p: Pending) {
    && p.run < |cases| && Accepted(labels, cases, p.run)
    && p.verifiedAt == VerifiedAt(labels, cases, p.run)
    && p.features == cases[p.run].built.features && p.value == labels[cases[p.run].run.id].value
  }

  /** Between two runs every accepted label is learned or pending, once. */
  ghost predicate Accounted(labels: map<string, Label>, cases: seq<Case>, i: nat, learned: seq<Pending>,
      pending: seq<Pending>)
    requires i <= |cases|
  {
    && multiset(RunsOf(learned)) + multiset(RunsOf(pending)) == multiset(AcceptedBefore(labels, cases, i))
    && (forall p :: p in pending ==> Genuine(labels, cases, p))
    && (forall p :: p in learned ==> Genuine(labels, cases, p))
  }

  ghost predicate InOrder(cases: seq<Case>) {
    forall i, j :: 0 <= i < j < |cases| ==> cases[i].run.predictedAt <= cases[j].run.predictedAt
  }

  ghost predicate LearnedBy(learned: seq<Pending>, now: int) {
    forall p :: p in learned ==> p.verifiedAt <= now
  }

  lemma LearnDue(labels: map<string, Label>, cases: seq<Case>, i: nat, learned: seq<Pending>, pending: seq<Pending>)
    requires i < |cases| && Accounted(labels, cases, i, learned, pending)
      && LearnedBy(learned, cases[i].run.predictedAt)
    ensures var now := cases[i].run.predictedAt; var learned' := learned + DueAt(pending, now);
      && Accounted(labels, cases, i, learned', LaterThan(pending, now))
      && LearnedBy(learned', now)
  {
    var now := cases[i].run.predictedAt;
    SplitKeepsRuns(pending, now);
    RunsOfConcat(learned, DueAt(pending, now));
    forall p ensures p in DueAt(pending, now) <==> p in pending && p.verifiedAt <= now {
      SplitByTime(pending, now, p);
    }
    forall p ensures p in LaterThan(pending, now) <==> p in pending && p.verifiedAt > now {
      SplitByTime(pending, now, p);
    }
  }

  /** When nothing pending is due, the model has learned exactly the training set. */
  lemma LearnedIsTrainingSet(labels: map<string, Label>, cases: seq<Case>, i: nat, learned: seq<Pending>,
      later: seq<Pending>)
    requires i < |cases| && Accounted(labels, cases, i, learned, later) && LearnedBy(learned, cases[i].run.predictedAt)
    requires forall p :: p in later ==> p.verifiedAt > cases[i].run.predictedAt
    ensures multiset(RunsOf(learned)) == multiset(TrainingSet(labels, cases, i))
  {
    var taught, waiting := RunsOf(learned), RunsOf(later);
    var accepted, training := AcceptedBefore(labels, cases, i), TrainingSet(labels, cases, i);
    var acceptedBag: multiset<nat>, trainingBag: multiset<nat> := multiset(accepted), multiset(training);
    var taughtBag: multiset<nat>, waitingBag: multiset<nat> := multiset(taught), multiset(waiting);
    forall j: nat ensures taughtBag[j] == trainingBag[j] {
      assert taughtBag[j] + waitingBag[j] == acceptedBag[j];
      if j in taught {
        var k :| 0 <= k < |learned| && taught[k] == j;
        assert learned[k] in learned;
        assert j in multiset(taught);
        assert j in accepted && j in training;
      }
      if j in waiting {
        var k :| 0 <= k < |later| && waiting[k] == j;
        assert later[k] in later;
        assert j !in training;
      }
    }
  }

  /** Learning what is due leaves the model trained on exactly the training set of the next run. */
  lemma BeforeScoring(labels: map<string, Label>, cases: seq<Case>, i: nat, learned: seq<Pending>,
      pending: seq<Pending>)
    requires i < |cases| && InOrder(cases) && Accounted(labels, cases, i, learned, pending)
    requires if i == 0 then learned == [] else LearnedBy(learned, cases[i - 1].run.predictedAt)
    ensures var now := cases[i].run.predictedAt; var learned' := learned + DueAt(pending, now);
      && Accounted(labels, cases, i, learned', LaterThan(pending, now))
      && LearnedBy(learned', now)
      && multiset(RunsOf(learned')) == multiset(TrainingSet(labels, cases, i))
  {
    var now := cases[i].run.predictedAt;
    LearnDue(labels, cases, i, learned, pending);
    forall p | p in LaterThan(pending, now) ensures p.verifiedAt > now { SplitByTime(pending, now, p); }
    LearnedIsTrainingSet(labels, cases, i, learned + DueAt(pending, now), LaterThan(pending, now));
  }

  lemma AcceptedGrows(labels: map<string, Label>, cases: seq<Case>, i: nat)
    requires i < |cases|
    ensures AcceptedBefore(labels, cases, i + 1)
         == AcceptedBefore(labels, cases, i) + if Accepted(labels, cases, i) then {i} else {}
    ensures i !in AcceptedBefore(labels, cases, i)
  {
  }

  function PendingOf(labels: map<string, Label>, cases: seq<Case>, i: nat): Pending
    requires i < |cases| && Accepted(labels, cases, i)
  {
    Pending(VerifiedAt(labels, cases, i), i, cases[i].built.features, labels[cases[i].run.id].value)
  }

  /** Moving past an accepted run queues its label. */
  lemma AdvanceAccepted(labels: map<string, Label>, cases: seq<Case>, i: nat, learned: seq<Pending>,
      pending: seq<Pending>)
    requires i < |cases| && Accounted(labels, cases, i, learned, pending) && Accepted(labels, cases, i)
    ensures Accounted(labels, cases, i + 1, learned, pending + [PendingOf(labels, cases, i)])
  {
    AcceptedGrows(labels, cases, i);
    RunsOfSnoc(pending, PendingOf(labels, cases, i));
    BagGrows(AcceptedBefore(labels, cases, i), i);
  }

  lemma BagGrows(runs: set<nat>, i: nat)
    requires i !in runs
    ensures multiset(runs + {i}) == multiset(runs) + multiset{i}
  {
  }

  /** Moving past any other run changes nothing. */
  lemma AdvanceSkipped(labels: map<string, Label>, cases: seq<Case>, i: nat, learned: seq<Pending>,
      pending: seq<Pending>)
    requires i < |cases| && Accounted(labels, cases, i, learned, pending) && !Accepted(labels, cases, i)
    ensures Accounted(labels, cases, i + 1, learned, pending)
  {
    AcceptedGrows(labels, cases, i);
    assert AcceptedBefore(labels, cases, i + 1) == AcceptedBefore(labels, cases, i);
  }

  /** A scored run: trained on exactly the labels verified by its prediction, each once. */
  ghost predicate ScoredFairly(labels: map<string, Label>, cases: seq<Case>, predict: Predictor, score: Scored) {
    && score.run < |cases| && Accepted(labels, cases, score.run)
    && multiset(RunsOf(score.trainedOn)) == multiset(TrainingSet(labels, cases, score.run))
    && (forall p :: p in score.trainedOn ==> Genuine(labels, cases, p))
    && score.prediction == if score.trainedOn == [] then None
         else predict(Lessons(score.trainedOn), cases[score.run].built.features)
  }

  /** How many runs the replay has put where. */
  datatype Tally = Tally(quality: nat, schema: nat, unlabelled: nat, verified: nat) {
    function Total(): nat { quality + schema + unlabelled + verified }

    function Count(fate: Fate): Tally {
      match fate
      case BadQuality => this.(quality := quality + 1)
      case OtherSchema => this.(schema := schema + 1)
      case Unlabelled => this.(unlabelled := unlabelled + 1)
      case Scoreable => this.(verified := verified + 1)
    }
  }

  datatype Fate = BadQuality | OtherSchema | Unlabelled | Scoreable

  /** Where a run ends up: the first test it fails decides. */
  function FateOf(labels: map<string, Label>, cases: seq<Case>, i: nat): (fate: Fate)
    requires i < |cases|
    ensures fate == Scoreable <==> Accepted(labels, cases, i)
  {
    if cases[i].built.quality != OK then BadQuality
    else if !SchemaOk(cases, i) then OtherSchema
    else if !LabelIsUsable(labels, cases[i].run) then Unlabelled
    else Scoreable
  }

  function TallyOf(labels: map<string, Label>, cases: seq<Case>, i: nat): Tally
    requires i <= |cases|
  {
    if i == 0 then Tally(0, 0, 0, 0) else TallyOf(labels, cases, i - 1).Count(FateOf(labels, cases, i - 1))
  }

  /** Every run is counted once. */
  lemma {:induction false} TallyCountsRuns(labels: map<string, Label>, cases: seq<Case>, i: nat, tally: Tally)
    requires i <= |cases| && tally == TallyOf(labels, cases, i)
    ensures tally.Total() == i
  {
    if i > 0 {
      TallyCountsRuns(labels, cases, i - 1, TallyOf(labels, cases, i - 1));
    }
  }

  /** The accepted runs, in order. */
  function AcceptedRuns(labels: map<string, Label>, cases: seq<Case>, i: nat): seq<nat>
    requires i <= |cases|
  {
    if i == 0 then []
    else AcceptedRuns(labels, cases, i - 1) + if Accepted(labels, cases, i - 1) then [i - 1] else []
  }

  function ScoredRuns(scored: seq<Scored>): (runs: seq<nat>)
    ensures |runs| == |scored|
  {
    if scored == [] then [] else ScoredRuns(scored[..|scored| - 1]) + [scored[|scored| - 1].run]
  }

  /** The variables of the loop. */
  datatype Progress = Progress(
    model: Option<set<string>>, learned: seq<Pending>, pending: seq<Pending>, scored: seq<Scored>, tally: Tally)

  ghost predicate Replayed(labels: map<string, Label>, cases: seq<Case>, predict: Predictor, i: nat, p: Progress)
    requires i <= |cases|
  {
    && p.model == Schema(cases, i)
    && Accounted(labels, cases, i, p.learned, p.pending)
    && (if i == 0 then p.learned == [] else LearnedBy(p.learned, cases[i - 1].run.predictedAt))
    && AllFair(labels, cases, predict, p.scored)
    && ScoredRuns(p.scored) == AcceptedRuns(labels, cases, i)
    && p.tally == TallyOf(labels, cases, i) && |p.scored| == p.tally.verified
  }

  ghost predicate AllFair(labels: map<string, Label>, cases: seq<Case>, predict: Predictor, scored: seq<Scored>) {
    forall score :: score in scored ==> ScoredFairly(labels, cases, predict, score)
  }

  /** One run: learn what is due, then skip, or score and queue the label. */
  function Step(labels: map<string, Label>, cases: seq<Case>, predict: Predictor, i: nat, p: Progress): Progress
    requires i < |cases|
  {
    var run, built := cases[i].run, cases[i].built;
    var learned, pending := p.learned + DueAt(p.pending, run.predictedAt), LaterThan(p.pending, run.predictedAt);
    if built.quality != OK then Progress(p.model, learned, pending, p.scored, p.tally.Count(BadQuality))
    else
      var model := if p.model == None then built.features.Keys else p.model.value;
      if built.features.Keys != model then Progress(Some(model), learned, pending, p.scored, p.tally.Count(OtherSchema))
      else if !LabelIsUsable(labels, run) then
        Progress(Some(model), learned, pending, p.scored, p.tally.Count(Unlabelled))
      else
        var outcome := labels[run.id];
        var prediction := if learned == [] then None else predict(Lessons(learned), built.features);
        Progress(Some(model), learned, pending + [Pending(outcome.verifiedAt.value, i, built.features, outcome.value)],
                 p.scored + [Scored(i, learned, prediction)], p.tally.Count(Scoreable))
  }

  const START := Progress(None, [], [], [], Tally(0, 0, 0, 0))

  /** The runs of a replay, one after the other. */
  function Iterate(step: (nat, Progress) -> Progress, n: nat): Progress {
    if n == 0 then START else step(n - 1, Iterate(step, n - 1))
  }

  function Stepper(labels: map<string, Label>, cases: seq<Case>, predict: Predictor): (nat, Progress) -> Progress {
    (i: nat, p: Progress) => if i < |cases| then Step(labels, cases, predict, i, p) else p
  }

  function After(labels: map<string, Label>, cases: seq<Case>, predict: Predictor, i: nat): Progress {
    Iterate(Stepper(labels, cases, predict), i)
  }

  function NowAt(cases: seq<Case>, i: nat): int
    requires i < |cases|
  {
    cases[i].run.predictedAt
  }

  /** What the run is scored with. */
  function ScoreOf(cases: seq<Case>, predict: Predictor, i: nat, learned: seq<Pending>): Scored
    requires i < |cases|
  {
    Scored(i, learned, if learned == [] then None else predict(Lessons(learned), cases[i].built.features))
  }

  lemma StepCases(labels: map<string, Label>, cases: seq<Case>, predict: Predictor, i: nat, p: Progress)
    requires i < |cases| && p.model == Schema(cases, i)
    ensures var learned, pending :=
      p.learned + DueAt(p.pending, NowAt(cases, i)), LaterThan(p.pending, NowAt(cases, i));
      Step(labels, cases, predict, i, p)
      == if Accepted(labels, cases, i)
         then Progress(Schema(cases, i + 1), learned, pending + [PendingOf(labels, cases, i)],
                       p.scored + [ScoreOf(cases, predict, i, learned)], p.tally.Count(Scoreable))
         else Progress(Schema(cases, i + 1), learned, pending, p.scored, p.tally.Count(FateOf(labels, cases, i)))
  {
  }

  lemma StepKeepsReplayed(labels: map<string, Label>, cases: seq<Case>, predict: Predictor, i: nat, p: Progress)
    requires i < |cases| && InOrder(cases) && Replayed(labels, cases, predict, i, p)
    ensures Replayed(labels, cases, predict, i + 1, Step(labels, cases, predict, i, p))
  {
    var learned, pending := p.learned + DueAt(p.pending, NowAt(cases, i)), LaterThan(p.pending, NowAt(cases, i));
    BeforeScoring(labels, cases, i, p.learned, p.pending);
    StepCases(labels, cases, predict, i, p);
    if Accepted(labels, cases, i) {
      AcceptedRunIsReplayed(labels, cases, predict, i, p, learned, pending);
    } else {
      SkippedRunIsReplayed(labels, cases, predict, i, p, learned, pending);
    }
  }

  lemma AcceptedRunIsReplayed(labels: map<string, Label>, cases: seq<Case>, predict: Predictor, i: nat, p: Progress,
                              learned: seq<Pending>, pending: seq<Pending>)
    requires i < |cases| && Accepted(labels, cases, i) && Accounted(labels, cases, i, learned, pending)
    requires LearnedBy(learned, NowAt(cases, i))
    requires multiset(RunsOf(learned)) == multiset(TrainingSet(labels, cases, i))
    requires AllFair(labels, cases, predict, p.scored) && ScoredRuns(p.scored) == AcceptedRuns(labels, cases, i)
    requires p.tally == TallyOf(labels, cases, i) && |p.scored| == p.tally.verified
    ensures Replayed(labels, cases, predict, i + 1,
      Progress(Schema(cases, i + 1), learned, pending + [PendingOf(labels, cases, i)],
               p.scored + [ScoreOf(cases, predict, i, learned)], p.tally.Count(Scoreable)))
  {
    AdvanceAccepted(labels, cases, i, learned, pending);
    AcceptedRunIsScored(labels, cases, predict, i, learned, p.scored);
  }

  lemma AcceptedRunIsScored(labels: map<string, Label>, cases: seq<Case>, predict: Predictor, i: nat,
                            learned: seq<Pending>, scored: seq<Scored>)
    requires i < |cases| && Accepted(labels, cases, i) && forall p :: p in learned ==> Genuine(labels, cases, p)
    requires multiset(RunsOf(learned)) == multiset(TrainingSet(labels, cases, i))
    requires AllFair(labels, cases, predict, scored) && ScoredRuns(scored) == AcceptedRuns(labels, cases, i)
    ensures var scored' := scored + [ScoreOf(cases, predict, i, learned)];
      && AllFair(labels, cases, predict, scored')
      && ScoredRuns(scored') == AcceptedRuns(labels, cases, i + 1)
  {
    ScoredSnoc(labels, cases, predict, scored, ScoreOf(cases, predict, i, learned));
  }

  lemma SkippedRunIsReplayed(labels: map<string, Label>, cases: seq<Case>, predict: Predictor, i: nat, p: Progress,
                             learned: seq<Pending>, pending: seq<Pending>)
    requires i < |cases| && !Accepted(labels, cases, i) && Accounted(labels, cases, i, learned, pending)
    requires LearnedBy(learned, NowAt(cases, i))
    requires AllFair(labels, cases, predict, p.scored) && ScoredRuns(p.scored) == AcceptedRuns(labels, cases, i)
    requires p.tally == TallyOf(labels, cases, i) && |p.scored| == p.tally.verified
    ensures Replayed(labels, cases, predict, i + 1,
      Progress(Schema(cases, i + 1), learned, pending, p.scored, p.tally.Count(FateOf(labels, cases, i))))
  {
    AdvanceSkipped(labels, cases, i, learned, pending);
  }

  /** After every run: fair scores, all accepted runs scored in order, all runs counted. */
  lemma {:induction false} AfterIsReplayed(labels: map<string, Label>, cases: seq<Case>, predict: Predictor, i: nat,
      p: Progress)
    requires i <= |cases| && InOrder(cases) && p == After(labels, cases, predict, i)
    ensures Replayed(labels, cases, predict, i, p)
  {
    if i == 0 {
      NothingReplayed(labels, cases, predict);
    } else {
      var q := After(labels, cases, predict, i - 1);
      AfterIsReplayed(labels, cases, predict, i - 1, q);
      StepKeepsReplayed(labels, cases, predict, i - 1, q);
    }
  }

  lemma ScoredSnoc(labels: map<string, Label>, cases: seq<Case>, predict: Predictor, scored: seq<Scored>, score: Scored)
    requires AllFair(labels, cases, predict, scored) && ScoredFairly(labels, cases, predict, score)
    ensures AllFair(labels, cases, predict, scored + [score])
    ensures ScoredRuns(scored + [score]) == ScoredRuns(scored) + [score.run]
  {
    assert (scored + [score])[..|scored|] == scored;
  }

  /** The report scores the accepted runs, in order and fairly, and counts every run of the window once. */
  method ReplayScope(input: Input) returns (report: Report)
    ensures report.scored == After(input.labels, CasesOf(input), input.predict, |CasesOf(input)|).scored
    ensures AllFair(input.labels, CasesOf(input), input.predict, report.scored)
    ensures ScoredRuns(report.scored) == AcceptedRuns(input.labels, CasesOf(input), |CasesOf(input)|)
    ensures Tally(report.skippedQuality, report.skippedSchema, report.unlabelled, report.verified)
         == TallyOf(input.labels, CasesOf(input), |CasesOf(input)|)
    ensures |report.scored| == |report.learned| + |report.pending| == report.verified
    ensures |Window(input)| == report.skippedQuality + report.skippedSchema + report.unlabelled + report.verified
  {
    var cases := CasesOf(input);
    var p := ReplayCases(input.labels, cases, input.predict);
    CasesAreSorted(input);
    ReplayIsFair(input.labels, cases, input.predict);
    TallyCountsRuns(input.labels, cases, |cases|, p.tally);
    report :=
      Report(p.scored, p.learned, p.pending, p.tally.quality, p.tally.schema, p.tally.unlabelled, p.tally.verified);
  }

  /** The loop over the runs. */
  method ReplayCases(labels: map<string, Label>, cases: seq<Case>, predict: Predictor) returns (p: Progress)
    ensures p == After(labels, cases, predict, |cases|)
  {
    var model: Option<set<string>> := None;
    var learned: seq<Pending>, pending: seq<Pending>, scored: seq<Scored>, tally := [], [], [], Tally(0, 0, 0, 0);
    for i := 0 to |cases|
      invariant Progress(model, learned, pending, scored, tally) == After(labels, cases, predict, i)
    {
      var now, built := cases[i].run.predictedAt, cases[i].built;
      learned := learned + DueAt(pending, now);
      pending := LaterThan(pending, now);
      if built.quality != OK {
        tally := tally.Count(BadQuality);
        continue;
      }
      if model == None {
        model := Some(built.features.Keys);
      }
      if built.features.Keys != model.value {
        tally := tally.Count(OtherSchema);
        continue;
      }
      if !LabelIsUsable(labels, cases[i].run) {
        tally := tally.Count(Unlabelled);
        continue;
      }
      tally := tally.Count(Scoreable);
      var outcome := labels[cases[i].run.id];
      scored :=
        scored + [Scored(i, learned, if learned == [] then None else predict(Lessons(learned), built.features))];
      pending := pending + [Pending(outcome.verifiedAt.value, i, built.features, outcome.value)];
    }
    p := Progress(model, learned, pending, scored, tally);
  }

  lemma NothingReplayed(labels: map<string, Label>, cases: seq<Case>, predict: Predictor)
    ensures Replayed(labels, cases, predict, 0, START)
  {
    assert AcceptedBefore(labels, cases, 0) == {};
  }

  lemma ReplayIsFair(labels: map<string, Label>, cases: seq<Case>, predict: Predictor)
    requires InOrder(cases)
    ensures var p := After(labels, cases, predict, |cases|);
      && |p.scored| == |p.learned| + |p.pending| == p.tally.verified
      && AllFair(labels, cases, predict, p.scored) && ScoredRuns(p.scored) == AcceptedRuns(labels, cases, |cases|)
      && p.tally == TallyOf(labels, cases, |cases|)
  {
    AfterIsReplayed(labels, cases, predict, |cases|, After(labels, cases, predict, |cases|));
    AllReplayed(labels, cases, predict, After(labels, cases, predict, |cases|));
  }

  lemma AllReplayed(labels: map<string, Label>, cases: seq<Case>, predict: Predictor, p: Progress)
    requires Replayed(labels, cases, predict, |cases|, p)
    ensures |p.scored| == |p.learned| + |p.pending| == p.tally.verified
    ensures AllFair(labels, cases, predict, p.scored) && ScoredRuns(p.scored) == AcceptedRuns(labels, cases, |cases|)
    ensures p.tally == TallyOf(labels, cases, |cases|)
  {
    SizesAddUp(labels, cases, p.learned, p.pending);
  }

  lemma SizesAddUp(labels: map<string, Label>, cases: seq<Case>, learned: seq<Pending>, pending: seq<Pending>)
    requires Accounted(labels, cases, |cases|, learned, pending)
    ensures |learned| + |pending| == |AcceptedRuns(labels, cases, |cases|)|
  {
    AcceptedRunsAreCounted(labels, cases, |cases|);
    assert |multiset(RunsOf(learned))| + |multiset(RunsOf(pending))|
      == |multiset(AcceptedBefore(labels, cases, |cases|))|;
  }

  lemma {:induction false} AcceptedRunsAreCounted(labels: map<string, Label>, cases: seq<Case>, i: nat)
    requires i <= |cases|
    ensures |AcceptedRuns(labels, cases, i)| == |AcceptedBefore(labels, cases, i)|
  {
    if i > 0 {
      AcceptedRunsAreCounted(labels, cases, i - 1);
      AcceptedBeforeGrows(labels, cases, i - 1);
    }
  }

  lemma AcceptedBeforeGrows(labels: map<string, Label>, cases: seq<Case>, i: nat)
    requires i < |cases|
    ensures |AcceptedBefore(labels, cases, i + 1)|
         == |AcceptedBefore(labels, cases, i)| + if Accepted(labels, cases, i) then 1 else 0
  {
    AcceptedGrows(labels, cases, i);
  }

  lemma CasesAreSorted(input: Input)
    ensures InOrder(CasesOf(input))
  {
    SortSorts(input.runs, PredictedAt());
    var ordered := Sort(input.runs, PredictedAt());
    forall i, j | 0 <= i < j < |ordered| ensures ordered[i].predictedAt <= ordered[j].predictedAt {
      assert PredictedAt()(ordered[i]) <= PredictedAt()(ordered[j]);
    }
  }

  /** No leakage: a forecast is never scored by a model that saw its own label, a later run's, or one verified later. */
  lemma NoFutureLabel(labels: map<string, Label>, cases: seq<Case>, predict: Predictor, score: Scored, k: nat)
    requires ScoredFairly(labels, cases, predict, score) && k < |score.trainedOn|
    ensures score.trainedOn[k].run < score.run
    ensures score.trainedOn[k].verifiedAt <= cases[score.run].run.predictedAt
    ensures forall j :: 0 <= j < |score.trainedOn| && j != k ==> score.trainedOn[j].run != score.trainedOn[k].run
  {
    var taught := RunsOf(score.trainedOn);
    assert score.trainedOn[k] in score.trainedOn && taught[k] in multiset(taught);
    forall j | 0 <= j < |taught| && j != k ensures taught[j] != taught[k] {
      if taught[j] == taught[k] {
        TwiceMeansTwo(taught, if j < k then j else k, if j < k then k else j);
      }
    }
  }

  lemma TwiceMeansTwo(js: seq<nat>, a: nat, b: nat)
    requires a < b < |js| && js[a] == js[b]
    ensures multiset(js)[js[a]] >= 2
  {
    assert js == js[..b] + [js[b]] + js[b + 1..];
    assert js[a] in js[..b];
  }
}
