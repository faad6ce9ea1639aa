/**
 What a replayed forecast can see (scripts/river_linear_v2_runtime_replay.py:53-143): neither telemetry
 nor runs nor labels of the future reach the features or the scores.
 */
module ReplayCausality {
  import opened Wrappers
  import opened Sorting
  import opened Reals
  import opened RuntimeReplay

  // ----- Telemetry -----

  /** A point after the cutoff, wherever it stands in the list, makes no difference. */
  lemma {:induction false} LaterPointIsIgnored(front: seq<Point>, p: Point, back: seq<Point>, cutoff: int)
    requires p.at > cutoff
    ensures AtOrBefore(front + [p] + back, cutoff) == AtOrBefore(front + back, cutoff)
  {
    var points, others := front + [p] + back, front + back;
    if back == [] {
      assert points[..|points| - 1] == front && others == front;
    } else {
      var n := |back| - 1;
      LaterPointIsIgnored(front, p, back[..n], cutoff);
      assert points[..|points| - 1] == front + [p] + back[..n];
      assert others[..|others| - 1] == front + back[..n];
    }
  }

  lemma {:induction false} EarlierOfEarlier(points: seq<Point>, early: int, late: int)
    requires early <= late
    ensures AtOrBefore(AtOrBefore(points, late), early) == AtOrBefore(points, early)
  {
    if points != [] {
      var front, p := points[..|points| - 1], points[|points| - 1];
      EarlierOfEarlier(front, early, late);
      if p.at <= late {
        assert AtOrBefore(points, late)[..|AtOrBefore(front, late)|] == AtOrBefore(front, late);
      } else {
        assert AtOrBefore(points, late) == AtOrBefore(front, late);
      }
    }
  }

  /** The observations, if there are any, differ at most in points after ``now``. */
  ghost predicate SameTelemetryUntil(input: Input, other: Input, now: int) {
    match (input.observations, other.observations)
    case (None, None) => true
    case (Some(points), Some(others)) => AtOrBefore(points, now) == AtOrBefore(others, now)
    case _ => false
  }

  lemma SameUntilEarlier(input: Input, other: Input, early: int, late: int)
    requires early <= late && SameTelemetryUntil(input, other, late)
    ensures SameTelemetryUntil(input, other, early)
  {
    if input.observations.Some? {
      EarlierOfEarlier(input.observations.value, early, late);
      EarlierOfEarlier(other.observations.value, early, late);
    }
  }

  // ----- Features -----

  ghost predicate SameTools(input: Input, other: Input) {
    input.build == other.build && input.maxGap == other.maxGap && input.predict == other.predict
  }

  /** The features of a run change neither with later observations nor with later runs. */
  lemma FeaturesSeeNoFuture(input: Input, other: Input, runs: seq<Run>, others: seq<Run>, i: nat)
    requires i < |runs| && i < |others| && runs[..i + 1] == others[..i + 1]
    requires SameTools(input, other) && SameTelemetryUntil(input, other, runs[i].predictedAt)
    ensures FeaturesOf(input, runs, i) == FeaturesOf(other, others, i)
  {
    assert runs[i] == runs[..i + 1][i] && others[i] == others[..i + 1][i];
  }

  /** There is an observation by then, and all of them are older than the gap limit. */
  ghost predicate TelemetryIsTooOld(points: seq<Point>, now: int, maxGap: int) {
    (exists p :: p in points && p.at <= now) && (forall p :: p in points && p.at <= now ==> now - p.at > maxGap)
  }

  /** The history ends with the latest observation there is. */
  lemma HistoryEndsWithLatest(points: seq<Point>, now: int, maxGap: int)
    ensures var h := HistoryUpTo(points, now, maxGap);
      && (h == [] <==> forall p :: p in points ==> p.at > now)
      && (h != [] ==> h[|h| - 1] in points && forall p :: p in points && p.at <= now ==> p.at <= h[|h| - 1].at)
  {
    var ordered := Ordered(points, now);
    SortSorts(AtOrBefore(points, now), TimeOf());
    forall p ensures p in ordered <==> p in points && p.at <= now {
      SortKeepsMembers(AtOrBefore(points, now), TimeOf(), p);
      AtOrBeforeMembers(points, now, p);
    }
    SegmentIsNotEmpty(ordered, maxGap);
    if ordered != [] {
      var last := ordered[|ordered| - 1];
      assert last == HistoryUpTo(points, now, maxGap)[|HistoryUpTo(points, now, maxGap)| - 1];
      assert last in ordered;
      forall p | p in ordered ensures p.at <= last.at {
        var k :| 0 <= k < |ordered| && ordered[k] == p;
        assert TimeOf()(ordered[k]) <= TimeOf()(last);
      }
    }
  }

  lemma SegmentIsNotEmpty(ordered: seq<Point>, maxGap: int)
    ensures ordered != [] ==> SegmentStart(ordered, maxGap) < |ordered|
  {
  }

  /**
   The history is the end of the sorted observations: all of them, or the last 512, or what follows the
   latest gap above the limit.
   */
  lemma HistoryIsWhatFollowsTheGap(points: seq<Point>, now: int, maxGap: int) returns (k: nat)
    ensures var ordered, h := Sort(AtOrBefore(points, now), TimeOf()), HistoryUpTo(points, now, maxGap);
      && k <= |ordered| && h == ordered[k..] && |h| <= 512
      && (forall i :: k < i < |ordered| ==> ordered[i].at - ordered[i - 1].at <= maxGap)
      && (k == 0 || |h| == 512 || (k < |ordered| && ordered[k].at - ordered[k - 1].at > maxGap))
  {
    k := SegmentFollowsGap(Ordered(points, now), maxGap);
  }

  lemma SegmentFollowsGap(ordered: seq<Point>, maxGap: int) returns (k: nat)
    ensures k == SegmentStart(ordered, maxGap) && k <= |ordered| && |ordered| - k <= 512
    ensures forall i :: k < i < |ordered| ==> ordered[i].at - ordered[i - 1].at <= maxGap
    ensures k == 0 || |ordered| - k == 512 || (k < |ordered| && ordered[k].at - ordered[k - 1].at > maxGap)
  {
    k := SegmentStart(ordered, maxGap);
    forall i | k < i < |ordered| ensures ordered[i].at - ordered[i - 1].at <= maxGap {
      assert !GapBefore(ordered, i, maxGap);
    }
  }

  /**
   With telemetry, the features are those built from the latest segment up to the prediction; without it,
   those built from the runs so far. The quality is a gap exactly when all telemetry is too old or the
   builder says so.
   */
  lemma FeaturesAreBuiltFrom(input: Input, runs: seq<Run>, i: nat) returns (history: seq<Point>)
    requires i < |runs|
    ensures match input.observations
      case None =>
        && FeaturesOf(input, runs, i) == input.build(history, runs[i]) && |history| == i + 1
        && forall k :: 0 <= k <= i ==> history[k] == Point(runs[k].predictedAt, runs[k].current)
      case Some(points) =>
        var built, now := input.build(history, runs[i]), runs[i].predictedAt;
        && history == HistoryUpTo(points, now, input.maxGap)
        && FeaturesOf(input, runs, i).features == built.features
        && FeaturesOf(input, runs, i).quality
           == if TelemetryIsTooOld(points, now, input.maxGap) then GapDetected else built.quality
  {
    match input.observations
    case None =>
      history := Fallback(runs[..i + 1]);
    case Some(points) =>
      history := HistoryUpTo(points, runs[i].predictedAt, input.maxGap);
      OldnessIsOfTheLatest(points, runs[i].predictedAt, input.maxGap);
  }

  lemma OldnessIsOfTheLatest(points: seq<Point>, now: int, maxGap: int)
    ensures var h := HistoryUpTo(points, now, maxGap);
      TelemetryIsTooOld(points, now, maxGap) <==> h != [] && now - h[|h| - 1].at > maxGap
  {
    var h := HistoryUpTo(points, now, maxGap);
    HistoryEndsWithLatest(points, now, maxGap);
    HistoryHasNoFuture(points, now, maxGap);
    if h != [] {
      assert h[|h| - 1] in h;
    }
  }

  // ----- The window -----

  /** The window is the last 512 runs: whatever is left out was predicted no later. */
  lemma WindowIsLatest(input: Input) returns (older: seq<Run>)
    ensures multiset(older) + multiset(Window(input)) == multiset(input.runs)
    ensures |Window(input)| == if |input.runs| > 512 then 512 else |input.runs|
    ensures forall a, b :: a in older && b in Window(input) ==> a.predictedAt <= b.predictedAt
    ensures InOrder(CasesOf(input))
  {
    var ordered := Sort(input.runs, PredictedAt());
    SortSorts(input.runs, PredictedAt());
    assert |multiset(ordered)| == |multiset(input.runs)|;
    var k := |ordered| - |Window(input)|;
    older := ordered[..k];
    assert ordered == older + ordered[k..];
    EarlierHalfIsEarlier(ordered, k);
    CasesAreSorted(input);
  }

  lemma EarlierHalfIsEarlier(ordered: seq<Run>, k: nat)
    requires k <= |ordered| && Sorted(ordered, PredictedAt())
    ensures forall a, b :: a in ordered[..k] && b in ordered[k..] ==> a.predictedAt <= b.predictedAt
  {
    forall a, b | a in ordered[..k] && b in ordered[k..] ensures a.predictedAt <= b.predictedAt {
      var i :| 0 <= i < k && ordered[i] == a;
      var j :| k <= j < |ordered| && ordered[j] == b;
      assert PredictedAt()(ordered[i]) <= PredictedAt()(ordered[j]);
    }
  }

  // ----- Labels -----

  /** The label was verified by the evaluator, with evidence, not before its target, and fits what was measured. */
  ghost predicate Trustworthy(labels: map<string, Label>, run: Run) {
    run.id in labels && (
      var outcome := labels[run.id];
      && outcome.verifiedOutcome && outcome.fromEvaluator && outcome.hasEvidence
      && run.actual.Some? && -0.01 <= outcome.value - run.actual.value <= 0.01
      && outcome.verifiedAt.Some? && run.targetAt <= outcome.verifiedAt.value)
  }

  /** The features are good and have the names of the first good ones. */
  ghost predicate FitsModel(cases: seq<Case>, i: nat)
    requires i < |cases|
  {
    cases[i].built.quality == OK && exists k: nat :: FirstGood(cases, k) && SameNames(cases, i, k)
  }

  predicate SameNames(cases: seq<Case>, i: nat, k: nat) {
    k <= i < |cases| && cases[k].built.features.Keys == cases[i].built.features.Keys
  }

  ghost predicate FirstGood(cases: seq<Case>, k: nat) {
    k < |cases| && cases[k].built.quality == OK && forall m :: 0 <= m < k ==> cases[m].built.quality != OK
  }

  lemma {:induction false} SchemaIsFirstGood(cases: seq<Case>, i: nat)
    requires i <= |cases|
    ensures match Schema(cases, i)
      case None => forall k :: 0 <= k < i ==> cases[k].built.quality != OK
      case Some(names) => exists k: nat :: FirstGood(cases, k) && k < i && cases[k].built.features.Keys == names
  {
    if i > 0 {
      SchemaIsFirstGood(cases, i - 1);
      if Schema(cases, i - 1) == None && cases[i - 1].built.quality == OK {
        assert FirstGood(cases, i - 1);
      }
    }
  }

  /** A run is scored if and only if its features fit the model and its label can be trusted. */
  lemma ScoredIff(labels: map<string, Label>, cases: seq<Case>, i: nat)
    requires i < |cases|
    ensures Accepted(labels, cases, i) <==> FitsModel(cases, i) && Trustworthy(labels, cases[i].run)
  {
    SchemaFits(cases, i);
    UsableIsTrustworthy(labels, cases[i].run);
  }

  lemma SchemaFits(cases: seq<Case>, i: nat)
    requires i < |cases|
    ensures SchemaOk(cases, i) <==> FitsModel(cases, i)
  {
    SchemaIsFirstGood(cases, i + 1);
    if Schema(cases, i + 1).Some? {
      var k: nat :| FirstGood(cases, k) && k < i + 1 && cases[k].built.features.Keys == Schema(cases, i + 1).value;
      assert forall m: nat :: FirstGood(cases, m) ==> m == k;
      assert SameNames(cases, i, k) <==> cases[i].built.features.Keys == cases[k].built.features.Keys;
    }
  }

  lemma UsableIsTrustworthy(labels: map<string, Label>, run: Run)
    ensures LabelIsUsable(labels, run) <==> Trustworthy(labels, run)
  {
  }

  /**
   A score was trained on exactly the earlier runs that were scored themselves and whose labels were
   verified by its prediction; their targets had passed by then.
   */
  lemma TrainedOnIff(labels: map<string, Label>, cases: seq<Case>, predict: Predictor, score: Scored, j: nat)
    requires ScoredFairly(labels, cases, predict, score)
    ensures j in RunsOf(score.trainedOn) <==>
      && j < score.run && FitsModel(cases, j) && Trustworthy(labels, cases[j].run)
      && labels[cases[j].run.id].verifiedAt.value <= cases[score.run].run.predictedAt
    ensures j in RunsOf(score.trainedOn) ==> cases[j].run.targetAt <= cases[score.run].run.predictedAt
  {
    assert j in multiset(RunsOf(score.trainedOn)) <==> j in TrainingSet(labels, cases, score.run);
    if j < score.run {
      ScoredIff(labels, cases, j);
    }
  }

  /** The runs among the first ``i`` with a property. */
  ghost function Those(i: nat, holds: nat -> bool): set<nat> { set j: nat | j < i && holds(j) }

  lemma ThoseGrow(i: nat, holds: nat -> bool)
    ensures |Those(i + 1, holds)| == |Those(i, holds)| + (if holds(i) then 1 else 0) && Those(0, holds) == {}
  {
    assert Those(i + 1, holds) == Those(i, holds) + if holds(i) then {i} else {};
  }

  ghost function IsBad(cases: seq<Case>): nat -> bool {
    (j: nat) => j < |cases| && cases[j].built.quality != OK
  }

  ghost function IsForeign(cases: seq<Case>): nat -> bool {
    (j: nat) => j < |cases| && cases[j].built.quality == OK && !FitsModel(cases, j)
  }

  ghost function IsUnlabelled(labels: map<string, Label>, cases: seq<Case>): nat -> bool {
    (j: nat) => j < |cases| && FitsModel(cases, j) && !Trustworthy(labels, cases[j].run)
  }

  ghost function IsScored(labels: map<string, Label>, cases: seq<Case>): nat -> bool {
    (j: nat) => j < |cases| && FitsModel(cases, j) && Trustworthy(labels, cases[j].run)
  }

  /** The four counts: bad features, features of other names, no label to trust, and scored. */
  lemma TallyMeans(labels: map<string, Label>, cases: seq<Case>, i: nat)
    requires i <= |cases|
    ensures var tally := TallyOf(labels, cases, i);
      && tally.quality == |Those(i, IsBad(cases))| && tally.schema == |Those(i, IsForeign(cases))|
      && tally.unlabelled == |Those(i, IsUnlabelled(labels, cases))|
      && tally.verified == |Those(i, IsScored(labels, cases))|
  {
    SkipsAre(labels, cases, i);
    LabelsAre(labels, cases, i);
  }

  lemma {:induction false} SkipsAre(labels: map<string, Label>, cases: seq<Case>, i: nat)
    requires i <= |cases|
    ensures TallyOf(labels, cases, i).quality == |Those(i, IsBad(cases))|
    ensures TallyOf(labels, cases, i).schema == |Those(i, IsForeign(cases))|
  {
    if i > 0 {
      SkipsAre(labels, cases, i - 1);
      ThoseGrow(i - 1, IsBad(cases));
      ThoseGrow(i - 1, IsForeign(cases));
      TallyGrows(labels, cases, i - 1);
    }
  }

  lemma {:induction false} LabelsAre(labels: map<string, Label>, cases: seq<Case>, i: nat)
    requires i <= |cases|
    ensures TallyOf(labels, cases, i).unlabelled == |Those(i, IsUnlabelled(labels, cases))|
    ensures TallyOf(labels, cases, i).verified == |Those(i, IsScored(labels, cases))|
  {
    if i > 0 {
      LabelsAre(labels, cases, i - 1);
      ThoseGrow(i - 1, IsUnlabelled(labels, cases));
      ThoseGrow(i - 1, IsScored(labels, cases));
      TallyGrows(labels, cases, i - 1);
    }
  }

  lemma TallyGrows(labels: map<string, Label>, cases: seq<Case>, i: nat)
    requires i < |cases|
    ensures var tally, next := TallyOf(labels, cases, i), TallyOf(labels, cases, i + 1);
      && next.quality == tally.quality + (if IsBad(cases)(i) then 1 else 0)
      && next.schema == tally.schema + (if IsForeign(cases)(i) then 1 else 0)
      && next.unlabelled == tally.unlabelled + (if IsUnlabelled(labels, cases)(i) then 1 else 0)
      && next.verified == tally.verified + (if IsScored(labels, cases)(i) then 1 else 0)
  {
    FateMeans(labels, cases, i);
  }

  lemma FateMeans(labels: map<string, Label>, cases: seq<Case>, i: nat)
    requires i < |cases|
    ensures var fate := FateOf(labels, cases, i);
      && (fate == BadQuality <==> IsBad(cases)(i)) && (fate == OtherSchema <==> IsForeign(cases)(i))
      && (fate == Unlabelled <==> IsUnlabelled(labels, cases)(i)) && (fate == Scoreable <==> IsScored(labels, cases)(i))
  {
    SchemaFits(cases, i);
    UsableIsTrustworthy(labels, cases[i].run);
  }

  // ----- Scores -----

  ghost predicate SameLabel(labels: map<string, Label>, others: map<string, Label>, id: string) {
    (id in labels <==> id in others) && (id in labels ==> labels[id] == others[id])
  }

  ghost predicate SameCases(labels: map<string, Label>, others: map<string, Label>, cases: seq<Case>,
                            otherCases: seq<Case>, i: nat)
    requires i <= |cases| && i <= |otherCases|
  {
    forall k :: 0 <= k < i ==> cases[k] == otherCases[k] && SameLabel(labels, others, cases[k].run.id)
  }

  /** The replay of the first runs depends on nothing but them and their labels. */
  lemma {:induction false} ReplaySeesOnlyRunsSoFar(
      labels: map<string, Label>, others: map<string, Label>, cases: seq<Case>, otherCases: seq<Case>,
      predict: Predictor, i: nat, p: Progress, q: Progress)
    requires i <= |cases| && i <= |otherCases|
    requires SameCases(labels, others, cases, otherCases, i)
    requires p == After(labels, cases, predict, i) && q == After(others, otherCases, predict, i)
    ensures p == q
  {
    if i > 0 {
      var before, otherBefore := After(labels, cases, predict, i - 1), After(others, otherCases, predict, i - 1);
      ReplaySeesOnlyRunsSoFar(labels, others, cases, otherCases, predict, i - 1, before, otherBefore);
      assert SameLabel(labels, others, cases[i - 1].run.id);
      StepSeesOneRun(labels, others, cases, otherCases, predict, i - 1, before);
      IsOneMore(labels, cases, predict, i, before, p);
      IsOneMore(others, otherCases, predict, i, otherBefore, q);
    }
  }

  lemma IsOneMore(labels: map<string, Label>, cases: seq<Case>, predict: Predictor, i: nat, before: Progress,
                  p: Progress)
    requires 0 < i <= |cases|
    requires before == After(labels, cases, predict, i - 1) && p == After(labels, cases, predict, i)
    ensures p == Step(labels, cases, predict, i - 1, before)
  {
  }

  lemma StepSeesOneRun(labels: map<string, Label>, others: map<string, Label>, cases: seq<Case>,
                       otherCases: seq<Case>, predict: Predictor, i: nat, p: Progress)
    requires i < |cases| && i < |otherCases| && cases[i] == otherCases[i]
    requires SameLabel(labels, others, cases[i].run.id)
    ensures Step(labels, cases, predict, i, p) == Step(others, otherCases, predict, i, p)
  {
    assert LabelIsUsable(labels, cases[i].run) <==> LabelIsUsable(others, cases[i].run);
  }

  /** What has been scored stays as it is. */
  lemma {:induction false} ScoresOnlyGrow(
      labels: map<string, Label>, cases: seq<Case>, predict: Predictor, i: nat, n: nat, p: Progress, q: Progress)
    requires i <= n <= |cases| && p == After(labels, cases, predict, i) && q == After(labels, cases, predict, n)
    ensures p.scored <= q.scored
  {
    if i < n {
      var before := After(labels, cases, predict, n - 1);
      ScoresOnlyGrow(labels, cases, predict, i, n - 1, p, before);
      IsOneMore(labels, cases, predict, n, before, q);
    }
  }

  /** The two inputs agree on the runs up to ``i``, their labels, and the telemetry up to its prediction. */
  ghost predicate SameUntil(input: Input, other: Input, i: nat) {
    && SameTools(input, other)
    && i < |Window(input)| && i < |Window(other)|
    && Window(input)[..i + 1] == Window(other)[..i + 1]
    && SameTelemetryUntil(input, other, Window(input)[i].predictedAt)
    && forall k :: 0 <= k <= i ==> SameLabel(input.labels, other.labels, Window(input)[k].id)
  }

  ghost function ReplayOf(input: Input, i: nat): Progress {
    After(input.labels, CasesOf(input), input.predict, i)
  }

  /** What the replay of the whole window reports. */
  ghost function ScoresOf(input: Input): seq<Scored> { ReplayOf(input, |CasesOf(input)|).scored }

  lemma CasesSeeNoFuture(input: Input, other: Input, i: nat, k: nat)
    requires SameUntil(input, other, i) && k <= i
    ensures CasesOf(input)[k] == CasesOf(other)[k]
  {
    var runs, others := Window(input), Window(other);
    assert runs[k] == runs[..i + 1][k] && others[k] == others[..i + 1][k];
    assert runs[..k + 1] == runs[..i + 1][..k + 1] && others[..k + 1] == others[..i + 1][..k + 1];
    WindowIsOrdered(input, k, i);
    SameUntilEarlier(input, other, runs[k].predictedAt, runs[i].predictedAt);
    FeaturesSeeNoFuture(input, other, runs, others, k);
    CaseAt(input, k);
    CaseAt(other, k);
  }

  lemma WindowIsOrdered(input: Input, k: nat, i: nat)
    requires k <= i < |Window(input)|
    ensures Window(input)[k].predictedAt <= Window(input)[i].predictedAt
  {
    var ordered := Sort(input.runs, PredictedAt());
    SortSorts(input.runs, PredictedAt());
    var older := |ordered| - |Window(input)|;
    assert k < i ==> PredictedAt()(ordered[older + k]) <= PredictedAt()(ordered[older + i]);
  }

  lemma CaseAt(input: Input, k: nat)
    requires k < |Window(input)|
    ensures CasesOf(input)[k] == Case(Window(input)[k], FeaturesOf(input, Window(input), k))
  {
  }

  /** ``sofar`` are the scores of the runs up to ``i``. */
  ghost predicate AreScoresUpTo(sofar: seq<Scored>, i: nat, scores: seq<Scored>) {
    sofar <= scores && forall j :: 0 <= j < |scores| ==> (scores[j].run <= i <==> j < |sofar|)
  }

  /**
   The scores of the runs up to ``i``, with what each was trained on and its prediction, change neither with
   later observations nor with later runs nor with the labels of later runs.
   */
  lemma ScoresSeeNoFuture(input: Input, other: Input, i: nat) returns (sofar: seq<Scored>)
    requires SameUntil(input, other, i)
    ensures AreScoresUpTo(sofar, i, ScoresOf(input)) && AreScoresUpTo(sofar, i, ScoresOf(other))
  {
    ProgressSeesNoFuture(input, other, i);
    sofar := ReplayOf(input, i + 1).scored;
    ScoresUpTo(input, i);
    ScoresUpTo(other, i);
  }

  lemma FirstCasesAreSame(input: Input, other: Input, i: nat)
    requires SameUntil(input, other, i)
    ensures SameCases(input.labels, other.labels, CasesOf(input), CasesOf(other), i + 1)
  {
    forall m | 0 <= m <= i
      ensures CasesOf(input)[m] == CasesOf(other)[m]
      ensures SameLabel(input.labels, other.labels, CasesOf(input)[m].run.id)
    {
      CasesSeeNoFuture(input, other, i, m);
    }
  }

  lemma ProgressSeesNoFuture(input: Input, other: Input, i: nat)
    requires SameUntil(input, other, i)
    ensures ReplayOf(input, i + 1) == ReplayOf(other, i + 1)
  {
    FirstCasesAreSame(input, other, i);
    ReplaySeesOnlyRunsSoFar(input.labels, other.labels, CasesOf(input), CasesOf(other), input.predict, i + 1,
                            ReplayOf(input, i + 1), ReplayOf(other, i + 1));
  }

  lemma ScoresUpTo(input: Input, i: nat)
    requires i < |CasesOf(input)|
    ensures AreScoresUpTo(ReplayOf(input, i + 1).scored, i, ScoresOf(input))
  {
    CasesAreSorted(input);
    ScoresOfFirstRuns(input.labels, CasesOf(input), input.predict, i, ReplayOf(input, i + 1),
                      ReplayOf(input, |CasesOf(input)|));
  }

  lemma ScoresOfFirstRuns(labels: map<string, Label>, cases: seq<Case>, predict: Predictor, i: nat, p: Progress,
                          q: Progress)
    requires i < |cases| && InOrder(cases)
    requires p == After(labels, cases, predict, i + 1) && q == After(labels, cases, predict, |cases|)
    ensures AreScoresUpTo(p.scored, i, q.scored)
  {
    var n := |cases|;
    ScoresOnlyGrow(labels, cases, predict, i + 1, n, p, q);
    ScoredAreAccepted(labels, cases, predict, i + 1, p);
    ScoredAreAccepted(labels, cases, predict, n, q);
    AcceptedRunsSplit(labels, cases, i + 1, n);
    SplitByRun(p.scored, i, q.scored, AcceptedRuns(labels, cases, i + 1), AcceptedRuns(labels, cases, n));
  }

  lemma ScoredAreAccepted(labels: map<string, Label>, cases: seq<Case>, predict: Predictor, i: nat, p: Progress)
    requires i <= |cases| && InOrder(cases) && p == After(labels, cases, predict, i)
    ensures ScoredRuns(p.scored) == AcceptedRuns(labels, cases, i)
  {
    AfterIsReplayed(labels, cases, predict, i, p);
  }

  lemma SplitByRun(sofar: seq<Scored>, i: nat, scores: seq<Scored>, early: seq<nat>, all: seq<nat>)
    requires sofar <= scores && ScoredRuns(sofar) == early && ScoredRuns(scores) == all
    requires SplitAt(all, i + 1, |early|)
    ensures AreScoresUpTo(sofar, i, scores)
  {
    ScoredRunsAt(scores);
  }

  ghost predicate SplitAt(runs: seq<nat>, i: nat, k: nat) {
    k <= |runs| && forall j :: 0 <= j < |runs| ==> (runs[j] < i <==> j < k)
  }

  lemma AcceptedAreScored(input: Input, i: nat)
    requires i <= |CasesOf(input)|
    ensures ScoredRuns(ReplayOf(input, i).scored) == AcceptedRuns(input.labels, CasesOf(input), i)
  {
    CasesAreSorted(input);
    AfterIsReplayed(input.labels, CasesOf(input), input.predict, i, ReplayOf(input, i));
  }

  lemma {:induction false} ScoredRunsAt(scored: seq<Scored>)
    ensures forall j :: 0 <= j < |scored| ==> ScoredRuns(scored)[j] == scored[j].run
  {
    if scored != [] {
      ScoredRunsAt(scored[..|scored| - 1]);
    }
  }

  /** The first accepted runs are those before ``i``. */
  lemma {:induction false} AcceptedRunsSplit(labels: map<string, Label>, cases: seq<Case>, i: nat, n: nat)
    requires i <= n <= |cases|
    ensures forall j :: 0 <= j < |AcceptedRuns(labels, cases, n)| ==> AcceptedRuns(labels, cases, n)[j] < n
    ensures SplitAt(AcceptedRuns(labels, cases, n), i, |AcceptedRuns(labels, cases, i)|)
    decreases n
  {
    if n > 0 && i < n {
      AcceptedRunsSplit(labels, cases, i, n - 1);
    } else if n > 0 {
      AcceptedRunsSplit(labels, cases, n - 1, n - 1);
    }
  }

  // ----- The order of learning -----

  /** What the model is taught are the features and values of the labels, in the order they were learned. */
  lemma {:induction false} LessonsAre(learned: seq<Pending>)
    ensures |Lessons(learned)| == |learned|
    ensures forall k :: 0 <= k < |learned| ==> Lessons(learned)[k] == (learned[k].features, learned[k].value)
  {
    if learned != [] {
      LessonsAre(learned[..|learned| - 1]);
    }
  }

  /** Labels are learned in the order of their runs, unless a prediction lay between their verifications. */
  ghost predicate LearnedInOrder(cases: seq<Case>, i: nat, learned: seq<Pending>)
    requires i <= |cases|
  {
    forall k, l :: 0 <= k < l < |learned| ==> Precedes(cases, i, learned[k], learned[l])
  }

  ghost predicate Precedes(cases: seq<Case>, i: nat, p: Pending, q: Pending)
    requires i <= |cases|
  {
    p.run < q.run || exists n :: 0 <= n < i && p.verifiedAt <= cases[n].run.predictedAt < q.verifiedAt
  }

  ghost predicate Ascending(pending: seq<Pending>, bound: nat) {
    && (forall k, l :: 0 <= k < l < |pending| ==> pending[k].run < pending[l].run)
    && (forall k :: 0 <= k < |pending| ==> pending[k].run < bound)
  }

  lemma {:induction false} SplitKeepsAscending(pending: seq<Pending>, now: int, bound: nat)
    requires Ascending(pending, bound)
    ensures Ascending(DueAt(pending, now), bound) && Ascending(LaterThan(pending, now), bound)
  {
    if pending != [] {
      var front, p := pending[..|pending| - 1], pending[|pending| - 1];
      SplitKeepsAscending(front, now, p.run);
    }
  }

  /** Between two runs: the last processed run is the only one that may wait although it is verified. */
  ghost predicate Orderly(cases: seq<Case>, i: nat, learned: seq<Pending>, pending: seq<Pending>)
    requires i <= |cases|
  {
    && LearnedInOrder(cases, i, learned) && Ascending(pending, i)
    && (i == 0 ==> learned == [])
    && (i > 0 ==>
         && (forall p :: p in learned ==> p.run < i - 1 && p.verifiedAt <= cases[i - 1].run.predictedAt)
         && (forall q :: q in pending ==> q.run == i - 1 || q.verifiedAt > cases[i - 1].run.predictedAt))
  }

  lemma LearningStaysOrderly(cases: seq<Case>, i: nat, learned: seq<Pending>, pending: seq<Pending>)
    requires i < |cases| && InOrder(cases) && Orderly(cases, i, learned, pending)
    ensures var now := cases[i].run.predictedAt;
      LearnedInOrder(cases, i + 1, learned + DueAt(pending, now))
  {
    var now := cases[i].run.predictedAt;
    var due := DueAt(pending, now);
    SplitKeepsAscending(pending, now, i);
    var learned' := learned + due;
    forall k, l | 0 <= k < l < |learned'| ensures Precedes(cases, i + 1, learned'[k], learned'[l]) {
      if l < |learned| {
        assert Precedes(cases, i, learned[k], learned[l]);
      } else {
        SplitByTime(pending, now, learned'[l]);
        assert learned'[l] in due;
        assert k < |learned| ==> learned[k] in learned && Precedes(cases, i, learned[k], learned'[l]);
      }
    }
  }

  lemma StepStaysOrderly(labels: map<string, Label>, cases: seq<Case>, predict: Predictor, i: nat, p: Progress)
    requires i < |cases| && InOrder(cases) && Orderly(cases, i, p.learned, p.pending)
    ensures var q := Step(labels, cases, predict, i, p);
      Orderly(cases, i + 1, q.learned, q.pending)
  {
    var now, q := cases[i].run.predictedAt, Step(labels, cases, predict, i, p);
    LearningStaysOrderly(cases, i, p.learned, p.pending);
    SplitKeepsAscending(p.pending, now, i);
    DueIsLearned(cases, i, p.learned, p.pending);
    StepQueues(labels, cases, predict, i, p);
    QueuingStaysOrderly(cases, i, q.learned, LaterThan(p.pending, now), q.pending);
  }

  /** A run learns what is due and queues at most its own label. */
  lemma StepQueues(labels: map<string, Label>, cases: seq<Case>, predict: Predictor, i: nat, p: Progress)
    requires i < |cases|
    ensures var now, q := cases[i].run.predictedAt, Step(labels, cases, predict, i, p);
      && q.learned == p.learned + DueAt(p.pending, now)
      && Queues(i, LaterThan(p.pending, now), q.pending)
      && (q.scored == p.scored
          || (|q.scored| == |p.scored| + 1 && q.scored == p.scored + [q.scored[|p.scored|]]
              && q.scored[|p.scored|].run == i && q.scored[|p.scored|].trainedOn == q.learned))
  {
  }

  ghost predicate Queues(i: nat, later: seq<Pending>, pending: seq<Pending>) {
    pending == later
    || (|pending| == |later| + 1 && pending == later + [pending[|later|]] && pending[|later|].run == i)
  }

  lemma QueuingStaysOrderly(cases: seq<Case>, i: nat, learned: seq<Pending>, later: seq<Pending>, pending: seq<Pending>)
    requires i < |cases| && LearnedInOrder(cases, i + 1, learned) && Ascending(later, i) && Queues(i, later, pending)
    requires forall p :: p in learned ==> p.run < i && p.verifiedAt <= cases[i].run.predictedAt
    requires forall q :: q in later ==> q.verifiedAt > cases[i].run.predictedAt
    ensures Orderly(cases, i + 1, learned, pending)
  {
  }

  lemma StepScoresOrderly(labels: map<string, Label>, cases: seq<Case>, predict: Predictor, i: nat, p: Progress)
    requires i < |cases| && InOrder(cases) && Orderly(cases, i, p.learned, p.pending) && AllOrderly(cases, p.scored)
    ensures AllOrderly(cases, Step(labels, cases, predict, i, p).scored)
  {
    LearningStaysOrderly(cases, i, p.learned, p.pending);
    StepQueues(labels, cases, predict, i, p);
  }

  lemma DueIsLearned(cases: seq<Case>, i: nat, learned: seq<Pending>, pending: seq<Pending>)
    requires i < |cases| && InOrder(cases) && Orderly(cases, i, learned, pending)
    ensures var now := cases[i].run.predictedAt;
      && (forall p :: p in learned + DueAt(pending, now) ==> p.run < i && p.verifiedAt <= now)
      && (forall q :: q in LaterThan(pending, now) ==> q.verifiedAt > now)
  {
    var now := cases[i].run.predictedAt;
    forall p | p in learned + DueAt(pending, now) ensures p.run < i && p.verifiedAt <= now {
      SplitByTime(pending, now, p);
    }
    forall q | q in LaterThan(pending, now) ensures q.verifiedAt > now {
      SplitByTime(pending, now, q);
    }
  }

  ghost predicate ScoreIsOrderly(cases: seq<Case>, score: Scored) {
    score.run < |cases| && LearnedInOrder(cases, score.run + 1, score.trainedOn)
  }

  ghost predicate Tidy(cases: seq<Case>, i: nat, p: Progress) {
    i <= |cases| && Orderly(cases, i, p.learned, p.pending) && AllOrderly(cases, p.scored)
  }

  lemma NothingIsTidy(cases: seq<Case>)
    ensures Tidy(cases, 0, START)
  {
  }

  lemma StepStaysTidy(labels: map<string, Label>, cases: seq<Case>, predict: Predictor, i: nat, p: Progress)
    requires InOrder(cases) && i < |cases| && Tidy(cases, i, p)
    ensures Tidy(cases, i + 1, Stepper(labels, cases, predict)(i, p))
  {
    StepStaysOrderly(labels, cases, predict, i, p);
    StepScoresOrderly(labels, cases, predict, i, p);
  }

  /** Whatever holds at the start and is kept by every run holds after all of them. */
  lemma {:induction false} EveryRunKeeps(step: (nat, Progress) -> Progress, n: nat, holds: (nat, Progress) -> bool)
    requires holds(0, START)
    requires forall i: nat, p: Progress :: i < n && holds(i, p) ==> holds(i + 1, step(i, p))
    ensures holds(n, Iterate(step, n))
  {
    if n > 0 {
      EveryRunKeeps(step, n - 1, holds);
    }
  }

  lemma ReplayStaysOrderly(labels: map<string, Label>, cases: seq<Case>, predict: Predictor)
    requires InOrder(cases)
    ensures AllOrderly(cases, After(labels, cases, predict, |cases|).scored)
  {
    ghost var holds := (i: nat, p: Progress) => Tidy(cases, i, p);
    forall i: nat, p: Progress | i < |cases| && holds(i, p)
      ensures holds(i + 1, Stepper(labels, cases, predict)(i, p))
    {
      StepStaysTidy(labels, cases, predict, i, p);
    }
    NothingIsTidy(cases);
    EveryRunKeeps(Stepper(labels, cases, predict), |cases|, holds);
    assert Tidy(cases, |cases|, After(labels, cases, predict, |cases|));
  }

  ghost predicate AllOrderly(cases: seq<Case>, scored: seq<Scored>) {
    forall score :: score in scored ==> ScoreIsOrderly(cases, score)
  }

  /** Every score of a replay was trained on its labels in the order in which they became available. */
  lemma ScoresAreOrderly(input: Input)
    ensures forall score :: score in ScoresOf(input) ==> ScoreIsOrderly(CasesOf(input), score)
  {
    CasesAreSorted(input);
    ReplayStaysOrderly(input.labels, CasesOf(input), input.predict);
  }
}
