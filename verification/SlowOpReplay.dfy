/**
 The replay of past slow-op incidents through the episode gate (scripts/bluestore_slow_op_replay.py).

 Times are integers; the 95th percentile is any function of the baseline counts, and the reasons to
 open are any function of the affected hosts, the age of the episode and that percentile.
 */
module SlowOpReplay {
  import opened Wrappers
  import opened Sorting

  const EPISODE_GAP_INTERVALS: int := 3

  /** A past incident and the hosts of its OSDs. */
  datatype Span = Span(start: int, end: int, hosts: map<int, string>)

  datatype Gate = Gate(
    step: int, baselineWindow: int, minSamples: nat, percentile: seq<nat> -> real,
    hasReason: (map<int, string>, int, Option<real>) -> bool)
  {
    /** A silence longer than this ends an episode. */
    function Gap(): int { EPISODE_GAP_INTERVALS * step }
  }

  datatype Sample = Sample(at: int, count: nat)

  function StartOf(): Span -> int { (s: Span) => s.start }

  // ----- One poll -----

  function Covering(spans: seq<Span>, t: int): seq<Span> {
    if spans == [] then []
    else
      var s := spans[|spans| - 1];
      Covering(spans[..|spans| - 1], t) + if s.start <= t <= s.end then [s] else []
  }

  function HostsOf(covering: seq<Span>): map<int, string> {
    if covering == [] then map[] else HostsOf(covering[..|covering| - 1]) + covering[|covering| - 1].hosts
  }

  /** The hosts the check names at a poll, if some incident covers it. */
  type Check = int -> Option<map<int, string>>

  function CheckOf(spans: seq<Span>): Check {
    t => if Covering(spans, t) == [] then None else Some(HostsOf(Covering(spans, t)))
  }

  /** The number of affected OSDs; a check without any names counts as one. */
  function CountOf(hosts: map<int, string>): nat { if |hosts| == 0 then 1 else |hosts| }

  /** The counts of the samples in [from, before). */
  function Baseline(samples: seq<Sample>, from: int, before: int): seq<nat> {
    if samples == [] then []
    else
      var s := samples[|samples| - 1];
      Baseline(samples[..|samples| - 1], from, before) + if from <= s.at < before then [s.count] else []
  }

  function Percentile(gate: Gate, baseline: seq<nat>): Option<real> {
    if |baseline| >= gate.minSamples then Some(gate.percentile(baseline)) else None
  }

  // ----- The episodes of the covered polls -----

  /** The polls from ``now`` on that some incident covers. */
  function CoveredFrom(check: Check, now: int, finish: int, step: int): seq<int>
    requires step > 0
    decreases finish - now
  {
    if now > finish then []
    else (if check(now).Some? then [now] else []) + CoveredFrom(check, now + step, finish, step)
  }

  ghost predicate Increasing(times: seq<int>) {
    forall i, j :: 0 <= i < j < |times| ==> times[i] < times[j]
  }

  lemma {:induction false} CoveredFromMembers(check: Check, now: int, finish: int, step: int, i: nat)
    requires step > 0 && i < |CoveredFrom(check, now, finish, step)|
    ensures var t := CoveredFrom(check, now, finish, step)[i];
      now <= t <= finish && check(t).Some?
    decreases finish - now
  {
    if check(now).None? {
      CoveredFromMembers(check, now + step, finish, step, i);
    } else if i > 0 {
      CoveredFromMembers(check, now + step, finish, step, i - 1);
    }
  }

  lemma {:induction false} CoveredFromIncreases(check: Check, now: int, finish: int, step: int)
    requires step > 0
    ensures Increasing(CoveredFrom(check, now, finish, step))
    decreases finish - now
  {
    if now <= finish {
      CoveredFromIncreases(check, now + step, finish, step);
      var rest := CoveredFrom(check, now + step, finish, step);
      forall j | 0 <= j < |rest| ensures now < rest[j] {
        CoveredFromMembers(check, now + step, finish, step, j);
      }
    }
  }

  /** The poll at which the episode of poll ``i`` began. */
  function EpisodeStart(polls: seq<int>, gap: int, i: nat): (start: nat)
    requires i < |polls|
    ensures start <= i
  {
    if i == 0 || polls[i] - polls[i - 1] > gap then i else EpisodeStart(polls, gap, i - 1)
  }

  function SampleAt(check: Check, t: int): Sample {
    Sample(t, match check(t) case None => 0 case Some(hosts) => CountOf(hosts))
  }

  function SamplesOf(check: Check, polls: seq<int>, n: nat): (samples: seq<Sample>)
    requires n <= |polls|
    ensures |samples| == n
  {
    if n == 0 then []
    else SamplesOf(check, polls, n - 1) + [SampleAt(check, polls[n - 1])]
  }

  /** Whether the gate has a reason at poll ``i``, given all earlier ones. */
  predicate ReasonAt(gate: Gate, check: Check, polls: seq<int>, i: nat)
    requires i < |polls|
  {
    var start := polls[EpisodeStart(polls, gate.Gap(), i)];
    var baseline := Baseline(SamplesOf(check, polls, i), polls[i] - gate.baselineWindow, start);
    check(polls[i]).Some? && gate.hasReason(check(polls[i]).value, polls[i] - start, Percentile(gate, baseline))
  }

  /** The polls with a reason. */
  function Reasons(gate: Gate, check: Check, polls: seq<int>): nat -> bool {
    (i: nat) => i < |polls| && ReasonAt(gate, check, polls, i)
  }

  /** Whether the episode of poll ``i`` had a reason by then. */
  predicate FiredBy(polls: seq<int>, gap: int, fires: nat -> bool, i: nat)
    requires i < |polls|
  {
    fires(i) || (EpisodeStart(polls, gap, i) < i && FiredBy(polls, gap, fires, i - 1))
  }

  /** An incident opens at the first poll of its episode with a reason. */
  predicate Opens(polls: seq<int>, gap: int, fires: nat -> bool, i: nat)
    requires i < |polls|
  {
    fires(i) && !(EpisodeStart(polls, gap, i) < i && FiredBy(polls, gap, fires, i - 1))
  }

  function Openings(polls: seq<int>, gap: int, fires: nat -> bool, n: nat): seq<int>
    requires n <= |polls|
  {
    if n == 0 then []
    else Openings(polls, gap, fires, n - 1) + if Opens(polls, gap, fires, n - 1) then [polls[n - 1]] else []
  }

  // ----- The simulation -----

  method Replay(gate: Gate, incidents: seq<Span>) returns (openings: seq<int>)
    requires gate.step > 0
    ensures incidents == [] ==> openings == []
    ensures incidents != [] ==>
      var spans := Sort(incidents, StartOf());
      var polls := CoveredFrom(CheckOf(spans), spans[0].start, Finish(spans), gate.step);
      openings == Openings(polls, gate.Gap(), Reasons(gate, CheckOf(spans), polls), |polls|)
  {
    var spans := Sort(incidents, StartOf());
    if spans == [] {
      return [];
    }
    openings := Simulate(gate, CheckOf(spans), spans[0].start, Finish(spans));
    RunOpens(gate, CheckOf(spans), spans[0].start, Finish(spans));
  }

  function Finish(spans: seq<Span>): int
    requires spans != []
  {
    var last := spans[|spans| - 1].end;
    if |spans| == 1 then last
    else
      var front := Finish(spans[..|spans| - 1]);
      if front < last then last else front
  }

  datatype State = State(
    samples: seq<Sample>, openings: seq<int>, episodeStart: int, lastSeen: Option<int>, incidentOpen: bool)

  const START := State([], [], 0, None, false)

  /** A poll that some incident covers. */
  function Observed(gate: Gate, hosts: map<int, string>, s: State, now: int): State {
    var newEpisode := s.lastSeen == None || now - s.lastSeen.value > gate.Gap();
    var episodeStart := if newEpisode then now else s.episodeStart;
    var incidentOpen := !newEpisode && s.incidentOpen;
    var baseline := Baseline(s.samples, now - gate.baselineWindow, episodeStart);
    var reason := gate.hasReason(hosts, now - episodeStart, Percentile(gate, baseline));
    State(s.samples + [Sample(now, CountOf(hosts))],
          s.openings + if reason && !incidentOpen then [now] else [],
          episodeStart, Some(now), incidentOpen || reason)
  }

  /** The polls from ``now`` on; without the check an open incident is forgotten after the gap. */
  function Run(poll: (State, int) -> State, now: int, finish: int, step: int, s: State): State
    requires step > 0
    decreases finish - now
  {
    if now > finish then s else Run(poll, now + step, finish, step, poll(s, now))
  }

  function Poll(gate: Gate, check: Check): (State, int) -> State { (s: State, now: int) => Polled(gate, check, s, now) }

  function Polled(gate: Gate, check: Check, s: State, now: int): State {
    match check(now)
    case Some(hosts) => Observed(gate, hosts, s, now)
    case None => if s.lastSeen.Some? && now - s.lastSeen.value > gate.Gap() then s.(incidentOpen := false) else s
  }

  method Simulate(gate: Gate, check: Check, first: int, finish: int) returns (openings: seq<int>)
    requires gate.step > 0
    ensures openings == Run(Poll(gate, check), first, finish, gate.step, START).openings
  {
    var now, state := first, START;
    while now <= finish
      invariant Run(Poll(gate, check), now, finish, gate.step, state)
        == Run(Poll(gate, check), first, finish, gate.step, START)
      decreases finish - now
    {
      if check(now).Some? {
        state := Observed(gate, check(now).value, state, now);
      } else if state.lastSeen.Some? && now - state.lastSeen.value > gate.Gap() {
        state := state.(incidentOpen := false);
      }
      now := now + gate.step;
    }
    openings := state.openings;
  }

  ghost predicate Remaining(check: Check, polls: seq<int>, n: nat, now: int, finish: int, step: int)
    requires step > 0
  {
    n <= |polls| && polls[n..] == CoveredFrom(check, now, finish, step)
  }

  lemma NextPoll(check: Check, polls: seq<int>, n: nat, now: int, finish: int, step: int)
    requires step > 0 && now <= finish && Remaining(check, polls, n, now, finish, step)
    ensures check(now).None? ==> Remaining(check, polls, n, now + step, finish, step)
    ensures check(now).Some? ==>
      n < |polls| && polls[n] == now && Remaining(check, polls, n + 1, now + step, finish, step)
  {
    if check(now).Some? {
      assert polls[n..] == [now] + CoveredFrom(check, now + step, finish, step);
      assert polls[n] == polls[n..][0];
      assert polls[n + 1..] == polls[n..][1..];
    }
  }

  /** The state after ``n`` covered polls; an incident is forgotten early only once its episode is over. */
  ghost predicate Tracks(gate: Gate, check: Check, polls: seq<int>, n: nat, now: int, s: State)
    requires n <= |polls|
  {
    && TracksTimes(polls, gate.Gap(), n, now, s)
    && s.samples == SamplesOf(check, polls, n)
    && TracksOpenings(polls, gate.Gap(), Reasons(gate, check, polls), n, now, s)
  }

  ghost predicate TracksTimes(polls: seq<int>, gap: int, n: nat, now: int, s: State)
    requires n <= |polls|
  {
    if n == 0 then s.lastSeen == None
    else
      && s.lastSeen == Some(polls[n - 1]) && polls[n - 1] < now
      && s.episodeStart == polls[EpisodeStart(polls, gap, n - 1)]
  }

  ghost predicate TracksOpenings(polls: seq<int>, gap: int, fires: nat -> bool, n: nat, now: int, s: State)
    requires n <= |polls|
  {
    && s.openings == Openings(polls, gap, fires, n)
    && if n == 0 then !s.incidentOpen else RemembersIncident(polls, gap, fires, n - 1, now, s.incidentOpen)
  }

  ghost predicate RemembersIncident(
      polls: seq<int>, gap: int, fires: nat -> bool, i: nat, now: int, incidentOpen: bool)
    requires i < |polls|
  {
    incidentOpen == FiredBy(polls, gap, fires, i) || (!incidentOpen && now - polls[i] > gap)
  }

  lemma AllPolled(gate: Gate, check: Check, polls: seq<int>, n: nat, now: int, finish: int, s: State)
    requires n <= |polls| && gate.step > 0 && now > finish
    requires Remaining(check, polls, n, now, finish, gate.step) && Tracks(gate, check, polls, n, now, s)
    ensures s.openings == Openings(polls, gate.Gap(), Reasons(gate, check, polls), |polls|)
  {
    NoneRemain(check, polls, n, now, finish, gate.step);
  }

  lemma NoneRemain(check: Check, polls: seq<int>, n: nat, now: int, finish: int, step: int)
    requires step > 0 && now > finish && n <= |polls| && Remaining(check, polls, n, now, finish, step)
    ensures n == |polls|
  {
    assert |polls[n..]| == 0;
  }

  /** Without the check nothing happens that the next poll could not tell. */
  lemma UncoveredPollTracks(gate: Gate, check: Check, polls: seq<int>, n: nat, now: int, s: State)
    requires n <= |polls| && gate.step > 0 && check(now).None? && Tracks(gate, check, polls, n, now, s)
    ensures Tracks(gate, check, polls, n, now + gate.step, Polled(gate, check, s, now))
  {
  }

  lemma CoveredPollTracks(gate: Gate, check: Check, polls: seq<int>, n: nat, now: int, s: State)
    requires n < |polls| && polls[n] == now && gate.step > 0 && check(now).Some?
      && Tracks(gate, check, polls, n, now, s)
    ensures Tracks(gate, check, polls, n + 1, now + gate.step, Polled(gate, check, s, now))
  {
    CoveredPollTimes(gate, check, polls, n, now, s);
    CoveredPollOpenings(gate, check, polls, n, now, s);
  }

  lemma CoveredPollTimes(gate: Gate, check: Check, polls: seq<int>, n: nat, now: int, s: State)
    requires n < |polls| && polls[n] == now && gate.step > 0 && check(now).Some?
    requires TracksTimes(polls, gate.Gap(), n, now, s)
    ensures TracksTimes(polls, gate.Gap(), n + 1, now + gate.step, Polled(gate, check, s, now))
    ensures Polled(gate, check, s, now).episodeStart == polls[EpisodeStart(polls, gate.Gap(), n)]
  {
  }

  lemma CoveredPollOpenings(gate: Gate, check: Check, polls: seq<int>, n: nat, now: int, s: State)
    requires n < |polls| && polls[n] == now && gate.step > 0 && check(now).Some?
      && Tracks(gate, check, polls, n, now, s)
    ensures TracksOpenings(polls, gate.Gap(), Reasons(gate, check, polls), n + 1, now + gate.step,
      Polled(gate, check, s, now))
  {
    CoveredPollTimes(gate, check, polls, n, now, s);
    ReasonIs(gate, check, polls, n, s.samples);
    OpeningIs(polls, gate.Gap(), Reasons(gate, check, polls), n, now, s,
      s.lastSeen == None || now - s.lastSeen.value > gate.Gap());
  }

  lemma OpeningIs(polls: seq<int>, gap: int, fires: nat -> bool, n: nat, now: int, s: State, newEpisode: bool)
    requires n < |polls| && polls[n] == now
    requires newEpisode <==> EpisodeStart(polls, gap, n) == n
    requires n > 0 ==> RemembersIncident(polls, gap, fires, n - 1, now, s.incidentOpen)
    requires n > 0 ==> (newEpisode <==> now - polls[n - 1] > gap)
    ensures FiredBy(polls, gap, fires, n) == ((!newEpisode && s.incidentOpen) || fires(n))
    ensures Opens(polls, gap, fires, n) == (fires(n) && !(!newEpisode && s.incidentOpen))
  {
  }

  lemma ReasonIs(gate: Gate, check: Check, polls: seq<int>, n: nat, samples: seq<Sample>)
    requires n < |polls| && check(polls[n]).Some? && samples == SamplesOf(check, polls, n)
    ensures var start := polls[EpisodeStart(polls, gate.Gap(), n)];
      Reasons(gate, check, polls)(n)
      <==> gate.hasReason(check(polls[n]).value, polls[n] - start,
                     Percentile(gate, Baseline(samples, polls[n] - gate.baselineWindow, start)))
  {
  }

  /** One poll, covered or not. */
  lemma PollTracks(gate: Gate, check: Check, polls: seq<int>, n: nat, now: int, finish: int, s: State) returns (m: nat)
    requires n <= |polls| && gate.step > 0 && now <= finish
    requires Remaining(check, polls, n, now, finish, gate.step) && Tracks(gate, check, polls, n, now, s)
    ensures m <= |polls| && Remaining(check, polls, m, now + gate.step, finish, gate.step)
    ensures Tracks(gate, check, polls, m, now + gate.step, Polled(gate, check, s, now))
  {
    NextPoll(check, polls, n, now, finish, gate.step);
    if check(now).Some? {
      CoveredPollTracks(gate, check, polls, n, now, s);
      m := n + 1;
    } else {
      UncoveredPollTracks(gate, check, polls, n, now, s);
      m := n;
    }
  }

  lemma RunGoesOn(gate: Gate, check: Check, now: int, finish: int, s: State)
    requires gate.step > 0 && now <= finish
    ensures Run(Poll(gate, check), now, finish, gate.step, s)
         == Run(Poll(gate, check), now + gate.step, finish, gate.step, Polled(gate, check, s, now))
  {
  }

  lemma {:induction false} RunTracks(
      gate: Gate, check: Check, polls: seq<int>, n: nat, now: int, finish: int, s: State, end: State)
    requires n <= |polls| && gate.step > 0 && end == Run(Poll(gate, check), now, finish, gate.step, s)
    requires Remaining(check, polls, n, now, finish, gate.step) && Tracks(gate, check, polls, n, now, s)
    ensures end.openings == Openings(polls, gate.Gap(), Reasons(gate, check, polls), |polls|)
    decreases finish - now
  {
    if now > finish {
      AllPolled(gate, check, polls, n, now, finish, s);
    } else {
      var m := PollTracks(gate, check, polls, n, now, finish, s);
      RunGoesOn(gate, check, now, finish, s);
      RunTracks(gate, check, polls, m, now + gate.step, finish, Polled(gate, check, s, now), end);
    }
  }

  /** The simulation opens exactly one incident for every episode with a reason, at its first reason. */
  lemma RunOpens(gate: Gate, check: Check, first: int, finish: int)
    requires gate.step > 0
    ensures var polls := CoveredFrom(check, first, finish, gate.step);
      Run(Poll(gate, check), first, finish, gate.step, START).openings
        == Openings(polls, gate.Gap(), Reasons(gate, check, polls), |polls|)
  {
    RunTracks(gate, check, CoveredFrom(check, first, finish, gate.step), 0, first, finish, START,
              Run(Poll(gate, check), first, finish, gate.step, START));
  }

  // ----- What a poll sees -----

  /** The simulation ends with the latest end of all incidents. */
  lemma {:induction false} FinishIsLatestEnd(spans: seq<Span>)
    requires spans != []
    ensures exists s :: s in spans && s.end == Finish(spans)
    ensures forall s :: s in spans ==> s.end <= Finish(spans)
  {
    var n := |spans| - 1;
    assert spans == spans[..n] + [spans[n]];
    if n > 0 {
      FinishIsLatestEnd(spans[..n]);
    }
  }

  /** And it begins with the earliest start. */
  lemma FirstIsEarliestStart(incidents: seq<Span>)
    requires incidents != []
    ensures var spans := Sort(incidents, StartOf());
      && spans != [] && spans[0] in incidents && forall s :: s in incidents ==> spans[0].start <= s.start
  {
    var spans := Sort(incidents, StartOf());
    SortSorts(incidents, StartOf());
    SortKeepsMembers(incidents, StartOf(), spans[0]);
    forall s | s in incidents ensures spans[0].start <= s.start {
      SortKeepsMembers(incidents, StartOf(), s);
      var i :| 0 <= i < |spans| && spans[i] == s;
      assert StartOf()(spans[0]) <= StartOf()(spans[i]);
    }
  }

  lemma {:induction false} CoveringMembers(spans: seq<Span>, t: int, s: Span)
    ensures s in Covering(spans, t) <==> s in spans && s.start <= t <= s.end
  {
    if spans != [] {
      CoveringMembers(spans[..|spans| - 1], t, s);
      assert spans == spans[..|spans| - 1] + [spans[|spans| - 1]];
    }
  }

  lemma {:induction false} HostsAreUnion(covering: seq<Span>, osd: int)
    ensures osd in HostsOf(covering) <==> exists s :: s in covering && osd in s.hosts
    ensures osd in HostsOf(covering) ==>
      exists k :: LastNaming(covering, osd, k) && HostsOf(covering)[osd] == covering[k].hosts[osd]
  {
    if covering != [] {
      var n := |covering| - 1;
      HostsAreUnion(covering[..n], osd);
      assert covering == covering[..n] + [covering[n]];
      if osd in covering[n].hosts {
        assert LastNaming(covering, osd, n);
      } else if osd in HostsOf(covering[..n]) {
        var k :| LastNaming(covering[..n], osd, k) && HostsOf(covering[..n])[osd] == covering[..n][k].hosts[osd];
        assert LastNaming(covering, osd, k);
      }
    }
  }

  /** Incident ``k`` names the OSD, and none after it does. */
  ghost predicate LastNaming(covering: seq<Span>, osd: int, k: int) {
    && 0 <= k < |covering| && osd in covering[k].hosts
    && forall m :: k < m < |covering| ==> osd !in covering[m].hosts
  }

  /** The check is present while some incident covers the poll, with the OSDs of all that do. */
  lemma CheckNamesCoveringHosts(spans: seq<Span>, t: int, osd: int)
    ensures CheckOf(spans)(t).Some? <==> exists s :: s in spans && s.start <= t <= s.end
    ensures CheckOf(spans)(t).Some? ==>
      (osd in CheckOf(spans)(t).value <==> exists s :: s in spans && s.start <= t <= s.end && osd in s.hosts)
  {
    forall s ensures s in Covering(spans, t) <==> s in spans && s.start <= t <= s.end {
      CoveringMembers(spans, t, s);
    }
    if Covering(spans, t) != [] {
      assert Covering(spans, t)[0] in Covering(spans, t);
    }
    HostsAreUnion(Covering(spans, t), osd);
  }

  /** Every poll that is due and covered is among the polls. */
  lemma {:induction false} EveryCoveredPollIsMade(check: Check, now: int, finish: int, step: int, count: nat)
    requires step > 0 && now + count * step <= finish && check(now + count * step).Some?
    ensures now + count * step in CoveredFrom(check, now, finish, step)
    decreases count
  {
    assert count * step >= 0;
    if count > 0 {
      assert now + step + (count - 1) * step == now + count * step;
      EveryCoveredPollIsMade(check, now + step, finish, step, count - 1);
    }
  }

  /** The baseline of poll ``i`` holds one count for every poll since ``from`` that precedes its episode. */
  lemma BaselineHoldsEarlierCounts(check: Check, polls: seq<int>, start: nat, i: nat, from: int) returns (first: nat)
    requires Increasing(polls) && start <= i < |polls|
    ensures var baseline := Baseline(SamplesOf(check, polls, i), from, polls[start]);
      && first <= start && |baseline| == start - first
      && (forall m :: 0 <= m < first ==> polls[m] < from)
      && (forall m :: first <= m < start ==> polls[m] >= from && baseline[m - first] == CountAt(check, polls[m]))
  {
    first := FirstSince(polls, start, from);
    BaselineOf(check, polls, start, i, from, first);
  }

  /** The number of OSDs the check names; a check without names counts as one. */
  function CountAt(check: Check, t: int): nat {
    match check(t)
    case None => 0
    case Some(hosts) => if hosts == map[] then 1 else |hosts.Keys|
  }

  lemma {:induction false} FirstSince(polls: seq<int>, start: nat, from: int) returns (first: nat)
    requires Increasing(polls) && start < |polls|
    ensures first <= start
    ensures forall m :: 0 <= m < first ==> polls[m] < from
    ensures forall m :: first <= m < start ==> polls[m] >= from
  {
    if start == 0 {
      first := 0;
    } else {
      first := FirstSince(polls, start - 1, from);
      if first == start - 1 && polls[first] < from {
        first := start;
      }
      assert first < start - 1 ==> polls[first] < polls[start - 1];
    }
  }

  lemma {:induction false} BaselineOf(check: Check, polls: seq<int>, start: nat, n: nat, from: int, first: nat)
    requires Increasing(polls) && start < |polls| && n <= |polls| && first <= start
    requires forall m :: 0 <= m < first ==> polls[m] < from
    requires forall m :: first <= m < start ==> polls[m] >= from
    ensures var baseline := Baseline(SamplesOf(check, polls, n), from, polls[start]);
      && |baseline| == (if n <= first then 0 else if n <= start then n - first else start - first)
      && forall m :: 0 <= m < |baseline| ==> baseline[m] == CountAt(check, polls[first + m])
  {
    if n > 0 {
      BaselineOf(check, polls, start, n - 1, from, first);
      assert SamplesOf(check, polls, n)[..n - 1] == SamplesOf(check, polls, n - 1);
      SampleCounts(check, polls[n - 1]);
    }
  }

  lemma SampleCounts(check: Check, t: int)
    ensures SampleAt(check, t) == Sample(t, CountAt(check, t))
  {
    if check(t).Some? {
      var hosts := check(t).value;
      assert |hosts| == |hosts.Keys|;
      assert |hosts| == 0 <==> hosts == map[];
    }
  }

  /** A poll has a reason when the gate has one for its hosts, the age of its episode and a long enough baseline. */
  lemma ReasonMeans(gate: Gate, check: Check, polls: seq<int>, i: nat) returns (baseline: seq<nat>)
    requires i < |polls| && check(polls[i]).Some?
    ensures var start := EpisodeStart(polls, gate.Gap(), i);
      && baseline == Baseline(SamplesOf(check, polls, i), polls[i] - gate.baselineWindow, polls[start])
      && (Reasons(gate, check, polls)(i) <==>
            gate.hasReason(check(polls[i]).value, polls[i] - polls[start],
                           if |baseline| < gate.minSamples then None else Some(gate.percentile(baseline))))
      && gate.Gap() == 3 * gate.step
  {
    baseline := Baseline(SamplesOf(check, polls, i), polls[i] - gate.baselineWindow,
                         polls[EpisodeStart(polls, gate.Gap(), i)]);
  }

  // ----- What the gate promises -----

  /** The polls of one episode follow each other without a gap. */
  lemma {:induction false} EpisodeHasNoGap(polls: seq<int>, gap: int, i: nat, k: nat)
    requires i < |polls| && EpisodeStart(polls, gap, i) < k <= i
    ensures polls[k] - polls[k - 1] <= gap && EpisodeStart(polls, gap, k) == EpisodeStart(polls, gap, i)
  {
    if k < i {
      EpisodeHasNoGap(polls, gap, i - 1, k);
    }
  }

  lemma {:induction false} EpisodeStartsAfterGap(polls: seq<int>, gap: int, i: nat)
    requires i < |polls|
    ensures var start := EpisodeStart(polls, gap, i);
      start > 0 ==> polls[start] - polls[start - 1] > gap
  {
    if EpisodeStart(polls, gap, i) != i {
      EpisodeStartsAfterGap(polls, gap, i - 1);
    }
  }

  lemma {:induction false} FiringIsRemembered(polls: seq<int>, gap: int, fires: nat -> bool, i: nat, j: nat)
    requires i <= j < |polls| && EpisodeStart(polls, gap, j) <= i && fires(i)
    ensures FiredBy(polls, gap, fires, j)
  {
    if i < j {
      FiringIsRemembered(polls, gap, fires, i, j - 1);
    }
  }

  /** Between two openings lie two consecutive covered polls more than the gap apart. */
  lemma OpeningsAreSeparated(polls: seq<int>, gap: int, fires: nat -> bool, i: nat, j: nat) returns (k: nat)
    requires i < j < |polls| && Opens(polls, gap, fires, i) && Opens(polls, gap, fires, j)
    ensures i < k <= j && polls[k] - polls[k - 1] > gap
  {
    k := EpisodeStart(polls, gap, j);
    if k <= i {
      EpisodeHasNoGap(polls, gap, j, j);
      FiringIsRemembered(polls, gap, fires, i, j - 1);
      assert false;
    }
    EpisodeStartsAfterGap(polls, gap, j);
  }

  /** Every episode with a reason opens an incident, at its first poll with one. */
  lemma {:induction false} FiringEpisodeOpens(polls: seq<int>, gap: int, fires: nat -> bool, i: nat) returns (k: nat)
    requires i < |polls| && FiredBy(polls, gap, fires, i)
    ensures EpisodeStart(polls, gap, i) <= k <= i && Opens(polls, gap, fires, k)
    ensures forall m :: EpisodeStart(polls, gap, i) <= m < k ==> !fires(m)
  {
    if EpisodeStart(polls, gap, i) < i && FiredBy(polls, gap, fires, i - 1) {
      k := FiringEpisodeOpens(polls, gap, fires, i - 1);
    } else {
      k := i;
      forall m | EpisodeStart(polls, gap, i) <= m < k ensures !fires(m) {
        if fires(m) {
          FiringIsRemembered(polls, gap, fires, m, i - 1);
        }
      }
    }
  }

  /** The baseline of a poll leaves out every sample of its own episode. */
  lemma {:induction false} BaselineIsOlderThanEpisode(
      gate: Gate, check: Check, polls: seq<int>, i: nat, n: nat, from: int)
    requires Increasing(polls) && i < |polls| && EpisodeStart(polls, gate.Gap(), i) <= n <= i
    ensures var start := EpisodeStart(polls, gate.Gap(), i);
      Baseline(SamplesOf(check, polls, n), from, polls[start])
        == Baseline(SamplesOf(check, polls, start), from, polls[start])
  {
    var start := EpisodeStart(polls, gate.Gap(), i);
    if start < n {
      BaselineIsOlderThanEpisode(gate, check, polls, i, n - 1, from);
      assert SamplesOf(check, polls, n)[..n - 1] == SamplesOf(check, polls, n - 1);
      assert polls[n - 1] >= polls[start];
    }
  }
}
