/**
 Which account a two-agent session asks, and with what context (dashboard/dual_ai_chat.py:646-759), in
 terms of the answers the providers gave.
 */
module ExchangeAccounts {
  import opened Wrappers
  import opened Grouping
  import opened DualExchange

  ghost function CallsOf(rules: Rules, provider: nat -> Answer): seq<Call> {
    Exchange(rules, provider, START).state.calls
  }

  /** The call found ``pair`` exhausted: the account it asked, or the one its answer names. */
  predicate FindsExhausted(call: Call, pair: Pair) {
    match call.answer
    case Exhausted(provider, account) =>
      || pair == call.pair
      || (&& pair.provider == (if provider == "" then call.pair.provider else provider)
          && pair.account == (if account == "" then call.pair.account else account))
    case _ => false
  }

  ghost predicate FoundBefore(calls: seq<Call>, j: nat, pair: Pair)
    requires j <= |calls|
  {
    exists i :: 0 <= i < j && FindsExhausted(calls[i], pair)
  }

  // ----- No account is asked again -----

  lemma ReportedIsFound(call: Call, pair: Pair)
    ensures FindsExhausted(call, pair) <==>
      call.answer.Exhausted? && (pair == call.pair || pair == Reported(call.pair, call.answer))
  {
  }

  /** Once a call has found an account exhausted, no later call of the session asks it. */
  lemma ExhaustedIsNeverAsked(rules: Rules, provider: nat -> Answer, i: nat, j: nat)
    requires i < j < |CallsOf(rules, provider)|
    ensures !FindsExhausted(CallsOf(rules, provider)[i], CallsOf(rules, provider)[j].pair)
  {
    SessionIsBounded(rules, provider);
    ReportedIsFound(CallsOf(rules, provider)[i], CallsOf(rules, provider)[j].pair);
  }

  /** In particular an account that an answer names in full. */
  lemma NamedAccountIsNeverAsked(rules: Rules, provider: nat -> Answer, i: nat, j: nat, name: string, account: string)
    requires i < j < |CallsOf(rules, provider)| && name != "" && account != ""
    requires CallsOf(rules, provider)[i].answer == Exhausted(name, account)
    ensures CallsOf(rules, provider)[j].pair != Pair(name, account)
    ensures CallsOf(rules, provider)[j].pair != CallsOf(rules, provider)[i].pair
  {
    ExhaustedIsNeverAsked(rules, provider, i, j);
  }

  // ----- No account is passed over without a reason -----

  /** Call ``j`` asks account ``k`` of its role, and all before it were found exhausted by then. */
  ghost predicate AsksAt(rules: Rules, calls: seq<Call>, j: nat, k: nat)
    requires j < |calls|
  {
    var pairs := rules.Pairs(calls[j].role);
    k < |pairs| && calls[j].pair == pairs[k] && forall m :: 0 <= m < k ==> FoundBefore(calls, j, pairs[m])
  }

  ghost predicate AsksInOrder(rules: Rules, provider: nat -> Answer, calls: seq<Call>) {
    forall j :: 0 <= j < |calls| ==> calls[j].answer == provider(j) && AsksFirstLeft(rules, calls, j)
  }

  ghost predicate AsksFirstLeft(rules: Rules, calls: seq<Call>, j: nat)
    requires j < |calls|
  {
    exists k :: AsksAt(rules, calls, j, k)
  }

  /** Blocked are the accounts that some call found exhausted. */
  ghost predicate BlockedIsFound(s: State) {
    forall pair :: pair in s.Blocked() <==> FoundBefore(s.calls, |s.calls|, pair)
  }

  lemma CallBlocksFound(s: State, call: Call)
    requires BlockedIsFound(s)
    ensures BlockedIsFound(s.After(call))
  {
    var t := s.After(call);
    forall pair ensures pair in t.Blocked() <==> FoundBefore(t.calls, |t.calls|, pair) {
      ReportedIsFound(call, pair);
      assert pair in t.Blocked() <==> pair in s.Blocked() || FindsExhausted(call, pair);
      FoundSnoc(s.calls, call, pair);
    }
  }

  lemma FoundSnoc(calls: seq<Call>, call: Call, pair: Pair)
    ensures FoundBefore(calls + [call], |calls| + 1, pair)
      <==> FoundBefore(calls, |calls|, pair) || FindsExhausted(call, pair)
  {
    var longer := calls + [call];
    if FoundBefore(calls, |calls|, pair) {
      var i :| 0 <= i < |calls| && FindsExhausted(calls[i], pair);
      assert FindsExhausted(longer[i], pair);
    }
    if FindsExhausted(call, pair) {
      assert FindsExhausted(longer[|calls|], pair);
    }
  }

  lemma FoundKeeps(calls: seq<Call>, call: Call, j: nat, pair: Pair)
    requires j <= |calls| && FoundBefore(calls, j, pair)
    ensures FoundBefore(calls + [call], j, pair)
  {
    var i :| 0 <= i < j && FindsExhausted(calls[i], pair);
    assert FindsExhausted((calls + [call])[i], pair);
  }

  lemma {:induction false} FirstOpenIndex(pairs: seq<Pair>, blocked: set<Pair>) returns (k: nat)
    requires FirstOpen(pairs, blocked).Some?
    ensures k < |pairs| && FirstOpen(pairs, blocked) == Some(pairs[k])
    ensures forall m :: 0 <= m < k ==> pairs[m] in blocked
  {
    if pairs[0] !in blocked {
      k := 0;
    } else {
      var rest := FirstOpenIndex(pairs[1..], blocked);
      k := rest + 1;
      forall m | 0 <= m < k ensures pairs[m] in blocked {
        assert m > 0 ==> pairs[m] == pairs[1..][m - 1];
      }
    }
  }

  lemma CallAsksInOrder(rules: Rules, provider: nat -> Answer, s: State, call: Call)
    requires BlockedIsFound(s) && AsksInOrder(rules, provider, s.calls)
    requires NextCall(rules, provider, s) == Some(call)
    ensures AsksInOrder(rules, provider, s.calls + [call])
  {
    var calls := s.calls + [call];
    forall j | 0 <= j < |calls| ensures calls[j].answer == provider(j) && AsksFirstLeft(rules, calls, j) {
      if j < |s.calls| {
        EarlierCallAsksFirstLeft(rules, s.calls, call, j);
      } else {
        LastCallAsksFirstLeft(rules, provider, s, call);
      }
    }
  }

  lemma EarlierCallAsksFirstLeft(rules: Rules, calls: seq<Call>, call: Call, j: nat)
    requires j < |calls| && AsksFirstLeft(rules, calls, j)
    ensures AsksFirstLeft(rules, calls + [call], j)
  {
    var k :| AsksAt(rules, calls, j, k);
    var pairs := rules.Pairs(calls[j].role);
    forall m | 0 <= m < k ensures FoundBefore(calls + [call], j, pairs[m]) {
      FoundKeeps(calls, call, j, pairs[m]);
    }
    assert AsksAt(rules, calls + [call], j, k);
  }

  lemma LastCallAsksFirstLeft(rules: Rules, provider: nat -> Answer, s: State, call: Call)
    requires BlockedIsFound(s) && NextCall(rules, provider, s) == Some(call)
    ensures AsksFirstLeft(rules, s.calls + [call], |s.calls|)
  {
    var pairs, n := rules.Pairs(call.role), |s.calls|;
    var k := FirstOpenIndex(pairs, s.Blocked());
    forall m | 0 <= m < k ensures FoundBefore(s.calls + [call], n, pairs[m]) {
      FoundKeeps(s.calls, call, n, pairs[m]);
    }
    assert AsksAt(rules, s.calls + [call], n, k);
  }

  lemma {:induction false} ExchangeAsksInOrder(rules: Rules, provider: nat -> Answer, s: State)
    requires BlockedIsFound(s) && AsksInOrder(rules, provider, s.calls)
    ensures var t := Exchange(rules, provider, s).state;
      BlockedIsFound(t) && AsksInOrder(rules, provider, t.calls)
    decreases MAX_ROUNDS - |s.turns|, |rules.AllPairs() - s.Blocked()|
  {
    if !rules.Finished(s.turns) && |s.turns| < MAX_ROUNDS && NextCall(rules, provider, s).Some? {
      var call := NextCall(rules, provider, s).value;
      CallAsksInOrder(rules, provider, s, call);
      CallBlocksFound(s, call);
      ExchangeStep(rules, provider, s, call);
      if !call.answer.Failed? {
        FirstOpenIsOpen(rules.Pairs(call.role), s.Blocked());
        Progress(rules, s, call);
        ExchangeAsksInOrder(rules, provider, s.After(call));
      }
    }
  }

  /**
   Every call of a session asks the first account of its role that no earlier call found exhausted, and
   the session ends for want of an account only when all of the role whose turn it is were found so.
   */
  lemma AccountsAreAskedInOrder(rules: Rules, provider: nat -> Answer)
    ensures var ending := Exchange(rules, provider, START);
      && AsksInOrder(rules, provider, ending.state.calls)
      && (ending.outcome == AllExhausted ==>
            forall pair :: pair in rules.Pairs(RoleOfTurn(|ending.state.turns|)) ==>
              FoundBefore(ending.state.calls, |ending.state.calls|, pair))
  {
    assert BlockedIsFound(START);
    ExchangeAsksInOrder(rules, provider, START);
    SessionIsBounded(rules, provider);
  }

  // ----- Turns and their context -----

  /** The planner has the even turns. */
  lemma {:induction false} PlannerHasEvenTurns(turn: nat)
    ensures RoleOfTurn(turn) == if turn % 2 == 0 then Planner else Implementer
  {
    if turn > 0 {
      PlannerHasEvenTurns(turn - 1);
    }
  }

  /** Each call sees the latest turns before its own, eight at most, and there are ten turns at most. */
  lemma ContextIsLatest(rules: Rules, provider: nat -> Answer, j: nat)
    requires j < |CallsOf(rules, provider)|
    ensures var turns := Exchange(rules, provider, START).state.turns;
      var call := CallsOf(rules, provider)[j];
      && call.turn <= |turns| <= 10
      && call.context == turns[if call.turn > 8 then call.turn - 8 else 0..call.turn]
      && call.role == if call.turn % 2 == 0 then Planner else Implementer
  {
    ExchangeIsLawful(rules, provider, START);
    var s, call := Exchange(rules, provider, START).state, CallsOf(rules, provider)[j];
    assert call in s.calls && WellMade(rules, s, call);
    PlannerHasEvenTurns(call.turn);
    if call.turn > 8 {
      RecentIsSuffix(s.turns[..call.turn]);
    }
  }

  // ----- The chain of candidates -----

  /** The other provider follows by default, and an entry without a provider is no candidate. */
  lemma CandidatesAre(chain: Chain, fallbackEnabled: bool, c: Candidate)
    ensures c in Entries(chain, fallbackEnabled) <==>
      || c == Candidate(chain.primary, chain.model)
      || (fallbackEnabled && chain.fallbacks != [] && Some(c) in chain.fallbacks)
      || (fallbackEnabled && chain.fallbacks == [] && chain.primary == "claude" && c == Candidate("codex", ""))
      || (fallbackEnabled && chain.fallbacks == [] && chain.primary != "claude" && c == Candidate("claude", ""))
  {
    PresentMembers(chain.fallbacks, c);
  }

  lemma {:induction false} PresentMembers(entries: seq<Option<Candidate>>, c: Candidate)
    ensures c in Present(entries) <==> Some(c) in entries
  {
    if entries != [] {
      PresentMembers(entries[..|entries| - 1], c);
      assert entries == entries[..|entries| - 1] + [entries[|entries| - 1]];
    }
  }

  /** The fallbacks keep their order: one that is listed earlier stands earlier. */
  lemma {:induction false} FallbacksKeepOrder(front: seq<Option<Candidate>>, back: seq<Option<Candidate>>)
    ensures Present(front + back) == Present(front) + Present(back)
  {
    if back == [] {
      assert front + back == front;
    } else {
      var n := |back| - 1;
      assert (front + back)[..|front| + n] == front + back[..n];
      FallbacksKeepOrder(front, back[..n]);
    }
  }
}
