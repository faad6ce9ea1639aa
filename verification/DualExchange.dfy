/**
 The two-agent exchange (dashboard/dual_ai_chat.py): a planner and an implementer take turns, and
 each turn falls back along a chain of provider accounts.

 Providers answer as they like: the answer to the n-th call is any function of n. How a spec text
 names a provider and an account, and when a text ends in STATUS: DONE, are parameters.
 */
module DualExchange {
  import opened Wrappers
  import opened Grouping

  const MAX_ROUNDS: nat := 10
  const MAX_CONTEXT_EVENTS: nat := 8
  const MAX_PROMPT_CHARS: nat := 12000

  datatype Role = Planner | Implementer

  datatype Candidate = Candidate(spec: string, model: string)

  /** What can run out: one account of one provider, whatever the model. */
  datatype Pair = Pair(provider: string, account: string)

  /** An exhausted provider may name itself; an empty name means the one that was asked. */
  datatype Answer = Reply(content: string) | Exhausted(provider: string, account: string) | Failed

  datatype Turn = Turn(role: Role, content: string)

  /** A call made for turn ``turn``, with the recent turns as context. */
  datatype Call = Call(turn: nat, role: Role, pair: Pair, context: seq<Turn>, answer: Answer)

  /** The account an exhausted call names. */
  function Reported(pair: Pair, answer: Answer): Pair {
    if !answer.Exhausted? then pair
    else Pair(if answer.provider == "" then pair.provider else answer.provider,
              if answer.account == "" then pair.account else answer.account)
  }

  datatype Outcome = Done | MaxRounds | ProviderFailed | AllExhausted | PromptTooLong

  /** The settings of one role; an entry is None when its provider name is empty. */
  datatype Chain = Chain(primary: string, model: string, fallbacks: seq<Option<Candidate>>)

  datatype Config = Config(
    planner: Chain, implementer: Chain, fallbackEnabled: bool,
    pairOf: (Role, Candidate) -> Pair, isDone: string -> bool)

  // ----- The chain of one role -----

  function Itself(c: Candidate): Candidate { c }

  /** Without explicit fallbacks the other of the two installed providers follows. */
  function Entries(chain: Chain, fallbackEnabled: bool): seq<Candidate> {
    [Candidate(chain.primary, chain.model)]
    + if !fallbackEnabled then []
      else if chain.fallbacks != [] then Present(chain.fallbacks)
      else [Candidate(if chain.primary == "claude" then "codex" else "claude", "")]
  }

  function Present(entries: seq<Option<Candidate>>): seq<Candidate> {
    if entries == [] then []
    else
      Present(entries[..|entries| - 1])
      + match entries[|entries| - 1] case None => [] case Some(c) => [c]
  }

  method ProviderCandidates(chain: Chain, fallbackEnabled: bool) returns (candidates: seq<Candidate>)
    ensures candidates == KeysOf(Entries(chain, fallbackEnabled), Itself)
    ensures candidates != [] && candidates[0] == Candidate(chain.primary, chain.model)
    ensures Distinct(candidates)
    ensures forall c :: c in candidates <==> c in Entries(chain, fallbackEnabled)
    ensures !fallbackEnabled ==> |candidates| == 1
  {
    var entries := Entries(chain, fallbackEnabled);
    candidates := [];
    for i := 0 to |entries|
      invariant candidates == KeysOf(entries[..i], Itself)
      invariant i > 0 ==> candidates != [] && candidates[0] == entries[0]
      invariant |candidates| <= i
    {
      assert entries[..i + 1] == entries[..i] + [entries[i]];
      KeysSnoc(entries[..i], entries[i], Itself);
      if entries[i] !in candidates {
        candidates := candidates + [entries[i]];
      }
    }
    assert entries[..|entries|] == entries;
    forall c ensures c in candidates <==> c in entries {
      assert forall i :: 0 <= i < |entries| ==> Itself(entries[i]) == entries[i];
    }
  }

  /** The accounts behind the candidates of a role, in order. */
  function PairsOf(cfg: Config, role: Role): (pairs: seq<Pair>)
  {
    var cs := KeysOf(Entries(if role == Planner then cfg.planner else cfg.implementer, cfg.fallbackEnabled), Itself);
    seq(|cs|, i requires 0 <= i < |cs| => cfg.pairOf(role, cs[i]))
  }

  function RulesOf(cfg: Config): (rules: Rules)
    ensures Follows(rules, cfg)
  {
    Rules(PairsOf(cfg, Planner), PairsOf(cfg, Implementer), cfg.isDone)
  }

  /** ``rules`` are the rules of the settings. */
  ghost predicate Follows(rules: Rules, cfg: Config) {
    rules.isDone == cfg.isDone && forall role {:trigger PairsOf(cfg, role)} :: PairsOf(cfg, role) == rules.Pairs(role)
  }

  // ----- The exchange as a function of the answers -----

  /** All that the exchange itself looks at. */
  datatype Rules = Rules(planner: seq<Pair>, implementer: seq<Pair>, isDone: string -> bool) {
    function Pairs(role: Role): seq<Pair> { if role == Planner then planner else implementer }

    function AllPairs(): set<Pair> { (set p | p in planner) + (set p | p in implementer) }

    predicate Finished(turns: seq<Turn>) { turns != [] && isDone(turns[|turns| - 1].content) }
  }

  /** A session so far: its calls, its turns, the accounts found exhausted and those reported so. */
  datatype State = State(calls: seq<Call>, turns: seq<Turn>, candidates: set<Pair>, accounts: set<Pair>) {
    function Blocked(): set<Pair> { candidates + accounts }

    function After(call: Call): State {
      match call.answer
      case Reply(content) => State(calls + [call], turns + [Turn(call.role, content)], candidates, accounts)
      case Exhausted(_, _) =>
        State(calls + [call], turns, candidates + {call.pair}, accounts + {Reported(call.pair, call.answer)})
      case Failed => State(calls + [call], turns, candidates, accounts)
    }
  }

  const START := State([], [], {}, {})

  /** The context window: the last events. */
  function Recent(turns: seq<Turn>): seq<Turn> {
    if |turns| <= MAX_CONTEXT_EVENTS then turns else Recent(turns[1..])
  }

  lemma {:induction false} RecentIsSuffix(turns: seq<Turn>)
    requires |turns| > MAX_CONTEXT_EVENTS
    ensures Recent(turns) == turns[|turns| - MAX_CONTEXT_EVENTS..]
  {
    if |turns| > MAX_CONTEXT_EVENTS + 1 {
      RecentIsSuffix(turns[1..]);
    }
  }

  /** Forgetting at every step keeps the same window as forgetting once. */
  lemma {:induction false} RecentSnoc(turns: seq<Turn>, turn: Turn)
    ensures Recent(turns + [turn]) == Recent(Recent(turns) + [turn])
  {
    if |turns| > MAX_CONTEXT_EVENTS {
      assert (turns + [turn])[1..] == turns[1..] + [turn];
      RecentSnoc(turns[1..], turn);
    }
  }

  function Other(role: Role): Role { if role == Implementer then Planner else Implementer }

  function RoleOfTurn(turn: nat): Role { if turn == 0 then Planner else Other(RoleOfTurn(turn - 1)) }

  function FirstOpen(pairs: seq<Pair>, blocked: set<Pair>): Option<Pair> {
    if pairs == [] then None
    else if pairs[0] !in blocked then Some(pairs[0])
    else FirstOpen(pairs[1..], blocked)
  }

  lemma {:induction false} FirstOpenIsOpen(pairs: seq<Pair>, blocked: set<Pair>)
    ensures match FirstOpen(pairs, blocked)
      case None => forall p :: p in pairs ==> p in blocked
      case Some(pair) => pair in pairs && pair !in blocked
  {
    if pairs != [] {
      assert pairs == [pairs[0]] + pairs[1..];
      FirstOpenIsOpen(pairs[1..], blocked);
    }
  }

  lemma {:induction false} FirstOpenAt(pairs: seq<Pair>, blocked: set<Pair>, i: nat)
    requires i < |pairs| && pairs[i] !in blocked
    requires forall k :: 0 <= k < i ==> pairs[k] in blocked
    ensures FirstOpen(pairs, blocked) == Some(pairs[i])
  {
    if i > 0 {
      FirstOpenAt(pairs[1..], blocked, i - 1);
    }
  }

  lemma NoneOpen(pairs: seq<Pair>, blocked: set<Pair>)
    requires forall k :: 0 <= k < |pairs| ==> pairs[k] in blocked
    ensures FirstOpen(pairs, blocked) == None
  {
    FirstOpenIsOpen(pairs, blocked);
  }

  ghost predicate BlockedUpTo(pairs: seq<Pair>, i: nat, s: State)
    requires i <= |pairs|
  {
    forall k :: 0 <= k < i ==> pairs[k] in s.Blocked()
  }

  lemma BlockedGrows(pairs: seq<Pair>, i: nat, s: State, call: Call)
    requires i < |pairs| && BlockedUpTo(pairs, i, s) && call.pair == pairs[i]
    ensures call.answer.Exhausted? ==> BlockedUpTo(pairs, i + 1, s.After(call))
  {
  }

  /** One call: whose turn it is, the first open account of that role, the recent turns as context. */
  function NextCall(rules: Rules, provider: nat -> Answer, s: State): Option<Call> {
    var turn := |s.turns|;
    match FirstOpen(rules.Pairs(RoleOfTurn(turn)), s.Blocked())
    case None => None
    case Some(pair) => Some(Call(turn, RoleOfTurn(turn), pair, Recent(s.turns), provider(|s.calls|)))
  }

  datatype Ending = Ending(state: State, outcome: Outcome)

  /** The rest of a session. */
  function Exchange(rules: Rules, provider: nat -> Answer, s: State): Ending
    decreases MAX_ROUNDS - |s.turns|, |rules.AllPairs() - s.Blocked()|
  {
    if rules.Finished(s.turns) then Ending(s, Done)
    else if |s.turns| >= MAX_ROUNDS then Ending(s, MaxRounds)
    else
      match NextCall(rules, provider, s)
      case None => Ending(s, AllExhausted)
      case Some(call) =>
        if call.answer.Failed? then Ending(s.After(call), ProviderFailed)
        else
          FirstOpenIsOpen(rules.Pairs(call.role), s.Blocked());
          Progress(rules, s, call);
          Exchange(rules, provider, s.After(call))
  }

  /** Every exhausted call leaves fewer open accounts. */
  lemma Progress(rules: Rules, s: State, call: Call)
    requires call.pair in rules.AllPairs() && call.pair !in s.Blocked()
    ensures call.answer.Exhausted? ==> |rules.AllPairs() - s.After(call).Blocked()| < |rules.AllPairs() - s.Blocked()|
  {
    if call.answer.Exhausted? {
      var before, after := rules.AllPairs() - s.Blocked(), rules.AllPairs() - s.After(call).Blocked();
      assert call.pair in before && call.pair !in after && after <= before;
      Smaller(after, before);
    }
  }

  lemma Smaller(a: set<Pair>, b: set<Pair>)
    requires a < b
    ensures |a| < |b|
  {
    var rest := b - a;
    assert b == a + rest && rest != {};
  }

  // ----- What every session keeps -----

  ghost predicate TurnsAlternate(rules: Rules, turns: seq<Turn>) {
    && |turns| <= MAX_ROUNDS
    && (forall k :: 0 <= k < |turns| ==> turns[k].role == RoleOfTurn(k))
    && (forall k :: 0 <= k < |turns| - 1 ==> !rules.isDone(turns[k].content))
  }

  /** The call asked an account of its role for the turn that was due, and a reply became that turn. */
  ghost predicate WellMade(rules: Rules, s: State, call: Call) {
    && call.turn <= |s.turns| && call.role == RoleOfTurn(call.turn) && call.pair in rules.Pairs(call.role)
    && call.context == Recent(s.turns[..call.turn])
    && (call.answer.Reply? ==> call.turn < |s.turns| && s.turns[call.turn] == Turn(call.role, call.answer.content))
  }

  ghost predicate Lawful(rules: Rules, s: State) {
    && TurnsAlternate(rules, s.turns)
    && (forall c :: c in s.calls ==> WellMade(rules, s, c))
    && (forall c :: c in s.calls && c.answer.Exhausted? ==>
          c.pair in s.candidates && Reported(c.pair, c.answer) in s.accounts)
    && NoneAskedAgain(s.calls)
    && s.candidates <= rules.AllPairs()
  }

  /** Neither an account found exhausted nor one reported so is asked later in the session. */
  ghost predicate NoneAskedAgain(calls: seq<Call>) {
    forall i, j :: 0 <= i < j < |calls| && calls[i].answer.Exhausted? ==>
      calls[j].pair != calls[i].pair && calls[j].pair != Reported(calls[i].pair, calls[i].answer)
  }

  /** Every call is a turn or finds a new account exhausted, until one fails. */
  ghost predicate Counted(s: State) { |s.calls| == |s.turns| + |s.candidates| }

  lemma CallKeepsLaws(rules: Rules, provider: nat -> Answer, s: State, call: Call)
    requires Lawful(rules, s) && !rules.Finished(s.turns) && |s.turns| < MAX_ROUNDS
    requires NextCall(rules, provider, s) == Some(call)
    ensures Lawful(rules, s.After(call))
    ensures !call.answer.Failed? && Counted(s) ==> Counted(s.After(call))
  {
    FirstOpenIsOpen(rules.Pairs(call.role), s.Blocked());
    CallsStayWellMade(rules, s, call);
    NoneIsAskedAgain(rules, s, call);
    TurnsStayAlternating(rules, s, call);
    assert call.answer.Exhausted? ==> call.pair in rules.AllPairs();
  }

  lemma TurnsStayAlternating(rules: Rules, s: State, call: Call)
    requires TurnsAlternate(rules, s.turns) && |s.turns| < MAX_ROUNDS && !rules.Finished(s.turns)
    requires call.role == RoleOfTurn(|s.turns|)
    ensures TurnsAlternate(rules, s.After(call).turns)
  {
  }

  lemma CallsStayWellMade(rules: Rules, s: State, call: Call)
    requires forall c :: c in s.calls ==> WellMade(rules, s, c)
    requires call.turn == |s.turns| && call.role == RoleOfTurn(call.turn)
    requires call.pair in rules.Pairs(call.role) && call.context == Recent(s.turns)
    ensures forall c :: c in s.After(call).calls ==> WellMade(rules, s.After(call), c)
  {
    var t := s.After(call);
    forall c | c in t.calls ensures WellMade(rules, t, c) {
      if c in s.calls {
        assert t.turns[..c.turn] == s.turns[..c.turn];
      } else {
        assert t.turns[..c.turn] == s.turns;
      }
    }
  }

  lemma NoneIsAskedAgain(rules: Rules, s: State, call: Call)
    requires NoneAskedAgain(s.calls) && call.pair !in s.Blocked()
    requires forall c :: c in s.calls && c.answer.Exhausted? ==>
      c.pair in s.candidates && Reported(c.pair, c.answer) in s.accounts
    ensures NoneAskedAgain(s.calls + [call])
  {
    var calls := s.calls + [call];
    forall i, j | 0 <= i < j < |calls| && calls[i].answer.Exhausted?
      ensures calls[j].pair != calls[i].pair && calls[j].pair != Reported(calls[i].pair, calls[i].answer)
    {
      assert calls[i] in s.calls;
    }
  }

  /** How a session ended says in which state it is. */
  ghost predicate EndsAs(rules: Rules, ending: Ending) {
    var s := ending.state;
    match ending.outcome
    case Done => rules.Finished(s.turns) && Counted(s)
    case MaxRounds => |s.turns| == MAX_ROUNDS && !rules.Finished(s.turns) && Counted(s)
    case ProviderFailed =>
      && |s.turns| < MAX_ROUNDS && !rules.Finished(s.turns)
      && s.calls != [] && s.calls[|s.calls| - 1].answer.Failed?
      && |s.calls| == |s.turns| + |s.candidates| + 1
    case AllExhausted =>
      && |s.turns| < MAX_ROUNDS && !rules.Finished(s.turns) && Counted(s)
      && forall p :: p in rules.Pairs(RoleOfTurn(|s.turns|)) ==> p in s.Blocked()
    case PromptTooLong => false
  }

  lemma {:induction false} ExchangeIsLawful(rules: Rules, provider: nat -> Answer, s: State)
    requires Lawful(rules, s) && Counted(s)
    ensures Lawful(rules, Exchange(rules, provider, s).state)
    ensures EndsAs(rules, Exchange(rules, provider, s))
    decreases MAX_ROUNDS - |s.turns|, |rules.AllPairs() - s.Blocked()|
  {
    if !rules.Finished(s.turns) && |s.turns| < MAX_ROUNDS {
      FirstOpenIsOpen(rules.Pairs(RoleOfTurn(|s.turns|)), s.Blocked());
      match NextCall(rules, provider, s)
      case None =>
      case Some(call) =>
        CallKeepsLaws(rules, provider, s, call);
        if !call.answer.Failed? {
          Progress(rules, s, call);
          ExchangeIsLawful(rules, provider, s.After(call));
        }
    }
  }

  /** At most ten turns, alternating from the planner on, and at most ten calls more than there are accounts. */
  lemma SessionIsBounded(rules: Rules, provider: nat -> Answer)
    ensures var ending := Exchange(rules, provider, START);
      && TurnsAlternate(rules, ending.state.turns)
      && NoneAskedAgain(ending.state.calls)
      && |ending.state.calls| <= MAX_ROUNDS + |rules.AllPairs()|
      && EndsAs(rules, ending)
  {
    ExchangeIsLawful(rules, provider, START);
    CallsAreBounded(rules, Exchange(rules, provider, START));
  }

  lemma CallsAreBounded(rules: Rules, ending: Ending)
    requires Lawful(rules, ending.state) && EndsAs(rules, ending)
    ensures |ending.state.calls| <= MAX_ROUNDS + |rules.AllPairs()|
  {
    var asked, all := ending.state.candidates, rules.AllPairs();
    if asked != all {
      Smaller(asked, all);
    }
  }

  lemma ExchangeStep(rules: Rules, provider: nat -> Answer, s: State, call: Call)
    requires !rules.Finished(s.turns) && |s.turns| < MAX_ROUNDS
    requires NextCall(rules, provider, s) == Some(call)
    ensures Exchange(rules, provider, s)
         == if call.answer.Failed? then Ending(s.After(call), ProviderFailed)
           else Exchange(rules, provider, s.After(call))
  {
  }

  // ----- The session of the source -----

  datatype Asked = Told(turn: Turn) | Raised(outcome: Outcome)

  class Session {
    const cfg: Config
    var events: seq<Turn>
    var exhaustedCandidates: set<Pair>
    var exhaustedAccounts: set<Pair>
    ghost var calls: seq<Call>
    ghost var turns: seq<Turn>

    ghost function Now(): State reads this { State(calls, turns, exhaustedCandidates, exhaustedAccounts) }

    constructor (cfg: Config)
      ensures this.cfg == cfg && Now() == START && events == []
    {
      this.cfg := cfg;
      events, exhaustedCandidates, exhaustedAccounts, calls, turns := [], {}, {}, [], [];
    }

    /** Keeps only the context window. */
    method RememberExchangeEvent(event: Turn, ghost before: seq<Turn>)
      requires events == Recent(before)
      modifies this`events
      ensures events == Recent(before + [event])
    {
      RecentSnoc(before, event);
      events := events + [event];
      if |events| > MAX_CONTEXT_EVENTS {
        RecentIsSuffix(events);
        events := events[|events| - MAX_CONTEXT_EVENTS..];
      }
    }

    /** Asks the candidates of a role in turn until one answers. */
    method AskAndTrack(ghost rules: Rules, role: Role, provider: nat -> Answer, asksBefore: nat)
      returns (asked: Asked, asks: nat)
      requires Follows(rules, cfg) && asksBefore == |calls| && events == Recent(turns) && role == RoleOfTurn(|turns|)
      requires |turns| < MAX_ROUNDS && !rules.Finished(turns)
      modifies this`exhaustedCandidates, this`exhaustedAccounts, this`calls, this`turns
      ensures asks == |calls|
      ensures match asked
        case Told(turn) =>
          && turns == old(turns) + [turn]
          && Exchange(rules, provider, old(Now())) == Exchange(rules, provider, Now())
        case Raised(outcome) =>
          && turns == old(turns)
          && Exchange(rules, provider, old(Now())) == Ending(Now(), outcome)
    {
      asks := asksBefore;
      var candidates :=
        ProviderCandidates(if role == Planner then cfg.planner else cfg.implementer, cfg.fallbackEnabled);
      ghost var pairs := PairsOf(cfg, role);
      assert |pairs| == |candidates| && forall k :: 0 <= k < |pairs| ==> pairs[k] == cfg.pairOf(role, candidates[k]);
      asked, asks := AskPairs(rules, pairs, role, candidates, provider, asksBefore);
    }

    /** The loop over the candidates. */
    method AskPairs(ghost rules: Rules, ghost pairs: seq<Pair>, role: Role, candidates: seq<Candidate>,
                    provider: nat -> Answer, asksBefore: nat)
      returns (asked: Asked, asks: nat)
      requires asksBefore == |calls| && events == Recent(turns) && role == RoleOfTurn(|turns|)
      requires |turns| < MAX_ROUNDS && !rules.Finished(turns)
      requires pairs == rules.Pairs(role) && |pairs| == |candidates|
      requires forall k :: 0 <= k < |pairs| ==> pairs[k] == cfg.pairOf(role, candidates[k])
      modifies this`exhaustedCandidates, this`exhaustedAccounts, this`calls, this`turns
      ensures asks == |calls|
      ensures match asked
        case Told(turn) =>
          && turns == old(turns) + [turn]
          && Exchange(rules, provider, old(Now())) == Exchange(rules, provider, Now())
        case Raised(outcome) =>
          && turns == old(turns)
          && Exchange(rules, provider, old(Now())) == Ending(Now(), outcome)
    {
      asks := asksBefore;
      ghost var state := Now();
      for i := 0 to |candidates|
        invariant asks == |calls| && turns == old(turns) && state == Now()
        invariant Exchange(rules, provider, old(Now())) == Exchange(rules, provider, state)
        invariant BlockedUpTo(pairs, i, state)
      {
        var pair := cfg.pairOf(role, candidates[i]);
        if pair in exhaustedCandidates || pair in exhaustedAccounts {
          continue;
        }
        FirstOpenAt(pairs, state.Blocked(), i);
        var answer := provider(asks);
        asks := asks + 1;
        ghost var call := Call(|turns|, role, pair, events, answer);
        Record(call);
        ExchangeStep(rules, provider, state, call);
        BlockedGrows(pairs, i, state, call);
        state := state.After(call);
        match answer
        case Reply(content) =>
          return Told(Turn(role, content)), asks;
        case Exhausted(_, _) =>
          exhaustedCandidates := exhaustedCandidates + {pair};
          exhaustedAccounts := exhaustedAccounts + {Reported(pair, answer)};
        case Failed =>
          return Raised(ProviderFailed), asks;
      }
      NoneOpen(pairs, state.Blocked());
      return Raised(AllExhausted), asks;
    }

    ghost method Record(call: Call)
      modifies this`calls, this`turns
      ensures calls == old(calls) + [call]
      ensures turns
        == match call.answer case Reply(content) => old(turns) + [Turn(call.role, content)] case _ => old(turns)
    {
      calls := calls + [call];
      if call.answer.Reply? {
        turns := turns + [Turn(call.role, call.answer.content)];
      }
    }

    /** One turn: it becomes part of the context. */
    method TakeTurn(ghost rules: Rules, role: Role, provider: nat -> Answer, asksBefore: nat)
      returns (asked: Asked, asks: nat)
      requires Follows(rules, cfg) && asksBefore == |calls| && events == Recent(turns) && role == RoleOfTurn(|turns|)
      requires |turns| < MAX_ROUNDS && !rules.Finished(turns)
      modifies this
      ensures asks == |calls| && events == Recent(turns)
      ensures match asked
        case Told(turn) =>
          && turns == old(turns) + [turn] && (rules.Finished(turns) <==> cfg.isDone(turn.content))
          && Exchange(rules, provider, old(Now())) == Exchange(rules, provider, Now())
        case Raised(outcome) =>
          && turns == old(turns)
          && Exchange(rules, provider, old(Now())) == Ending(Now(), outcome)
    {
      ghost var before := turns;
      asked, asks := AskAndTrack(rules, role, provider, asksBefore);
      if asked.Told? {
        RememberExchangeEvent(asked.turn, before);
      }
    }

    /** The whole session; ``yielded`` are the turns the caller sees. */
    method StreamDualAiChat(promptLength: nat, provider: nat -> Answer) returns (yielded: seq<Turn>, outcome: Outcome)
      requires Now() == START && events == []
      modifies this
      ensures promptLength > 12000 ==> outcome == PromptTooLong && Now() == START
      ensures promptLength <= 12000 ==> Exchange(RulesOf(cfg), provider, START) == Ending(Now(), outcome)
      ensures yielded == turns
    {
      if promptLength > MAX_PROMPT_CHARS {
        return [], PromptTooLong;
      }
      yielded, outcome := Converse(RulesOf(cfg), provider);
    }

    method Converse(ghost rules: Rules, provider: nat -> Answer) returns (yielded: seq<Turn>, outcome: Outcome)
      requires Follows(rules, cfg) && calls == [] && turns == [] && events == []
      modifies this
      ensures Exchange(rules, provider, old(Now())) == Ending(Now(), outcome)
      ensures yielded == turns
    {
      var event, asks := TakeTurn(rules, Planner, provider, 0);
      if event.Raised? {
        return [], event.outcome;
      }
      yielded := [event.turn];
      if cfg.isDone(event.turn.content) {
        return yielded, Done;
      }
      outcome, yielded := Continue(rules, provider, asks, yielded);
    }

    /** The loop after the planner's first turn. */
    method Continue(ghost rules: Rules, provider: nat -> Answer, asksBefore: nat, before: seq<Turn>)
      returns (outcome: Outcome, yielded: seq<Turn>)
      requires Follows(rules, cfg) && asksBefore == |calls| && turns == before && events == Recent(turns)
      requires |turns| == 1 && !rules.Finished(turns)
      modifies this
      ensures Exchange(rules, provider, old(Now())) == Ending(Now(), outcome)
      ensures yielded == turns
    {
      var asks := asksBefore;
      yielded := before;
      var role := Implementer;
      var rounds := 1;
      ghost var state := Now();
      ghost var goal := Exchange(rules, provider, state);
      while rounds < MAX_ROUNDS
        invariant state == Now() && goal == Exchange(rules, provider, state) && !rules.Finished(state.turns)
        invariant asks == |state.calls| && yielded == state.turns && |yielded| == rounds <= MAX_ROUNDS
        invariant events == Recent(yielded) && role == RoleOfTurn(rounds)
      {
        var event;
        event, asks := TakeTurn(rules, role, provider, asks);
        if event.Raised? {
          return event.outcome, yielded;
        }
        state := Now();
        yielded := yielded + [event.turn];
        rounds := rounds + 1;
        if cfg.isDone(event.turn.content) {
          return Done, yielded;
        }
        role := Other(role);
      }
      return MaxRounds, yielded;
    }
  }
}
