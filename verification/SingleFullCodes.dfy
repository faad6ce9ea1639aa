/**
 Which messages of Single Full mode are answered with a code (dashboard/telegram_chat.py:1383-1510), what
 each message leaves alone, and a request that goes all the way from the prompt to its run.
 */
module SingleFullCodes {
  import opened Wrappers
  import opened SingleFull

  // ----- The first code -----

  predicate InFullMode(p: Policy, s: State, actor: string) {
    if actor in s.modes then s.modes[actor] == Full else p.defaultMode == Full
  }

  /** A prompt of bounded length from someone in Full mode who has chosen a cluster. */
  predicate Prompts(p: Policy, s: State, m: Message, prompt: string) {
    && (m.text == Ask(prompt) || m.text == Plain(prompt)) && 0 < |prompt| <= 12000
    && m.resolved.Some? && InFullMode(p, s, m.actor)
  }

  /** The prompt neither destroys data nor is a mere question, and its sender has full access. */
  predicate NeedsFirstCode(p: Policy, s: State, m: Message, prompt: string) {
    && Prompts(p, s, m, prompt)
    && !p.destroysData(prompt) && !p.readOnlyQuestion(prompt, m.resolved.value) && m.allowed
  }

  lemma FirstCodeIsIssued(p: Policy, s: State, m: Message, prompt: string)
    requires NeedsFirstCode(p, s, m, prompt)
    ensures Handle(p, s, m) == s.(
      full := s.full[m.actor := Pending(|s.issued|, m.code, m.chat, prompt, m.resolved.value, m.now + 300)],
      issued := s.issued + [Issue(FullCode, m.actor, m.chat, prompt, m.resolved.value, m.code, m.now, None)])
  {
    assert Handle(p, s, m) == Proceed(p, s, m, prompt, None);
    assert Handle(p, s, m) == IssueCode(s, FullCode, m, prompt, m.resolved.value, None);
  }

  /** A question is answered otherwise, a prompt that destroys data drops the codes, a lost right the mode. */
  lemma PromptWithoutCode(p: Policy, s: State, m: Message, prompt: string)
    requires Prompts(p, s, m, prompt) && !NeedsFirstCode(p, s, m, prompt)
    ensures Handle(p, s, m) ==
      if p.destroysData(prompt) then s.(full := s.full - {m.actor}, destructive := s.destructive - {m.actor})
      else if p.readOnlyQuestion(prompt, m.resolved.value) then s
      else s.(modes := s.modes[m.actor := Single])
  {
  }

  // ----- The second code -----

  /** The code is the pending one of its sender, sent to the chat it was issued in and in time. */
  predicate IsValid(codes: map<string, Pending>, m: Message, supplied: string) {
    && m.allowed && m.actor in codes
    && codes[m.actor].code == supplied && codes[m.actor].chat == m.chat && m.now <= codes[m.actor].expiresAt
  }

  /** The prompt still belongs to the cluster of its sender, who is in Full mode, and may be served. */
  predicate MayBeServed(p: Policy, s: State, m: Message, pending: Pending) {
    && pending.cluster != "" && m.resolved == Some(pending.cluster) && |pending.prompt| <= 12000
    && InFullMode(p, s, m.actor) && !p.destroysData(pending.prompt)
  }

  /** The first code of a prompt that can interrupt a service. */
  predicate NeedsSecondCode(p: Policy, s: State, m: Message, supplied: string) {
    && m.text == ConfirmFull(supplied) && IsValid(s.full, m, supplied)
    && MayBeServed(p, s, m, s.full[m.actor]) && p.changesService(s.full[m.actor].prompt)
  }

  lemma SecondCodeIsIssued(p: Policy, s: State, m: Message, supplied: string)
    requires NeedsSecondCode(p, s, m, supplied)
    ensures var first := s.full[m.actor];
      Handle(p, s, m) == s.(
        full := s.full - {m.actor},
        redeemed := s.redeemed + [Redemption(first.serial, m.actor, m.chat, supplied, m.now)],
        destructive := s.destructive[m.actor :=
          Pending(|s.issued|, m.code, m.chat, first.prompt, first.cluster, m.now + 300)],
        issued := s.issued + [Issue(DestructiveCode, m.actor, m.chat, first.prompt, first.cluster, m.code, m.now,
                                    Some(|s.redeemed|))])
  {
  }

  /** A code is issued for nothing else. */
  lemma CodeIsIssuedIff(p: Policy, s: State, m: Message)
    ensures |Handle(p, s, m).issued| == |s.issued| + 1 <==>
      (exists text :: NeedsFirstCode(p, s, m, text) || NeedsSecondCode(p, s, m, text))
    ensures |Handle(p, s, m).issued| == |s.issued| + 1 || Handle(p, s, m).issued == s.issued
  {
    match m.text
    case ConfirmFull(supplied) => ConfirmFullIssuesIff(p, s, m, supplied);
    case ConfirmDestructive(supplied) => ConfirmDestructiveIssuesNothing(p, s, m, supplied);
    case Ask(body) => PromptIssuesIff(p, s, m, body);
    case Plain(body) => PromptIssuesIff(p, s, m, body);
    case _ =>
  }

  lemma PromptIssuesIff(p: Policy, s: State, m: Message, prompt: string)
    requires m.text == Ask(prompt) || m.text == Plain(prompt)
    ensures if NeedsFirstCode(p, s, m, prompt) then |Handle(p, s, m).issued| == |s.issued| + 1
            else Handle(p, s, m).issued == s.issued
  {
  }

  lemma ConfirmFullIssuesIff(p: Policy, s: State, m: Message, supplied: string)
    requires m.text == ConfirmFull(supplied)
    ensures if NeedsSecondCode(p, s, m, supplied) then |Handle(p, s, m).issued| == |s.issued| + 1
            else Handle(p, s, m).issued == s.issued
  {
  }

  lemma ConfirmDestructiveIssuesNothing(p: Policy, s: State, m: Message, supplied: string)
    requires m.text == ConfirmDestructive(supplied)
    ensures Handle(p, s, m).issued == s.issued
  {
  }

  /** A code that is wrong, late or from another chat takes the pending one of its stage with it, and nothing else. */
  lemma InvalidCodeIsBurned(p: Policy, s: State, m: Message, supplied: string)
    ensures !m.allowed && (m.text == ConfirmFull(supplied) || m.text == ConfirmDestructive(supplied)) ==>
      Handle(p, s, m) == s
    ensures m.text == ConfirmFull(supplied) && m.allowed && !IsValid(s.full, m, supplied) ==>
      Handle(p, s, m) == s.(full := s.full - {m.actor})
    ensures m.text == ConfirmDestructive(supplied) && m.allowed && !IsValid(s.destructive, m, supplied) ==>
      Handle(p, s, m) == s.(destructive := s.destructive - {m.actor})
  {
  }

  // ----- The run -----

  /** The first code of a prompt that interrupts nothing, or the second code of any, while nothing runs. */
  predicate NeedsRun(p: Policy, s: State, m: Message, supplied: string) {
    && (|| (m.text == ConfirmFull(supplied) && IsValid(s.full, m, supplied)
            && MayBeServed(p, s, m, s.full[m.actor]) && !p.changesService(s.full[m.actor].prompt))
        || (m.text == ConfirmDestructive(supplied) && IsValid(s.destructive, m, supplied)
            && MayBeServed(p, s, m, s.destructive[m.actor])))
    && forall id :: id in s.runs ==> s.runs[id].actor != m.actor || s.runs[id].chat != m.chat
  }

  lemma RunIsRegisteredIff(p: Policy, s: State, m: Message)
    ensures Registers(p, s, m) <==> exists supplied :: NeedsRun(p, s, m, supplied)
  {
    match m.text
    case ConfirmFull(supplied) => assert Registers(p, s, m) <==> NeedsRun(p, s, m, supplied);
    case ConfirmDestructive(supplied) => assert Registers(p, s, m) <==> NeedsRun(p, s, m, supplied);
    case _ =>
  }

  /** The run is that of the redeemed prompt. */
  lemma RunIsRegistered(p: Policy, s: State, m: Message, supplied: string)
    requires NeedsRun(p, s, m, supplied)
    ensures var pending := if m.text.ConfirmFull? then s.full[m.actor] else s.destructive[m.actor];
      var s' := Handle(p, s, m);
      && s'.started == s.started + [Start(m.runId, m.actor, m.chat, pending.prompt, pending.cluster, |s.redeemed|)]
      && s'.redeemed == s.redeemed + [Redemption(pending.serial, m.actor, m.chat, supplied, m.now)]
      && s'.full == (if m.text.ConfirmFull? then s.full - {m.actor} else s.full)
      && s'.destructive == (if m.text.ConfirmFull? then s.destructive else s.destructive - {m.actor})
      && s'.runs.Keys == s.runs.Keys + {m.runId} && s'.modes == s.modes
  {
  }

  /** A registered run begins if and only if it waits for its task and was not stopped before. */
  lemma RunBeginsIff(p: Policy, s: State, run: string)
    ensures var s' := Next(p, s, TaskBegins(run));
      var waits := run in s.runs && s.runs[run].task == Waiting;
      && s'.launched == s.launched + (if waits && !s.runs[run].stopRequested then [run] else [])
      && s'.runs == (if !waits then s.runs else if s.runs[run].stopRequested then s.runs - {run}
                     else s.runs[run := s.runs[run].(task := Running)])
  {
  }

  /** A run with a task ends by leaving the registry; without one it stays, and a restart drops all. */
  lemma RunsEnd(p: Policy, s: State, run: string)
    ensures Next(p, s, Restart) == s.(runs := map[])
    ensures Next(p, s, TaskEnds(run)) ==
      if run in s.runs && s.runs[run].task != NoTask then s.(runs := s.runs - {run}) else s
  {
  }

  /** A new chat drops both codes of its operator, and other commands and empty prompts change nothing. */
  lemma NewChatDropsCodes(p: Policy, s: State, m: Message)
    ensures m.text == NewChat ==>
      Handle(p, s, m) == s.(full := s.full - {m.actor}, destructive := s.destructive - {m.actor})
    ensures m.text in {OtherCommand, Ask(""), Plain("")} ==> Handle(p, s, m) == s
  {
  }

  // ----- What a message leaves alone -----

  ghost predicate SameAt<V>(before: map<string, V>, after: map<string, V>, key: string) {
    (key in before <==> key in after) && (key in before ==> after[key] == before[key])
  }

  /** The codes, the mode and the cluster of one operator are as before. */
  ghost predicate SameFor(s: State, s': State, actor: string) {
    && SameAt(s.full, s'.full, actor) && SameAt(s.destructive, s'.destructive, actor)
    && SameAt(s.modes, s'.modes, actor) && SameAt(s.clusters, s'.clusters, actor)
  }

  /** And so are the runs. */
  ghost predicate SameRuns(s: State, s': State, actor: string) {
    forall id :: (id in s.runs && s.runs[id].actor == actor) || (id in s'.runs && s'.runs[id].actor == actor) ==>
      SameAt(s.runs, s'.runs, id)
  }

  /** No message changes anything of another operator. */
  lemma MessageIsLocal(p: Policy, s: State, m: Message, other: string)
    requires other != m.actor && m.runId !in s.runs
    ensures SameFor(s, Handle(p, s, m), other) && SameRuns(s, Handle(p, s, m), other)
  {
    match m.text
    case ConfirmFull(supplied) => PresentedIsLocal(p, s, m, FullCode, supplied, other);
    case ConfirmDestructive(supplied) => PresentedIsLocal(p, s, m, DestructiveCode, supplied, other);
    case Ask(body) => RequestIsLocal(p, s, m, body, None, other);
    case Plain(body) => RequestIsLocal(p, s, m, body, None, other);
    case SelectMode(mode) => ChoiceIsLocal(s, m.actor, mode, m.allowed, other);
    case StopRun => StopIsLocal(s, m.actor, m.chat, m.dualRunning, other);
    case NewChat => ClearingIsLocal(s, m.actor, other);
    case OtherCommand =>
  }

  lemma StopIsLocal(s: State, actor: string, chat: string, dualRunning: bool, other: string)
    requires other != actor
    ensures SameFor(s, RequestStop(s, actor, chat, dualRunning), other)
    ensures SameRuns(s, RequestStop(s, actor, chat, dualRunning), other)
  {
  }

  lemma ClearingIsLocal(s: State, actor: string, other: string)
    requires other != actor
    ensures SameFor(s, ClearConfirmations(s, actor), other) && ClearConfirmations(s, actor).runs == s.runs
  {
  }

  lemma ChoiceIsLocal(s: State, actor: string, mode: Mode, allowed: bool, other: string)
    requires other != actor
    ensures SameFor(s, ChooseMode(s, actor, mode, allowed), other) && ChooseMode(s, actor, mode, allowed).runs == s.runs
  {
  }

  lemma RequestIsLocal(p: Policy, s: State, m: Message, text: string, confirmed: Option<Confirmed>, other: string)
    requires other != m.actor && m.runId !in s.runs
    ensures SameFor(s, Proceed(p, s, m, text, confirmed), other)
    ensures SameRuns(s, Proceed(p, s, m, text, confirmed), other)
  {
    PromptIsLocal(p, s, m, text, confirmed, other);
    PromptKeepsRuns(p, s, m, text, confirmed, other);
  }

  lemma PromptIsLocal(p: Policy, s: State, m: Message, text: string, confirmed: Option<Confirmed>, other: string)
    requires other != m.actor
    ensures SameFor(s, Proceed(p, s, m, text, confirmed), other)
  {
    var t := Proceed(p, s, m, text, confirmed);
    if t.issued != s.issued {
      var stage := if confirmed.Some? then DestructiveCode else FullCode;
      var parent := if confirmed.Some? then Some(confirmed.value.redemption) else None;
      assert t == IssueCode(s, stage, m, text, m.resolved.value, parent);
      IssueIsLocal(s, stage, m, text, m.resolved.value, parent, other);
    } else {
      NoIssueIsLocal(p, s, m, text, confirmed, other);
    }
  }

  lemma NoIssueIsLocal(p: Policy, s: State, m: Message, text: string, confirmed: Option<Confirmed>, other: string)
    requires other != m.actor && Proceed(p, s, m, text, confirmed).issued == s.issued
    ensures SameFor(s, Proceed(p, s, m, text, confirmed), other)
  {
    var t := Proceed(p, s, m, text, confirmed);
    assert t == s || t == ClearConfirmations(s, m.actor) || t == s.(modes := s.modes[m.actor := Single])
      || (m.resolved.Some? && confirmed.Some? && t == Register(p, s, m, confirmed.value));
  }

  lemma IssueIsLocal(s: State, stage: Stage, m: Message, prompt: string, cluster: string, parent: Option<nat>,
                     other: string)
    requires other != m.actor
    ensures SameFor(s, IssueCode(s, stage, m, prompt, cluster, parent), other)
  {
  }

  lemma PromptKeepsRuns(p: Policy, s: State, m: Message, text: string, confirmed: Option<Confirmed>, other: string)
    requires other != m.actor && m.runId !in s.runs
    ensures SameRuns(s, Proceed(p, s, m, text, confirmed), other)
  {
    ProceedRegistersIff(p, s, m, text, confirmed);
  }

  lemma PresentedIsLocal(p: Policy, s: State, m: Message, stage: Stage, supplied: string, other: string)
    requires other != m.actor && m.runId !in s.runs
    ensures SameFor(s, Present(p, s, m, stage, supplied), other)
    ensures SameRuns(s, Present(p, s, m, stage, supplied), other)
  {
    if m.allowed {
      BurningIsLocal(s, m, stage, supplied, other);
      var (burned, confirmed) := Consume(s, stage, m, supplied);
      if confirmed.Some? {
        RequestIsLocal(p, burned, m, confirmed.value.prompt, confirmed, other);
      }
    }
  }

  lemma BurningIsLocal(s: State, m: Message, stage: Stage, supplied: string, other: string)
    requires other != m.actor
    ensures SameFor(s, Consume(s, stage, m, supplied).0, other) && Consume(s, stage, m, supplied).0.runs == s.runs
  {
  }

  /** Leaving Full mode drops both codes; Full mode needs the right, and any choice forgets the cluster. */
  lemma ModeIsChosen(s: State, actor: string, mode: Mode, allowed: bool)
    ensures ChooseMode(s, actor, mode, allowed) ==
      if mode == Full && !allowed then s
      else if mode == Full then s.(modes := s.modes[actor := Full], clusters := s.clusters - {actor})
      else s.(modes := s.modes[actor := mode], clusters := s.clusters - {actor},
              full := s.full - {actor}, destructive := s.destructive - {actor})
  {
  }

  /** A stop reaches exactly the operator's runs in the chat, and none while a two-agent session runs. */
  lemma StopReaches(p: Policy, s: State, m: Message)
    requires m.text == StopRun
    ensures var s' := Handle(p, s, m);
      && s' == s.(runs := s'.runs) && s'.runs.Keys == s.runs.Keys
      && forall id :: id in s.runs ==>
           var mine := !m.dualRunning && s.runs[id].actor == m.actor && s.runs[id].chat == m.chat;
           s'.runs[id] == if mine then s.runs[id].(stopRequested := true) else s.runs[id]
  {
    assert m.dualRunning ==> Handle(p, s, m) == s;
  }

  // ----- A request that interrupts a service, from its prompt to its run -----

  /** The messages of an operator who asks, and confirms twice. */
  function ServiceRequest(actor: string, chat: string): seq<Event> {
    var connection := Connection("mon1");
    var choose := Message(actor, chat, SelectMode(Full), 0, true, None, "1", "", "", None, connection, false);
    var ask := Message(actor, chat, Plain("go"), 0, true, Some("c:1"), "1", "code", "r0", Some("1"), connection, false);
    var first :=
      Message(actor, chat, ConfirmFull("code"), 200, true, Some("c:1"), "1", "more", "r1", Some("1"), connection,
              false);
    var second :=
      Message(actor, chat, ConfirmDestructive("more"), 500, true, Some("c:1"), "1", "", "r2", Some("1"), connection,
              false);
    [Receive(choose), PressCluster(actor, "c:1"), Receive(ask), Receive(first), Receive(second)]
  }

  /** Both codes are issued and redeemed in order, and the run waits for its task. */
  lemma ServiceRequestRuns(p: Policy, actor: string, chat: string)
    requires p.changesService("go") && !p.destroysData("go") && !p.readOnlyQuestion("go", "c:1")
    requires forall c :: c in "1cplsm" ==> !p.isSpace(c)
    ensures var s := History(p, ServiceRequest(actor, chat));
      && s.runs == map["r2" := Run(chat, actor, false, Waiting)]
      && s.started == [Start("r2", actor, chat, "go", "c:1", 1)]
      && s.issued == [Issue(FullCode, actor, chat, "go", "c:1", "code", 0, None),
                      Issue(DestructiveCode, actor, chat, "go", "c:1", "more", 200, Some(0))]
      && s.redeemed == [Redemption(0, actor, chat, "code", 200), Redemption(1, actor, chat, "more", 500)]
      && s.full == map[] && s.destructive == map[]
  {
    var events := ServiceRequest(actor, chat);
    var s := FirstCodeIsPending(p, actor, chat);
    var first, second := events[3].message, events[4].message;
    assert events[..5] == events && events[..5][..4] == events[..4] && events[..4][..3] == events[..3];
    SecondCodeIsIssued(p, s, first, "code");
    var t := Handle(p, s, first);
    assert History(p, events[..4]) == t;
    assert t.full == map[] && t.issued == s.issued + [t.issued[1]] && t.redeemed == [t.redeemed[0]];
    RunIsRegistered(p, t, second, "more");
    HandleRegistersIff(p, t, second);
    RunIsRegisteredIff(p, t, second);
    ScopeIsComplete(p, second);
    assert BuildScope(p, t, second).Some?;
  }

  lemma FirstCodeIsPending(p: Policy, actor: string, chat: string) returns (s: State)
    requires !p.destroysData("go") && !p.readOnlyQuestion("go", "c:1")
    ensures s == History(p, ServiceRequest(actor, chat)[..3])
    ensures s == State(map[actor := Pending(0, "code", chat, "go", "c:1", 300)], map[], map[actor := Full],
                       map[actor := "c:1"], map[],
                       [Issue(FullCode, actor, chat, "go", "c:1", "code", 0, None)], [], [], [])
  {
    var events := ServiceRequest(actor, chat);
    assert events[..3][..2] == events[..2] && events[..2][..1] == events[..1] && events[..1][..0] == [];
    assert History(p, events[..0]) == INITIAL;
    ModeIsChosen(INITIAL, actor, Full, true);
    var chosen := INITIAL.(modes := map[actor := Full], clusters := map[]);
    assert History(p, events[..1]) == chosen;
    var selected := chosen.(clusters := map[actor := "c:1"]);
    assert History(p, events[..2]) == selected;
    FirstCodeIsIssued(p, selected, events[2].message, "go");
    s := History(p, events[..3]);
  }

  lemma ScopeIsComplete(p: Policy, m: Message)
    requires m.connection == Connection("mon1") && m.clusterId == "1" && m.resolved == Some("c:1")
    requires forall c :: c in "1cplsm" ==> !p.isSpace(c)
    ensures NormalizeScope(p, m.connection[ClusterId := m.clusterId][ClusterRef := m.resolved.value]).Some?
  {
    var scope := m.connection[ClusterId := m.clusterId][ClusterRef := m.resolved.value];
    forall key | Required(key) ensures !Blank(p, Entry(scope, key)) {
      assert Entry(scope, key)[0] in "1cplsm";
      assert Entry(scope, key)[0] in Entry(scope, key);
    }
    assert forall key :: key in scope ==> |scope[key]| <= 2000;
  }
}
