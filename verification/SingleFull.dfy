/**
 The Single Full confirmation protocol (dashboard/telegram_chat.py).

 A prompt in Single Full mode is answered with a one-time code; presenting the code runs
 exactly that prompt. A prompt that can interrupt a service needs a second code. The regular
 expressions that classify prompts are parameters, and so is everything the environment
 decides: clocks, random codes, who may use full access, which cluster a selection resolves to.

 From the redemption of a code to the registration of the run the handler never awaits, so one
 message is one step. The confirmation files survive a restart; registered runs do not.
 The last four components of the state are the history of what happened; no decision reads them.
 */
module SingleFull {
  import opened Wrappers

  const CONFIRM_TTL: int := 300
  const MAX_MESSAGE_CHARS: int := 12000

  datatype Mode = Single | Dual | Full
  datatype Stage = FullCode | DestructiveCode

  datatype Policy = Policy(
    changesService: string -> bool, destroysData: string -> bool,
    readOnlyQuestion: (string, string) -> bool, defaultMode: Mode, isSpace: char -> bool)

  /** The entries of the connection scope that is signed for the executor. */
  datatype ScopeKey =
    | ClusterId | ClusterRef | Name | DatabaseSource | DatabaseUrl | MonNodes | MonHostnames | MgrNodes | OsdNodes
    | RgwNodes | ExecMode | ContainerName | OsdContainerName | RgwContainerName | SshUser | SshKeyPath | KeyringPath

  type Scope = map<ScopeKey, string>

  const MAX_SCOPE_CHARS: int := 2000

  datatype Pending = Pending(serial: nat, code: string, chat: string, prompt: string, cluster: string, expiresAt: int)

  /** A registered run; without a task nothing will ever start or remove it. */
  datatype Task = NoTask | Waiting | Running
  datatype Run = Run(chat: string, actor: string, stopRequested: bool, task: Task)

  datatype Issue = Issue(stage: Stage, actor: string, chat: string, prompt: string, cluster: string,
                         code: string, at: int, parent: Option<nat>)
  datatype Redemption = Redemption(serial: nat, actor: string, chat: string, code: string, at: int)
  datatype Start = Start(id: string, actor: string, chat: string, prompt: string, cluster: string, redemption: nat)

  datatype State = State(
    full: map<string, Pending>, destructive: map<string, Pending>,
    modes: map<string, Mode>, clusters: map<string, string>, runs: map<string, Run>,
    issued: seq<Issue>, redeemed: seq<Redemption>, started: seq<Start>, launched: seq<string>)

  datatype Text =
    | ConfirmFull(supplied: string)
    | ConfirmDestructive(supplied: string)
    | Ask(body: string)
    | SelectMode(mode: Mode)
    | NewChat
    | StopRun
    | OtherCommand
    | Plain(body: string)

  /**
   One incoming message with what the environment answers while it is handled: the full-access
   list, the qualified reference of the cluster resolved for the actor and its id, the random code
   and run id, the id the actor's choice resolves to when the connection scope is built and the
   other entries of that scope, and whether a two-agent session of the operator is running.
   */
  datatype Message = Message(
    actor: string, chat: string, text: Text, now: int, allowed: bool, resolved: Option<string>, clusterId: string,
    code: string, runId: string, target: Option<string>, connection: Scope, dualRunning: bool)

  datatype Event =
    | Receive(message: Message)
    | PressMode(actor: string, mode: Mode, allowed: bool)
    | PressCluster(actor: string, cluster: string)
    | TaskBegins(run: string)
    | TaskEnds(run: string)
    | Restart

  const INITIAL := State(map[], map[], map[], map[], map[], [], [], [], [])

  // ----- Confirmation files -----

  function Codes(s: State, stage: Stage): map<string, Pending> {
    if stage == FullCode then s.full else s.destructive
  }

  function WithCodes(s: State, stage: Stage, codes: map<string, Pending>): State {
    if stage == FullCode then s.(full := codes) else s.(destructive := codes)
  }

  function ClearConfirmations(s: State, actor: string): State {
    s.(full := s.full - {actor}, destructive := s.destructive - {actor})
  }

  function IssueCode(s: State, stage: Stage, m: Message, prompt: string, cluster: string, parent: Option<nat>): State {
    WithCodes(s, stage,
      Codes(s, stage)[m.actor := Pending(|s.issued|, m.code, m.chat, prompt, cluster, m.now + CONFIRM_TTL)])
    .(issued := s.issued + [Issue(stage, m.actor, m.chat, prompt, cluster, m.code, m.now, parent)])
  }

  predicate Accepts(pending: Pending, m: Message, supplied: string) {
    pending.chat == m.chat && m.now <= pending.expiresAt && supplied == pending.code
  }

  /** What a redeemed code confirms. */
  datatype Confirmed = Confirmed(stage: Stage, prompt: string, cluster: string, redemption: nat)

  /** Presenting a code burns whatever code was pending, right or wrong. */
  function Consume(s: State, stage: Stage, m: Message, supplied: string): (State, Option<Confirmed>) {
    var codes := Codes(s, stage);
    var burned := WithCodes(s, stage, codes - {m.actor});
    if m.actor in codes && Accepts(codes[m.actor], m, supplied) then
      var pending := codes[m.actor];
      var s' := burned.(redeemed := s.redeemed + [Redemption(pending.serial, m.actor, m.chat, supplied, m.now)]);
      (s', if pending.cluster == "" then None
           else Some(Confirmed(stage, pending.prompt, pending.cluster, |s.redeemed|)))
    else
      (burned, None)
  }

  // ----- Modes, clusters, commands -----

  function ModeOf(p: Policy, s: State, actor: string): Mode {
    if actor in s.modes then s.modes[actor] else p.defaultMode
  }

  function ChooseMode(s: State, actor: string, mode: Mode, allowed: bool): State {
    if mode == Full && !allowed then s
    else
      var kept := if mode != Full then ClearConfirmations(s, actor) else s;
      kept.(modes := kept.modes[actor := mode], clusters := kept.clusters - {actor})
  }

  /** A running two-agent session is stopped first, a Single Full run only when there is none. */
  function RequestStop(s: State, actor: string, chat: string, dualRunning: bool): State {
    if dualRunning then s
    else
      s.(runs := map id | id in s.runs ::
           var run := s.runs[id];
           if run.actor == actor && run.chat == chat then run.(stopRequested := true) else run)
  }

  // ----- The connection scope of a run -----

  predicate Required(key: ScopeKey) {
    key.ClusterId? || key.ClusterRef? || key.Name? || key.DatabaseSource? || key.DatabaseUrl? || key.MonNodes?
  }

  predicate Blank(p: Policy, text: string) { forall c :: c in text ==> p.isSpace(c) }

  function Entry(scope: Scope, key: ScopeKey): string { if key in scope then scope[key] else "" }

  /** The scope as it is signed; None when an identifying entry is blank or any entry is too long. */
  function NormalizeScope(p: Policy, scope: Scope): Option<Scope> {
    if exists key :: Required(key) && Blank(p, Entry(scope, key)) then None
    else if exists key :: key in scope && |scope[key]| > MAX_SCOPE_CHARS then None
    else Some(scope)
  }

  /** None also when the actor's choice meanwhile leads to another cluster. */
  function BuildScope(p: Policy, s: State, m: Message): Option<Scope>
    requires m.resolved.Some?
  {
    if m.actor in s.clusters && m.target.Some? && m.target.value != m.clusterId then None
    else NormalizeScope(p, m.connection[ClusterId := m.clusterId][ClusterRef := m.resolved.value])
  }

  // ----- Messages -----

  predicate Busy(s: State, actor: string, chat: string) {
    exists id :: id in s.runs && s.runs[id].actor == actor && s.runs[id].chat == chat
  }

  /** The run is registered first; its task is created only when the connection scope can be built. */
  function Register(p: Policy, s: State, m: Message, c: Confirmed): State
    requires m.resolved.Some?
  {
    if Busy(s, m.actor, m.chat) then s
    else
      var task := if BuildScope(p, s, m).Some? then Waiting else NoTask;
      s.(runs := s.runs[m.runId := Run(m.chat, m.actor, false, task)],
         started := s.started + [Start(m.runId, m.actor, m.chat, c.prompt, c.cluster, c.redemption)])
  }

  /** A request after its code, if any, was redeemed. */
  function Proceed(p: Policy, s: State, m: Message, text: string, confirmed: Option<Confirmed>): State {
    var mode := ModeOf(p, s, m.actor);
    if |text| > MAX_MESSAGE_CHARS || m.resolved == None then s
    else if confirmed.Some? && confirmed.value.cluster != m.resolved.value then s
    else if mode == Full && p.destroysData(text) then ClearConfirmations(s, m.actor)
    else if mode == Full && confirmed.Some? && p.changesService(text) && confirmed.value.stage == FullCode then
      IssueCode(s, DestructiveCode, m, text, m.resolved.value, Some(confirmed.value.redemption))
    else if mode != Full || (confirmed == None && p.readOnlyQuestion(text, m.resolved.value)) then s
    else if !m.allowed then s.(modes := s.modes[m.actor := Single])
    else if confirmed == None then IssueCode(s, FullCode, m, text, m.resolved.value, None)
    else Register(p, s, m, confirmed.value)
  }

  function Present(p: Policy, s: State, m: Message, stage: Stage, supplied: string): State {
    if !m.allowed then s
    else
      var (burned, confirmed) := Consume(s, stage, m, supplied);
      if confirmed == None then burned else Proceed(p, burned, m, confirmed.value.prompt, confirmed)
  }

  function Handle(p: Policy, s: State, m: Message): State {
    match m.text
    case ConfirmFull(supplied) => Present(p, s, m, FullCode, supplied)
    case ConfirmDestructive(supplied) => Present(p, s, m, DestructiveCode, supplied)
    case Ask(body) => if body == "" then s else Proceed(p, s, m, body, None)
    case SelectMode(mode) => ChooseMode(s, m.actor, mode, m.allowed)
    case NewChat => ClearConfirmations(s, m.actor)
    case StopRun => RequestStop(s, m.actor, m.chat, m.dualRunning)
    case OtherCommand => s
    case Plain(body) => if body == "" then s else Proceed(p, s, m, body, None)
  }

  function Next(p: Policy, s: State, e: Event): State {
    match e
    case Receive(m) => Handle(p, s, m)
    case PressMode(actor, mode, allowed) => ChooseMode(s, actor, mode, allowed)
    case PressCluster(actor, cluster) => s.(clusters := s.clusters[actor := cluster])
    case TaskBegins(run) =>
      if run !in s.runs || s.runs[run].task != Waiting then s
      else if s.runs[run].stopRequested then s.(runs := s.runs - {run})
      else s.(runs := s.runs[run := s.runs[run].(task := Running)], launched := s.launched + [run])
    case TaskEnds(run) =>
      if run !in s.runs || s.runs[run].task == NoTask then s else s.(runs := s.runs - {run})
    case Restart => s.(runs := map[])
  }

  function Replay(p: Policy, s: State, events: seq<Event>): State {
    if events == [] then s
    else Next(p, Replay(p, s, events[..|events| - 1]), events[|events| - 1])
  }

  /** Where a message history leads from a fresh installation. */
  function History(p: Policy, events: seq<Event>): State {
    Replay(p, INITIAL, events)
  }

  // ----- What every history keeps -----

  /** The code of an issued confirmation was presented by its actor, in its chat, in time. */
  ghost predicate Redeemed(s: State, i: nat, stage: Stage, actor: string, chat: string, prompt: string,
      cluster: string) {
    && i < |s.redeemed|
    && var r := s.redeemed[i];
       && r.serial < |s.issued|
       && var c := s.issued[r.serial];
          && c.stage == stage
          && c.actor == r.actor == actor && c.chat == r.chat == chat
          && c.prompt == prompt && c.cluster == cluster
          && r.code == c.code && r.at <= c.at + CONFIRM_TTL
  }

  ghost predicate Justified(p: Policy, s: State, start: Start) {
    && !p.destroysData(start.prompt)
    && start.redemption < |s.redeemed| && s.redeemed[start.redemption].serial < |s.issued|
    && var c := s.issued[s.redeemed[start.redemption].serial];
       && Redeemed(s, start.redemption, c.stage, start.actor, start.chat, start.prompt, start.cluster)
       && (p.changesService(start.prompt) ==> c.stage == DestructiveCode)
  }

  /** A second code is only ever issued for a request whose first code was redeemed just then. */
  ghost predicate IssueIsOrdered(s: State, c: Issue) {
    c.stage == DestructiveCode ==>
      && c.parent.Some?
      && Redeemed(s, c.parent.value, FullCode, c.actor, c.chat, c.prompt, c.cluster)
      && s.redeemed[c.parent.value].at == c.at
  }

  ghost predicate PendingIsIssued(s: State, stage: Stage, actor: string, pending: Pending) {
    && pending.serial < |s.issued|
    && s.issued[pending.serial].stage == stage && s.issued[pending.serial].actor == actor
    && s.issued[pending.serial].chat == pending.chat && s.issued[pending.serial].prompt == pending.prompt
    && s.issued[pending.serial].cluster == pending.cluster && s.issued[pending.serial].code == pending.code
    && s.issued[pending.serial].at + CONFIRM_TTL == pending.expiresAt
    && forall i :: 0 <= i < |s.redeemed| ==> s.redeemed[i].serial != pending.serial
  }

  ghost predicate CodesAreIssued(s: State) {
    && (forall a :: a in s.full ==> PendingIsIssued(s, FullCode, a, s.full[a]))
    && (forall a :: a in s.destructive ==> PendingIsIssued(s, DestructiveCode, a, s.destructive[a]))
  }

  ghost predicate OneShot(s: State) {
    && (forall i :: 0 <= i < |s.redeemed| ==> s.redeemed[i].serial < |s.issued|)
    && (forall i, j :: 0 <= i < j < |s.redeemed| ==> s.redeemed[i].serial != s.redeemed[j].serial)
    && (forall i, j :: 0 <= i < j < |s.started| ==> s.started[i].redemption != s.started[j].redemption)
    && (forall i :: 0 <= i < |s.started| ==> s.started[i].redemption < |s.redeemed|)
    && (forall i, k :: 0 <= i < |s.started| && 0 <= k < |s.issued| ==>
      s.issued[k].parent != Some(s.started[i].redemption))
    && (forall k :: 0 <= k < |s.issued| && s.issued[k].parent.Some? ==> s.issued[k].parent.value < |s.redeemed|)
    && (forall j, k :: 0 <= j < k < |s.issued| && s.issued[j].parent.Some? ==> s.issued[j].parent != s.issued[k].parent)
  }

  ghost predicate OneRunEach(s: State) {
    forall a, b :: a in s.runs && b in s.runs && s.runs[a].actor == s.runs[b].actor && s.runs[a].chat == s.runs[b].chat
      ==> a == b
  }

  ghost predicate HistoryIsSound(p: Policy, s: State) {
    && (forall k :: 0 <= k < |s.issued| ==> IssueIsOrdered(s, s.issued[k]))
    && (forall i :: 0 <= i < |s.started| ==> Justified(p, s, s.started[i]))
  }

  ghost predicate Invariant(p: Policy, s: State) {
    CodesAreIssued(s) && OneShot(s) && HistoryIsSound(p, s) && OneRunEach(s)
  }

  /** The last redemption has neither started a run nor been answered with a second code. */
  ghost predicate Unspent(s: State, i: nat) {
    && i < |s.redeemed|
    && (forall k :: 0 <= k < |s.started| ==> s.started[k].redemption != i)
    && (forall k :: 0 <= k < |s.issued| ==> s.issued[k].parent != Some(i))
  }

  ghost predicate ConfirmedIsRedeemed(s: State, m: Message, c: Confirmed) {
    && Unspent(s, c.redemption)
    && Redeemed(s, c.redemption, c.stage, m.actor, m.chat, c.prompt, c.cluster)
    && s.redeemed[c.redemption].at == m.now
  }

  /** The history only grows, and what it justified stays justified. */
  lemma GrowthKeepsHistory(p: Policy, s: State, s': State)
    requires HistoryIsSound(p, s)
    requires s.issued <= s'.issued && s.redeemed <= s'.redeemed && s.started <= s'.started
    ensures forall k :: 0 <= k < |s.issued| ==> IssueIsOrdered(s', s'.issued[k])
    ensures forall i :: 0 <= i < |s.started| ==> Justified(p, s', s'.started[i])
  {
    forall k | 0 <= k < |s.issued| ensures IssueIsOrdered(s', s'.issued[k]) {
      assert IssueIsOrdered(s, s.issued[k]) && s'.issued[k] == s.issued[k];
    }
    forall i | 0 <= i < |s.started| ensures Justified(p, s', s'.started[i]) {
      assert Justified(p, s, s.started[i]) && s'.started[i] == s.started[i];
    }
  }

  /** Dropping codes, or logging issues and starts, keeps the remaining codes issued and unredeemed. */
  lemma FewerCodesKeepIssued(s: State, s': State)
    requires CodesAreIssued(s)
    requires s.issued <= s'.issued && s'.redeemed == s.redeemed
    requires forall a :: a in s'.full ==> a in s.full && s'.full[a] == s.full[a]
    requires forall a :: a in s'.destructive ==> a in s.destructive && s'.destructive[a] == s.destructive[a]
    ensures CodesAreIssued(s')
  {
    forall a | a in s'.full ensures PendingIsIssued(s', FullCode, a, s'.full[a]) {
      assert PendingIsIssued(s, FullCode, a, s.full[a]);
    }
    forall a | a in s'.destructive ensures PendingIsIssued(s', DestructiveCode, a, s'.destructive[a]) {
      assert PendingIsIssued(s, DestructiveCode, a, s.destructive[a]);
    }
  }

  /** Dropping codes or runs, or changing modes and choices, keeps everything. */
  lemma Shrinking(p: Policy, s: State, s': State)
    requires Invariant(p, s)
    requires s'.issued == s.issued && s'.redeemed == s.redeemed && s'.started == s.started
    requires forall a :: a in s'.full ==> a in s.full && s'.full[a] == s.full[a]
    requires forall a :: a in s'.destructive ==> a in s.destructive && s'.destructive[a] == s.destructive[a]
    requires forall id :: id in s'.runs ==>
      id in s.runs && s'.runs[id].actor == s.runs[id].actor && s'.runs[id].chat == s.runs[id].chat
    ensures Invariant(p, s')
  {
    FewerCodesKeepIssued(s, s');
    GrowthKeepsHistory(p, s, s');
  }

  // ----- Redeeming -----

  /** Logging the redemption of a code that is no longer pending. */
  lemma LogRedemption(p: Policy, s: State, r: Redemption, s': State)
    requires Invariant(p, s)
    requires r.serial < |s.issued| && forall i :: 0 <= i < |s.redeemed| ==> s.redeemed[i].serial != r.serial
    requires forall a :: a in s.full ==> s.full[a].serial != r.serial
    requires forall a :: a in s.destructive ==> s.destructive[a].serial != r.serial
    requires s' == s.(redeemed := s.redeemed + [r])
    ensures Invariant(p, s') && Unspent(s', |s.redeemed|)
  {
    GrowthKeepsHistory(p, s, s');
    forall a | a in s'.full ensures PendingIsIssued(s', FullCode, a, s'.full[a]) {
      RedemptionKeepsPending(s, r, s', FullCode, a, s.full[a]);
    }
    forall a | a in s'.destructive ensures PendingIsIssued(s', DestructiveCode, a, s'.destructive[a]) {
      RedemptionKeepsPending(s, r, s', DestructiveCode, a, s.destructive[a]);
    }
  }

  lemma RedemptionKeepsPending(s: State, r: Redemption, s': State, stage: Stage, actor: string, pending: Pending)
    requires PendingIsIssued(s, stage, actor, pending) && pending.serial != r.serial
    requires s' == s.(redeemed := s.redeemed + [r])
    ensures PendingIsIssued(s', stage, actor, pending)
  {
  }

  lemma OtherCodesDiffer(s: State, stage: Stage, actor: string, burned: State)
    requires CodesAreIssued(s) && actor in Codes(s, stage)
    requires burned == WithCodes(s, stage, Codes(s, stage) - {actor})
    ensures forall a :: a in burned.full ==> burned.full[a].serial != Codes(s, stage)[actor].serial
    ensures forall a :: a in burned.destructive ==> burned.destructive[a].serial != Codes(s, stage)[actor].serial
  {
    assert PendingIsIssued(s, stage, actor, Codes(s, stage)[actor]);
    forall a | a in burned.full ensures burned.full[a].serial != Codes(s, stage)[actor].serial {
      assert PendingIsIssued(s, FullCode, a, s.full[a]);
    }
    forall a | a in burned.destructive ensures burned.destructive[a].serial != Codes(s, stage)[actor].serial {
      assert PendingIsIssued(s, DestructiveCode, a, s.destructive[a]);
    }
  }

  lemma ConsumeKeepsInvariant(p: Policy, s: State, stage: Stage, m: Message, supplied: string)
    requires Invariant(p, s)
    ensures Invariant(p, Consume(s, stage, m, supplied).0)
    ensures Consume(s, stage, m, supplied).1.Some? ==>
      ConfirmedIsRedeemed(Consume(s, stage, m, supplied).0, m, Consume(s, stage, m, supplied).1.value)
  {
    if m.actor in Codes(s, stage) && Accepts(Codes(s, stage)[m.actor], m, supplied) {
      RedeemingKeepsInvariant(p, s, stage, m, supplied);
      RedeemedIsConfirmed(s, stage, m, supplied);
    } else {
      Shrinking(p, s, Consume(s, stage, m, supplied).0);
    }
  }

  lemma RedeemingKeepsInvariant(p: Policy, s: State, stage: Stage, m: Message, supplied: string)
    requires Invariant(p, s) && m.actor in Codes(s, stage) && Accepts(Codes(s, stage)[m.actor], m, supplied)
    ensures Invariant(p, Consume(s, stage, m, supplied).0) && Unspent(Consume(s, stage, m, supplied).0, |s.redeemed|)
  {
    var pending := Codes(s, stage)[m.actor];
    var burned := WithCodes(s, stage, Codes(s, stage) - {m.actor});
    Shrinking(p, s, burned);
    assert PendingIsIssued(s, stage, m.actor, pending);
    OtherCodesDiffer(s, stage, m.actor, burned);
    LogRedemption(p, burned, Redemption(pending.serial, m.actor, m.chat, supplied, m.now),
      Consume(s, stage, m, supplied).0);
  }

  lemma RedeemedIsConfirmed(s: State, stage: Stage, m: Message, supplied: string)
    requires CodesAreIssued(s) && m.actor in Codes(s, stage) && Accepts(Codes(s, stage)[m.actor], m, supplied)
    requires Unspent(Consume(s, stage, m, supplied).0, |s.redeemed|)
    ensures var (s', confirmed) := Consume(s, stage, m, supplied);
      confirmed.Some? ==> ConfirmedIsRedeemed(s', m, confirmed.value)
  {
    assert PendingIsIssued(s, stage, m.actor, Codes(s, stage)[m.actor]);
  }

  // ----- Issuing and registering -----

  lemma IssueKeepsInvariant(p: Policy, s: State, stage: Stage, m: Message, prompt: string, cluster: string,
      parent: Option<nat>)
    requires Invariant(p, s)
    requires parent.Some? ==> Unspent(s, parent.value)
    requires stage == DestructiveCode ==>
      && parent.Some? && Redeemed(s, parent.value, FullCode, m.actor, m.chat, prompt, cluster)
      && s.redeemed[parent.value].at == m.now
    ensures Invariant(p, IssueCode(s, stage, m, prompt, cluster, parent))
  {
    var issue := Issue(stage, m.actor, m.chat, prompt, cluster, m.code, m.now, parent);
    var s' := IssueCode(s, stage, m, prompt, cluster, parent);
    IssueKeepsHistory(p, s, issue, s');
    IssueKeepsOneShot(s, issue, s');
    IssueKeepsPending(s, stage, m, prompt, cluster, parent);
  }

  lemma IssueKeepsHistory(p: Policy, s: State, issue: Issue, s': State)
    requires HistoryIsSound(p, s)
    requires s'.issued == s.issued + [issue] && s'.redeemed == s.redeemed && s'.started == s.started
    requires IssueIsOrdered(s, issue)
    ensures HistoryIsSound(p, s')
  {
    GrowthKeepsHistory(p, s, s');
    assert IssueIsOrdered(s', s'.issued[|s.issued|]);
  }

  lemma IssueKeepsOneShot(s: State, issue: Issue, s': State)
    requires OneShot(s) && (issue.parent.Some? ==> Unspent(s, issue.parent.value))
    requires s'.issued == s.issued + [issue] && s'.redeemed == s.redeemed && s'.started == s.started
    ensures OneShot(s')
  {
  }

  lemma IssueKeepsPending(s: State, stage: Stage, m: Message, prompt: string, cluster: string, parent: Option<nat>)
    requires CodesAreIssued(s) && OneShot(s)
    ensures CodesAreIssued(IssueCode(s, stage, m, prompt, cluster, parent))
  {
    var s' := IssueCode(s, stage, m, prompt, cluster, parent);
    FewerCodesKeepIssued(s, s.(issued := s'.issued));
    assert PendingIsIssued(s', stage, m.actor, Codes(s', stage)[m.actor]);
    IssueKeepsCodes(s, s.(issued := s'.issued), s', stage, m.actor);
  }

  lemma IssueKeepsCodes(s: State, logged: State, s': State, stage: Stage, actor: string)
    requires CodesAreIssued(logged) && logged == s.(issued := s'.issued)
    requires actor in Codes(s', stage) && PendingIsIssued(s', stage, actor, Codes(s', stage)[actor])
    requires s' == WithCodes(logged, stage, Codes(logged, stage)[actor := Codes(s', stage)[actor]])
    ensures CodesAreIssued(s')
  {
    forall a | a in s'.full ensures PendingIsIssued(s', FullCode, a, s'.full[a]) {
      if stage != FullCode || a != actor {
        assert PendingIsIssued(logged, FullCode, a, logged.full[a]);
      }
    }
    forall a | a in s'.destructive ensures PendingIsIssued(s', DestructiveCode, a, s'.destructive[a]) {
      if stage != DestructiveCode || a != actor {
        assert PendingIsIssued(logged, DestructiveCode, a, logged.destructive[a]);
      }
    }
  }

  lemma RegisterKeepsInvariant(p: Policy, s: State, m: Message, c: Confirmed)
    requires Invariant(p, s) && ConfirmedIsRedeemed(s, m, c) && m.resolved.Some?
    requires !p.destroysData(c.prompt) && (p.changesService(c.prompt) ==> c.stage == DestructiveCode)
    ensures Invariant(p, Register(p, s, m, c))
  {
    var s' := Register(p, s, m, c);
    if !Busy(s, m.actor, m.chat) {
      GrowthKeepsHistory(p, s, s');
      FewerCodesKeepIssued(s, s');
      assert Justified(p, s', s'.started[|s.started|]);
      StartKeepsOneShot(s, s', c);
    }
  }

  lemma StartKeepsOneShot(s: State, s': State, c: Confirmed)
    requires OneShot(s) && Unspent(s, c.redemption)
    requires s'.issued == s.issued && s'.redeemed == s.redeemed
    requires |s'.started| == |s.started| + 1 && s.started <= s'.started
    requires s'.started[|s.started|].redemption == c.redemption
    ensures OneShot(s')
  {
  }

  lemma ProceedKeepsInvariant(p: Policy, s: State, m: Message, text: string, confirmed: Option<Confirmed>)
    requires Invariant(p, s)
    requires confirmed.Some? ==> confirmed.value.prompt == text && ConfirmedIsRedeemed(s, m, confirmed.value)
    ensures Invariant(p, Proceed(p, s, m, text, confirmed))
  {
    if m.resolved == None || Proceed(p, s, m, text, confirmed) == s {
    } else if confirmed == None {
      RequestKeepsInvariant(p, s, m, text);
    } else {
      ConfirmedKeepsInvariant(p, s, m, confirmed.value);
    }
  }

  /** A request without a code is refused, answered otherwise, or gets its first code. */
  lemma RequestKeepsInvariant(p: Policy, s: State, m: Message, text: string)
    requires Invariant(p, s) && m.resolved.Some? && Proceed(p, s, m, text, None) != s
    ensures Invariant(p, Proceed(p, s, m, text, None))
  {
    if p.destroysData(text) || !m.allowed {
      Shrinking(p, s, Proceed(p, s, m, text, None));
    } else {
      IssueKeepsInvariant(p, s, FullCode, m, text, m.resolved.value, None);
    }
  }

  /** A confirmed request is refused, gets its second code, or runs. */
  lemma ConfirmedKeepsInvariant(p: Policy, s: State, m: Message, c: Confirmed)
    requires Invariant(p, s) && ConfirmedIsRedeemed(s, m, c)
    requires m.resolved.Some? && Proceed(p, s, m, c.prompt, Some(c)) != s
    ensures Invariant(p, Proceed(p, s, m, c.prompt, Some(c)))
  {
    if p.destroysData(c.prompt) {
      Shrinking(p, s, Proceed(p, s, m, c.prompt, Some(c)));
    } else if p.changesService(c.prompt) && c.stage == FullCode {
      IssueKeepsInvariant(p, s, DestructiveCode, m, c.prompt, m.resolved.value, Some(c.redemption));
    } else if !m.allowed {
      Shrinking(p, s, Proceed(p, s, m, c.prompt, Some(c)));
    } else {
      RegisterKeepsInvariant(p, s, m, c);
    }
  }

  lemma PresentKeepsInvariant(p: Policy, s: State, m: Message, stage: Stage, supplied: string)
    requires Invariant(p, s)
    ensures Invariant(p, Present(p, s, m, stage, supplied))
  {
    if m.allowed {
      PresentedCodeKeepsInvariant(p, s, m, stage, supplied);
    }
  }

  lemma PresentedCodeKeepsInvariant(p: Policy, s: State, m: Message, stage: Stage, supplied: string)
    requires Invariant(p, s) && m.allowed
    ensures Invariant(p, Present(p, s, m, stage, supplied))
  {
    ConsumeKeepsInvariant(p, s, stage, m, supplied);
    var (burned, confirmed) := Consume(s, stage, m, supplied);
    if confirmed.Some? {
      ProceedKeepsInvariant(p, burned, m, confirmed.value.prompt, confirmed);
    }
  }

  lemma ChooseModeKeepsInvariant(p: Policy, s: State, actor: string, mode: Mode, allowed: bool)
    requires Invariant(p, s)
    ensures Invariant(p, ChooseMode(s, actor, mode, allowed))
  {
    if mode == Full && !allowed {
    } else {
      ChosenModeKeepsInvariant(p, s, actor, mode);
    }
  }

  lemma ChosenModeKeepsInvariant(p: Policy, s: State, actor: string, mode: Mode)
    requires Invariant(p, s)
    ensures Invariant(p, ChooseMode(s, actor, mode, true))
  {
    Shrinking(p, s, ChooseMode(s, actor, mode, true));
  }

  lemma RequestStopKeepsInvariant(p: Policy, s: State, actor: string, chat: string, dualRunning: bool)
    requires Invariant(p, s)
    ensures Invariant(p, RequestStop(s, actor, chat, dualRunning))
  {
    Shrinking(p, s, RequestStop(s, actor, chat, dualRunning));
  }

  lemma HandleKeepsInvariant(p: Policy, s: State, m: Message)
    requires Invariant(p, s)
    ensures Invariant(p, Handle(p, s, m))
  {
    match m.text
    case ConfirmFull(_) => CodeKeepsInvariant(p, s, m);
    case ConfirmDestructive(_) => CodeKeepsInvariant(p, s, m);
    case Ask(_) => PromptKeepsInvariant(p, s, m);
    case Plain(_) => PromptKeepsInvariant(p, s, m);
    case _ => OtherTextKeepsInvariant(p, s, m);
  }

  lemma CodeKeepsInvariant(p: Policy, s: State, m: Message)
    requires Invariant(p, s) && (m.text.ConfirmFull? || m.text.ConfirmDestructive?)
    ensures Invariant(p, Handle(p, s, m))
  {
    match m.text
    case ConfirmFull(supplied) => PresentKeepsInvariant(p, s, m, FullCode, supplied);
    case ConfirmDestructive(supplied) => PresentKeepsInvariant(p, s, m, DestructiveCode, supplied);
  }

  lemma PromptKeepsInvariant(p: Policy, s: State, m: Message)
    requires Invariant(p, s) && (m.text.Ask? || m.text.Plain?)
    ensures Invariant(p, Handle(p, s, m))
  {
    match m.text
    case Ask(body) => ProceedKeepsInvariant(p, s, m, body, None);
    case Plain(body) => ProceedKeepsInvariant(p, s, m, body, None);
  }

  lemma OtherTextKeepsInvariant(p: Policy, s: State, m: Message)
    requires Invariant(p, s)
    requires m.text.SelectMode? || m.text.NewChat? || m.text.StopRun? || m.text.OtherCommand?
    ensures Invariant(p, Handle(p, s, m))
  {
    match m.text
    case SelectMode(mode) => ChooseModeKeepsInvariant(p, s, m.actor, mode, m.allowed);
    case NewChat => Shrinking(p, s, ClearConfirmations(s, m.actor));
    case StopRun => RequestStopKeepsInvariant(p, s, m.actor, m.chat, m.dualRunning);
    case OtherCommand =>
  }

  lemma FewerRuns(p: Policy, s: State, runs: map<string, Run>, launched: seq<string>)
    requires Invariant(p, s)
    requires forall id :: id in runs ==>
      id in s.runs && runs[id].actor == s.runs[id].actor && runs[id].chat == s.runs[id].chat
    ensures Invariant(p, s.(runs := runs, launched := launched))
  {
    Shrinking(p, s, s.(runs := runs, launched := launched));
  }

  lemma TaskBeginsKeepsInvariant(p: Policy, s: State, run: string)
    requires Invariant(p, s)
    ensures Invariant(p, Next(p, s, TaskBegins(run)))
  {
    if run in s.runs && s.runs[run].task == Waiting {
      FewerRuns(p, s, s.runs - {run}, s.launched);
      FewerRuns(p, s, s.runs[run := s.runs[run].(task := Running)], s.launched + [run]);
    }
  }

  lemma NextKeepsInvariant(p: Policy, s: State, e: Event)
    requires Invariant(p, s)
    ensures Invariant(p, Next(p, s, e))
  {
    match e
    case Receive(m) => HandleKeepsInvariant(p, s, m);
    case PressMode(actor, mode, allowed) => ChooseModeKeepsInvariant(p, s, actor, mode, allowed);
    case PressCluster(_, _) => Shrinking(p, s, Next(p, s, e));
    case TaskBegins(run) => TaskBeginsKeepsInvariant(p, s, run);
    case TaskEnds(run) => FewerRuns(p, s, s.runs - {run}, s.launched);
    case Restart => FewerRuns(p, s, map[], s.launched);
  }

  lemma {:induction false} HistoryKeepsInvariant(p: Policy, events: seq<Event>)
    ensures Invariant(p, History(p, events))
  {
    if events != [] {
      HistoryKeepsInvariant(p, events[..|events| - 1]);
      NextKeepsInvariant(p, History(p, events[..|events| - 1]), events[|events| - 1]);
    }
  }

  // ----- The guarantees, over every message history -----

  /**
   A run is registered only for the exact prompt of a confirmation issued to the same actor, chat
   and cluster whose code was presented in time; never for a prompt that destroys data; and for a
   prompt that changes a service only with the second code, itself issued when the first was redeemed.
   */
  lemma RunsAreConfirmed(p: Policy, events: seq<Event>, k: nat)
    requires k < |History(p, events).started|
    ensures var s := History(p, events); var run := s.started[k];
      && !p.destroysData(run.prompt)
      && Justified(p, s, run)
      && (p.changesService(run.prompt) ==>
            var second := s.issued[s.redeemed[run.redemption].serial];
            && second.parent.Some?
            && Redeemed(s, second.parent.value, FullCode, run.actor, run.chat, run.prompt, run.cluster)
            && s.redeemed[second.parent.value].at == second.at
            && s.redeemed[second.parent.value].serial != s.redeemed[run.redemption].serial)
  {
    HistoryKeepsInvariant(p, events);
    var s := History(p, events);
    assert Justified(p, s, s.started[k]);
    var c := s.issued[s.redeemed[s.started[k].redemption].serial];
    assert IssueIsOrdered(s, c);
  }

  /** Each confirmation is redeemed at most once, and starts at most one run, itself or through its second code. */
  lemma ConfirmationsAreOneShot(p: Policy, events: seq<Event>)
    ensures OneShot(History(p, events))
  {
    HistoryKeepsInvariant(p, events);
  }

  lemma AtMostOneRunRegistered(p: Policy, events: seq<Event>, a: string, b: string)
    requires var s := History(p, events);
      a in s.runs && b in s.runs && s.runs[a].actor == s.runs[b].actor && s.runs[a].chat == s.runs[b].chat
    ensures a == b
  {
    HistoryKeepsInvariant(p, events);
  }

  /**
   Presenting any code burns the pending one exactly when the sender has full access; a refused code starts
   nothing.
   */
  lemma PresentedCodeIsBurned(p: Policy, s: State, m: Message, stage: Stage, supplied: string)
    requires m.actor in Codes(s, stage)
    ensures m.actor !in Codes(Present(p, s, m, stage, supplied), stage) <==> m.allowed
    ensures !m.allowed || !Accepts(Codes(s, stage)[m.actor], m, supplied) ==>
      && Present(p, s, m, stage, supplied).started == s.started
      && Present(p, s, m, stage, supplied).redeemed == s.redeemed
  {
  }

  // ----- Launching -----

  /** How a message can change the registered runs: it stops some, or registers one for an operator without any. */
  ghost predicate RunsAreTouched(s: State, m: Message, s': State) {
    && s'.launched == s.launched
    && ((s'.started == s.started && s'.runs.Keys == s.runs.Keys
         && forall id :: id in s.runs ==> s'.runs[id] == s.runs[id].(stopRequested := s'.runs[id].stopRequested))
        || (&& !Busy(s, m.actor, m.chat)
            && (s'.runs == s.runs[m.runId := Run(m.chat, m.actor, false, Waiting)]
                || s'.runs == s.runs[m.runId := Run(m.chat, m.actor, false, NoTask)])
            && |s'.started| == |s.started| + 1 && s.started <= s'.started
            && s'.started[|s.started|].id == m.runId
            && s'.started[|s.started|].actor == m.actor && s'.started[|s.started|].chat == m.chat))
  }

  lemma ProceedTouchesRuns(p: Policy, s: State, m: Message, text: string, confirmed: Option<Confirmed>)
    ensures RunsAreTouched(s, m, Proceed(p, s, m, text, confirmed))
  {
    ProceedRegistersIff(p, s, m, text, confirmed);
    ProceedLaunchesNothing(p, s, m, text, confirmed);
  }

  lemma ProceedLaunchesNothing(p: Policy, s: State, m: Message, text: string, confirmed: Option<Confirmed>)
    ensures Proceed(p, s, m, text, confirmed).launched == s.launched
  {
  }

  /** Whether a request may run now. */
  ghost predicate RunsNow(p: Policy, s: State, m: Message, text: string, confirmed: Option<Confirmed>) {
    && confirmed.Some? && m.allowed && m.resolved == Some(confirmed.value.cluster)
    && |text| <= MAX_MESSAGE_CHARS && ModeOf(p, s, m.actor) == Full && !p.destroysData(text)
    && (p.changesService(text) ==> confirmed.value.stage == DestructiveCode) && !Busy(s, m.actor, m.chat)
  }

  lemma ProceedRegistersIff(p: Policy, s: State, m: Message, text: string, confirmed: Option<Confirmed>)
    ensures if RunsNow(p, s, m, text, confirmed)
      then Proceed(p, s, m, text, confirmed) == Register(p, s, m, confirmed.value)
      else Proceed(p, s, m, text, confirmed).runs == s.runs && Proceed(p, s, m, text, confirmed).started == s.started
  {
  }

  lemma PresentTouchesRuns(p: Policy, s: State, m: Message, stage: Stage, supplied: string)
    ensures RunsAreTouched(s, m, Present(p, s, m, stage, supplied))
  {
    var (burned, confirmed) := Consume(s, stage, m, supplied);
    if confirmed.Some? {
      ProceedTouchesRuns(p, burned, m, confirmed.value.prompt, confirmed);
    }
  }

  lemma HandleTouchesRuns(p: Policy, s: State, m: Message)
    ensures RunsAreTouched(s, m, Handle(p, s, m))
  {
    match m.text
    case ConfirmFull(supplied) => PresentTouchesRuns(p, s, m, FullCode, supplied);
    case ConfirmDestructive(supplied) => PresentTouchesRuns(p, s, m, DestructiveCode, supplied);
    case Ask(body) => ProceedTouchesRuns(p, s, m, body, None);
    case Plain(body) => ProceedTouchesRuns(p, s, m, body, None);
    case _ => CommandTouchesRuns(p, s, m);
  }

  predicate IsCommand(text: Text) { text.SelectMode? || text.NewChat? || text.StopRun? || text.OtherCommand? }

  lemma CommandTouchesRuns(p: Policy, s: State, m: Message)
    requires IsCommand(m.text)
    ensures RunsAreTouched(s, m, Handle(p, s, m)) && Handle(p, s, m).started == s.started
  {
    match m.text
    case SelectMode(mode) => ChoosingKeepsRuns(s, m.actor, mode, m.allowed);
    case StopRun => StoppingTouchesRuns(s, m);
    case _ =>
  }

  lemma StoppingTouchesRuns(s: State, m: Message)
    ensures RunsAreTouched(s, m, RequestStop(s, m.actor, m.chat, m.dualRunning))
  {
  }

  ghost function StartedIds(started: seq<Start>): set<string> {
    set k | 0 <= k < |started| :: started[k].id
  }

  /** Run ids are random and never repeat. */
  ghost predicate RunIdsAreFresh(p: Policy, events: seq<Event>) {
    forall n :: 0 <= n < |events| && events[n].Receive? ==>
      events[n].message.runId !in StartedIds(History(p, events[..n]).started)
  }

  ghost predicate LaunchesAreSound(s: State) {
    && s.runs.Keys <= StartedIds(s.started)
    && (forall k :: 0 <= k < |s.launched| ==> s.launched[k] in StartedIds(s.started))
    && (forall j, k :: 0 <= j < k < |s.launched| ==> s.launched[j] != s.launched[k])
    && (forall id :: id in s.runs && s.runs[id].task != Running ==> id !in s.launched)
  }

  lemma MessageKeepsLaunches(s: State, m: Message, s': State)
    requires LaunchesAreSound(s) && m.runId !in StartedIds(s.started) && RunsAreTouched(s, m, s')
    ensures LaunchesAreSound(s')
  {
    if s'.started != s.started {
      assert StartedIds(s'.started) == StartedIds(s.started) + {m.runId} by {
        forall id | id in StartedIds(s.started) ensures id in StartedIds(s'.started) {
          var k :| 0 <= k < |s.started| && s.started[k].id == id;
          assert s'.started[k].id == id;
        }
      }
      assert m.runId !in s.launched;
    }
  }

  lemma TaskBeginsKeepsLaunches(p: Policy, s: State, run: string)
    requires LaunchesAreSound(s)
    ensures LaunchesAreSound(Next(p, s, TaskBegins(run)))
  {
    assert run in s.runs ==> run in StartedIds(s.started);
  }

  lemma TaskEndsKeepsLaunches(p: Policy, s: State, run: string)
    requires LaunchesAreSound(s)
    ensures LaunchesAreSound(Next(p, s, TaskEnds(run)))
  {
    assert Next(p, s, TaskEnds(run)).runs.Keys <= s.runs.Keys;
  }

  lemma NextKeepsLaunches(p: Policy, s: State, e: Event)
    requires LaunchesAreSound(s) && (e.Receive? ==> e.message.runId !in StartedIds(s.started))
    ensures LaunchesAreSound(Next(p, s, e))
  {
    match e
    case Receive(m) =>
      HandleTouchesRuns(p, s, m);
      MessageKeepsLaunches(s, m, Next(p, s, e));
    case TaskBegins(run) => TaskBeginsKeepsLaunches(p, s, run);
    case TaskEnds(run) => TaskEndsKeepsLaunches(p, s, run);
    case PressMode(actor, mode, allowed) => ChoosingKeepsRuns(s, actor, mode, allowed);
    case _ =>
  }

  lemma ChoosingKeepsRuns(s: State, actor: string, mode: Mode, allowed: bool)
    ensures var s' := ChooseMode(s, actor, mode, allowed);
      s'.runs == s.runs && s'.started == s.started && s'.launched == s.launched
  {
  }

  /** Every launch belongs to a confirmed run, and no run is launched twice. */
  lemma {:induction false} RunsLaunchAtMostOnce(p: Policy, events: seq<Event>)
    requires RunIdsAreFresh(p, events)
    ensures LaunchesAreSound(History(p, events))
  {
    if events != [] {
      var n := |events| - 1;
      forall i | 0 <= i < n && events[..n][i].Receive?
        ensures events[..n][i].message.runId !in StartedIds(History(p, events[..n][..i]).started)
      {
        assert events[..n][..i] == events[..i];
      }
      RunsLaunchAtMostOnce(p, events[..n]);
      NextKeepsLaunches(p, History(p, events[..n]), events[n]);
    }
  }

  // ----- A run whose scope cannot be built -----

  ghost predicate Orphaned(s: State, id: string, actor: string, chat: string) {
    id in s.runs && s.runs[id].task == NoTask && s.runs[id].actor == actor && s.runs[id].chat == chat
  }

  /** No start logged from position ``from`` on belongs to this operator in this chat. */
  ghost predicate NoStartSince(s: State, from: nat, actor: string, chat: string) {
    from <= |s.started| && forall k :: from <= k < |s.started| ==>
      s.started[k].actor != actor || s.started[k].chat != chat
  }

  ghost predicate LeavesOrphan(e: Event, id: string) {
    e != Restart && (e.Receive? ==> e.message.runId != id)
  }

  lemma MessageKeepsOrphan(s: State, m: Message, s': State, id: string, actor: string, chat: string, from: nat)
    requires Orphaned(s, id, actor, chat) && NoStartSince(s, from, actor, chat) && m.runId != id
    requires RunsAreTouched(s, m, s')
    ensures Orphaned(s', id, actor, chat) && NoStartSince(s', from, actor, chat)
  {
    assert Busy(s, actor, chat);
  }

  lemma NextKeepsOrphan(p: Policy, s: State, e: Event, id: string, actor: string, chat: string, from: nat)
    requires Orphaned(s, id, actor, chat) && NoStartSince(s, from, actor, chat) && LeavesOrphan(e, id)
    ensures Orphaned(Next(p, s, e), id, actor, chat) && NoStartSince(Next(p, s, e), from, actor, chat)
  {
    match e
    case Receive(m) =>
      HandleTouchesRuns(p, s, m);
      MessageKeepsOrphan(s, m, Next(p, s, e), id, actor, chat, from);
    case PressMode(presser, mode, allowed) => ChoosingKeepsRuns(s, presser, mode, allowed);
    case _ =>
  }

  /**
   The run is registered before its connection scope is built. When that fails, the entry keeps
   the operator busy: until a restart no message of any kind registers another run for them.
   */
  lemma {:induction false} OrphanBlocksUntilRestart(p: Policy, s: State, events: seq<Event>, id: string, actor: string,
      chat: string)
    requires Orphaned(s, id, actor, chat)
    requires forall n :: 0 <= n < |events| ==> LeavesOrphan(events[n], id)
    ensures Orphaned(Replay(p, s, events), id, actor, chat)
    ensures NoStartSince(Replay(p, s, events), |s.started|, actor, chat)
  {
    if events != [] {
      var n := |events| - 1;
      OrphanBlocksUntilRestart(p, s, events[..n], id, actor, chat);
      NextKeepsOrphan(p, Replay(p, s, events[..n]), events[n], id, actor, chat, |s.started|);
    }
  }

  /** The stage and the text of a presented code. */
  function Presented(text: Text): Option<(Stage, string)> {
    match text
    case ConfirmFull(supplied) => Some((FullCode, supplied))
    case ConfirmDestructive(supplied) => Some((DestructiveCode, supplied))
    case _ => None
  }

  /** The message presents a valid code whose request may run now. */
  ghost predicate Registers(p: Policy, s: State, m: Message) {
    m.allowed && Presented(m.text).Some? && (
      var (stage, supplied) := Presented(m.text).value;
      m.actor in Codes(s, stage) && (
        var pending := Codes(s, stage)[m.actor];
        && Accepts(pending, m, supplied)
        && pending.cluster != "" && m.resolved == Some(pending.cluster) && |pending.prompt| <= MAX_MESSAGE_CHARS
        && ModeOf(p, s, m.actor) == Full && !p.destroysData(pending.prompt)
        && (p.changesService(pending.prompt) ==> stage == DestructiveCode)
        && !Busy(s, m.actor, m.chat)))
  }

  /** What the connection scope of the message holds under a key. */
  function SentEntry(m: Message, key: ScopeKey): string {
    match key
    case ClusterId => m.clusterId
    case ClusterRef => if m.resolved.Some? then m.resolved.value else ""
    case _ => Entry(m.connection, key)
  }

  /** The choice now leads to another cluster, an identifying entry is blank, or an entry is too long. */
  ghost predicate ScopeIsRejected(p: Policy, s: State, m: Message) {
    || (m.actor in s.clusters && m.target.Some? && m.target.value != m.clusterId)
    || (exists key :: Identifying(key) && OnlySpaces(p, SentEntry(m, key)))
    || (exists key :: |SentEntry(m, key)| > 2000)
  }

  /** Nothing, or nothing but space. */
  ghost predicate OnlySpaces(p: Policy, text: string) { forall i :: 0 <= i < |text| ==> p.isSpace(text[i]) }

  /** The entries that say which cluster is meant and how to reach it. */
  ghost predicate Identifying(key: ScopeKey) {
    key in {ClusterId, ClusterRef, Name, DatabaseSource, DatabaseUrl, MonNodes}
  }

  lemma BlankIsOnlySpaces(p: Policy, text: string)
    ensures Blank(p, text) <==> OnlySpaces(p, text)
  {
  }

  lemma ScopeIsBuiltIff(p: Policy, s: State, m: Message)
    requires m.resolved.Some?
    ensures BuildScope(p, s, m) == None <==> ScopeIsRejected(p, s, m)
    ensures BuildScope(p, s, m).Some? ==>
      forall key :: SentEntry(m, key) == Entry(BuildScope(p, s, m).value, key)
  {
    var scope := m.connection[ClusterId := m.clusterId][ClusterRef := m.resolved.value];
    forall key: ScopeKey ensures Entry(scope, key) == SentEntry(m, key) {}
    forall key: ScopeKey
      ensures Required(key) <==> Identifying(key)
      ensures Blank(p, Entry(scope, key)) <==> OnlySpaces(p, SentEntry(m, key))
    {
      BlankIsOnlySpaces(p, SentEntry(m, key));
    }
    forall key: ScopeKey
      ensures key in scope && |scope[key]| > MAX_SCOPE_CHARS <==> |SentEntry(m, key)| > MAX_SCOPE_CHARS
    {
      assert Entry(scope, key) == SentEntry(m, key);
    }
  }

  /** The message registered exactly this run; without ``registers`` it registered none. */
  ghost predicate RegisteredIff(p: Policy, s: State, m: Message, s': State, registers: bool) {
    if registers then
      && m.resolved.Some?
      && s'.runs
        == s.runs[m.runId := Run(m.chat, m.actor, false, if BuildScope(p, s, m).Some? then Waiting else NoTask)]
      && |s'.started| == |s.started| + 1
    else s'.runs.Keys == s.runs.Keys && s'.started == s.started
  }

  /** The pending code that a presented one redeems for a request with a cluster. */
  predicate Redeems(s: State, m: Message, stage: Stage, supplied: string) {
    && m.allowed && m.actor in Codes(s, stage)
    && Accepts(Codes(s, stage)[m.actor], m, supplied) && Codes(s, stage)[m.actor].cluster != ""
  }

  lemma PresentRegistersIff(p: Policy, s: State, m: Message, stage: Stage, supplied: string)
    requires Presented(m.text) == Some((stage, supplied))
    ensures RegisteredIff(p, s, m, Present(p, s, m, stage, supplied), Registers(p, s, m))
  {
    if Redeems(s, m, stage, supplied) {
      RedeemedRegistersIff(p, s, m, stage, supplied);
    } else {
      RefusedRegistersNothing(p, s, m, stage, supplied);
    }
  }

  lemma RefusedRegistersNothing(p: Policy, s: State, m: Message, stage: Stage, supplied: string)
    requires Presented(m.text) == Some((stage, supplied)) && !Redeems(s, m, stage, supplied)
    ensures !Registers(p, s, m)
    ensures Present(p, s, m, stage, supplied).runs == s.runs && Present(p, s, m, stage, supplied).started == s.started
  {
  }

  lemma RedeemedRegistersIff(p: Policy, s: State, m: Message, stage: Stage, supplied: string)
    requires Presented(m.text) == Some((stage, supplied)) && Redeems(s, m, stage, supplied)
    ensures RegisteredIff(p, s, m, Present(p, s, m, stage, supplied), Registers(p, s, m))
  {
    var (burned, confirmed) := Consume(s, stage, m, supplied);
    ProceedRegistersIff(p, burned, m, confirmed.value.prompt, confirmed);
    assert Busy(burned, m.actor, m.chat) <==> Busy(s, m.actor, m.chat);
    assert Registers(p, s, m) <==> RunsNow(p, burned, m, confirmed.value.prompt, confirmed);
  }

  /** A message registers a run exactly when it presents a valid code of a request that may run now. */
  lemma HandleRegistersIff(p: Policy, s: State, m: Message)
    ensures RegisteredIff(p, s, m, Handle(p, s, m), Registers(p, s, m))
  {
    match m.text
    case ConfirmFull(supplied) => PresentRegistersIff(p, s, m, FullCode, supplied);
    case ConfirmDestructive(supplied) => PresentRegistersIff(p, s, m, DestructiveCode, supplied);
    case Ask(body) => ProceedRegistersIff(p, s, m, body, None);
    case Plain(body) => ProceedRegistersIff(p, s, m, body, None);
    case _ => CommandTouchesRuns(p, s, m);
  }

  /** A message leaves an entry without a task exactly when it registers a run whose scope is rejected. */
  lemma RegistrationIsOrphanedIff(p: Policy, s: State, m: Message)
    requires m.runId !in s.runs
    ensures Orphaned(Handle(p, s, m), m.runId, m.actor, m.chat) <==> Registers(p, s, m) && ScopeIsRejected(p, s, m)
  {
    HandleRegistersIff(p, s, m);
    if Registers(p, s, m) {
      ScopeIsBuiltIff(p, s, m);
    }
  }

  /** What is sent about a cluster with a name and a database, and with these monitor nodes. */
  function Connection(monitors: string): Scope {
    map[Name := "prod", DatabaseSource := "local", DatabaseUrl := "sqlite", MonNodes := monitors]
  }

  /** The messages of an operator who confirms a harmless request for such a cluster. */
  function HarmlessRequest(actor: string, chat: string, monitors: string): seq<Event> {
    var connection := Connection(monitors);
    var choose := Message(actor, chat, SelectMode(Full), 0, true, None, "1", "", "", None, connection, false);
    var ask := Message(actor, chat, Plain("go"), 0, true, Some("c:1"), "1", "code", "r0", Some("1"), connection, false);
    var confirm :=
      Message(actor, chat, ConfirmFull("code"), 0, true, Some("c:1"), "1", "", "r1", Some("1"), connection, false);
    [Receive(choose), PressCluster(actor, "c:1"), Receive(ask), Receive(confirm)]
  }

  lemma RequestIsPending(p: Policy, actor: string, chat: string, monitors: string)
    requires !p.destroysData("go") && !p.readOnlyQuestion("go", "c:1")
    ensures var s := History(p, HarmlessRequest(actor, chat, monitors)[..3]);
      && s.full == map[actor := Pending(0, "code", chat, "go", "c:1", CONFIRM_TTL)]
      && s.modes == map[actor := Full] && s.clusters == map[actor := "c:1"] && s.runs == map[]
  {
    var events := HarmlessRequest(actor, chat, monitors);
    var chosen := ChooseMode(INITIAL, actor, Full, true);
    assert events[..3][..2] == events[..2] && events[..2][..1] == events[..1] && events[..1][..0] == [];
    assert History(p, events[..0]) == INITIAL;
    assert History(p, events[..1]) == chosen;
    assert History(p, events[..2]) == chosen.(clusters := map[actor := "c:1"]);
  }

  /** Such a request is registered, and without a task exactly when its scope is rejected. */
  lemma RequestIsRegistered(p: Policy, actor: string, chat: string, monitors: string)
    requires !p.destroysData("go") && !p.changesService("go") && !p.readOnlyQuestion("go", "c:1")
    ensures var events := HarmlessRequest(actor, chat, monitors);
      Orphaned(History(p, events), "r1", actor, chat)
      <==> ScopeIsRejected(p, History(p, events[..3]), events[3].message)
  {
    var events := HarmlessRequest(actor, chat, monitors);
    RequestIsPending(p, actor, chat, monitors);
    RegistrationIsOrphanedIff(p, History(p, events[..3]), events[3].message);
  }

  /** A cluster without monitor nodes: the run never gets a task. */
  lemma RequestWithoutMonitorsIsOrphaned(p: Policy, actor: string, chat: string)
    requires !p.destroysData("go") && !p.changesService("go") && !p.readOnlyQuestion("go", "c:1")
    ensures Orphaned(History(p, HarmlessRequest(actor, chat, "")), "r1", actor, chat)
  {
    RequestIsRegistered(p, actor, chat, "");
    assert Identifying(MonNodes) && OnlySpaces(p, SentEntry(HarmlessRequest(actor, chat, "")[3].message, MonNodes));
  }

  /** It is the monitor nodes alone that decide: with any that are not blank the run gets its task. */
  lemma RequestIsOrphanedIff(p: Policy, actor: string, chat: string, monitors: string)
    requires !p.destroysData("go") && !p.changesService("go") && !p.readOnlyQuestion("go", "c:1")
    requires !p.isSpace('1') && !p.isSpace('c') && !p.isSpace('p') && !p.isSpace('l') && !p.isSpace('s')
    requires |monitors| <= MAX_SCOPE_CHARS
    ensures Orphaned(History(p, HarmlessRequest(actor, chat, monitors)), "r1", actor, chat) <==> OnlySpaces(p, monitors)
  {
    RequestIsRegistered(p, actor, chat, monitors);
    RequestIsPending(p, actor, chat, monitors);
    var m := HarmlessRequest(actor, chat, monitors)[3].message;
    OnlyMonitorsMayBeBlank(p, m, monitors);
    forall key ensures |SentEntry(m, key)| <= MAX_SCOPE_CHARS {}
  }

  lemma OnlyMonitorsMayBeBlank(p: Policy, m: Message, monitors: string)
    requires !p.isSpace('1') && !p.isSpace('c') && !p.isSpace('p') && !p.isSpace('l') && !p.isSpace('s')
    requires m.connection == Connection(monitors) && m.clusterId == "1" && m.resolved == Some("c:1")
    ensures (exists key :: Identifying(key) && OnlySpaces(p, SentEntry(m, key))) <==> OnlySpaces(p, monitors)
  {
    forall key | Identifying(key) && key != MonNodes ensures !OnlySpaces(p, SentEntry(m, key)) {
      assert !p.isSpace(SentEntry(m, key)[0]);
    }
    assert SentEntry(m, MonNodes) == monitors;
  }

  // ----- The module state in place -----

  class TelegramChat {
    var full: map<string, Pending>
    var destructive: map<string, Pending>
    var modes: map<string, Mode>
    var clusters: map<string, string>
    var runs: map<string, Run>
    var issued: seq<Issue>
    var redeemed: seq<Redemption>
    var started: seq<Start>
    var launched: seq<string>

    function View(): State
      reads this
    {
      State(full, destructive, modes, clusters, runs, issued, redeemed, started, launched)
    }

    constructor ()
      ensures View() == INITIAL
    {
      full, destructive, modes, clusters, runs := map[], map[], map[], map[], map[];
      issued, redeemed, started, launched := [], [], [], [];
    }

    method ClearFullConfirmation(actor: string)
      modifies this
      ensures View() == ClearConfirmations(old(View()), actor)
    {
      full := full - {actor};
      destructive := destructive - {actor};
    }

    method IssueConfirmation(stage: Stage, m: Message, prompt: string, cluster: string, parent: Option<nat>)
      modifies this
      ensures View() == IssueCode(old(View()), stage, m, prompt, cluster, parent)
    {
      var pending := Pending(|issued|, m.code, m.chat, prompt, cluster, m.now + CONFIRM_TTL);
      if stage == FullCode {
        full := full[m.actor := pending];
      } else {
        destructive := destructive[m.actor := pending];
      }
      issued := issued + [Issue(stage, m.actor, m.chat, prompt, cluster, m.code, m.now, parent)];
    }

    method ConsumeConfirmation(stage: Stage, m: Message, supplied: string) returns (confirmed: Option<Confirmed>)
      modifies this
      ensures (View(), confirmed) == Consume(old(View()), stage, m, supplied)
    {
      var codes := if stage == FullCode then full else destructive;
      if stage == FullCode {
        full := full - {m.actor};
      } else {
        destructive := destructive - {m.actor};
      }
      if m.actor !in codes || !Accepts(codes[m.actor], m, supplied) {
        return None;
      }
      var pending := codes[m.actor];
      redeemed := redeemed + [Redemption(pending.serial, m.actor, m.chat, supplied, m.now)];
      if pending.cluster == "" {
        return None;
      }
      return Some(Confirmed(stage, pending.prompt, pending.cluster, |redeemed| - 1));
    }

    method ChangeMode(actor: string, mode: Mode, allowed: bool)
      modifies this
      ensures View() == ChooseMode(old(View()), actor, mode, allowed)
    {
      if mode == Full && !allowed {
        return;
      }
      if mode != Full {
        ClearFullConfirmation(actor);
      }
      modes := modes[actor := mode];
      clusters := clusters - {actor};
    }

    method Serve(p: Policy, m: Message, text: string, confirmed: Option<Confirmed>)
      modifies this
      ensures View() == Proceed(p, old(View()), m, text, confirmed)
    {
      if |text| > MAX_MESSAGE_CHARS {
        return;
      }
      if m.resolved == None {
        return;
      }
      var cluster := m.resolved.value;
      if confirmed.Some? && confirmed.value.cluster != cluster {
        return;
      }
      var mode := if m.actor in modes then modes[m.actor] else p.defaultMode;
      if mode == Full && p.destroysData(text) {
        ClearFullConfirmation(m.actor);
        return;
      }
      if mode == Full && confirmed.Some? && p.changesService(text) && confirmed.value.stage != DestructiveCode {
        IssueConfirmation(DestructiveCode, m, text, cluster, Some(confirmed.value.redemption));
        return;
      }
      if mode == Full && confirmed == None && p.readOnlyQuestion(text, cluster) {
        mode := Single;
      }
      if mode == Full && confirmed == None {
        if !m.allowed {
          modes := modes[m.actor := Single];
          return;
        }
        IssueConfirmation(FullCode, m, text, cluster, None);
        return;
      }
      if mode == Full {
        if !m.allowed {
          modes := modes[m.actor := Single];
          return;
        }
        RegisterRun(p, m, confirmed.value);
      }
    }

    /** Registers the run, then creates its task if the connection scope can be built. */
    method RegisterRun(p: Policy, m: Message, c: Confirmed)
      requires m.resolved.Some?
      modifies this
      ensures View() == Register(p, old(View()), m, c)
    {
      if exists id :: id in runs && runs[id].actor == m.actor && runs[id].chat == m.chat {
        return;
      }
      runs := runs[m.runId := Run(m.chat, m.actor, false, NoTask)];
      started := started + [Start(m.runId, m.actor, m.chat, c.prompt, c.cluster, c.redemption)];
      var sameCluster := m.actor !in clusters || m.target == None || m.target.value == m.clusterId;
      var scope := m.connection[ClusterId := m.clusterId][ClusterRef := m.resolved.value];
      if sameCluster && NormalizeScope(p, scope).Some? {
        runs := runs[m.runId := Run(m.chat, m.actor, false, Waiting)];
      }
    }

    method HandleMessage(p: Policy, m: Message)
      modifies this
      ensures View() == Handle(p, old(View()), m)
    {
      match m.text
      case ConfirmFull(supplied) =>
        if m.allowed {
          var confirmed := ConsumeConfirmation(FullCode, m, supplied);
          if confirmed.Some? {
            Serve(p, m, confirmed.value.prompt, confirmed);
          }
        }
      case ConfirmDestructive(supplied) =>
        if m.allowed {
          var confirmed := ConsumeConfirmation(DestructiveCode, m, supplied);
          if confirmed.Some? {
            Serve(p, m, confirmed.value.prompt, confirmed);
          }
        }
      case Ask(body) =>
        if body != "" {
          Serve(p, m, body, None);
        }
      case SelectMode(mode) => ChangeMode(m.actor, mode, m.allowed);
      case NewChat => ClearFullConfirmation(m.actor);
      case StopRun =>
        if !m.dualRunning {
          runs := map id | id in runs ::
            if runs[id].actor == m.actor && runs[id].chat == m.chat then runs[id].(stopRequested := true) else runs[id];
        }
      case OtherCommand =>
      case Plain(body) =>
        if body != "" {
          Serve(p, m, body, None);
        }
    }
  }
}
