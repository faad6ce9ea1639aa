# Ceph-AI: verified models of its stateful protocols

A Dafny 4.11 model of the parts of Ceph-AI whose correctness depends on many steps, or many
functions, working together. `dafny verify dfyconfig.toml` checks everything.

| module | what it models |
|---|---|
| `AiCost`, `AiBudget`, `BudgetProtocol` | pricing of AI calls, the grouped cost report, the hard budget check, and the same check as concurrent transactions with settlements, crashes and late commits |
| `ClusterCache` | the cluster-selection cache as interleaved readers, refills and session hooks |
| `SingleFull`, `SingleFullCodes` | the one-shot confirmations of Single Full mode over whole message histories, the class that carries them out, and which messages are answered with a code or a run |
| `UpdateCursor`, `ListenerSupervisor` | delivery of Telegram updates across crashes and lost writes, and the debounced supervisor of the listeners |
| `RuntimeReplay`, `ReplayCausality` | the temporal-holdout replay, the telemetry segment it builds features from, and what its features and scores can see |
| `ChatPacking` | packing of chat history into three budgets |
| `DualExchange`, `ExchangeAccounts` | the two-agent exchange with account fallback, and which account is asked when |
| `Forecast`, `LinearBaseline`, `ForecastBenchmark` | error measures, least squares, the forecasting baselines and the baseline report |
| `SlowOpReplay` | the replay of slow-op incidents through the episode gate |
| `AlertCenter` | grouping and paging of alerts |
| `Wrappers`, `Sums`, `Grouping`, `Sorting`, `Reals`, `Remainders` | shared vocabulary |

Two forms recur. An operation that updates objects or local variables is a method (of a class where the
source has lasting state) whose postcondition equates its result with a function of the old state; what
the source promises is proved about that function. A protocol whose steps interleave is a relation
`Step` between states; what it promises is proved for every run. Money, forecasts and clocks are exact
reals or integers. Providers, price lookups, regular expressions, feature builders and percentiles are
arbitrary functions, so the results hold for all of them. The functions of the model are in turn tied to the
settings and inputs of a caller: what a check, a message, a packed history or a score means is stated without them.

Where the code does not do what a comment, a docstring or the obvious expectation says, the code is
modelled and the difference is stated:

* `config/settings.py:357-359` says that an expired reservation is excluded from future accounting. The
  reserve path turns it into an ERROR row (`shared/ai_budget.py:126-128`), which stays charged; only the
  status report skips a stale row while it is still RESERVED. The two sums differ if and only if such a row
  of the period costs something (`AiBudget.ReservePathDiffersIff`, `AiBudget.StaleReservationIsStillCharged`).
* Expiry takes no row lock, and its marks are written only at the commit (`shared/db.py:81`). A settlement that
  commits in between keeps its tokens but loses its status to the expiry
  (`BudgetProtocol.LateSettlementIsOverwritten`, `BudgetProtocol.CommitOverwritesIff`); the budget bound counts
  it at its priced cost.
* A refill of the cluster cache can block forever, so that no cluster is selected again. It waits for itself if
  and only if its INSERT of the default cluster is executed while there is none
  (`ClusterCache.RefillBlocksIffDefaultMissing`), and it and a local session that has inserted the row wait for
  each other in exactly the runs where the two meet (`ClusterCache.DeadlockArisesIff`). In every reachable state
  a refill can still return if and only if it is in neither of these ways and not bound for the second one
  (`ClusterCache.RefillReturnsIff`). Losing the race to another process's row is harmless
  (`ClusterCache.RefillLosesRaceAndReturns`).
* A Single Full code is used up by a wrong presentation only if the sender has full access
  (`SingleFull.PresentedCodeIsBurned`). A run is registered before its connection scope is checked; when the
  scope is rejected the run never gets a task and stays registered until a restart
  (`SingleFull.RegistrationIsOrphanedIff`, `SingleFull.RequestIsOrphanedIff`,
  `SingleFull.OrphanBlocksUntilRestart`).
* The persisted cursor can decrease when two listeners of one token overlap
  (`UpdateCursor.OverlappingListenersLowerCursor`) or when the file could not be read at a restart
  (`UpdateCursor.FailedReadLowersCursor`); a listener can lower it if and only if the file is more than one
  ahead of what the listener knows (`UpdateCursor.CursorIsAtRiskIff`). The supervisor lets two listeners of a
  token overlap if and only if the token was stable, went away and became stable again
  (`UpdateCursor.ListenersOverlapIff`).
* Truncating a chat message to 50 characters yields 51, the only limit that is missed
  (`ChatPacking.TruncateMissesOneLimit`), and a packed history can exceed its limits by one for this reason
  and for no other (`ChatPacking.PackedHistoryFitsIff`, `ChatPacking.PackedOneOverLimit`).
* The seasonal baseline ignores the horizon: it is exact on periodic series if and only if the horizon is
  one step beyond a whole number of seasons (`ForecastBenchmark.SeasonalModelIsExactIff`).

## Model

| member | source | states |
|---|---|---|
| AiCost.EstimatedTokens | shared/ai_cost.py:117-118 | the least number of tokens whose characters cover the text |
| AiCost.RowCostMeans | shared/ai_budget.py:69-85 | a million times the cost of a row is input tokens at the input rate plus output tokens at the output rate, with the reported tokens where there are any |
| AiCost.SameGroupIff | shared/ai_cost.py:220-222 | two calls share a line of the report if and only if they agree on feature, provider and model |
| AiCost.GroupCostIsSumOfRowCosts | shared/ai_cost.py:229-249 | pricing the summed tokens of a group is summing the prices of its rows |
| AiCost.UnpricedGroupCostsNothing | shared/ai_cost.py:239-243 | a group without a price adds nothing to any total |
| AiCost.DescribeGroup | shared/ai_cost.py:228-254 | a line counts the calls and tokens of its group, is unpriced exactly when all its rows are, and otherwise costs the sum of their costs |
| AiCost.GroupCostsAddUp | shared/ai_cost.py:219-249 | the group totals add up to the cost of all recent rows: none is missed or counted twice |
| AiCost.Summary | shared/ai_cost.py:212-255 | one correct line per group, each group once, the lines with and without a price counted, and the unrounded total equals the row-by-row total |
| AiBudget.SpentSince | shared/ai_budget.py:98-116 | the loop returns the sum of the costs of the counted rows and the number of counted rows without a price |
| AiBudget.ExpireStaleReservations | shared/ai_budget.py:119-129 | exactly the reservations older than the timeout become ERROR; every other row is unchanged |
| AiBudget.ReservePathSpend | shared/ai_budget.py:98-129 | what the reserve path sums after expiry is what the status report sums plus the cost of the stale rows still RESERVED |
| AiBudget.ExpiryNeverLowersSpend | shared/ai_budget.py:119-129 | expiry never lowers the sum the hard check uses |
| AiBudget.ReservePathDiffersIff | shared/ai_budget.py:98-129 | the reserve path and the status report sum differently if and only if a stale reservation of the period has a positive cost |
| AiBudget.StaleReservationIsStillCharged | config/settings.py:357-359 | a ledger on which they differ: one stale reservation counts nothing in the report and its full estimate in the check |
| AiBudget.FreshReservationPricesToEstimate | shared/ai_budget.py:56-85 | the inserted reservation prices to exactly the estimate the check used |
| AiBudget.EstimateMeans | shared/ai_budget.py:56-66 | the estimate prices the prompt and the whole reserved output |
| AiBudget.ExpiresIff | shared/ai_budget.py:94-129 | a row expires if and only if it is RESERVED and older than the timeout, which is at least a minute |
| AiBudget.Ledger.constructor | shared/ai_budget.py:98-129 | an empty ledger with the given lock rows |
| AiBudget.Ledger.ReserveHardBudget | shared/ai_budget.py:159-220 | the decision for the expired ledger; a rejected call leaves rows and locks unchanged, an admitted one appends exactly the reservation |
| AiBudget.Ledger.Check | shared/ai_budget.py:223-262 | the verdict for every setting, price and ledger, and the whole new ledger in each case |
| AiBudget.ReservedIff | shared/ai_budget.py:159-220 | a call is reserved if and only if it has a price, every lock row exists, and every active period has no unpriced row and room for the estimate |
| AiBudget.ReservedIffWithinBudgets | shared/ai_budget.py:48-262 | a call is reserved if and only if a positive budget is enforced, the model has a price, the lock rows exist, and the rows since the start of the day, the new one included, are priced and cost less than the daily budget, and those of the month less than the monthly one; a budget of zero or less restricts nothing |
| AiBudget.VerdictMeans | shared/ai_budget.py:159-262 | every other verdict is given for exactly its reason: the period it names, the sum or the count it reports, and the day before the month |
| AiBudget.LocksAreDated | shared/ai_budget.py:185-190 | a reserved call dates the lock row of each positive budget with the start of its period and leaves the other alone |
| AiBudget.ReportAgreesWithLedger | shared/ai_cost.py:212-255 | for the same rows and cutoff, the report total is the ledger spend plus the cost of the rows the ledger skips |
| BudgetProtocol.OtherTransactionsAreCovered | shared/ai_observability.py:115-127 | whatever commits between two statements of a check, settlements of the rows it is expiring included, raises the charges of a period, as committed and as they will be with the marks, by no more than the overrun it records |
| BudgetProtocol.ExpiryKeepsCharges | shared/ai_budget.py:119-129 | marking rows as expired changes no charge |
| BudgetProtocol.ReadingCoversPeriod | shared/ai_budget.py:98-116 | a sum read by a check, from its own copies of the stale rows, covers all charges of the period of its clock sample up to recorded overruns |
| BudgetProtocol.CommitKeepsBound | shared/ai_budget.py:203-212 | committing a reservation and the marks of its expiry keeps the bound of every period, also for a clock sampled before the wait and for rows settled after they were marked |
| BudgetProtocol.StepKeepsInvariant | shared/ai_budget.py:159-220 | lock, expiry, each read, commit, rollback, any settlement and unreserved record keep the invariant |
| BudgetProtocol.BudgetIsNeverOverspent | shared/ai_budget.py:98-220 | in every state of every interleaving, the charges of the rows created in any day or month stay strictly below its limit plus what the priced cost of settlements and unreserved records exceeded the charges they replaced |
| BudgetProtocol.PricedCostBound | shared/ai_budget.py:98-220 | the same for the priced cost itself, up to rows marked as rejected before a provider |
| BudgetProtocol.BudgetsAreNeverOverspent | shared/ai_budget.py:48-220 | under every interleaving the rows of any day cost less than a positive daily budget plus what later transactions added to that day, and the rows of any month likewise |
| BudgetProtocol.CoveredCallsStayWithinBudgets | shared/ai_budget.py:48-220 | as long as no settlement costs more than its reservation and no unreserved record costs anything, no interleaving spends a whole daily or monthly budget |
| BudgetProtocol.LocksAreHeld | shared/ai_budget.py:176-212 | while one check holds the locks no other begins, and it stays the same check until it commits or is rolled back |
| BudgetProtocol.OthersNeverWait | shared/ai_observability.py:115-127 | settlements and unreserved records commit in every state, and a check can fail at any point |
| BudgetProtocol.CommitOverwritesIff | shared/ai_budget.py:121-129 | the commit of a check overwrites the status of a row exactly when the check marked its own copy of it |
| BudgetProtocol.LateSettlementIsOverwritten | shared/ai_budget.py:121-212 | a run of eleven steps: a late settlement commits as a success and the check that had marked the reservation turns it into an expired error |
| BudgetProtocol.ReserveIsARun | shared/ai_budget.py:176-212 | a reserved check of the sequential ledger is a run of the protocol and ends with the same rows |
| ClusterCache.StepKeepsInvariant | dashboard/cluster_scope.py:27-83 | every step of readers, refills, writers, hooks and clock keeps cache and refills as fresh as the last clearing, and one owner of the lock |
| ClusterCache.ViewStaysFresh | dashboard/cluster_scope.py:56-83 | a reader that has seen nothing older than a version never will |
| ClusterCache.NoStaleSelectionAfterCommitHook | dashboard/cluster_scope.py:48-83 | once the commit hook of a Cluster write has returned, no later call returns a default or a list read before that commit, under any interleaving |
| ClusterCache.ReturnedListIsYoung | dashboard/cluster_scope.py:56-83 | a returned list was read less than the TTL before the clock sample of its reader |
| ClusterCache.RefillStores | dashboard/cluster_scope.py:69-83 | a refill that finds the default row stores what it read for one second from its own clock sample, and releases the lock |
| ClusterCache.CallReusesIff | dashboard/cluster_scope.py:56-65 | a call returns the cached entry without the lock if and only if the entry has not expired at its clock sample |
| ClusterCache.WaiterReusesIff | dashboard/cluster_scope.py:67-73 | a reader that waited for the lock decides by the clock and the entry it finds then |
| ClusterCache.RolledBackWriteStillClears | dashboard/cluster_scope.py:34-53 | a rolled-back write leaves its mark, so the next commit of the session clears the cache without a new version |
| ClusterCache.SeedingBlocksForever | dashboard/cluster_scope.py:34-45 | a refill waiting in its own flush hook keeps the lock in every later state, and no commit hook returns again |
| ClusterCache.RefillBlocksIffDefaultMissing | shared/clusters.py:50-80 | in any state of any run a refill is stuck if and only if its INSERT was executed while no default row existed |
| ClusterCache.RefillReturnsIff | dashboard/cluster_scope.py:27-83 | in any state of any run, a refill holding the lock has a continuation in which it gives it up if and only if it is not doomed: it does not wait in its own hook, and it neither waits for nor is bound to insert against a default row of a local session that waits for the lock |
| ClusterCache.DeadlockArisesIff | dashboard/cluster_scope.py:34-75 | a refill and a local session block each other if and only if the session inserted the default row under the waiting refill, or the refill missed the row while the session waited in its hook |
| ClusterCache.RefillGetsStuck | shared/clusters.py:71-73 | a run in which this happens |
| ClusterCache.RefillLosesRaceAndReturns | shared/clusters.py:74-80 | a run in which the refill finds no default row, loses the race to another process and returns |
| ClusterCache.SeederAndRefillBlockEachOther | dashboard/cluster_scope.py:34-45 | a local session that has inserted the default row and a refill waiting to insert it block each other in every later state |
| ClusterCache.SeederAndRefillMeet | dashboard/cluster_scope.py:34-75 | a run in which this happens |
| SingleFull.ConsumeKeepsInvariant | dashboard/telegram_chat.py:560-591 | presenting a code keeps the history of issued and redeemed confirmations sound |
| SingleFull.ProceedKeepsInvariant | dashboard/telegram_chat.py:1428-1589 | every branch from a prompt or a redeemed code to a new code, a refusal or a registered run keeps the invariant |
| SingleFull.HandleKeepsInvariant | dashboard/telegram_chat.py:1383-1589 | handling any message keeps the invariant |
| SingleFull.HistoryKeepsInvariant | dashboard/telegram_chat.py:1383-1604 | the invariant holds after every history of messages, task steps and restarts |
| SingleFull.RunsAreConfirmed | dashboard/telegram_chat.py:1395-1589 | a run is registered only for the exact prompt of an unexpired confirmation of the same actor, chat and cluster, never for a prompt that destroys data, and for a service-changing prompt only after both codes in order |
| SingleFull.ConfirmationsAreOneShot | dashboard/telegram_chat.py:560-651 | each confirmation is redeemed at most once and starts at most one run |
| SingleFull.AtMostOneRunRegistered | dashboard/telegram_chat.py:1562-1582 | at most one run per chat and actor is registered at a time |
| SingleFull.PresentedCodeIsBurned | dashboard/telegram_chat.py:568-591 | presenting any code removes the pending one exactly when the sender has full access; a refused code starts nothing |
| SingleFull.RunsLaunchAtMostOnce | dashboard/telegram_chat.py:1209-1296 | a registered run begins at most once |
| SingleFull.OrphanBlocksUntilRestart | dashboard/telegram_chat.py:1562-1582 | a run without a task keeps its operator busy until a restart, whatever messages arrive |
| SingleFull.HandleRegistersIff | dashboard/telegram_chat.py:1383-1589 | a message registers a run if and only if it presents a valid code, in time and in its chat, of a request whose cluster, mode, length, content and stage allow it, while no run of the operator is registered |
| SingleFull.ScopeIsBuiltIff | shared/single_full_scope.py:24-37 | the connection scope is built unless the choice leads to another cluster, an identifying entry is blank or an entry is longer than 2000 characters |
| SingleFull.RegistrationIsOrphanedIff | dashboard/telegram_chat.py:819-853 | a message leaves a run without a task if and only if it registers one and the connection scope it brings is rejected |
| SingleFull.RequestWithoutMonitorsIsOrphaned | dashboard/telegram_chat.py:1562-1590 | a concrete history that ends in such a run: a confirmed request for a cluster with a name, a database source and a database URL but without monitor nodes |
| SingleFull.RequestIsOrphanedIff | shared/single_full_scope.py:24-37 | that history ends without a task if and only if the monitor nodes are blank |
| SingleFull.HandleTouchesRuns | dashboard/telegram_chat.py:1383-1589 | one message stops some runs or registers one for an operator without any, nothing else |
| SingleFullCodes.CodeIsIssuedIff | dashboard/telegram_chat.py:1383-1510 | a message is answered with a code if and only if it is a prompt that needs its first code or redeems the first code of a service-changing prompt; questions, prompts that destroy data and senders without full access get none |
| SingleFullCodes.FirstCodeIsIssued | dashboard/telegram_chat.py:1487-1510 | the whole new state after a prompt that needs a code: one code of five minutes for this prompt, chat and cluster |
| SingleFullCodes.PromptWithoutCode | dashboard/telegram_chat.py:1450-1491 | what any other prompt in Full mode does: it is answered as a question, drops both codes, or ends the mode |
| SingleFullCodes.SecondCodeIsIssued | dashboard/telegram_chat.py:1461-1479 | the whole new state after the first code of a service-changing prompt: it is used up and a second code names it as its parent |
| SingleFullCodes.InvalidCodeIsBurned | dashboard/telegram_chat.py:568-591 | a wrong, late or misplaced code takes the pending one of its stage with it and changes nothing else |
| SingleFullCodes.RunIsRegisteredIff | dashboard/telegram_chat.py:1383-1590 | the condition of a registration in terms of the pending code, the mode and the runs |
| SingleFullCodes.RunIsRegistered | dashboard/telegram_chat.py:1555-1590 | the run is that of the redeemed prompt, cluster and code |
| SingleFullCodes.RunBeginsIff | dashboard/telegram_chat.py:1209-1296 | a registered run begins if and only if it waits for its task and was not stopped before |
| SingleFullCodes.MessageIsLocal | dashboard/telegram_chat.py:1383-1590 | no message changes the codes, the mode, the cluster or the runs of another operator |
| SingleFullCodes.ModeIsChosen | dashboard/telegram_chat.py:922-946 | leaving Full mode drops both codes of the operator, and Full mode needs the right |
| SingleFullCodes.StopReaches | dashboard/telegram_chat.py:1383-1427 | a stop reaches exactly the operator's runs in the chat, and none while a two-agent session runs |
| SingleFullCodes.ServiceRequestRuns | dashboard/telegram_chat.py:1383-1590 | a history from the prompt through both codes, each redeemed at the end of its time or before, to a run that waits for its task |
| SingleFull.TelegramChat.constructor | dashboard/telegram_chat.py:120-121 | the empty state |
| SingleFull.TelegramChat.ClearFullConfirmation | dashboard/telegram_chat.py:534-539 | removes both codes of the actor and nothing else |
| SingleFull.TelegramChat.IssueConfirmation | dashboard/telegram_chat.py:542-618 | stores the one code of this stage for the actor, replacing an older one |
| SingleFull.TelegramChat.ConsumeConfirmation | dashboard/telegram_chat.py:560-651 | returns the confirmed prompt and cluster exactly when chat, time and code fit; the new state is that of the protocol |
| SingleFull.TelegramChat.ChangeMode | dashboard/telegram_chat.py:922-946 | choosing a mode without the right changes nothing; any other choice sets it, forgets the cluster and, leaving Single Full, both codes |
| SingleFull.TelegramChat.Serve | dashboard/telegram_chat.py:1428-1589 | from a prompt or redeemed code to the exact new codes, mode and registered runs of the protocol |
| SingleFull.TelegramChat.RegisterRun | dashboard/telegram_chat.py:1560-1590 | registers the run of an operator without one, with a task exactly when the connection scope can be built |
| SingleFull.TelegramChat.HandleMessage | dashboard/telegram_chat.py:1383-1589 | the in-place updates for one message lead to exactly the state of the protocol |
| UpdateCursor.SaveIsLocal | dashboard/telegram_approval_bot.py:1064-1102 | saving one token's cursor keeps every other token's, and is read back exactly when the write went through |
| UpdateCursor.Listener.constructor | dashboard/telegram_approval_bot.py:1064-1074 | a listener begins at the persisted offset, or without one when it cannot be read |
| UpdateCursor.Listener.HandleBatch | dashboard/telegram_approval_bot.py:1158-1213 | a batch is handled in order and acknowledged update by update, except on the duplicate-database path |
| UpdateCursor.RunKeepsInvariant | dashboard/telegram_approval_bot.py:1142-1213 | every run of arrivals, starts, polls, handled updates and deaths keeps the invariant |
| UpdateCursor.AcknowledgedMeansHandled | dashboard/telegram_approval_bot.py:1077-1102 | across crashes, restarts, failed reads and writes and overlapping listeners, every update below the persisted cursor was handled at least once |
| UpdateCursor.HandledAtMostOncePerListener | dashboard/telegram_approval_bot.py:1142-1213 | one listener handles an update twice only on the duplicate-database path |
| UpdateCursor.PollReturns | dashboard/telegram_approval_bot.py:1142-1157 | a poll can return any number of updates, from the first one that neither the listener's offset nor an offset given earlier excludes |
| UpdateCursor.DeathIsAlwaysPossible | dashboard/telegram_approval_bot.py:1158-1213 | a listener can die with an update in its hands, before or after its handler |
| UpdateCursor.CursorDropsIff | dashboard/telegram_approval_bot.py:1211-1213 | only handling lowers a cursor, and only by a successful save of an older number |
| UpdateCursor.OneBehindIsSafe | dashboard/telegram_approval_bot.py:1211-1213 | a listener that is at most one behind the file never lowers its cursor |
| UpdateCursor.CursorIsAtRiskIff | dashboard/telegram_approval_bot.py:1064-1213 | for every known offset and every cursor there is a run in which that listener lowers that cursor if and only if the cursor is more than one ahead |
| UpdateCursor.CursorNeverDecreases | dashboard/telegram_approval_bot.py:1077-1213 | while each listener starts with a readable file and no predecessor at work, no cursor ever decreases, whatever crashes and fails to be written |
| UpdateCursor.OverlappingListenersLowerCursor | dashboard/telegram_approval_bot.py:1211-1256 | a run in which all reads and writes succeed, two listeners of one token overlap and the cursor falls from 7 to 6 |
| UpdateCursor.FailedReadLowersCursor | dashboard/telegram_approval_bot.py:1064-1074 | a run without overlap in which a listener dies, the next one cannot read the file, and the cursor falls from 7 to 6 |
| UpdateCursor.ListenersOverlapIff | dashboard/telegram_approval_bot.py:1216-1256 | for every history of passes, some run has a listener begin while an earlier one of its token is at work if and only if the token was stable in two consecutive passes, missing in a later one and stable again after that |
| UpdateCursor.SteadyTokensKeepCursor | dashboard/telegram_approval_bot.py:1064-1259 | over any number of processes, if every listener reads the file when it begins and no supervisor saw its token leave and return, no cursor ever decreases |
| ListenerSupervisor.Supervisor.constructor | dashboard/telegram_approval_bot.py:1239-1240 | no listener and no token seen |
| ListenerSupervisor.Supervisor.StartListener | dashboard/telegram_approval_bot.py:1247-1250 | one more thread, listed for its token |
| ListenerSupervisor.Supervisor.StopListener | dashboard/telegram_approval_bot.py:1253-1254 | the thread of the token is told to stop and no longer listed |
| ListenerSupervisor.Supervisor.StartListeners | dashboard/telegram_approval_bot.py:1246-1250 | every stable token has a listener, old ones keep theirs, and exactly the stable tokens without one are given one new thread each |
| ListenerSupervisor.Supervisor.StopListeners | dashboard/telegram_approval_bot.py:1252-1254 | exactly the listeners of tokens that are gone are told to stop |
| ListenerSupervisor.Supervisor.Reconcile | dashboard/telegram_approval_bot.py:1241-1256 | afterwards the listed tokens are those of this pass and the previous one, each newly listed token was given exactly one thread, and every thread no longer listed has been told to stop |
| ListenerSupervisor.Supervisor.Shutdown | dashboard/telegram_approval_bot.py:1258-1259 | every thread ever started has been told to stop |
| ListenerSupervisor.Supervisor.OneListenerPerToken | dashboard/telegram_approval_bot.py:1239-1259 | no token ever has two listeners that were not told to stop |
| ListenerSupervisor.Supervise | dashboard/telegram_approval_bot.py:1216-1259 | over any passes the listeners are those the last two passes say, and every token was given as many threads as it gained a listener |
| ListenerSupervisor.StartsAgainIff | dashboard/telegram_approval_bot.py:1241-1256 | a token is given a second thread if and only if it was stable, missing in a later pass and stable again after that |
| RuntimeReplay.ContinuousHistory | scripts/river_linear_v2_runtime_replay.py:24-50 | the scan returns the latest segment: without a gap, and maximal up to the start, a gap or 512 points |
| RuntimeReplay.LatestSegmentIsUnique | scripts/river_linear_v2_runtime_replay.py:42-50 | that description determines the segment |
| RuntimeReplay.HistoryHasNoFutureAndNoGap | scripts/river_linear_v2_runtime_replay.py:24-50 | sorted points at or before the cutoff, at most 512, no two further apart than the limit |
| ReplayCausality.HistoryIsWhatFollowsTheGap | scripts/river_linear_v2_runtime_replay.py:35-50 | the history is the end of the sorted observations: all, the last 512, or what follows the latest gap strictly above the limit |
| ReplayCausality.LaterPointIsIgnored | scripts/river_linear_v2_runtime_replay.py:35-41 | an observation after the cutoff makes no difference wherever it stands |
| RuntimeReplay.FateOf | scripts/river_linear_v2_runtime_replay.py:100-123 | a run reaches scoring exactly when quality, schema and label are accepted |
| RuntimeReplay.BeforeScoring | scripts/river_linear_v2_runtime_replay.py:82-86 | learning what is due leaves the model trained on exactly the accepted earlier labels verified by the prediction, each once |
| RuntimeReplay.StepKeepsReplayed | scripts/river_linear_v2_runtime_replay.py:79-143 | every run keeps: fair scores, all accepted runs scored in order, every accepted label learned or pending, exact counts |
| RuntimeReplay.ReplayCases | scripts/river_linear_v2_runtime_replay.py:79-143 | the loop computes exactly the step-by-step replay |
| RuntimeReplay.TallyCountsRuns | scripts/river_linear_v2_runtime_replay.py:100-124 | the four counts add up to the number of runs |
| RuntimeReplay.ReplayIsFair | scripts/river_linear_v2_runtime_replay.py:79-143 | learned plus pending equals verified, the accepted runs are scored in order, and the skip counts are those of the individual runs |
| RuntimeReplay.ReplayScope | scripts/river_linear_v2_runtime_replay.py:53-143 | the reported scores are those of the replay of the window, fair and in order, and quality skips, schema skips, unlabelled and verified runs add up to the window |
| RuntimeReplay.NoFutureLabel | scripts/river_linear_v2_runtime_replay.py:79-86 | no score uses its own label, a later run's, one verified after the prediction, or one twice |
| ReplayCausality.FeaturesSeeNoFuture | scripts/river_linear_v2_runtime_replay.py:87-96 | the features of a run change neither with observations after its prediction nor with later runs |
| ReplayCausality.FeaturesAreBuiltFrom | scripts/river_linear_v2_runtime_replay.py:87-99 | from which points the features are built, and that the quality is a gap if and only if all telemetry by then is older than the limit or the builder says so |
| ReplayCausality.WindowIsLatest | scripts/river_linear_v2_runtime_replay.py:59 | the replay covers the last 512 runs: none left out was predicted later than one covered |
| ReplayCausality.ScoredIff | scripts/river_linear_v2_runtime_replay.py:100-123 | a run is scored if and only if its features are good, have the names of the first good ones, and its label was verified by the evaluator with evidence, not before the target, and fits the measurement |
| ReplayCausality.TrainedOnIff | scripts/river_linear_v2_runtime_replay.py:79-86 | a score was trained on exactly the earlier scored runs whose labels were verified by its prediction; their targets had passed |
| ReplayCausality.ScoresAreOrderly | scripts/river_linear_v2_runtime_replay.py:79-86 | labels are learned in the order of their runs, except where a prediction lay between their verifications |
| ReplayCausality.TallyMeans | scripts/river_linear_v2_runtime_replay.py:100-124 | what each of the four counts counts |
| ReplayCausality.ScoresSeeNoFuture | scripts/river_linear_v2_runtime_replay.py:53-143 | the scores of the runs up to any one, with their training and predictions, change neither with later observations nor with later runs nor with the labels of later runs |
| ChatPacking.EstimatedTokens | dashboard/chat_client.py:341-344 | the least number of two-character tokens that covers the text |
| ChatPacking.TruncateMissesOneLimit | dashboard/chat_client.py:347-357 | a text is cut to exactly its limit, except that the limit 50 gives 51; a text that fits is left alone |
| ChatPacking.TruncateKeepsBothEnds | dashboard/chat_client.py:352-357 | from limit 50 on a cut text is its own beginning and end around the marker; above it the beginning takes three fifths of the room, rounded down |
| ChatPacking.TruncateKeepsBeginning | dashboard/chat_client.py:347-352 | below it a text is cut to its beginning |
| ChatPacking.SelectRecent | dashboard/chat_client.py:420-440 | the backwards loop selects exactly the specified messages |
| ChatPacking.PackChatHistory | dashboard/chat_client.py:381-449 | the packed history for every history and setting |
| ChatPacking.KeepStaysWithinBudgets | dashboard/chat_client.py:423-438 | the selection keeps its three budgets exactly when no message was cut at the missed limit; otherwise the excess is one |
| ChatPacking.NothingIsLeftOutWhileThereIsRoom | dashboard/chat_client.py:423-429 | selection stops early only when the messages, the characters or the tokens are used up |
| ChatPacking.PackUsesUpALimit | dashboard/chat_client.py:381-449 | a history within 20 messages and the limits that are set is left alone; of any other a nonempty message is left out or cut only when the packed history has 20 messages or has used up the characters or the tokens |
| ChatPacking.SummarySays | dashboard/chat_client.py:360-376 | the summary reads: the number of user messages, the number of the others, and the first five intents |
| ChatPacking.DecimalDenotes | dashboard/chat_client.py:372-375 | the digits of a number denote it |
| ChatPacking.IntentsAreAsked | dashboard/chat_client.py:362-371 | the intents are those of the users' messages, each once |
| ChatPacking.SummaryIsShort | dashboard/chat_client.py:360-376 | the summary never has more than 230 characters |
| ChatPacking.PrefixLeavesRoom | dashboard/chat_client.py:410-419 | marker and summary always leave room for a character and a token |
| ChatPacking.PackedHistoryFitsIff | dashboard/chat_client.py:381-449 | for every history and setting, at most 20 messages and at most one character and token too many; the limits hold if and only if no message is cut so that one character would be left beside the marker |
| ChatPacking.PackedOneOverLimit | dashboard/chat_client.py:352-357 | a history that is packed to 1001 characters at a limit of 1000 |
| ChatPacking.PackedHistoryIsRecent | dashboard/chat_client.py:411-442 | after marker and summary come the latest non-empty messages, contiguous and in order; only the oldest can be cut |
| ChatPacking.PackIsIdempotent | dashboard/chat_client.py:399-449 | packing a packed history returns it unchanged unless that cut happened |
| DualExchange.ProviderCandidates | dashboard/dual_ai_chat.py:328-357 | the primary first, the fallbacks in order of first mention, none twice, none missing; without fallback only the primary |
| DualExchange.RecentSnoc | dashboard/dual_ai_chat.py:212-215 | trimming the context at every turn keeps the same eight events as trimming once |
| DualExchange.ExchangeIsLawful | dashboard/dual_ai_chat.py:659-759 | every session keeps the rules for turns, calls, contexts and exhausted accounts, and its outcome says in which state it ended |
| DualExchange.SessionIsBounded | dashboard/dual_ai_chat.py:659-759 | at most ten turns alternating from the planner, no account asked again after it or a report named it exhausted, at most ten calls more than there are accounts |
| ExchangeAccounts.ExhaustedIsNeverAsked | dashboard/dual_ai_chat.py:666-695 | in no session is an account asked after a call that asked it was exhausted, or after an exhausted call named it; an empty name stands for the asked one |
| ExchangeAccounts.NamedAccountIsNeverAsked | dashboard/dual_ai_chat.py:687-693 | in particular an account that an answer names in full is never asked again |
| ExchangeAccounts.AccountsAreAskedInOrder | dashboard/dual_ai_chat.py:666-703 | every call asks the first account of its chain that no earlier call found exhausted, and a session runs out of accounts only when all of the role were found so |
| ExchangeAccounts.ContextIsLatest | dashboard/dual_ai_chat.py:704-759 | every call sees the latest turns, eight at most, of ten at most, and the planner has the even ones |
| ExchangeAccounts.CandidatesAre | dashboard/dual_ai_chat.py:328-357 | which candidates a chain has: the primary, its fallbacks, or by default the other provider |
| DualExchange.Session.constructor | dashboard/dual_ai_chat.py:662-664 | a session without events or exhausted accounts |
| DualExchange.Session.RememberExchangeEvent | dashboard/dual_ai_chat.py:212-215 | the context is the last eight events |
| DualExchange.Session.AskAndTrack | dashboard/dual_ai_chat.py:666-703 | the first open candidate that is not exhausted answers, an error ends the session, and otherwise every candidate is exhausted |
| DualExchange.Session.StreamDualAiChat | dashboard/dual_ai_chat.py:646-759 | the session that the rules determine for these answers, turn by turn, or no call at all for a prompt that is too long |
| Forecast.BiasIsAtMostMae | scripts/forecast_benchmark.py:221-239 | the bias is at most the mean absolute error |
| Forecast.MaeIsAtMostRmse | scripts/forecast_benchmark.py:221-239 | the square of the mean absolute error is at most the mean squared error |
| Forecast.RelativeErrorIsBounded | scripts/forecast_benchmark.py:233-236 | one relative error lies in 0..200 and is 0 only for an exact forecast |
| Forecast.MeasuresAreConsistent | scripts/forecast_benchmark.py:221-239 | the four measures together, for every list of pairs; the mean error is 0 exactly when all forecasts are exact |
| Forecast.BiasIsMeanExcess | scripts/forecast_benchmark.py:225-236 | the bias is the mean forecast less the mean actual value, positive when all forecasts are too high |
| Forecast.MeasuresAreMeans | scripts/forecast_benchmark.py:225-236 | the other measures are the means of the distances, their squares and the relative errors |
| Forecast.RelativeErrorMeans | scripts/forecast_benchmark.py:231-234 | a relative error times the two sizes is 200 times the distance, and two zeros agree |
| LinearBaseline.NormalEquations | scripts/forecast_benchmark.py:261-264 | the residuals of the fitted line sum to zero, plain and weighted by the offset |
| LinearBaseline.FitIsLeastSquares | scripts/forecast_benchmark.py:261-264 | the fitted line has the least sum of squared residuals of all lines, and any line with the same sum is the same line |
| LinearBaseline.LinearSeriesIsExtrapolated | scripts/forecast_benchmark.py:261-265 | an exactly linear history is continued exactly, however far |
| ForecastBenchmark.CollectPairs | scripts/forecast_benchmark.py:248-265 | the loop collects exactly the specified pairs of each model, and pairs plus skips are the indices with a target |
| ForecastBenchmark.RunForecastBenchmark | scripts/forecast_benchmark.py:242-271 | the three scores, with evaluated plus skipped equal to the indices with a target |
| ForecastBenchmark.SkippedIndices | scripts/forecast_benchmark.py:256-260 | exactly the start of the history is skipped: nothing, a season less one, or one point |
| ForecastBenchmark.ScoredCounts | scripts/forecast_benchmark.py:247-262 | how many targets each score evaluates and skips |
| ForecastBenchmark.NoLookAhead | scripts/forecast_benchmark.py:248-265 | values after an index cannot change any prediction up to it |
| ForecastBenchmark.LinearSeriesScoresPerfectly | scripts/forecast_benchmark.py:258-265 | on an exactly linear series the linear baseline has zero error at every index and any horizon |
| ForecastBenchmark.SeasonalModelIsExactIff | scripts/forecast_benchmark.py:242-257 | the seasonal baseline forecasts every periodic series exactly if and only if the horizon is one step beyond a whole number of seasons |
| ForecastBenchmark.NaiveModelIsExactIff | scripts/forecast_benchmark.py:248-253 | the naive model is exact on a series if and only if every value repeats one horizon later |
| ForecastBenchmark.SeasonalModelIsExactOnIff | scripts/forecast_benchmark.py:248-257 | the seasonal model is exact on a series if and only if every value repeats a season less one and a horizon later |
| ForecastBenchmark.ScoreIsPerfectIff | scripts/forecast_benchmark.py:221-239 | all four measures of a score vanish exactly when every forecast met its target |
| ForecastBenchmark.SeasonalModelIgnoresHorizon | scripts/forecast_benchmark.py:254-257 | for instance, a series of period two is missed at horizon two |
| ForecastBenchmark.BaselineMetrics | scripts/forecast_baseline_report.py:21-63 | the loops count false positives, negatives, alerts and quality failures, and the rates and measures are those of the labelled rows |
| ForecastBenchmark.ReportIsConsistent | scripts/forecast_baseline_report.py:21-63 | false positives are among alerts and among negatives, all rates are fractions, and the measures obey the same inequalities |
| ForecastBenchmark.ReportCounts | scripts/forecast_baseline_report.py:33-40 | a forecast at the threshold is an alert, an actual value at it no negative, and a false positive is an alert on a negative |
| ForecastBenchmark.NoFailureIff | scripts/forecast_baseline_report.py:41-50 | no row fails if and only if no known coverage is below one and no known gap above two hours |
| SlowOpReplay.Simulate | scripts/bluestore_slow_op_replay.py:46-67 | the simulation loop, which ends for every positive step |
| SlowOpReplay.Replay | scripts/bluestore_slow_op_replay.py:36-67 | the openings are the first polls with a reason of their episodes, in order |
| SlowOpReplay.RunOpens | scripts/bluestore_slow_op_replay.py:46-67 | the flags and times of the simulation open exactly those incidents; forgetting an open incident early changes nothing |
| SlowOpReplay.OpeningsAreSeparated | scripts/bluestore_slow_op_replay.py:51-64 | between two openings lie two consecutive covered polls more than the gap apart |
| SlowOpReplay.FiringEpisodeOpens | scripts/bluestore_slow_op_replay.py:51-64 | every episode with a reason opens an incident, at its first one |
| SlowOpReplay.EpisodeHasNoGap | scripts/bluestore_slow_op_replay.py:51-53 | the polls of one episode follow each other within the gap |
| SlowOpReplay.BaselineIsOlderThanEpisode | scripts/bluestore_slow_op_replay.py:54-58 | no sample of the current episode enters its baseline |
| SlowOpReplay.FirstIsEarliestStart | scripts/bluestore_slow_op_replay.py:39-42 | the simulation begins with the earliest start |
| SlowOpReplay.FinishIsLatestEnd | scripts/bluestore_slow_op_replay.py:42 | and ends with the latest end |
| SlowOpReplay.CheckNamesCoveringHosts | scripts/bluestore_slow_op_replay.py:47-49 | the check is present while some incident covers the poll, with the OSDs of all that do |
| SlowOpReplay.HostsAreUnion | scripts/bluestore_slow_op_replay.py:49 | an OSD named twice keeps the host of the last incident that names it |
| SlowOpReplay.EveryCoveredPollIsMade | scripts/bluestore_slow_op_replay.py:46-48 | every poll that is due and covered is made |
| SlowOpReplay.BaselineHoldsEarlierCounts | scripts/bluestore_slow_op_replay.py:54-60 | the baseline holds the count of every covered poll in the window before the episode, in order; a check without names counts one |
| SlowOpReplay.ReasonMeans | scripts/bluestore_slow_op_replay.py:54-60 | the reasons at a poll depend on its hosts, the age of its episode and the percentile of a long enough baseline |
| AlertCenter.CollectGroups | dashboard/alert_center.py:28-58 | the dictionary holds one group per key in order of first occurrence, each built from the incidents with that key |
| AlertCenter.BuildAlertGroups | dashboard/alert_center.py:20-67 | the rows of those groups with their flags, cut to the requested number |
| AlertCenter.GroupCountsMembers | dashboard/alert_center.py:40-55 | a group holds its members and counts them and the open ones |
| AlertCenter.SameKeyIff | dashboard/alert_center.py:29-33 | two alerts belong together if and only if they share a root, or have none and share code and cluster, where no cluster is the default one |
| AlertCenter.RowMeans | dashboard/alert_center.py:59-66 | a row is active when some member is open, counts the members beyond the first, and shows the acknowledgement and the mute of its representative |
| AlertCenter.ActiveIffSomeOpen | dashboard/alert_center.py:54-63 | a group is active exactly when one of its members is open |
| AlertCenter.GroupSpansMembers | dashboard/alert_center.py:51-57 | first and last sighting are the extreme times, and the representative has the last |
| AlertCenter.RepresentativeIsFirstOfLatest | dashboard/alert_center.py:52-53 | among the latest members the representative is the first |
| AlertCenter.GroupsPartitionIncidents | dashboard/alert_center.py:29-57 | members share their key, and any measure of the incidents is the sum over the groups |
| AlertCenter.OccurrencesAddUp | dashboard/alert_center.py:51 | the occurrence counts add up to the number of incidents |
| AlertCenter.PagesShowEveryGroup | dashboard/alert_center.py:70-83 | all pages in order are the whole list |
| AlertCenter.PageIsBounded | dashboard/alert_center.py:70-83 | a page is never too long nor, when there are groups, empty; a number out of range means the nearest page |

## Left out

- BudgetProtocol.PricedCostBound: rows marked as rejected for a missing price or configuration are added to the bound, because the guard never counts them; the bound without them (BudgetIsNeverOverspent) is the one the guard enforces.
- AiCost.Summary: lists the groups in order of first occurrence; the source sorts them by name. Currency conversion, the optimisation advice and rounding are not modelled.
- ChatPacking.PackChatHistory: logging is left out; a history is a Python list, so it has fewer than 2^63 elements.
- UpdateCursor.CursorNeverDecreases: is stated for listeners that start cleanly, because it is false otherwise; neither half of a clean start can be dropped (OverlappingListenersLowerCursor, FailedReadLowersCursor).
- RuntimeReplay.ReplayScope: the baseline, naive and paired score lists, the status word and the timings are not modelled; features are computed for all runs up front, which their definition as a function allows.
- SlowOpReplay.Replay: incidents are sorted by start only; the order of incidents with the same start decides nothing but which host name wins for an OSD named twice. The reasons and the day summary of the report are not modelled.
- DualExchange.Session.StreamDualAiChat: the settings stay fixed during a session; prompt texts, the closing system message and the process lock are left out.
- Float rounding: money, forecasts and errors are exact reals; the root of the mean squared error is represented by its square.
- The price table with its aliases and the configured fallback is one arbitrary function; the soft mode of the budget check, which only logs, admits every call.
- The row fields for latency and the update time of lock rows decide nothing and are left out.
- In the cluster cache the session factory never changes while calls are in flight, bulk updates that bypass the session hooks are not writes of the model, database waits never time out, and another process's uncommitted default row only delays an insert.
- In Single Full the command parser, the automatic selection of the only cluster, failed writes of the confirmation file, node-command proposals and the run itself are environment.
- In the update cursor, transport errors only delay a poll, and update numbers are integers as Telegram sends them.
- In the listener supervisor, starting a thread and reading the configuration succeed.
- Detectors, event scoring, StatsForecast, authentication, redaction, natural-language routing, HTTP and provider processes are left out: their results are library behaviour or one check per clause.
