# Verification model of the agent-governance plane

This project models the parts of the hub that decide what an agent may do and that record what it did,
and proves what holds over whole runs of them:

- the tool governor: budgets, policy, argument gates, kill-switch, approvals, execution and release, the
  artifact log they leave behind, the report read off that log, and the per-principal keyring of the server;
- the approval store: quorum, denial, revocation, expiry and sweeping;
- the audit hash chain and its day files across failing writes and restarts;
- fault tolerance: circuit breaker, retry with backoff, dead-letter queue;
- the adaptive thresholds with the alert agent, the replay of unevaluated events, the memory backend, and
  the observer's sliding window and distribution distance.

Each component is modelled twice. A *value model* gives the effect of each operation as a function, runs as
sequences (or trees, for nested governed calls) of operations with explicit clock readings, and the theorems
about runs. Where the program changes objects in place, a *class* with the same fields and methods is proved
to do exactly what the value model says, so that the theorems hold of it. What each operation of the value
model does is in turn pinned by lemmas that do not mention its definition: in terms of fields, or of the whole
history of operations.

| file | contents |
|---|---|
| `Governor.dfy`, `GovernorRuns.dfy`, `GovernorReport.dfy` | governed calls as steps; isolation, kill-switch and call trees; the artifact ledger and the report |
| `GovernorHistory.dfy`, `GovernorLog.dfy` | trackers and answers read off the history of calls; log and report read off the answers |
| `GovernorThreads.dfy` | one tracker shared by threads: what the limits are worth when check and slot are separate steps |
| `ToolServer.dfy` | budget tracker, supervisor and server as objects; the recursive `GovernedCall` |
| `Approvals.dfy`, `ApprovalStore.dfy` | approval records and runs of the store; the store and its requests as objects |
| `AuditChain.dfy`, `AuditLogger.dfy` | checksums, tampering, which selections verify; the logger, its disk, reloads and restarts |
| `CircuitBreaker.dfy`, `Retry.dfy` | the breaker over runs and as an object; retry behind it |
| `DeadLetters.dfy` | the composite dispatcher's queue |
| `Thresholds.dfy`, `AlertAgent.dfy`, `EventStore.dfy`, `Replay.dfy`, `ReplaySessions.dfy` | thresholds, event processing, the event store, one replay, replay over sessions |
| `Memory.dfy`, `Observer.dfy` | the memory backend; the observer's measures |
| `Collections.dfy`, `Joins.dfy` | sums over maps, Python slices; the `'|'` join |

## How the program is read

- Time is an argument of each operation. "Timed" means it never goes back; it is assumed only where stated.
- Each method that holds a lock is one step.
- SHA-256 and HMAC are functions that are passed in. `GoodDigest` (no collisions, never empty, no `'|'`) and
  `Injective` are hypotheses of the theorems that need them. `statistics.mean`, `statistics.stdev` and `round`
  are passed in the same way, with `GoodStatistics`, `MonotoneRounding` and `NoRounding` as hypotheses.
- What executors, argument gates, approval handlers, dispatchers, retried functions, the policy engine and file
  writes do is an input. An executor may issue any tree of further governed calls and halts.
- Message texts are constructors that hold what is filled into the text.
- Thresholds, limits and quorums are integers of any sign, as the program accepts them. A limit of zero is no
  limit; a breaker threshold or quorum below one acts like one.

Where documentation and code differ, the model follows the code:

- the breaker's module text promises one probe when half-open; the code admits every request until one fails
  (`ProbingAdmitsEveryCheck`, `OutageAdmitsAnyNumberOfProbes`);
- a late success recorded while the breaker is open clears its failure count;
- `record_decision` does not look at the approver pool, checks expiry before it checks whether the request is
  already resolved, and lets an actor who has approved revoke;
- the memory backend's `get` returns an expired record;
- the configuration takes a default with missing levels as it is, and its type then never gets to alert
  (`TypeNeverAlertsExactlyWhen`);
- budget limits hold without a lock only while one call at a time is between check and slot
  (`GovernorThreads.TotalBoundIsExact`);
- a raising argument gate escapes `governed_call` without a decision or a result summary (`RaisingGateHidesACall`,
  `ReportAgreesExactlyWithoutEscapes`);
- the bar that joins the parts of a token or of an audit body is not escaped: exactly which ids and fields this
  confuses is `TokensBindExactlyWithoutOverlap` and `BodyIsReadableExactlyWithoutBars`;
- once the last evaluation of an event's resource has left the latest ten thousand audit entries, the event counts
  as unevaluated again; a replayed one is then reported but not tried until its id has been dropped from the
  bounded history (`ReplayedEventGetsStuck`, `TriedAgainExactlyOnceDropped`).

## Model

| member | source | states |
|---|---|---|
| Governor.BudgetsHoldInEveryRun | core/tool_governor.py:239-267 | In every reachable state, nested calls and overlapping executors included, total, per-tool and in-flight counts are within every nonzero limit, per-tool counts sum to the total, the two separated categories are never both seen, and in_flight is the number of calls now executing |
| Governor.ReleaseNeverMeetsZero | core/tool_governor.py:265-267 | Whatever call ends, its tracker's in_flight is positive, so the floor at zero is never used |
| Governor.AdmittedExactlyWithinLimits | core/tool_governor.py:239-254 | `can_admit` refuses exactly when admitting would break a limit or the runtime is used up |
| Governor.ExecutorReachedExactlyWhen | core/tool_governor.py:402-499 | The exact condition, over kill-switch, policy, gate, budget and approval, under which the executor is reached |
| Governor.RunKeepsInv | core/tool_governor.py:363-541 | Every step of every run keeps the invariant of trackers and open calls, from any state that has it |
| GovernorRuns.PrincipalsAreIsolated | mcp_server/server.py:230-243 | With the halt history fixed, a principal's answers and final tracker equal those of a run of that principal's calls alone |
| GovernorRuns.EmptyPrincipalIsDefault | mcp_server/server.py:230-243 | A call with an empty principal is in all respects a call by "default" |
| GovernorRuns.HaltedExactlyAfterAHalt | core/agent_supervisor.py:80-136 | A session is halted exactly when no resume follows some halt, and the entry in force is the first halt since the last resume |
| GovernorRuns.HaltStopsEveryLaterCall | core/tool_governor.py:406-433 | After a halt from anywhere, also from inside an executor, every later call of the session is denied without touching an existing tracker or reaching an executor |
| GovernorRuns.CallRestoresInFlight | core/tool_governor.py:504-541 | Any tree of nested calls, however its executors end, leaves in_flight of every tracker as it found it |
| GovernorRuns.CallEndsWithItsOwnSlot | core/tool_governor.py:499-541 | Whatever its executor does inside, a call ends by releasing the very slot it took |
| GovernorRuns.ResumeClosesTheEntry | core/agent_supervisor.py:80-123 | A resume leaves the active entry closed, with who resumed and why, and does nothing without one; neither operation touches another session |
| GovernorHistory.CallsReadTheHistory | core/tool_governor.py:239-267 | After any history a call reaches its executor exactly when the halts, the policy, the gate, the approval, the number and kind of the calls its principal has made, those still running and the time since the principal's first call leave it free to; the reading knows no tracker and no registry |
| GovernorHistory.TrackersReadTheHistory | core/tool_governor.py:228-270 | Every field of every tracker in every run: total, per-tool counts, in_flight and the two flags count the calls of the history, and the start is the time of the principal's first call |
| GovernorHistory.RuntimeCountsFromTheFirstCall | core/tool_governor.py:228-246 | A later call that nothing before it stops is refused for runtime exactly when the first call of its principal lies max_runtime back |
| GovernorHistory.FirstCallHasTheWholeRuntime | core/tool_governor.py:228-246 | The first call of a principal is never refused for a positive max_runtime |
| GovernorHistory.RefusalsReadTheHistory | core/tool_governor.py:239-254 | Exactly when each of the budget's refusals is the answer: the first obstacle in the order total, per tool, runtime, parallel, separation, read off the history |
| GovernorHistory.HaltAnswersReadTheHistory | core/tool_governor.py:402-433 | A halted session is told the operator and reason of the first halt since the last resume |
| GovernorHistory.PolicyAnswersReadTheHistory | core/tool_governor.py:345-360 | Otherwise the deny list, the categories, the default and the gate answer first, each with its own reason |
| GovernorHistory.ApprovalAnswersReadTheHistory | core/tool_governor.py:463-496 | An approval that is due and not given is the answer once nothing else is in the way |
| GovernorThreads.OvershootIsBounded | core/tool_governor.py:448-499 | When threads share a tracker, with at most p calls at a time between `can_admit` and `acquire`, every limit is exceeded by at most p - 1, whatever the schedule |
| GovernorThreads.TotalBoundIsExact | core/tool_governor.py:448-499 | That is exact: every schedule with at most p calls in between stays within a bound exactly when the bound is at least limit + p - 1, and within the limit exactly when p is one |
| GovernorThreads.OneAtATimeKeepsTheBudget | core/tool_governor.py:239-263 | While at most one call is in between, limits and separation hold among threads as they do in a single one |
| GovernorThreads.SeparationNeedsOneAtATime | core/tool_governor.py:249-263 | Two calls in between are enough to mix the separated categories |
| GovernorReport.LedgerBalancesInEveryRun | core/tool_governor.py:392-541 | Six accounts of the artifact log (decisions against calls, summaries against ends, tool calls against starts, budget entries against tracker totals, approvals) balance in every run |
| GovernorReport.ReportInEveryRun | core/tool_governor.py:573-586 | What the report counts in any state, in terms of the calls made and the live trackers: total = allowed + denied + approval requests, tool calls = allowed + approved = the trackers' totals |
| GovernorLog.ReportReadsTheAnswers | core/tool_governor.py:573-586 | In every run each of the six numbers of the report, and the number of summaries of each status, is the number of answers and executor ends of its kind: an approval given is not an allowed request, one refused not a denied one |
| GovernorLog.CallWritesItsAnswer | core/tool_governor.py:402-496 | What a call logs carries its id and tool; the single ruling comes first, with the category and, for a denial, the reason that is answered |
| GovernorLog.AllowedCallNamesItsRule | core/tool_governor.py:345-360 | A call that reaches its executor is logged with the rule that let it through |
| GovernorLog.RulingShowsTheBudget | core/tool_governor.py:452-461 | A ruling carries the counters and flags of the tracker before the call |
| GovernorLog.EndWritesItsOutcome | core/tool_governor.py:504-541 | What the end of a call logs carries its id and tool and how it ended, and last the counters after the slot is given back |
| GovernorReport.ReportAgreesExactlyWithoutEscapes | core/tool_governor.py:573-586 | In a completed run requests, calls, summaries and trackers agree exactly when no step let an exception out: each call judged from its input and the state before it, each ending executor from its outcome |
| GovernorReport.EscapesExactlyWhen | core/tool_governor.py:402-476 | A call escapes exactly when its session is not halted and either the gate raises for a tool the policy does not deny, or an approval is due, nothing objects and the handler raises |
| GovernorReport.TalliesCountEscapes | core/tool_governor.py:402-541 | The three tallies of exceptions are zero exactly when no step of the run escapes by that condition |
| GovernorReport.ReportAgreesWhenNothingRaises | core/tool_governor.py:573-586 | Completed runs whose gates and handlers never raise and whose executors never abort always agree |
| GovernorReport.RaisingGateHidesACall | core/tool_governor.py:435-450 | One call with a raising gate: made, in no count of the report, which disagrees |
| GovernorReport.OpenCallsAreTheMissingSummaries | core/tool_governor.py:404-541 | In any state decisions minus summaries is the number of open calls plus those whose handler raised or whose executor aborted |
| GovernorReport.NestedCallsComplete | core/tool_governor.py:363-541 | Every sequence of call trees ends with no call open |
| GovernorReport.SnapshotShowsTheTracker | core/tool_governor.py:595-599 | With one principal and nothing running the report's budget snapshot shows each of the tracker's counters, flags and limits; none exactly when nothing was admitted |
| GovernorReport.BreakdownAddsUp | core/tool_governor.py:588-593 | The denial breakdown's counts sum to the report's number of denials, however reasons are worded |
| GovernorReport.BreakdownPerReason | core/tool_governor.py:588-593 | Each count of the breakdown is the number of denials whose reason reads as that message |
| ToolServer.BudgetTracker.CanAdmit | core/tool_governor.py:239-254 | The branches of `can_admit` give the refusal of the value model |
| ToolServer.BudgetTracker.Acquire | core/tool_governor.py:256-263 | The fields after `acquire` |
| ToolServer.BudgetTracker.Release | core/tool_governor.py:265-267 | The fields after `release`, floored at zero |
| ToolServer.BudgetTracker.GetStats | core/tool_governor.py:272-281 | The counters and flags an artifact records |
| ToolServer.AgentSupervisor.HaltSession | core/agent_supervisor.py:80-100 | A halt records its entry unless one is active, which it returns |
| ToolServer.AgentSupervisor.ResumeSession | core/agent_supervisor.py:102-123 | A resume closes the active entry and changes nothing when there is none |
| ToolServer.AgentSupervisor.IsHalted | core/agent_supervisor.py:125-136 | The active entry of a session, or none |
| ToolServer.AgentSupervisor.AllActive | core/agent_supervisor.py:146-150 | Every session halted now has its active entry in the list once, and nothing else is in it |
| ToolServer.Server.BudgetForPrincipal | mcp_server/server.py:230-243 | Finds or makes the tracker of a principal, a new one starting now with nothing counted, and leaves every other one alone |
| ToolServer.Server.PolicyAllows | core/tool_governor.py:345-360 | The ladder of policy rules gives the ruling of the value model |
| ToolServer.Server.CheckKillSwitch | core/tool_governor.py:406-433 | A halted session is denied with two artifacts before anything else is looked at |
| ToolServer.Server.Rule | core/tool_governor.py:435-450 | Policy, then gate, then budget, each asked only while nothing has denied |
| ToolServer.Server.AskApproval | core/tool_governor.py:463-475 | The request is logged before the handler is asked and its answer after |
| ToolServer.Server.DecideCall | core/tool_governor.py:402-496 | What is logged and answered before the executor, whatever the outcome |
| ToolServer.Server.Admit | core/tool_governor.py:402-499 | The first half of a call, up to the running executor |
| ToolServer.Server.Finish | core/tool_governor.py:500-541 | The second half: outcome logged, slot released, budget logged, in that order |
| ToolServer.Server.GovernedCall | core/tool_governor.py:363-541 | The recursive call over mutable trackers, supervisor and artifact list does what the call tree does in the value model |
| Approvals.QuorumInEveryRun | core/approvals.py:269-344 | APPROVED is exactly a quorum of approvals by distinct people other than the requester, PENDING is fewer and nothing else, DENIED and REVOKED add one final entry, and each recorded token verifies |
| Approvals.VerdictsOnlyClimb | core/approvals.py:288-344 | A step never lowers a verdict in PENDING < resolved < EXPIRED, and a resolved one changes only after expiry |
| Approvals.VerdictsOnlyClimbOverRuns | core/approvals.py:288-344 | The same over any continuation; EXPIRED is absorbing |
| Approvals.RevocationRevokes | core/approvals.py:269-286 | A revocation makes the pending request it names REVOKED, with exactly one more decision by the actor, for the reason and without a token; a resolved request and every other one stay as they were |
| Approvals.RevokedIsNeverApproved | core/approvals.py:269-333 | Whatever follows except a new put, a revoked request is REVOKED or EXPIRED and keeps its decisions, the revocation last |
| Approvals.RefusalsAreExact | core/approvals.py:288-333 | Exactly when an attempt is refused, with which error, and what it leaves: expiry first, then the requester, then a repetition; a resolved request is returned as it is |
| Approvals.PutIsExact | core/approvals.py:221-224 | A request that is put is the one found under its id, in the place of the one it replaces or last, and no other is touched |
| Approvals.ApprovalsAreCounted | core/approvals.py:145-148 | The number compared with the quorum is how many decisions approve |
| Approvals.VerdictReadsTheAttempts | core/approvals.py:288-333 | Before expiry the verdict and the decisions are the declarative reading of the attempted stream: each non-requester's first attempt, denied by a denial before the quorum-th approval, approved by the quorum-th approval |
| Approvals.WithoutDenialsOnlyTheVotersMatter | core/approvals.py:145-148 | Without denials the verdict depends only on the set of people who approved |
| Approvals.OneBallotPerVoter | core/approvals.py:309-320 | There are exactly as many counted attempts as distinct people other than the requester who tried |
| Approvals.PendingSplitsInTwo | core/approvals.py:233-267 | At every time the pending records are list_pending and list_expired together, each once |
| Approvals.MembersOfLists | core/approvals.py:233-267 | Exactly which records the two lists hold |
| Approvals.SweepIsExact | core/approvals.py:335-344 | A sweep turns exactly the records of list_expired EXPIRED, empties that list and leaves list_pending as it was |
| Approvals.SweepsCompose | core/approvals.py:335-344 | Sweeping at t1 and then at t2 >= t1 is sweeping at t2, with the returned counts adding up |
| Approvals.ReconcileLeavesNothingExpired | agents/reconciliation_agent.py:145-179 | After the check nothing is expired at the time it last looked, everything it listed was swept, a second check has nothing to report, and the issue holds the number listed, the number swept and the first ten ids listed |
| Approvals.TokenBindsItsFields | core/approvals.py:189-205 | With an injective signature a token verifies for exactly its own request, approver and verdict unless one request id with a bar after it begins the other; nothing is asked of names |
| Approvals.SignedText | core/approvals.py:189-193 | What is signed: id, approver and verdict in this order, joined by bars |
| Approvals.TokensBindExactlyWithoutOverlap | core/approvals.py:189-205 | Exactly which two request ids tokens keep apart whoever decides: those neither of which, with a bar after it, begins the other |
| Approvals.OverlappingIdsShareAToken | core/approvals.py:189-205 | For every pair of ids of which one begins the other in that way, and every approver, there is a name that makes one token stand for two decisions |
| Approvals.BarFreeIdsDoNotOverlap | core/approvals.py:189-205 | Ids without a bar, as the program makes them, never do so |
| Approvals.TokenAmbiguousWithBars | core/approvals.py:189-205 | One such pair of ids written out |
| ApprovalStores.ApprovalStore.PutRequest | core/approvals.py:221-224 | Storing a request object is Put on the view of the dictionary in insertion order |
| ApprovalStores.ApprovalRequest.Satisfied | core/approvals.py:145-148 | The count of approvals has reached the quorum |
| ApprovalStores.ApprovalStore.Get | core/approvals.py:226-231 | Finds the one request object of an id, expired or not |
| ApprovalStores.ApprovalStore.AllPending | core/approvals.py:233-255 | The loop returns the store's own objects, those of list_pending in order |
| ApprovalStores.ApprovalStore.AllExpired | core/approvals.py:257-267 | The loop returns the store's own objects, those of list_expired in order |
| ApprovalStores.ApprovalStore.Withdraw | core/approvals.py:269-286 | Revocation changes the one record in place as `RevocationRevokes` states it, and no other |
| ApprovalStores.ApprovalStore.RecordDecision | core/approvals.py:288-333 | The checks in the program's order, with each error, and the record's new decisions and verdict |
| ApprovalStores.ApprovalStore.SweepExpiredRequests | core/approvals.py:335-344 | The loop flips exactly the expired pending records, and the count it returns is the length of list_expired |
| ApprovalStores.CheckExpiredApprovals | agents/reconciliation_agent.py:145-179 | Listing, then sweeping, with the numbers listed and swept and the first ten request ids of the issue |
| AuditChain.LastChecksumIdentifiesTheLog | core/audit.py:152-182 | Two logs that verify end in the same checksum exactly when they have equal length and equal bodies throughout; when the fields of one hold no bar, equal covered fields |
| AuditChain.LastChecksumFixesTheFieldsExactlyWithoutBars | core/audit.py:152-182 | The last checksum of a valid log determines all covered fields of every entry exactly when no field holds a bar |
| AuditChain.BodyDeterminesFields | core/audit.py:175-182 | An event whose fields hold no bar can be read back from its joined body, whatever event it is compared with |
| AuditChain.BodyIsReadableExactlyWithoutBars | core/audit.py:175-182 | An event can be read back from its joined body exactly when no field holds a bar; for the events the program makes, with bar-free id and timestamp, the same holds when those two are known |
| AuditChain.BodyIsAmbiguousWithBars | core/audit.py:175-182 | Two different events with one body, written out |
| AuditChain.HashedText | core/audit.py:175-182 | What is hashed: the previous checksum and the six fields in this order, joined by bars |
| AuditChain.ChangedEventIsLocated | core/audit.py:152-173 | Rewriting the covered fields of entry i of a valid log is reported at i and nowhere else |
| AuditChain.ChangedChecksumIsLocated | core/audit.py:152-173 | Rewriting the checksum of entry i is reported at i and i + 1 and nowhere else |
| AuditChain.RemovedEntryIsLocated | core/audit.py:152-173 | Removing entry i is reported at its successor and nowhere else; removing the last is not reported |
| AuditChain.OnlyPrefixesVerify | core/audit.py:152-173 | A selection from a valid log verifies exactly when it is a prefix |
| AuditLoggers.ReloadSucceedsExactlyWithoutGaps | core/audit.py:115-119 | For dates that never go back, strict loading succeeds exactly when the failed writes are a suffix, and then restores exactly the persisted prefix and its last checksum |
| AuditLoggers.RestartsKeepOneChain | core/audit.py:188-246 | Over any number of restarts each start succeeds exactly while every session lost only a suffix of its writes, and the day files are then one valid chain of everything written |
| AuditLoggers.SessionKeepsDiskHealthy | core/audit.py:188-246 | One session on a healthy disk: when the next start succeeds and what the disk then holds |
| AuditLoggers.DiskHoldsTheWritten | core/audit.py:188-201 | The sorted day files hold the old lines followed by the logged entries whose write succeeded |
| AuditLoggers.AppendIsExact | core/audit.py:188-201 | A line goes to the end of the file of its own day, whatever the order of the days, and to no other file |
| AuditLoggers.AppendKeepsDateOrder | core/audit.py:203-225 | The files stay in date order, whatever day a line is of |
| AuditLoggers.AuditLogger.LogEvent | core/audit.py:89-119 | The entry is chained in memory whether or not its write succeeds |
| AuditLoggers.AuditLogger.VerifyIntegrity | core/audit.py:152-173 | The running-checksum loop reports exactly the broken places, in order, with the entry's id, timestamp and action and the expected and actual checksums; nothing exactly when the log is a chain |
| AuditLoggers.AuditLogger.LoadLine | core/audit.py:225-243 | One line is kept unless it breaks the chain in strict mode |
| AuditLoggers.AuditLogger.LoadFile | core/audit.py:221-243 | One file's lines, stopping at the first break in strict mode |
| AuditLoggers.AuditLogger.LoadFromDisk | core/audit.py:203-246 | The nested loops over files and lines stop in strict mode at the first break with the entries before it loaded and the running checksum kept, and otherwise load everything |
| CircuitBreakers.HistoryExplainsEveryState | core/circuit_breaker.py:71-126 | In every run: CLOSED has as failure count the failures since the last success or reset, below the threshold; HALF_OPEN has the successes since the check that found the timeout elapsed, below its threshold; OPEN has had no reset and no such check since its latest failure |
| CircuitBreakers.OpenUntilACheckComesInTime | core/circuit_breaker.py:71-88 | Without a reset an open circuit admits nothing exactly as long as no check comes at or after the latest failure plus the recovery timeout |
| CircuitBreakers.TripsAreBoundedByTime | core/circuit_breaker.py:103-118 | A reset-free run of length T trips at most 1 + T / recovery_timeout times |
| CircuitBreakers.TimeoutsMultiply | core/circuit_breaker.py:103-118 | The n timeouts of that bound are n times recovery_timeout |
| CircuitBreakers.ClosedTripsExactlyAtTheThreshold | core/circuit_breaker.py:103-118 | Without success or reset, a closed circuit leaves CLOSED exactly when the failures reach the threshold |
| CircuitBreakers.ProbingClosesExactlyAtTheThreshold | core/circuit_breaker.py:90-101 | Without failure or reset, a half-open circuit closes exactly when the successes reach the threshold, with both counts cleared |
| CircuitBreakers.ProbesAreNotLimited | core/circuit_breaker.py:83-88 | Half-open, any number of checks leave the circuit as it is |
| CircuitBreakers.ResetClosesAndClears | core/circuit_breaker.py:120-126 | A reset closes the circuit in any state and clears both counts |
| CircuitBreakers.ProbingAdmitsEveryCheck | core/circuit_breaker.py:71-88 | Once the timeout has elapsed every check until the next failure is admitted, so "one probe" holds exactly when a single check comes |
| CircuitBreakers.OutageAdmitsAnyNumberOfProbes | core/circuit_breaker.py:71-118 | A run from the start in which n probes besides the first are admitted at once, for every n and every setting |
| CircuitBreakers.CircuitBreaker.ReadState | core/circuit_breaker.py:71-81 | Reading the state may move an open circuit to half-open |
| CircuitBreakers.CircuitBreaker.AllowRequest | core/circuit_breaker.py:83-88 | Admits unless open after that reading |
| CircuitBreakers.CircuitBreaker.RecordSuccess | core/circuit_breaker.py:90-101 | The fields after a success in each state |
| CircuitBreakers.CircuitBreaker.RecordFailure | core/circuit_breaker.py:103-118 | The fields after a failure in each state |
| CircuitBreakers.CircuitBreaker.ManualReset | core/circuit_breaker.py:120-126 | The fields after a reset, the failure time kept |
| Retries.RetryWithBackoff | core/retry.py:66-102 | The loop over attempts, with or without a breaker, gives the ending, calls, waits and breaker state of the recursive reading, also when announcing a retry raises (a function without a name, a hook that raises), with the last error when all attempts fail |
| Retries.CallsBehindABreaker | core/retry.py:66-102 | With n failures ahead, m attempts left and a budget b given by the breaker's state, the function runs min(n + 1, m, b) times, and CircuitOpenError is raised exactly when the failures use up the budget before the attempts |
| Retries.BreakerLimitsTheCalls | core/retry.py:66-102 | The same for a whole call on any reachable breaker: at most min(max_attempts, threshold - f) calls from CLOSED with f failures, one from HALF_OPEN |
| Retries.CallsWithoutABreaker | core/retry.py:66-102 | Without a breaker: one call more than the failures, up to max_attempts, and RetryExhaustedError with the last error exactly when all fail |
| Retries.BreakerIsToldExactly | core/retry.py:66-86 | What a call does to its breaker is exactly one check before each attempt and one for a blocked one, a success for the attempt that returned and a failure for each that failed retryably, in that order |
| Retries.CallIsCounted | core/retry.py:66-86 | So it records one success exactly when it returns, and as many failures as attempts failed retryably |
| Retries.ReturningCallIsASuccess | core/retry.py:76-80 | A call that returns leaves a closed breaker without failures, and a half-open one with one success more or, at the threshold, closed and cleared |
| Retries.FirstAttemptReturns | core/retry.py:66-80 | The same from the breaker the call starts with, when its first attempt returns |
| Retries.RetryIsARun | core/retry.py:66-86 | What a call does to its breaker is a reset-free run of the breaker's operations, timed when the script is, with no more results than calls, so the results on runs hold across calls |
| Retries.WaitsAreTheDelays | core/retry.py:88-100 | The waits are the delays of the failed attempts that were followed by another, in order |
| Retries.CallWaitsTheTotal | core/retry.py:66-102 | The waits of a call add up to the sum of its first delays, whose closed form follows |
| Retries.DelaysNeverShrink | core/retry.py:89-89 | With a factor of at least one delays never shrink and stay capped once capped |
| Retries.TotalDelayClosedForm | core/retry.py:89-89 | The sum of m delays is the geometric closed form of the first u, which are exactly the uncapped ones, plus max_delay for each of the others |
| DeadLetters.ShapeHoldsInEveryRun | core/notifications.py:323-392 | In every run the queue is bounded, each retry count is the number of passes since the entry was enqueued and at most three, counts never increase along the queue, and no entry is redelivered more than three times |
| DeadLetters.EveryLetterIsAccountedFor | core/notifications.py:297-392 | Every letter ever enqueued is queued once or gone once, never both |
| DeadLetters.LettersAreConserved | core/notifications.py:297-392 | enqueued = queued + succeeded + expired + evicted over any run |
| DeadLetters.PassReportAddsUp | core/notifications.py:349-405 | The numbers a pass reports satisfy retried = succeeded + failed + expired |
| DeadLetters.SurvivorsAreASubsequence | core/notifications.py:363-392 | What a pass leaves is an order-preserving subsequence with each count one higher |
| DeadLetters.PassIsExact | core/notifications.py:363-392 | What a pass does with each entry: it expires when spent, is gone when its channel is there and delivers, and otherwise stays with one retry more |
| DeadLetters.QueueAfterSend | core/notifications.py:323-347 | The queue grows by the failures of a send, up to a thousand letters |
| DeadLetters.LettersTellOfFailures | core/notifications.py:297-347 | In every run each letter, waiting or gone, carries the alert, the channel and the reason of an attempt that was refused or raised |
| DeadLetters.ExpiryRemovesAPrefix | core/notifications.py:366-376 | The entries that expire are the first ones of the queue |
| DeadLetters.ExpiredAreTheSpent | core/notifications.py:366-376 | A pass expires exactly as many as the front entries that are spent |
| DeadLetters.EvictionTakesAMaximalCount | core/notifications.py:331-337 | Overflow evicts the front entry, and no entry has a higher count |
| DeadLetters.SendKeepsTheNewest | core/notifications.py:297-347 | After a send the queue is the newest thousand of the old letters and one new letter for each refused or raising dispatcher |
| DeadLetters.FourPassesDrainTheQueue | core/notifications.py:349-392 | MAX_RETRY_ATTEMPTS + 1 passes without sends empty any queue whatever the dispatchers do |
| DeadLetters.ThreePassesMayKeepEverything | core/notifications.py:349-392 | One pass fewer need not remove anything |
| DeadLetters.CompositeDispatcher.EnqueueDeadLetter | core/notifications.py:323-347 | The in-place pop and append are the value model's |
| DeadLetters.CompositeDispatcher.SendOne | core/notifications.py:302-320 | A refusing or raising dispatcher leaves one letter, a delivering one none |
| DeadLetters.CompositeDispatcher.SendAlert | core/notifications.py:297-321 | The loop over dispatchers, and success exactly when one delivered or none is configured |
| DeadLetters.CompositeDispatcher.RetryDeadLetters | core/notifications.py:349-405 | The loop over entries rebuilds the queue and counts as the value model does |
| Thresholds.CalculationNeverFails | core/thresholds.py:57-76 | For a type no history makes the calculation raise exactly when min_datapoints is at least two and the default of the type has all three levels |
| Thresholds.PartialOverrideFails | core/config.py:151-164 | A configured default with the warning level alone replaces the complete one, and the calculation raises until there are min_datapoints costs |
| Thresholds.LevelsStayAboveFloor | core/thresholds.py:63-76 | If all recorded costs and default levels are at least a floor, so is every calculated level, under any monotone rounding that fixes the floor |
| Thresholds.LevelsAreOrdered | core/thresholds.py:63-85 | With ordered defaults, baseline, warning, critical and emergency levels are always in order |
| Thresholds.CalculatedFrom | core/thresholds.py:63-76 | The baseline is the mean of enough costs, and half the configured warning level for too few |
| Thresholds.LevelsNeverFall | core/thresholds.py:65-70 | Recording a cost at or above the warning level of n costs never lowers a level k deviations above the mean, for every k up to 2 n - 1 |
| Thresholds.TwiceTheCostsIsTooMany | core/thresholds.py:65-70 | For k = 2 n it may: three costs, a fourth at their warning level, and the level six deviations up falls |
| Thresholds.FewCostsAreExtreme | core/thresholds.py:65-70 | At most (n - 1) / k^2 of n costs are k deviations above the mean |
| AlertAgents.NothingFallsBelowTheFloor | agents/alert_agent.py:60-109 | Over every run of process_event, no recorded cost, mean or level of a type falls below a floor of its default levels |
| AlertAgents.WarningLevelIsTheFloor | agents/alert_agent.py:73-109 | With ordered defaults that floor is the default warning level |
| AlertAgents.TypeNeverAlertsExactlyWhen | agents/alert_agent.py:60-109 | Without history, every event of a type raises, whatever has been processed before, exactly when its default lacks a level or min_datapoints is not positive |
| AlertAgents.LevelsRatchet | agents/alert_agent.py:73-109 | On exact reals, once a type has min_datapoints costs, and two of them, its mean and its warning, critical and emergency levels never decrease, and every later cost is at least the warning level of then |
| AlertAgents.FewCostsReachTheTop | core/alerts.py:92-99 | Of n costs of a type at most (n - 1) / 4 reach the critical and (n - 1) / 9 the emergency level |
| AlertAgents.SeverityNamesTheExceededLevel | core/alerts.py:92-254 | Each severity is given exactly when its level is reached and no higher one is; an alert's exceeded threshold is the level its severity names and is at most the cost; no severity means all levels were missed |
| AlertAgents.SeverityGrowsWithCost | core/alerts.py:92-99 | A higher cost never gets a lower severity, whatever the levels |
| AlertAgents.AlertsAtTheDefaults | core/thresholds.py:71-76 | With too few costs an event alerts exactly from the configured warning level on (500 when none is configured), at least CRITICAL from the configured critical level and EMERGENCY from the emergency level, naming the level it exceeded |
| AlertAgents.AlertsAtTheDeviations | core/thresholds.py:65-70 | With enough costs the same at one, two and three deviations above their mean |
| AlertAgents.EventLeavesItsMark | agents/alert_agent.py:60-136 | What one event adds to store, cost history, audit trail and alert lists, for each answer and each fault, and that nothing else changes |
| AlertAgents.RecordsAgreeInEveryRun | agents/alert_agent.py:60-136 | Over every run the audit trail names the dispatched alerts in order, each history is the costs of its generated alerts in order, and without a formatting failure every generated alert was dispatched |
| AlertAgents.UndispatchedOnlyWhenFormatRaises | agents/alert_agent.py:108-136 | One event leaves a generated alert undispatched exactly when formatting it raised |
| AlertAgents.ThresholdEngine.CalculateThreshold | core/thresholds.py:57-87 | The branches give the threshold of the value model, whose levels `AlertsAtTheDefaults` and `AlertsAtTheDeviations` pin; the error exactly when there are enough costs but fewer than two, or too few and the default lacks a level |
| AlertAgents.AuditTrail.GetEntries | core/audit.py:121-146 | The last entries with the action asked for: a suffix of all of them, as long as the limit and the cap allow, and all of them for a limit of zero |
| AlertAgents.ThresholdEngine.RecordCost | core/thresholds.py:53-55 | The dictionary gains one cost at the end of one history |
| AlertAgents.AlertAgent.EvaluateEvent | core/alerts.py:40-86 | The decision part of evaluate_event and the engine's list of alerts; it raises exactly when the threshold cannot be calculated or building the alert raises |
| AlertAgents.AlertAgent.ProcessEvent | agents/alert_agent.py:60-136 | Store, policies, evaluation, recording, dispatch and audit in the program's order, with what is left behind when policies, building or formatting raises |
| EventStores.InMemoryEventStore.Store | core/event_store.py:76-79 | List and index stay in step, and a known id changes nothing |
| EventStores.InMemoryEventStore.StoreBatch | core/event_store.py:81-88 | The count is the number of new events |
| EventStores.InMemoryEventStore.Query | core/event_store.py:90-111 | The last events that pass every filter: a suffix of all of them, as long as a positive limit allows, and all of them for a limit of zero |
| EventStores.MatchingAre | core/event_store.py:90-111 | An event is among those the filters leave exactly when it is stored and its provider, type, creator (by e-mail or identity) and time pass, each as far as asked for |
| EventStores.InMemoryEventStore.Exists | core/event_store.py:116-117 | The index answers for the list |
| EventStores.StoredAllKeepsAndKnows | core/event_store.py:76-88 | Ingesting keeps what was there, knows old and new ids and nothing else, and keeps ids distinct |
| EventStores.StoredAllAre | core/event_store.py:76-88 | Ingesting keeps of each new id the first event that carries it, as it is |
| EventStores.LastLimitIsLatest | core/event_store.py:110-111 | The last elements a positive limit allows, in order, and all of them for zero |
| EventStores.StoringAgainChangesNothing | core/event_store.py:76-88 | Ingesting known events again, in any order, changes nothing |
| Replays.ReplayIsExact | mcp_server/server.py:723-782 | One pass tries every fresh unevaluated event once, leaves the store unchanged, and leaves unevaluated exactly those none of whose resource's events succeeded |
| Replays.PassIsARun | mcp_server/server.py:741-757 | What a pass makes of the agent is what processing its events one after another makes of it, failed ones included |
| Replays.ReportsAddUp | mcp_server/server.py:723-782 | What a pass reports: clean exactly when nothing was found; otherwise the number found, the successes, the failures, and as many alerts as were dispatched, and its own entry ends the trail |
| ReplaySessions.ReplayIsCompleteInEverySession | mcp_server/server.py:723-782 | At every pass of every session of ingesting, processing, foreign audit entries and earlier passes that finds store and trail under the caps: every unevaluated event is tried, only events that failed in this pass are unevaluated afterwards, and if none failed the next replay is clean |
| ReplaySessions.SessionsStayOk | mcp_server/server.py:696-782 | In every session, whatever ids are dropped, stored ids are distinct and every remembered id belongs to a stored event whose resource is on the trail |
| ReplaySessions.ServerPassIsAStep | mcp_server/server.py:723-782 | The pass that the server object makes is a step of a session, whichever ids it drops |
| ReplaySessions.StepsDoTheirPart | mcp_server/server.py:696-782 | The other steps of a session: ingesting only stores, processing puts an event that does not raise on the trail, other components only write their note |
| Replays.ReplayingKeepsConsistent | mcp_server/server.py:723-768 | A pass keeps stored, remembered and noted events consistent, under the caps or not |
| Replays.ProcessingKeepsConsistent | agents/alert_agent.py:60-136 | Processing a new event keeps the state consistent |
| ReplaySessions.EvaluatedExactlyWhileInReach | agents/reconciliation_agent.py:103-121 | A resource whose last evaluation stands at index i of a trail of length n counts as evaluated exactly when n - i is at most the cap |
| ReplaySessions.OtherNotesHideAnEvaluation | agents/reconciliation_agent.py:103-121 | From any state, exactly as many other entries as push the evaluation of a replayed event out of reach make the event unevaluated again; a pass still does not try it |
| ReplaySessions.ReplayedEventGetsStuck | mcp_server/server.py:723-782 | A session from the empty state that gets there: one event is ingested and replayed with success, and n other entries follow; it is unevaluated exactly when n + 2 exceeds the cap |
| ReplaySessions.RememberedUntilDropped | mcp_server/server.py:759-764 | Over any continuation a replayed id is remembered exactly until a pass drops it, and again once replayed again |
| ReplaySessions.TriedAgainExactlyOnceDropped | mcp_server/server.py:732-764 | Over any continuation a replayed event would be tried exactly when its id has been dropped since, no evaluation of its resource is in reach, and the event itself is |
| Replays.Server.ReplayEvents | mcp_server/server.py:696-720 | A replay during a replay changes nothing; otherwise one pass is made and the flag restored |
| Replays.Server.DoReplay | mcp_server/server.py:723-782 | The pass over the agent's objects, its report and the bounded set of replayed ids |
| Replays.Server.GetUnevaluatedEvents | agents/reconciliation_agent.py:103-121 | The two queries and the loop find the stored events whose resource no evaluating entry within the caps names |
| Replays.Server.ProcessAll | mcp_server/server.py:741-757 | The loop that processes each event, counts errors and remembers what succeeded |
| Replays.Server.BoundHistory | mcp_server/server.py:759-764 | Arbitrary ids are dropped, exactly as many as there are too many |
| Replays.BoundIsExact | mcp_server/server.py:759-764 | All ids stay up to fifty thousand, and exactly fifty thousand of more |
| Memories.QueryDependsOnOwnOperations | core/memory_audit.py:157-219 | With fresh ids, a query after any interleaving shows what it would had only that user's operations run and no sweep |
| Memories.LiveReadsTheOperations | core/memory_audit.py:157-219 | With fresh ids, after any interleaving, the live records of a user are exactly those put for it and neither deleted since, one by one or all, nor expired, in the order they were put |
| Memories.QueriesReadTheOperations | core/memory_audit.py:157-219 | So a record can be shown for a tag exactly when its put is among them and it carries the tag |
| Memories.DeleteIsExact | core/memory_audit.py:190-196 | A deletion removes the record of that id and no other, keeps the order, and leaves other users alone |
| Memories.PutIsExact | core/memory_audit.py:157-162 | A put replaces the record of its id in place or comes last, does nothing without a user, and touches no other user; removing a user removes just that user |
| Memories.SweepIsExact | core/memory_audit.py:203-219 | A sweep removes exactly the expired records, keeps the order, and drops exactly the users left without records |
| Memories.QueryIsTheStableOrdering | core/memory_audit.py:168-188 | The result is the one newest-first arrangement of the live matching records that keeps the order of equal times, cut at the limit |
| Memories.QueryShows | core/memory_audit.py:168-188 | The sorted list holds exactly the live records with the tag; a query shows all of them unless the limit cuts, and then none that is cut off is newer than one shown |
| Collections.TakeLimitIs | core/memory_audit.py:188-188 | The first records up to a limit, and all but the last ones for a negative limit |
| Memories.NewestIsStable | core/memory_audit.py:186-188 | The sort is newest first and keeps the order of records of one time |
| Memories.NewestIsUnique | core/memory_audit.py:186-188 | No other arrangement is both |
| Memories.RecordsAreOwn | core/memory_audit.py:168-188 | A user's records were put for that user |
| Memories.SweepConserves | core/memory_audit.py:203-219 | Records before a sweep are the records after it and those it counts |
| Memories.InMemoryMemoryBackend.PutRecord | core/memory_audit.py:157-162 | A record without a user is refused; a known id keeps its place |
| Memories.InMemoryMemoryBackend.Get | core/memory_audit.py:164-166 | The user's record of that id, expired or not |
| Memories.InMemoryMemoryBackend.Query | core/memory_audit.py:168-188 | The filtering loop, sort and cut, and no record of another user |
| Memories.InMemoryMemoryBackend.DeleteRecord | core/memory_audit.py:190-196 | Removes the one record, as `DeleteIsExact` states it, and says whether it was there |
| Memories.InMemoryMemoryBackend.DeleteAllForUser | core/memory_audit.py:198-201 | Removes all records of one user and counts them |
| Memories.InMemoryMemoryBackend.DeleteExpired | core/memory_audit.py:207-217 | Deleting while walking a snapshot leaves exactly the live records and counts the others |
| Memories.InMemoryMemoryBackend.SweepUser | core/memory_audit.py:207-218 | One user's turn, and the user goes when nothing is left |
| Memories.InMemoryMemoryBackend.SweepExpired | core/memory_audit.py:203-219 | The nested loops delete exactly the expired records, drop empty users, and count the expired ones over all users |
| Observers.WindowIsExact | core/agent_observer.py:81-96 | With a clock that never goes back the deque holds exactly the recorded calls not older than the window |
| Observers.RollingRate.Trim | core/agent_observer.py:86-89 | The loop drops from the left while the oldest is too old |
| Observers.RollingRate.Record | core/agent_observer.py:81-84 | Appends, then trims at the same time |
| Observers.RollingRate.CallsPerMinute | core/agent_observer.py:91-96 | The rate per minute of what the window holds, zero for an empty window length |
| Observers.ShiftBounds | core/agent_observer.py:361-375 | For a baseline of mass B the shift is between abs(1 - B) / 2 and (1 + B) / 2, zero exactly when every share equals its baseline, maximal exactly when no tool has weight on both sides |
| Observers.ToolDistributionShift | core/agent_observer.py:361-375 | The loop over the keys computes the distance, and zero for a session without calls |

## Left out

- SQLite stores, HTTP, Slack and PagerDuty sends, cloud listeners, CLI and stdio transport: input and output.
- Locks: each locked method is one step.
- Floating-point error: costs, delays and clock readings are reals; rounding to cents is an abstract monotone function.
- SHA-256, HMAC and Ed25519 internals, signed exports and daily manifests: functions with stated hypotheses, or input and output.
- Regex filters and the memory adapter around the backend: the backend alone carries the results.
- Governor artifacts: elapsed seconds, artifact ids, timestamps and request arguments are not in the log; they do not affect any decision.
- Governor clock: one reading serves a whole `Enter`, where the program reads the clock again for elapsed time.
- Governor.BudgetsHoldInEveryRun: admitting a call and giving it its slot are one step; for threads, and for approval handlers that issue calls of their own, only `GovernorThreads` applies, where `can_admit`, `acquire` and `release` are each one step.
- Governor handlers: in the log and the report an approval handler leaves trackers and halts alone.
- ToolServer.AgentSupervisor.HaltSession: entries are values without halt id, correlation id and time; a caller that changes a returned entry is not modelled.
- ToolServer.AgentSupervisor.ResumeSession: the program marks the shared entry in place; here the marked copy is stored in its place.
- ToolServer.AgentSupervisor.AllActive: the order of the list is not modelled.
- ToolServer.BudgetTracker.GetStats: `elapsed_seconds` is not among the numbers.
- AuditLoggers.AuditLogger.LogEvent: a write is whole or missing; a line cut off half-way, which the loader would fail to parse, is not modelled.
- Retries.RetryWithBackoff: what the `on_retry` hook does besides raising.
- DeadLetters.CompositeDispatcher.RetryDeadLetters: which of two dispatchers with one channel name is asked is part of the given result.
- AlertAgents.AuditTrail.GetEntries: the actor, provider and since filters, which no modelled caller uses, are left out.
- AlertAgents.AlertAgent.ProcessEvent: alert texts, recommendations and policy details are left out, and so is an audit trail that raises.
- ApprovalStores.CheckExpiredApprovals: the wording of the issue and the fix entry, which repeats the number swept.
- Replays.Server.DoReplay: the events found are processed directly rather than looked up again by id in a second copy of the same query.
- Memories.InMemoryMemoryBackend.Query: the library sort is the function whose uniqueness is proved, not an in-place algorithm.
- Observer severities and signals, lifecycle graph, tag registry, pricing tables, report grouping: only easy members.
