# Verification of the voice agent's shared-database protocols

Dafny models of the parts of the platform where several workers, call runtimes and operators change the
same rows, and proofs about every run of them. `dafny verify dfyconfig.toml` checks the project.

Each service function that runs in one `tenant_scope()` transaction is one atomic step. A run is any
interleaving of steps under one clock that never goes backwards; the clock value, new identifiers, the
rows other transactions hold locked and the answers of other systems are inputs of the steps. Each module
has a step function on values, theorems about all its runs, and a class whose methods change the rows in
place the way the code does and are proved to take exactly that step.

| file | what it models |
|---|---|
| `RetryPolicy.dfy` | attempts, lease and capped exponential backoff of follow-ups and analyses |
| `LeaseProtocol.dfy` | the claim / execute / retry protocol both share: rows, steps, runs |
| `LeaseRuns.dfy` | what every run keeps: counting, alternation, lease and backoff times, and what the code does not promise |
| `LeaseFairness.dfy` | no starvation, tenant isolation |
| `LeaseTable.dfy` | the table the services change, one execution among the steps of others |
| `LeaseWorker.dfy` | the polling worker: one tick, and all tenants' ticks at the same time |
| `FollowUps.dfy`, `Analyses.dfy` | the two instances: operator actions and events; versions, rebuilds, the analysis driver |
| `AnalysisTenancy.dfy` | tenant isolation of requests, versions and results |
| `Calls.dfy` | the call session machine: timeline, activation, ownership, idempotent creation |
| `Conversations.dfy` | the exactly-once conversation log and the counters derived from it |
| `Retention.dfy` | off-host backup retention and its ledger over many runs |
| `Calendar.dfy` | bookings, availability, cancellation, the agenda listing |
| `Knowledge.dfy`, `Retrieval.dfy` | knowledge items and their trigger; tokenizer, matching, ranking, search |
| `Agents.dfy` | agent versions and the two version pointers |
| `Routes.dfy` | the trigger that mirrors phone numbers into the routing table, and the lookup |
| `Wrappers.dfy` | result types, greatest elements, unique sorted listings |

## Where the code differs from its documentation

The model follows the code. Each difference is stated as a theorem with its exact condition.

- `voiceagent/followups/service.py:733-734` says no path grants more than `MAX_ATTEMPTS` attempts. Claims do
  not look at the count: taking over an expired lease exceeds it (`ClaimExceedsCeilingIff`, `ReclaimsAreUnbounded`).
- `voiceagent/followups/service.py:553-558` says a holder whose lease was reclaimed is rejected. The execution
  identity is reused, so it is rejected only while the row is not in flight (`HolderAcceptedIffInFlight`, `StaleHolderCanFinish`).
- `voiceagent/followups/service.py:423-430` describes manual completion as `pending -> completed`; it also
  completes a row in flight (`ClosingAcceptedIff`, `ClosingInFlight`).
- `voiceagent/calls/service.py:298-299` says the owner is set by `claim_runtime_ownership` only; a transition
  that carries a runtime sets it too, on an unowned call and on an owned one, even when redelivered
  (`OwnerChangesIff`, `TransitionCanSetOwner`, `RedeliveryCanReassign`).
- `scripts/offhost_backup.py:645-648` says the newest entry always survives and retention can never empty the ledger.
  Entries are removed by `backup_id`, so this holds under every policy exactly when no second entry carries the newest
  id (`NewestAlwaysKeptIff`, `LedgerCanEmptyIff`, `DuplicateIdsEmptyTheLedger`); and "newest" is by id, which is the
  latest in time only if ids follow time (`SurvivesEveryPolicyIff`, `LatestRecordedIsKept`, `LatestRecordedCanBeLost`).
- `scripts/offhost_backup.py:698-701` says an entry whose deletion failed is still retained remotely; after a partial
  failure some of its files are gone (`WholeExactlyIfUndamaged`, `HalfDeletedEntryStays`).
- `migrations/versions/0012_inbound_call_routing.py:45-51` says the trigger keeps the mirror in sync for any write
  path. It does unless a statement changes a row's id and number together (`StepKeepsMirrorIff`, `MovedRowLeavesStaleRoute`).
- `voiceagent/calendars/service.py:182-183` lists interval validation after the ownership checks; the code validates
  the interval first (`Calendar.CalendarService.CreateEvent`).
- `archive_version` leaves `published_version_id` on the archived version (`ArchiveKeepsSelectionLiveIff`), and the
  trigger on agent versions stops guarding a row once it is archived (`TriggerProtectsIff`).
- A forced rebuild looks at the newest version only, so two versions of one call can be in flight
  (`RebuildLeavesClaimableVersionIff`, `TwoVersionsInFlight`).

## Model

| member | source | states |
|---|---|---|
| RetryPolicy.NextAttemptDelay | voiceagent/followups/retry_policy.py:82-92 | raises exactly for counts below one; otherwise the delay is between one and the cap |
| RetryPolicy.ScaledIsPower | voiceagent/followups/retry_policy.py:82-92 | the doubling recursion is base times two to the n |
| RetryPolicy.BackoffDoublesUpToCap | voiceagent/call_intelligence/retry_policy.py:49-57 | the delay is min(base * 2^(a-1), cap), and each delay is the previous one doubled and capped |
| RetryPolicy.CappedDelays | voiceagent/call_intelligence/retry_policy.py:49-57 | for every count the delay of either policy reaches its cap: an hour from the seventh count on, a quarter of one from the sixth |
| RetryPolicy.DelaySchedules | voiceagent/followups/retry_policy.py:82-92 | the delays either policy can use before its attempts run out: 60, 120, 240, 480 and 30, 60 seconds |
| LeaseRuns.StepKeepsWellFormed | voiceagent/followups/service.py:472-637 | every step of every actor keeps the column facts of a row: deadline, identity, attempt count, reason and completion time fit its status |
| LeaseRuns.ReachableWellFormed | voiceagent/followups/service.py:261-757 | those facts hold of every row in every state of every run |
| LeaseRuns.RowsPersist | voiceagent/followups/service.py:526-534 | rows are never deleted, keep tenant and type, never lose attempts, and keep the first execution identity for ever |
| LeaseRuns.TerminalRowsAreFrozen | voiceagent/followups/lifecycle.py:56-73 | a completed or cancelled row is frozen in every field for the rest of the run |
| LeaseRuns.TerminalRowsNeverRun | voiceagent/followups/service.py:498-515 | after that it is never claimed and no outcome of it is accepted |
| LeaseRuns.ClosingInFlight | voiceagent/followups/service.py:397-466 | of a row in flight an operator can complete but not cancel it, and the holder is then rejected for ever |
| LeaseRuns.ClosingAcceptedIff | voiceagent/followups/lifecycle.py:56-73 | manual completion is accepted exactly for pending, in-flight and completed rows, cancellation exactly for pending, failed and cancelled ones; repeating either changes nothing |
| LeaseRuns.ClosedRow | voiceagent/followups/service.py:397-421 | after an accepted close the row is completed or cancelled as asked, has no deadline, no other column changed and no clock value makes it claimable |
| LeaseRuns.NoStrandedRow | voiceagent/followups/service.py:498-531 | the rows some clock value makes claimable are exactly those in flight, failed with attempts left, or pending with a deadline; the clock value is computable from the row |
| LeaseRuns.CreatedRowIsDue | voiceagent/followups/service.py:311-334 | a new row can be claimed exactly by its tenant, from its due time on, if its type is executable |
| LeaseRuns.CreatedRow | voiceagent/followups/service.py:311-334 | every column of a new row |
| LeaseRuns.ClaimedRow | voiceagent/followups/service.py:498-547 | in every reachable state a claim takes an unlocked row of its tenant whose deadline has passed and than which no unlocked one is earlier due, and leaves it in flight with one more attempt, a full lease from now, and the identity of its first claim |
| LeaseRuns.NothingToClaim | voiceagent/followups/service.py:498-521 | a claim comes back empty only if every due row of the tenant is locked, and changes nothing |
| LeaseRuns.OutcomeAcceptedIff | voiceagent/followups/service.py:550-637 | in every reachable state an outcome is accepted exactly for the tenant's row in flight under that identity, with a reason of the vocabulary; which of the three errors it raises otherwise |
| LeaseRuns.FinishedRow | voiceagent/followups/service.py:550-637 | every column after an accepted completion or failure, with the backoff deadline min(base * 2^(a-1), cap) or none |
| LeaseRuns.OtherRowsUntouched | voiceagent/followups/service.py:254-258 | a step changes no row but the one it names, and a rejected one changes none |
| LeaseRuns.ReprocessedRowIsDue | voiceagent/followups/service.py:726-757 | accepted exactly for failed rows that still have a deadline; the row is then claimable from now on, with the same attempt count below the ceiling |
| LeaseRuns.StepMoves | voiceagent/followups/service.py:472-637 | what each kind of event does to the status and the attempt count of its row |
| LeaseRuns.StepKeepsAccount | voiceagent/followups/service.py:604-617 | one step keeps the equations between a row's columns and the history of its claims and outcomes |
| LeaseRuns.ReachableAccounted | voiceagent/followups/service.py:472-637 | the equations hold in every state of every run |
| LeaseRuns.BoundedRetries | voiceagent/followups/service.py:472-637 | per row at most MAX_ATTEMPTS failures and one completion; attempt_count is the number of claims and exceeds MAX_ATTEMPTS by at most the number of takeovers of expired leases |
| LeaseRuns.ClaimsAndOutcomesAlternate | voiceagent/followups/service.py:550-637 | between consecutive claims at most one outcome is recorded; the next claim is a retry exactly after one failure and a takeover exactly after none |
| LeaseRuns.OutcomesInWindow | voiceagent/followups/service.py:550-637 | the counting argument for one window between claims |
| LeaseRuns.CompletionIsFinal | voiceagent/followups/service.py:550-584 | an accepted completion stamps its clock value and nothing changes the row again |
| LeaseRuns.LeaseHeldSince | voiceagent/followups/service.py:526-531 | as long as no outcome is recorded the row stays in flight, or closed, with a lease no older than the claim |
| LeaseRuns.LeaseExclusion | voiceagent/followups/service.py:505-531 | two claims of a row with no recorded outcome between them are at least one lease apart |
| LeaseRuns.BackoffHeldSince | voiceagent/followups/service.py:604-617 | after a failure the row keeps reason and backoff deadline until it is claimed, reprocessed or cancelled |
| LeaseRuns.BackoffRespected | voiceagent/followups/service.py:610-617 | after a failure at t with count a the next claim is at t + min(base * 2^(a-1), cap) or later unless an operator reprocessed the row, and there is none once attempts ran out |
| LeaseRuns.ClaimExceedsCeilingIff | voiceagent/followups/service.py:733-741 | a claim lifts attempt_count past MAX_ATTEMPTS exactly when it takes over an expired lease at the ceiling: the documented "no path grants more" fails there and only there |
| LeaseRuns.ReclaimsAreUnbounded | voiceagent/followups/service.py:498-531 | for every n there is a run that claims one row n times |
| LeaseRuns.HolderAcceptedIffInFlight | voiceagent/followups/service.py:553-584 | whoever ever claimed a row has its completion, and its failure report for any reason of the vocabulary, accepted exactly when the row is in flight, under its own lease or a later one |
| LeaseRuns.StaleHolderCanFinish | voiceagent/followups/service.py:550-584 | the run in which a holder whose lease was taken over still completes the row |
| LeaseFairness.QuietStepShrinksAhead | voiceagent/followups/service.py:498-534 | while an eligible row waits no step puts a row before it, and each claim strictly shrinks the rows at or before its deadline |
| LeaseFairness.ClaimsUseUpAhead | voiceagent/followups/service.py:498-534 | claims so far plus rows still at or before the deadline never exceed the rows there at the start |
| LeaseFairness.NoStarvation | voiceagent/followups/service.py:498-534 | an eligible row is claimed within as many claim attempts of its tenant as there are rows at or before its deadline, absent new or reprocessed earlier rows |
| LeaseFairness.StepProjects | voiceagent/followups/service.py:254-258 | what a step does to one tenant's rows is what it does to those rows alone, or nothing |
| LeaseFairness.ResultProjects | voiceagent/followups/service.py:254-258 | whether an operation succeeds, and its error, depends on its own tenant's rows only |
| LeaseFairness.StepsOfTwoTenantsCommute | voiceagent/followups/service.py:499-515 | steps of different tenants commute |
| LeaseFairness.TenantProjection | voiceagent/followups/service.py:254-637 | one tenant's view of any interleaved run of the protocol is a run of that tenant's steps alone and ends in the same rows |
| LeaseTable.IdentitySurvives | voiceagent/followups/service.py:526-534 | whatever steps follow, a claimed row keeps tenant and execution identity |
| LeaseTable.TenantSeesOwnSteps | voiceagent/followups/service.py:254-258 | after any possible steps, rejected ones included, a tenant's rows are where that tenant's own steps lead |
| LeaseTable.ThreePhases | voiceagent/followups/service.py:693-723 | an execution is the claim, the steps of others and one outcome step, in that order |
| LeaseTable.JobTable.Insert | voiceagent/followups/service.py:311-334 | adds a pending row; a deadline only for an executable type |
| LeaseTable.JobTable.ClaimDue | voiceagent/followups/service.py:472-547 | takes a most overdue eligible unlocked row exactly as the protocol step, or none if there is none |
| LeaseTable.JobTable.RecordCompletion | voiceagent/followups/service.py:550-584 | the protocol's complete step: accepted exactly for the row in flight under that identity |
| LeaseTable.JobTable.RecordFailure | voiceagent/followups/service.py:587-637 | the protocol's fail step with its order of checks, exhaustion and backoff |
| LeaseTable.ExecutionProjects | voiceagent/followups/service.py:693-723 | an execution and its result are those of the same worker on its tenant's rows alone |
| LeaseTable.FinishedOutOfFlight | voiceagent/followups/service.py:550-637 | unless an exception escapes or the reason is outside the vocabulary, the row is out of flight after an execution and a refused outcome is the only error |
| LeaseTable.JobTable.ExecuteDue | voiceagent/followups/service.py:640-723 | nothing was due, or exactly: a most overdue row claimed, the steps of others, one outcome step; the row is then out of flight, unless the work raised or reported a reason outside the vocabulary |
| LeaseTable.JobTable.FinishDue | voiceagent/followups/service.py:640-690 | the part of an execution after the claim |
| LeaseTable.WorkAddressed | voiceagent/followups/service.py:693-723 | the steps of an execution are possible ones exactly if those others take inside it are |
| LeaseTable.ExecutionContinues | voiceagent/followups/service.py:693-723 | an execution, with enabled steps of others inside it, continues any run of the protocol |
| LeaseTable.JobTable.Report | voiceagent/followups/service.py:664-690 | records an outcome as one protocol step and raises its error, or lets an exception escape |
| LeaseWorker.TurnsAreSteps | voiceagent/followups/worker.py:141-162 | the executions of a tick, with the steps of others before and during each, are the steps they consist of |
| LeaseWorker.StoppedEarlyIdle | voiceagent/followups/worker.py:153-157 | a tick that stops before its limit without an error found nothing due |
| LeaseWorker.TickReports | voiceagent/followups/worker.py:141-162 | a tick reports the number of its accepted executions, and an error exactly if one of them raised; it goes on after accepted executions only |
| LeaseWorker.TickProjects | voiceagent/followups/worker.py:141-162 | a tick, its count and its error are those of a tick on the tenant's rows alone with the tenant's steps alone |
| LeaseWorker.UndisturbedTickIsAlone | voiceagent/followups/worker.py:141-162 | if nobody else acts for the tenant, the tick is that of a worker alone with the tenant's rows, whatever other tenants do before and during its executions |
| LeaseWorker.RunHoldsExecution | voiceagent/followups/service.py:693-723 | in any interleaving, the stretch from a claim to its outcome is one execution with everybody else's steps inside it |
| LeaseWorker.IdleMoves | voiceagent/followups/worker.py:153-157 | a claim that finds nothing ends the tick, in any interleaving |
| LeaseWorker.ClaimMoves | voiceagent/followups/worker.py:153-157 | a claim puts the tick to work, in any interleaving |
| LeaseWorker.OutcomeMoves | voiceagent/followups/worker.py:153-162 | an accepted outcome counts and the tick goes on; a refused one or an escaping exception ends it with an error |
| LeaseWorker.ProperStep | voiceagent/followups/worker.py:164-202 | a schedule in which others use new ids and claim rows of their tenant that are there has possible steps only, whatever the ticks do in between |
| LeaseWorker.ReportsAreTicks | voiceagent/followups/worker.py:164-202 | in any interleaving of the ticks with each other and with other processes, every report is that of a tick on the common run |
| LeaseWorker.ReportsAreIndependent | voiceagent/followups/worker.py:141-202 | in any such interleaving, a tenant for which nobody else acts gets the count, error and rows of a worker serving it alone from the rows it had at the start, whatever the other tenants' ticks met |
| LeaseWorker.ReportsSeeOwnSteps | voiceagent/followups/worker.py:141-202 | and for which others act too, the count and error of a tick that sees only the steps for this tenant |
| LeaseWorker.ErroredListsFailures | voiceagent/followups/worker.py:177-180 | each failed tick has its own entry in the report, in the order of the tenants |
| LeaseWorker.ReportIsExact | voiceagent/followups/worker.py:177-186 | the total is the number of accepted executions of all ticks; the failed tenants are exactly those of the ticks with an execution that raised, one entry each, in order |
| LeaseWorker.UninvolvedTenantUnchanged | voiceagent/followups/worker.py:164-202 | a tenant nobody acted for during a poll keeps every row |
| LeaseWorker.PollContinues | voiceagent/followups/worker.py:164-202 | a poll, in any interleaving with enabled steps of others, continues any run of the protocol, so counting, lease and backoff bounds hold across polls |
| LeaseWorker.PollingWorker.DrainOneTenant | voiceagent/followups/worker.py:141-162 | at most `limit` executions with any steps of others before and during each, stopping exactly at the first idle claim or error, which is reported and not raised; tenants stay isolated |
| LeaseWorker.PollingWorker.Advance | voiceagent/followups/worker.py:153-162 | the next transaction of a tick: its claim, its outcome, or nothing once it has stopped |
| LeaseWorker.PollingWorker.PollOnce | voiceagent/call_intelligence/worker.py:161-195 | every tenant is drained at the same time, for every schedule of the ticks' transactions and other processes' steps; each tick runs to its end whatever the others met; the total counts the executions that went through and the failed tenants are those whose tick had one that raised; tenants stay isolated |
| FollowUps.FollowUpService.CreateFollowUp | voiceagent/followups/service.py:261-334 | the exact condition of each error, in the order of the checks; on success every column of the row, and of the event if one is booked; nothing is stored or booked on refusal |
| FollowUps.FollowUpService.Transition | voiceagent/followups/service.py:397-466 | manual completion and cancellation are the protocol's close step; an accepted one leaves the row completed or cancelled |
| FollowUps.FollowUpService.ReprocessFollowUp | voiceagent/followups/service.py:726-757 | the protocol's reprocess step: failed rows with attempts left become due now |
| FollowUps.FollowUpService.ExecuteDueFollowUp | voiceagent/followups/service.py:640-723 | an execution of the protocol; completed exactly when the event linked to the claimed row stands in the calendar, otherwise failed with the reason that tells missing, cancelled and unreadable apart; the row is out of flight afterwards, and a refused outcome is the only error |
| FollowUps.SucceedsIffNotCancelled | voiceagent/followups/service.py:678-690 | an appointment whose event once stood succeeds exactly if its tenant has not cancelled the event since, whatever else was booked or cancelled |
| FollowUps.PolledFollowUpConfirms | voiceagent/followups/worker.py:141-202 | every execution of every tick, in any interleaving, leaves its row out of flight; an accepted outcome tells what the calendar held; a tick fails only because somebody else took its row out of flight |
| FollowUps.ExecutionKeepsGuarantees | voiceagent/followups/service.py:640-723 | after an execution among the steps of others the counting bounds hold, whatever run came before |
| FollowUps.FollowUpService.FinishFollowUp | voiceagent/followups/service.py:664-690 | the part of an execution after the claim |
| FollowUps.RowsAfterOthers | voiceagent/followups/service.py:261-334 | after possible steps of others the rows are the old ones, with their types, and those the steps created |
| FollowUps.FollowUpReasons | voiceagent/followups/retry_policy.py:60-92 | the closed vocabulary of failure reasons |
| FollowUps.FollowUpClaim | voiceagent/followups/service.py:526-534 | a claim leases the row for 300 seconds and keeps the reason of the last failure |
| FollowUps.FollowUpFailure | voiceagent/followups/service.py:604-617 | an accepted failure is retried after 60, 120, 240 and 480 seconds and not after the fifth claim or a later one |
| FollowUps.FollowUpGuarantees | voiceagent/followups/retry_policy.py:60-92 | the counting bounds with the follow-up constants: 5 failures, 5 claims plus takeovers |
| FollowUps.FollowUpLeases | voiceagent/followups/service.py:505-531 | two claims without an outcome between them are 300 seconds apart |
| Analyses.HistoryRefinesProtocol | voiceagent/call_intelligence/service.py:90-321 | every history of requests, claims and outcomes is a run of the lease protocol |
| Analyses.OpsAreSteps | voiceagent/call_intelligence/service.py:90-321 | operations that can follow one another act on the lease columns as possible steps of the protocol |
| Analyses.HistoryContinues | voiceagent/call_intelligence/service.py:90-321 | operations that can follow a history continue it, so all that holds of histories holds after them |
| Analyses.AnalysisGuarantees | voiceagent/call_intelligence/service.py:167-321 | the counting bounds with the analysis constants: 3 failures, 3 claims plus takeovers |
| Analyses.AnalysisLeases | voiceagent/call_intelligence/service.py:183-213 | two claims of an analysis without an outcome between them are 120 seconds apart |
| Analyses.AnalysisReasons | voiceagent/call_intelligence/models.py:59-69 | the closed vocabulary of failure reasons |
| Analyses.AnalysisSchedule | voiceagent/call_intelligence/service.py:197-321 | a claim leases the row for 120 seconds and clears its reason; a failure is retried after 30 and 60 seconds and not after the third claim or a later one |
| Analyses.ReachableTidy | voiceagent/call_intelligence/service.py:240-300 | in every reachable state results belong to completed rows and nothing is ever cancelled |
| Analyses.ColumnsAgree | voiceagent/call_intelligence/service.py:240-300 | completed exactly when completion time and result are set; failed exactly when a reason is set |
| Analyses.CompletedVersionsAreImmutable | voiceagent/call_intelligence/service.py:225-268 | a completed version never changes in any column |
| Analyses.NewVersionExtends | voiceagent/call_intelligence/service.py:111-164 | a request that creates a row appends version n + 1 to the call |
| Analyses.OtherOpsKeepNumbering | voiceagent/call_intelligence/service.py:167-321 | no other operation changes the call's versions |
| Analyses.VersionsAreNumbered | voiceagent/call_intelligence/service.py:111-164 | the call's rows, in order of creation, are versions 1, 2, ..., and only the last can be pending |
| Analyses.VersionHistory | voiceagent/call_intelligence/service.py:111-164 | the versions of a call are exactly 1..n, each once, and a pending one is version n |
| Analyses.ListingIsHistory | voiceagent/call_intelligence/service.py:339-349 | listing by version yields the rows in order of creation |
| Analyses.UnforcedRequestChangesNothing | voiceagent/call_intelligence/service.py:111-135 | an unforced request on a call with a version changes nothing and hands back the newest |
| Analyses.RequestAnswers | voiceagent/call_intelligence/service.py:106-148 | in every reachable state the exact condition of each of the five answers of a request; a forced one is refused exactly while the newest version is pending or in flight |
| Analyses.RequestWrites | voiceagent/call_intelligence/service.py:137-164 | a request writes nothing, or one pending row of the next version that is due at once |
| Analyses.RebuildLeavesClaimableVersionIff | voiceagent/call_intelligence/service.py:117-131 | after a forced request an older version can still be claimed exactly when one was in flight or failed with attempts left |
| Analyses.TwoVersionsInFlight | voiceagent/call_intelligence/service.py:117-131 | a history with two versions of one call in flight at once |
| Analyses.VerdictOf | voiceagent/call_intelligence/analyzer.py:110-221 | the provider is asked exactly behind both gates; success exactly for a parsed answer; every reported reason is in the vocabulary |
| Analyses.AnalysisRuns | voiceagent/call_intelligence/analyzer.py:110-208 | claim, the operations of others and the outcome can follow one another and are an execution of the lease protocol |
| Analyses.AnalysisOutcome | voiceagent/call_intelligence/analyzer.py:110-208 | a finished analysis shows its verdict on its row, with the result stored on success |
| Analyses.AnalysisOutOfFlight | voiceagent/call_intelligence/analyzer.py:110-208 | unless an exception escapes the row is out of flight after an analysis, and a refused outcome is the only error |
| Analyses.PolledAnalysisTells | voiceagent/call_intelligence/worker.py:126-195 | every execution of every tick, in any interleaving, completes exactly on a parsed answer behind both gates; unless an exception escapes, the row is out of flight and a tick fails only because somebody else had taken it out of flight |
| Analyses.AnalysisService.ClaimAndRecord | voiceagent/call_intelligence/analyzer.py:110-208 | the database side of an analysis is a run of operations of the history model, with those of others after the claim of the row actually taken |
| Analyses.AnalysisService.FinishAnalysis | voiceagent/call_intelligence/analyzer.py:151-208 | the part of an analysis after the claim |
| Analyses.AnalysisService.RecordVerdict | voiceagent/call_intelligence/analyzer.py:151-208 | records a verdict as one complete or fail operation, or nothing when the exception escapes |
| Analyses.AnalysisService.RequestAnalysis | voiceagent/call_intelligence/service.py:90-164 | the request operation with its error cases, against the newest version |
| Analyses.AnalysisService.NewestVersion | voiceagent/call_intelligence/service.py:324-336 | the highest version whatever its status, or none |
| Analyses.AnalysisService.RunCallAiAnalysis | voiceagent/call_intelligence/analyzer.py:110-221 | an execution of the protocol and a run of history operations, with requests and outcomes of others in between; nothing is performed exactly when nothing was due; every failure carries the reason of the gate or provider answer that caused it; unhandled exceptions leave the row to its lease |
| AnalysisTenancy.DecisionProjects | voiceagent/call_intelligence/service.py:111-135 | whether a request creates a version, which one, and what it hands back is read off the tenant's own rows |
| AnalysisTenancy.OpProjects | voiceagent/call_intelligence/service.py:90-321 | an operation acts on its tenant's rows, versions and results as it does on those alone, and leaves other tenants' as they are |
| AnalysisTenancy.FitSurvives | voiceagent/call_intelligence/service.py:90-321 | another tenant's operation does not make an operation impossible |
| AnalysisTenancy.OpsOfTwoTenantsCommute | voiceagent/call_intelligence/service.py:90-321 | requests, claims and outcomes of different tenants commute in every table |
| AnalysisTenancy.HistoryProjection | voiceagent/call_intelligence/service.py:90-321 | one tenant's view of any interleaved history, with decisions, versions and results, is a history of that tenant's operations alone |
| Calls.StepKeepsWellTimed | voiceagent/calls/service.py:310-364 | every step keeps the timeline of every call |
| Calls.TimelineHolds | voiceagent/calls/service.py:310-364 | on every run ended_at is set exactly on terminal calls, a cause or reason only there, completed calls were answered, started <= answered <= ended, and the duration is the floor of their difference |
| Calls.RedeliveryKeepsTimeline | voiceagent/calls/service.py:335-352 | a step that leaves the status leaves every timestamp of the timeline, the cause and the reason |
| Calls.StatusChangesAreBounded | voiceagent/calls/lifecycle.py:31-58 | at most four status changes per call |
| Calls.CallsOnlyProgress | voiceagent/calls/lifecycle.py:31-58 | statuses only climb, terminal ones absorb with their timeline, tenant and agent version never change |
| Calls.ActivationIsExactlyOnce | voiceagent/calls/service.py:176-218 | claim_call_for_activation answers true at most once per call |
| Calls.ChannelsStayUnique | migrations/versions/0012_inbound_call_routing.py:81-90 | no two calls of any tenants ever share a channel |
| Calls.CreationIsIdempotent | voiceagent/calls/service.py:97-154 | all creations of a tenant with one channel answer one call and later ones change nothing, while no transition re-labels the call |
| Calls.CreationRefusedIff | voiceagent/calls/service.py:125-154 | a creation is refused exactly when another tenant's call holds the channel |
| Calls.OwnerChangesIff | voiceagent/calls/service.py:296-424 | a step changes the owner of any call exactly when it claims a call of its tenant that nobody owns, or is a transition of the tenant naming another runtime that passes the expected-owner, lifecycle and channel guards |
| Calls.TransitionCanSetOwner | voiceagent/calls/service.py:296-360 | a run without any claim of ownership after which a call has an owner |
| Calls.RedeliveryCanReassign | voiceagent/calls/service.py:296-360 | a run in which a redelivered event hands an owned call to another runtime |
| Calls.OwnershipIsExclusive | voiceagent/calls/service.py:392-424 | without such transitions the first owner stays and every other claim is refused |
| Calls.GuardedTransitionNeedsOwner | voiceagent/calls/service.py:295-325 | a transition that names an expected owner succeeds only for that owner |
| Calls.EdgesByTarget | voiceagent/calls/lifecycle.py:37-58 | the edges of the lifecycle, by target |
| Calls.CreatedCall | voiceagent/calls/service.py:97-154 | every column of a new call; an answer without a new row names the tenant's own call on that channel |
| Calls.ActivatedCall | voiceagent/calls/service.py:176-218 | activation answers true exactly on the tenant's initiated call, which then rings, and otherwise changes nothing |
| Calls.ClaimedOwnership | voiceagent/calls/service.py:392-424 | after an accepted claim the claiming runtime owns the call, stamped if it was unowned; refused exactly for a foreign call and one that another runtime owns |
| Calls.TransitionedCall | voiceagent/calls/service.py:329-364 | after an accepted transition the call has the target status and every column that goes with it |
| Calls.TransitionRefusedIff | voiceagent/calls/service.py:310-327 | which guard refuses a transition, for every reachable state |
| Calls.AssociatedCall | voiceagent/calls/service.py:367-389 | an association sets the contact and nothing else, or is refused for a foreign call or an unknown contact |
| Calls.OtherCallsUntouched | voiceagent/calls/service.py:91-95 | a step changes no call but the one it names, and a refused one changes none |
| Calls.CallStore.CreateCallSession | voiceagent/calls/service.py:97-154 | the creation step: insert, or on a taken channel the tenant's own call, or an error |
| Calls.CallStore.FindByChannel | voiceagent/calls/service.py:157-173 | the tenant's call with the channel, or none if there is none |
| Calls.CallStore.ClaimCallForActivation | voiceagent/calls/service.py:176-218 | the activation step and its answer |
| Calls.CallStore.ClaimRuntimeOwnership | voiceagent/calls/service.py:392-424 | the ownership step and its error; on success the call is owned by the runtime that asked |
| Calls.CallStore.TransitionCallSession | voiceagent/calls/service.py:280-364 | the transition step with its order of checks and errors |
| Conversations.RepresentedSequence | voiceagent/conversations/service.py:94-104 | one past the greatest stored sequence is the length of the log |
| Conversations.RepresentedKeys | voiceagent/conversations/service.py:80-92 | a delivery is found stored exactly when the log mentions its event and role |
| Conversations.StepKeepsLog | voiceagent/conversations/service.py:73-120 | one delivery or deletion changes the rows as it changes the log |
| Conversations.LogIsDeduplicatedDeliveries | voiceagent/conversations/service.py:73-120 | after any deliveries, repeated and interleaved, and any deletions, a call's rows are its deliveries deduplicated by (event, role) in first-delivery order, numbered 0..n-1 |
| Conversations.DeduplicatedHasNoDuplicates | voiceagent/conversations/service.py:73-120 | no (event, role) appears twice in the log |
| Conversations.AcceptedDeliveryIsLogged | voiceagent/conversations/service.py:73-120 | an accepted delivery stays logged until the call's turns are deleted |
| Conversations.RedeliveryIsInert | voiceagent/conversations/service.py:80-92 | redelivering an accepted turn before a deletion changes no row of any call |
| Conversations.AcceptedDeliveryHasTurn | voiceagent/conversations/service.py:80-118 | every accepted delivery that no later deletion removed has a turn with its own event and its own role |
| Conversations.TurnsDiffer | voiceagent/conversations/service.py:80-104 | no two turns of a call agree in event and role, or in sequence number |
| Conversations.DeliveryEffect | voiceagent/conversations/service.py:70-120 | what any delivery after any history does to the rows: nothing, or the next turn of its call |
| Conversations.DeletionEffect | voiceagent/conversations/service.py:151-184 | a deletion removes exactly the turns of its call |
| Conversations.ListingIsLog | voiceagent/conversations/service.py:134-148 | listing by sequence yields the log itself |
| Conversations.RowCountIsLogCount | voiceagent/call_analysis/service.py:111-150 | each counter taken from the rows is the counter of the log |
| Conversations.RolesCounted | voiceagent/call_analysis/service.py:125-129 | each role counter is the number of the call's turns in that role |
| Conversations.ToolCounted | voiceagent/call_analysis/service.py:130-135 | the transfer and hold flags tell whether the call has a tool call of that name |
| Conversations.FollowUpsCounted | voiceagent/call_analysis/service.py:155-157 | the follow-up counters are the numbers of appointments and of open follow-ups |
| Conversations.CountsAdd | voiceagent/call_analysis/service.py:111-150 | the role counters add up to the length of the log |
| Conversations.ConversationStore.PersistConversationTurn | voiceagent/conversations/service.py:43-120 | the persist step; the exact condition of each error; the turn it returns has the event and role of the delivery, and is stored already or becomes the one new row |
| Conversations.ConversationStore.DeleteConversationTurns | voiceagent/conversations/service.py:151-184 | removes exactly the call's turns and answers how many there were |
| Conversations.ConversationStore.BuildCallAnalysis | voiceagent/call_analysis/service.py:105-189 | stores, column by column, the numbers of turns by role, the tools called and the other facts; they depend on the deduplicated deliveries and the facts only, so a rebuild changes none |
| Retention.OrderedIsSorted | scripts/offhost_backup.py:650 | the working order is a newest-first permutation of the ledger |
| Retention.OrderedIsStable | scripts/offhost_backup.py:650 | entries that share an id keep the order of the ledger |
| Retention.ChosenMembers | scripts/offhost_backup.py:651-665 | membership in either list, by rank |
| Retention.SelectionPartitions | scripts/offhost_backup.py:638-666 | survivors and doomed split the ledger: nothing lost, nothing duplicated |
| Retention.NewestSurvives | scripts/offhost_backup.py:644-663 | the newest entry always survives and is newer than everything doomed |
| Retention.RankCountsNewer | scripts/offhost_backup.py:650-654 | the rank of an entry is the number of newer entries |
| Retention.SurvivesIff | scripts/offhost_backup.py:638-666 | an entry survives exactly if it is the newest, has fewer newer ones than keep_count, or is at most keep_days old |
| Retention.SelectionIsMonotone | scripts/offhost_backup.py:651-662 | the survivors grow with keep_count and keep_days and shrink with time |
| Retention.SelectionIsIdempotent | scripts/offhost_backup.py:638-666 | selecting again from the survivors dooms nothing |
| Retention.SelectionIsOrdered | scripts/offhost_backup.py:664-665 | both lists come newest first |
| Retention.SelectRetention | scripts/offhost_backup.py:638-666 | the index-set loops compute exactly survivors and doomed, in order |
| Retention.NamesAreFour | scripts/offhost_backup.py:682-687 | the files of a backup are its four: dump, metadata, manifest and checksum |
| Retention.DeletedIff | scripts/offhost_backup.py:681-697 | an entry is deleted exactly if it is doomed and none of its four deletes fails |
| Retention.RemovedIff | scripts/offhost_backup.py:681-697 | a file is removed exactly if it is one of the four of a doomed entry whose delete does not fail |
| Retention.WithoutKeepsOrder | scripts/offhost_backup.py:702-704 | the entries that stay keep their order |
| Retention.RecordEffect | scripts/offhost_backup.py:606-623 | a record appends its entry and makes exactly its four files present |
| Retention.RetainEffect | scripts/offhost_backup.py:669-705 | what a run leaves in the ledger and of the files, and that a disabled one changes nothing |
| Retention.EntryLeavesIff | scripts/offhost_backup.py:681-705 | with distinct ids an entry leaves the ledger exactly when it is doomed and all four remote deletes succeed |
| Retention.LedgerKeepsRestIff | scripts/offhost_backup.py:702-704 | the ledger keeps exactly what the run has no reason to drop if and only if nothing of it shares an id with an entry this run deleted |
| Retention.EntryStaysIff | scripts/offhost_backup.py:702-704 | an entry stays whatever deletes fail exactly when no doomed entry carries its id |
| Retention.LedgerCanEmptyIff | scripts/offhost_backup.py:644-704 | a run can empty the ledger exactly when every id in it is that of a doomed entry |
| Retention.FilesStayIff | scripts/offhost_backup.py:681-697 | no delete can reach an entry's files exactly when no doomed entry shares a name with it |
| Retention.NewestIdNeverDoomedIff | scripts/offhost_backup.py:650-665 | no policy dooms the newest id exactly when one entry carries it |
| Retention.NewestAlwaysKeptIff | scripts/offhost_backup.py:638-705 | the newest entry keeps ledger place and remote files under every policy and any failing deletes if and only if no second entry carries its id |
| Retention.DuplicateIdsEmptyTheLedger | scripts/offhost_backup.py:606-705 | one backup recorded twice: keeping the newest deletes its four files and empties the ledger |
| Retention.SurvivesEveryPolicyIff | scripts/offhost_backup.py:638-666 | an entry survives every policy at every time exactly when its id is the greatest |
| Retention.LatestIsNewest | scripts/offhost_backup.py:644-650 | if ids follow time, the latest backup in time is the newest by id and survives every policy |
| Retention.LaterBackupCanBeDoomed | scripts/offhost_backup.py:644-665 | otherwise the later of two backups can be the doomed one |
| Retention.LatestBackupIsRecoverable | scripts/offhost_backup.py:606-705 | over any run, if ids follow time within the ledger, its latest entry in time has its four files |
| Retention.WholeExactlyIfUndamaged | scripts/offhost_backup.py:681-705 | over any run, a ledger entry has its four files exactly when no run since it was recorded doomed it and had one of its deletes go through |
| Retention.KeptFilesStay | scripts/offhost_backup.py:681-697 | deletes never touch a remote file of an entry that is kept |
| Retention.StepKeepsRecoverable | scripts/offhost_backup.py:606-705 | each backup or retention run keeps the newest entry of the ledger in it, the newest of the result with its four files, and a non-empty ledger non-empty |
| Retention.NewestBackupIsAlwaysRecoverable | scripts/offhost_backup.py:606-705 | over any backups and retention runs with any failing deletes the newest entry of the ledger has its four files, and a non-empty ledger never becomes empty |
| Retention.NewestRecordedIsKept | scripts/offhost_backup.py:606-705 | over any such run the backup with the greatest id ever recorded is still in the ledger with all four files |
| Retention.LatestRecordedIsKept | scripts/offhost_backup.py:606-705 | so is the latest backup in time of all recorded ones, if ids follow time among them |
| Retention.LatestRecordedCanBeLost | scripts/offhost_backup.py:606-705 | otherwise a run can lose the latest backup, entry and files, and keep an older one |
| Retention.HalfDeletedEntryStays | scripts/offhost_backup.py:681-705 | two backups and one run with one failing delete: an entry stays whose files are partly gone |
| Retention.LedgerFile.RecordVerified | scripts/offhost_backup.py:606-623 | appends the verified backup |
| Retention.LedgerFile.DeleteFiles | scripts/offhost_backup.py:682-697 | all four deletes are attempted; ok exactly if none failed; the failed ones are listed |
| Retention.LedgerFile.RunRetention | scripts/offhost_backup.py:669-705 | the whole run: ledger, remote files, survivors, deleted and failed |
| Calendar.StepKeepsSafe | voiceagent/calendars/service.py:173-207 | a booking or cancellation keeps every calendar free of double bookings |
| Calendar.NeverDoubleBooked | voiceagent/calendars/service.py:173-267 | after any run the scheduled events of a calendar are valid, pairwise disjoint half-open intervals on a calendar of their tenant |
| Calendar.NoClashIffFree | voiceagent/calendars/service.py:140-154 | the conflict query finds nothing exactly when no instant of [start, end) is taken |
| Calendar.BookingSucceedsIff | voiceagent/calendars/service.py:173-207 | a booking succeeds exactly for a valid interval on an own calendar, with an own contact if any, and every instant free |
| Calendar.OneEventPerInstant | voiceagent/calendars/service.py:140-154 | at most one event takes an instant of a calendar |
| Calendar.CoverageChanges | voiceagent/calendars/service.py:173-267 | a booking takes exactly its own instants and a cancellation frees exactly its own |
| Calendar.CancelThenRebook | voiceagent/calendars/service.py:257-267 | after a cancellation the same booking succeeds |
| Calendar.CancelIsIdempotent | voiceagent/calendars/service.py:257-267 | cancelling twice is cancelling once, and succeeds both times |
| Calendar.StandsIffNotCancelled | voiceagent/calendars/service.py:257-267 | a scheduled event still stands exactly if its own tenant has not cancelled it since |
| Calendar.BookingEffect | voiceagent/calendars/service.py:173-207 | an accepted booking stores every column as asked; which check refuses it otherwise, with nothing stored |
| Calendar.CancellationEffect | voiceagent/calendars/service.py:257-267 | a cancellation marks the tenant's event and changes nothing else; any other event is not found |
| Calendar.CalendarAdded | voiceagent/calendars/service.py:106-118 | a new calendar is its tenant's |
| Calendar.EventsPersist | voiceagent/calendars/service.py:257-267 | events are never deleted or rescheduled, and a cancelled one stays cancelled |
| Calendar.RacingBookingsSafeIff | voiceagent/calendars/service.py:185-207 | if two bookings both check before either inserts, the calendar stays safe exactly when they do not meet |
| Calendar.ListingIsExact | voiceagent/calendars/service.py:210-247 | the listing has exactly the tenant's events that meet the interval, by start and then by id |
| Calendar.ListingIsUnique | voiceagent/calendars/service.py:210-247 | the listing order is total: one listing per query and table |
| Calendar.AgendaIsSequential | voiceagent/calendars/service.py:210-247 | in one calendar's listing each scheduled event ends before the next one starts |
| Calendar.AvailableIffAgendaClear | voiceagent/calendars/service.py:157-247 | an interval is available exactly when its listing shows cancelled events only |
| Calendar.CalendarService.ConflictingEvent | voiceagent/calendars/service.py:140-154 | some clashing event, or none exactly when there is none |
| Calendar.CalendarService.CheckAvailability | voiceagent/calendars/service.py:157-170 | available exactly when nothing clashes, which on a safe calendar is when every instant is free; otherwise the bounds of a real conflicting event; both error cases |
| Calendar.CalendarService.CreateEvent | voiceagent/calendars/service.py:173-207 | the booking step with its order of checks |
| Calendar.CalendarService.CancelEvent | voiceagent/calendars/service.py:257-267 | the cancellation step; the event returned is cancelled |
| Knowledge.TriggerFreezesContent | migrations/versions/0009_create_knowledge_tables.py:128-151 | any accepted updates of a row that left draft keep its text for good and at most archive it |
| Knowledge.ServicePassesTrigger | voiceagent/knowledge/service.py:107-252 | no service step sends an update the trigger rejects |
| Knowledge.RunsAge | voiceagent/knowledge/service.py:107-252 | between any two moments of a run items changed only as the trigger allows |
| Knowledge.SourceCreated | voiceagent/knowledge/service.py:63-83 | an active source is stored unless its tenant has one of that name |
| Knowledge.ItemCreated | voiceagent/knowledge/service.py:107-139 | a draft with the title and the content given, in an own source, within 200 and 20000 characters and under a title free there; which error otherwise |
| Knowledge.ItemUpdated | voiceagent/knowledge/service.py:166-199 | the new title goes into the title and the new content into the content of an own draft; which error otherwise |
| Knowledge.ItemMoved | voiceagent/knowledge/service.py:202-252 | activation and deactivation move the status of the right item and leave its text |
| Knowledge.TriggerAcceptsIff | migrations/versions/0009_create_knowledge_tables.py:128-162 | what the trigger accepts, exactly: any change of a draft, archiving an active item, no change |
| Knowledge.ItemsAlwaysFit | migrations/versions/0009_create_knowledge_tables.py:96-111 | over any run titles and contents keep their limits and titles are unique in a source |
| Knowledge.ReleasedTextWasReviewed | voiceagent/knowledge/service.py:107-225 | the text of any item outside draft is to the letter the draft that an activation released |
| Knowledge.ArchivedIsForGood | voiceagent/knowledge/service.py:202-252 | an archived item never changes again |
| Knowledge.AcceptedReferencesKeepMeaning | voiceagent/knowledge/service.py:255-281 | items accepted as references of a version exist for ever after with the text they had |
| Knowledge.KnowledgeService.AddSource | voiceagent/knowledge/service.py:63-83 | adds an active source with a free name |
| Knowledge.KnowledgeService.AddItem | voiceagent/knowledge/service.py:107-139 | always adds a draft, under the table's constraints |
| Knowledge.KnowledgeService.UpdateItem | voiceagent/knowledge/service.py:166-199 | the update step and its errors |
| Knowledge.KnowledgeService.ActivateItem | voiceagent/knowledge/service.py:202-225 | succeeds exactly for an own draft |
| Knowledge.KnowledgeService.DeactivateItem | voiceagent/knowledge/service.py:228-252 | succeeds exactly for an own active item |
| Knowledge.KnowledgeService.ResolveActiveItemIds | voiceagent/knowledge/service.py:255-281 | exactly the own active items among the ids; all of them exactly when a version may name them |
| Retrieval.SnippetIsBounded | voiceagent/knowledge/retrieval.py:104-107 | content of up to 500 characters as it is; otherwise the longest start of its first 500 that does not end in space, and an ellipsis |
| Retrieval.LowerLetters | voiceagent/knowledge/retrieval.py:94 | lower case letter by letter: the alphabet, two letters outside it, and no other character |
| Retrieval.LowerByCharacter | voiceagent/knowledge/retrieval.py:94 | lower case is taken character by character, in order |
| Retrieval.TokenAlphabet | voiceagent/knowledge/retrieval.py:75 | the 36 characters of a token |
| Retrieval.SpaceAlphabet | voiceagent/knowledge/retrieval.py:107 | the 29 characters that stripping removes |
| Retrieval.ContainsIff | voiceagent/knowledge/retrieval.py:168-172 | a text contains another exactly if it is that text with something before and after it |
| Retrieval.SpansAreMaximalRuns | voiceagent/knowledge/retrieval.py:75 | the pattern finds exactly the maximal alphanumeric runs, from left to right |
| Retrieval.RunsAreTexts | voiceagent/knowledge/retrieval.py:94 | the matches are the texts of those runs, in their order |
| Retrieval.DistinctIsExact | voiceagent/knowledge/retrieval.py:91-101 | the long runs, each once, in order of first occurrence |
| Retrieval.TokensAreFirstLongRuns | voiceagent/knowledge/retrieval.py:91-101 | the tokens are the first ten distinct runs of length two or more: a long run left out comes after all ten |
| Retrieval.Tokenize | voiceagent/knowledge/retrieval.py:91-101 | the loop with its list, seen set and early exit computes those tokens |
| Retrieval.BlankHasNoTokens | voiceagent/knowledge/retrieval.py:131-135 | a blank query has no token, so the strip check rejects nothing the token check would accept |
| Retrieval.TokenIsInTitleOrContent | voiceagent/knowledge/retrieval.py:168-172 | a token matches the joined text exactly when it occurs in the title or in the content |
| Retrieval.MatchingIff | voiceagent/knowledge/retrieval.py:142-172 | an item is found exactly if it is approved, active, of the tenant, in an active source of the tenant, and has each token in its title or its content |
| Retrieval.LexLessIff | voiceagent/knowledge/retrieval.py:176 | texts are ordered by the first character in which they differ, a prefix first |
| Retrieval.SortedByTitle | voiceagent/knowledge/retrieval.py:173-176 | a ranking is by title in that order, and by id among equal titles |
| Retrieval.RankingIsUnique | voiceagent/knowledge/retrieval.py:173-176 | the (title, id) order is total: the ranking does not depend on row order |
| Retrieval.MatchesShrink | voiceagent/knowledge/retrieval.py:142-172 | items released before can only drop out of the matches, and a shared result reads the same |
| Retrieval.MatchesOnlyShrink | voiceagent/knowledge/retrieval.py:110-191 | for an accepted agent version, the matches of any query at a later moment of a run are among those before, with identical results |
| Retrieval.Rank | voiceagent/knowledge/retrieval.py:173-176 | the sort: the same matches, by (title, id) |
| Retrieval.SearchItems | voiceagent/knowledge/retrieval.py:126-191 | refused exactly when over-long or without a token; otherwise the first max(1, min(limit, 5)) of the one ranking of approved, active, source-active items with every token, each with its source, title and snippet |
| Agents.StepNumbers | voiceagent/agents/service.py:163-190 | a new draft gets number n + 1 and no other step changes the numbering |
| Agents.VersionsAreNumbered | voiceagent/agents/service.py:163-190 | an agent's versions are numbered 1 to the number of drafts created, each once |
| Agents.VersionsPersist | voiceagent/agents/service.py:130-308 | no step of any run changes the configuration, number, owner or creation time of a version, nor the publication stamps of one that left draft; statuses only move on |
| Agents.TriggerProtectsIff | migrations/versions/0002_create_agent_phone_call_tables.py:326-351 | the trigger alone protects the content of a row exactly while it is published: not drafts, not archived rows |
| Agents.ServicePassesTrigger | voiceagent/agents/service.py:235-308 | no service step sends an update the trigger rejects |
| Agents.TriggerAllowsIff | migrations/versions/0002_create_agent_phone_call_tables.py:326-351 | what the trigger lets through on a published row, exactly: archiving it |
| Agents.AgentCreated | voiceagent/agents/service.py:75-82 | a new agent is its tenant's and has no version |
| Agents.DraftCreated | voiceagent/agents/service.py:130-208 | a draft stores the configuration it was given under the next number, and the draft pointer names it; which error otherwise |
| Agents.VersionPublished | voiceagent/agents/service.py:235-277 | publishing stamps time and actor and moves both pointers; which error otherwise |
| Agents.VersionArchived | voiceagent/agents/service.py:280-308 | archiving changes the status alone; which error otherwise |
| Agents.StepKeepsDraftPointer | voiceagent/agents/service.py:186-258 | each step keeps the draft pointer on the newest version while that is a draft |
| Agents.PointersAreRight | voiceagent/agents/service.py:186-295 | on every run the draft pointer names the newest version exactly while it is a draft, and the published pointer the version published last, which is published or archived |
| Agents.FollowPublishedNeverDraft | voiceagent/agents/service.py:311-334 | following the published version yields the agent's version published last, never a draft, and an error exactly if none was published |
| Agents.PinnedSelectionIsStable | voiceagent/agents/service.py:326-334 | a pinned call runs the pinned version, with the configuration it had when it was pinned, whatever happens to the agent later |
| Agents.ArchiveKeepsSelectionLiveIff | voiceagent/agents/service.py:285-295 | archiving ends a live selection exactly when it archives the version pointed at |
| Agents.ArchivedVersionIsStillSelected | voiceagent/agents/service.py:280-334 | a run after which an archived version is handed to the next call |
| Agents.AgentService.CreateDraftVersion | voiceagent/agents/service.py:130-208 | the draft step with the computed number |
| Agents.AgentService.PublishVersion | voiceagent/agents/service.py:235-277 | the publish step with both pointers |
| Agents.AgentService.ArchiveVersion | voiceagent/agents/service.py:280-308 | the archive step, pointers untouched |
| Routes.InsertEffect | migrations/versions/0012_inbound_call_routing.py:128-163 | an accepted insert stores row and route, a refused one neither; its own errors |
| Routes.UpdateEffect | migrations/versions/0012_inbound_call_routing.py:128-163 | an accepted update replaces the row under its id and writes that route only, a refused one changes nothing; its own errors |
| Routes.DeleteEffect | migrations/versions/0012_inbound_call_routing.py:128-163 | a delete removes the row and its route |
| Routes.TriggerAddsNoError | migrations/versions/0012_inbound_call_routing.py:134-155 | on agreeing tables the trigger rejects a statement exactly if it moves a row to a free id and keeps the number |
| Routes.MoveSucceedsIff | migrations/versions/0012_inbound_call_routing.py:134-155 | giving a row another id succeeds exactly if the id is free and the number changes to a free one |
| Routes.StepKeepsMirrorIff | migrations/versions/0012_inbound_call_routing.py:134-155 | a statement breaks the mirror exactly if it gives a row a free id together with another, free number |
| Routes.RoutesMirrorNumbers | migrations/versions/0012_inbound_call_routing.py:117-163 | after the backfill and any statements of which none gives a row another id with another number the routing table is the projection of the numbers |
| Routes.RoutesStayUnique | migrations/versions/0012_inbound_call_routing.py:95-107 | a number never has two routes, whatever statements ran |
| Routes.ResolutionIsExact | voiceagent/calls/routing.py:99-120 | on a mirrored table the lookup answers exactly what the phone number table would |
| Routes.MovedRowLeavesStaleRoute | migrations/versions/0012_inbound_call_routing.py:134-155 | after every such statement the old number still resolves to the id that is gone |
| Routes.MovingCanSucceed | migrations/versions/0012_inbound_call_routing.py:134-155 | such a statement passes every constraint |
| Routes.PhoneNumberTable.constructor | migrations/versions/0012_inbound_call_routing.py:117-127 | the backfill: the projection of the numbers present |
| Routes.PhoneNumberTable.SyncInboundRoute | migrations/versions/0012_inbound_call_routing.py:134-155 | the trigger upserts the new row's route, or fails on a taken number |
| Routes.PhoneNumberTable.UpdateNumber | migrations/versions/0012_inbound_call_routing.py:134-163 | an update with its trigger, undone together on error |
| Routes.PhoneNumberTable.ResolveInboundRoute | voiceagent/calls/routing.py:99-120 | the one route with that e164 or none; on a mirrored table the facts of the phone number itself, or none exactly if there is none |

## Left out

- Sessions, row-level security policies, audit writes, metrics, logging and role checks: only the row reads and writes are modelled.
- Unlocked reads: besides the claims (`SKIP LOCKED`), `claim_call_for_activation`, `claim_runtime_ownership` and `persist_conversation_turn` (`voiceagent/conversations/service.py:30-37`), which lock rows, the functions read without a row lock and each is taken as one atomic step: completing, failing, reprocessing and manually closing a follow-up (`voiceagent/followups/service.py:254-258`), requesting, completing and failing an analysis (`voiceagent/call_intelligence/service.py:68-88`), `transition_call_session`, `associate_call`, `create_event`, `cancel_event`, `delete_conversation_turns` (`voiceagent/conversations/service.py:167-184`: rows persisted between its two statements are deleted without being counted), `build_call_analysis`, `create_follow_up`, and the updates of knowledge items and agent versions. The frozen-row, one-completion and alternation theorems rest on this. What two interleaved `create_event` checks do is stated by `RacingBookingsSafeIff`.
- Concurrent inserts that a unique constraint rejects after the read (a second analysis version, agent version or turn with the same number): the step is atomic, so the retry after such an error is not modelled; the channel constraint on calls is.
- Rows are values in a map that the methods read, change and write back; the services hand out detached copies, so no aliasing of row objects is modelled.
- Worker tasks: starting, stopping and cancelling the polling loop and the sleep between ticks. The bound on concurrent tenants only rules out schedules: the poll is proved for all of them, in any order of transactions. A claim or an outcome that fails in the database is not modelled.
- A poll works on the lease columns; that a completed analysis has its result stored is stated for single executions (`Analyses.AnalysisService.RunCallAiAnalysis`) and for histories.
- `create_follow_up` books in a second transaction of its own; a failure of its own commit afterwards would leave the event without a follow-up and is not modelled.
- Call outcomes, follow-up listings, call listings, reconciliation and the paging arguments of listings.
- The sort behind `list_events`: its result is described by membership and order and proved unique, not computed.
- Times are integers on one clock (seconds; microseconds for calls), without the float rounding of delays and durations; time zones, naive values and `validate_timezone` are not modelled.
- Status strings outside the vocabulary are modelled for call transitions only; elsewhere statuses and follow-up types are typed.
- Lower-casing of letters outside ASCII, except the two whose lower case has ASCII in it (U+0130, U+212A): the others are kept as they are, since neither they nor their lower case can be part of a token. Non-string queries are not modelled.
- `max_attempts_exceeded` and `call_not_completed`: reasons of the vocabulary that no modelled path reports.
- Agent configuration is one opaque value; its validation, canonical form and hash are not computed. Names of agents and their uniqueness are not modelled.
- Direct writes to the routing table, multi-row statements, and foreign keys that would block deleting or moving a phone number with calls.
- A failed remote delete leaves its file in place; a real transport may report a failure after removing it.
- The backup lock file, freshness check, recovery drill, manifests, transport commands and configuration parsing.
- Telephony, AI providers, privacy decisions and prompts: their answers are inputs.
