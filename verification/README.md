# Horizon: a verified model

This project models the parts of Archon Horizon that decide whether work can be
lost, doubled or started twice, and proves what they keep.

**The control plane.** `Records`, `Admission` and `Protocol` describe the
scheduler's tables (runs, assignments, executions, provider threads, requests,
resource claims, limits, workspaces) and each mutation as one atomic step, since
every mutation runs under one global transaction lock. A step commits a new state
or leaves the old one. Twenty-eight kinds of event (claims, heartbeats, stop
receipts, lease sweeps, cancellations, provider observations, operator commands,
phase decisions, planner reconciliation, the passing of time) make up a run of the
system; `After` is the state that a sequence of them leads to. `Structure`, `Fencing`
and `Safety` prove the invariants of every state reached from a fresh launch. `Accounts` follows
provider accounts, `Faults` counts their failures exactly, `Stops` says what confirms a stop
and renews a lease, `Verdicts` what a receipt does to a session, `Sessions` and
`Ledger` the retry ledger of an objective session, `Objectives`, `Planners`, `Idling`
and `Phases` the objective lifecycle. `Witnesses`, in the small installation of `Demo`,
shows runs in which the code does less than it promises. `Admissions` and `Weights` say when a
session is admitted, where, and what the budgets bound; `Contexts` what executions,
contexts and directories keep; `Commands` and `Lifecycle` exactly when each event takes
hold and what it leaves, in terms of the rows alone.
`ControlPlane` is the imperative program: one field per table, loops over rows, and
roll-back when a transaction raises; each method is proved to take exactly the step
that the theorems speak about.

**The follow-up walk.** `FollowUp` is the iterative depth-first search over
replacement links, with its ancestor sets and its bound of 64 obligations.

**Agent intents.** `Journal`, `AgentClient` and `Exchange` are the client's journal
and the server's receipts, over a network that loses, delays and duplicates; `Repeats`
is about commands repeated without a key.

**The dependency graph.** `FormalizationGraph`, `Contraction`, `CycleCheck` and
`Dashboard` build the dashboard's graph: breadth-first closure, contraction of
hidden definitions, Kahn's cycle check.

**Search.** `Text`, `Names`, `SuffixTable`, `Ranking` and `NameSearch` compare the sorted
suffix table with a full scan; `TypeSearch` compares the literal prefilter with the
compiled pattern, and `Signatures` says what that pattern finds. Scores are multiplied by twenty.

## Assumptions

- Runs are launched before the first event, with an empty queue; an objective's first
  planner is queued by its first reconciliation.
- One clock. Configuration (slots, limits, policies) is constant during a run of events.
- Readiness, completion findings, pending deliveries, stalled progress, frontier
  hashes and jitter draws come from outside and are arbitrary inputs of a step.
- The database's constraints of one live primary thread per assignment and one
  unsettled provider request per thread, and its unique recurrence keys, abort the step
  that would violate them.
- A provider-request sweep, a receipt and an operator confirmation name rows that
  exist; rows are never deleted, so a row's index is its identifier.
- Receipts are pruned only after they expire; a request is delivered at most
  `delay` after it was checked against the offline window, and window plus delay
  fit in the receipt retention (configuration forces the retention above the window).
- A denial before the receipt lookup, for want of live authority, is never one of the
  rejections known to have no effect; and one content stands for both the client's
  fingerprint and the server's digest of a request.
- Server-written notes are abbreviated: admission reads only whether a note is empty.

## Where the code does less than it promises

- An empty failure message writes an empty pause note, and admission reads an empty
  note as no pause. A worker that reports a failure with an empty reason keeps its
  session runnable past `max_recovery_attempts`: `Witnesses.SilentFailuresResumeForever`.
  `Ledger.PauseTakesHold` gives the exact condition, and
  `Ledger.AutomaticRecoveryIsBounded` counts such failures.
- When a planning pass disables the planner while its run is paused or draining, the
  queued successor is not paused with it, and starts one more pass when the run is
  resumed: `Witnesses.PausedRunPlansAgain`. `Idling.IdlePauseReachesSuccessor` gives the
  exact condition; `Idling.PlanningIsBounded` counts such a free successor.
- `advance` lifts a manual planner pause when it enters a phase, though nobody lifted it:
  `Witnesses.PhaseEntryLiftsPause`. `Idling.ManualPauseHolds` is the exact condition.
- An intent that the server declined, and the client marked `invalid`, can still take
  effect if an earlier transmission of it is on the wire:
  `Exchange.InvalidMayTakeEffect`. `Exchange.DeclinedStaysWithoutEffect` is the exact
  condition.
- A key that the journal has forgotten can be given again with other content and take
  effect a second time, on another operation or after its receipt was pruned:
  `Exchange.ReusedKeyMayTakeEffect`. `Exchange.ReusedKeyTakesEffect` is the exact
  condition.
- A settled intent is put back to pending by the late failure of its own transmission, also
  when its command was repeated meanwhile, so that a content can be pending twice:
  `Repeats.ClosedIntentRevives`. `Repeats.OnePendingPerContent` is the exact condition.
- A name that ends in a dotted query, and also begins with it, is not scored as an exact match:
  `Names.RepeatedQueryLoses`. `Names.DotSuffixScore` is the exact condition.
- A dotted query with a last segment of 200 characters or more can score higher on a longer
  name than on an exact one: `Names.ExactIsHighest` is the exact condition.
- A name prefix can rank below an inner match that leaves out as many characters:
  `Names.ClassesInOrder` gives the exact bounds.
- A type pattern with a tab or line break inside a literal finds nothing, since signatures
  are normalised and patterns are not: `Signatures.FilledPatternsAreFound` and
  `Signatures.NormalisingKeepsMatches`.
- A type pattern with leading whitespace before a bare `?` is read differently by the
  prefilter and by the compiled pattern: `TypeSearch.MistakenDrops`.
  `TypeSearch.PrefilterKeepsMatches` says exactly which matches are kept.
- An exact name match skips the substring fallback whatever `limit` asks for:
  `NameSearch.ExactMatchCutsShort`. `NameSearch.ExactMatchSuffices` says exactly when the
  top hits are still those of the full scan.

## Model

| member | source | states |
|---|---|---|
| `Safety.AlwaysSafe` | src/archon_horizon/pipeline/execution/scheduler.py:480-578 | every reachable state satisfies the row invariants and the capacity invariants, through every event |
| `Safety.ReadmissionIsFenced` | src/archon_horizon/pipeline/execution/scheduler.py:536-574 | in an objective run a session is admitted only when every earlier execution of it has a confirmed physical stop, across lease loss, a change of host, thread retirement and context recovery |
| `Safety.LegacyReadmissionWaits` | src/archon_horizon/pipeline/execution/scheduler.py:758-774 | a legacy session is admitted only when earlier executions are neither live nor unsettled, and confirmed or 300 s past their end |
| `Safety.OneProcessPerSession` | src/archon_horizon/pipeline/execution/scheduler.py:758-774 | of two executions of an objective session the older has a confirmed stop |
| `Safety.OneWorkspacePerSession` | src/archon_horizon/pipeline/execution/scheduler.py:810-861 | all executions of a session, through retirement and recovery, share one workspace |
| `Safety.WorkspacesAreExclusive` | src/archon_horizon/pipeline/execution/scheduler.py:777-861 | no two busy executions share a workspace, retained, free or freshly proposed |
| `Safety.BudgetsHold` | src/archon_horizon/pipeline/execution/queue_policies.py:42-122 | busy weights never exceed a pool's or an objective category's slots, and unreleased units never exceed a finite shared limit, however pools overlap |
| `Safety.ClaimsFollowStops` | src/archon_horizon/pipeline/execution/scheduler.py:1052-1053 | a claim is unreleased exactly while the stop of its execution is unconfirmed, for the units the session reserved |
| `Safety.CompletedRunHoldsNothing` | src/archon_horizon/pipeline/commands.py:338-359 | a run that passes the `complete_run` guard holds no claim |
| `Safety.SessionsStayCoherent` | src/archon_horizon/pipeline/execution/scheduler.py:1004-1177 | at most one live execution per session, none for a queued one, and `finished_at` is set exactly in the settled statuses |
| `Safety.StepMonotone` | src/archon_horizon/pipeline/execution/worker_events.py:261-289 | no event revives an execution, changes its job or makes it busy again |
| `Safety.OccupancyNeverReturns` | src/archon_horizon/pipeline/execution/scheduler.py:758-778 | over any continuation an execution keeps its session, host, workspace and weight, busy status once lost is never regained, and confirmations stand |
| `Admissions.AdmissionTerms` | src/archon_horizon/pipeline/execution/scheduler.py:509-556 | no session is admitted unless it is queued in an active or draining run, past `not_before` and `retry_at`, before `expires_at`, not paused, on its pinned harness, eligible, ready and within its tokens; between acceptance and advance only the accepting session |
| `Admissions.AdmissionAccounts` | src/archon_horizon/pipeline/execution/scheduler.py:115-129 | every account of the pool is closed and out of cooldown, and no request of the session is unsettled |
| `Admissions.AdmissionPlace` | src/archon_horizon/pipeline/execution/scheduler.py:810-861 | a new execution works on its host, in its run's project, in a ready directory or in the one generated for its session; no other directory changes |
| `Admissions.FreshPlacement` | src/archon_horizon/pipeline/execution/scheduler.py:830-861 | a session without a context takes the first vacant directory no unfinished session keeps; failing that a capable host copies the first ready one of the project, another host takes the first vacant one; otherwise none |
| `Admissions.RetainedPlacement` | src/archon_horizon/pipeline/execution/scheduler.py:823-829 | a session with a context on the host returns to that context's directory, exactly when it is of the project, free, and ready or preparable |
| `Admissions.ContextsStayHome` | src/archon_horizon/pipeline/execution/scheduler.py:812-819 | a session whose native context is on another host, or whose last context was given up, is not admitted |
| `Admissions.PlannersTakeTurns` | src/archon_horizon/pipeline/execution/scheduler.py:546-551 | a queued planner is not admitted while another planner of its run is unfinished under the active key |
| `Admissions.ContextsKeepHarness` | src/archon_horizon/pipeline/execution/scheduler.py:559-563 | a continued session stays on the host and harness of its retained context |
| `Admissions.ProjectsStaySeparate` | src/archon_horizon/pipeline/execution/scheduler.py:823-846 | over every run each execution works in a directory of its own session's project |
| `Weights.NewSessionIsAdmitted` | src/archon_horizon/pipeline/execution/scheduler.py:509-576 | a new session with a vacant directory is admitted on a pool if and only if it is due, eligible and ready, the pool has a slot, every linked limit takes one unit more, and its category has a slot, a session, tokens and, for a worker, the maintenance reserve to spare |
| `Weights.PoolsAreNotExceeded` | src/archon_horizon/pipeline/execution/scheduler.py:564-567 | in every reachable state whichever executions of a pool may be running take, with one unit each and one for each reserved child, no more than its slots |
| `Weights.CategoriesAreNotExceeded` | src/archon_horizon/pipeline/execution/queue_policies.py:50-57 | the same for the sessions of one category of an objective |
| `Weights.LimitsAreNotExceeded` | src/archon_horizon/pipeline/execution/scheduler.py:620-631 | the units of any unreleased claims on a finite limit stay within its maximum |
| `Weights.SharesAre` | src/archon_horizon/pipeline/execution/queue_policies.py:50-83 | what each execution, claim and session adds to the weights that admission compares |
| `Weights.SessionBudgetsHold` | src/archon_horizon/pipeline/execution/queue_policies.py:58-62 | over every run no category of an objective starts more sessions than `max_sessions` |
| `Weights.ReservesWhatFits` | src/archon_horizon/pipeline/execution/queue_policies.py:89-122 | a reservation of n children is granted exactly when the session does not plan, n is within the harness cap, and the session with n children fits its category, its pool beside the maintenance reserve and every linked limit |
| `Weights.UncappedReservesNothing` | src/archon_horizon/pipeline/execution/queue_policies.py:89-96 | without a cap, or in a legacy run, nothing is reserved |
| `Weights.ReserveIsLargest` | src/archon_horizon/pipeline/execution/queue_policies.py:75-79 | the maintenance reserve is the largest that a maintainer category asks for |
| `Weights.QueueingRules` | src/archon_horizon/pipeline/execution/queue_policies.py:24-39 | exactly when a session is queued, and the row it becomes |
| `Weights.QueueHasRoom` | src/archon_horizon/pipeline/execution/queue_policies.py:31-37 | after a request joins a category it holds at most `max_pending` queued sessions |
| `Contexts.AdmissionRows` | src/archon_horizon/pipeline/execution/scheduler.py:863-904 | the new execution runs under the next epoch with a whole lease; the session keeps its first start and loses its retry date |
| `Contexts.EpochsCount` | src/archon_horizon/pipeline/execution/scheduler.py:894-895 | over every run the epochs of a session are one, two, three, in order and without gaps |
| `Contexts.LeasesAreBounded` | src/archon_horizon/pipeline/execution/scheduler.py:942-957 | over every run no live execution's lease runs longer than the configured one from now |
| `Contexts.OneRequestPerContext` | src/archon_horizon/pipeline/execution/worker_events.py:261-296 | over every run a context has at most one unsettled request, the last one sent |
| `Contexts.IdentitiesStand` | src/archon_horizon/pipeline/execution/worker_events.py:297-316 | over any continuation a context keeps its session, directory and harness, and its native identity once it has one |
| `Contexts.OneGeneratedDirectory` | src/archon_horizon/pipeline/execution/scheduler.py:855-861 | over every run a session has at most one generated directory on each host |
| `Contexts.RetiredStayEmpty` | src/archon_horizon/pipeline/operations/workspace_retention.py:12-40 | over any continuation a retired or broken directory stays so and no later execution works in it |
| `Stops.SecondFinishChangesNothing` | src/archon_horizon/pipeline/execution/worker_events.py:171-252 | once an execution has ended in a run, every later stop receipt for it, after whatever events, changes no assignment, limit or run and no other execution |
| `Stops.ConfirmStep` | src/archon_horizon/pipeline/execution/scheduler.py:1015-1019 | one event confirms a stop only if it is a stop receipt for that execution or the operator's confirmation of it: never a lease sweep, a cancellation or time |
| `Stops.ConfirmedStopsWereWitnessed` | src/archon_horizon/pipeline/commands.py:129-152 | over any run of events a stop that became confirmed was witnessed by such a receipt or confirmation |
| `Stops.LeaseStep` | src/archon_horizon/pipeline/execution/scheduler.py:942-957 | an event moves the lease of an execution that stays live only if it is a heartbeat of its epoch inside the lease that found no stop requested, and then to a whole lease from now |
| `Stops.RequestedStopsStand` | src/archon_horizon/pipeline/execution/scheduler.py:949-957 | once a stop is requested, because the execution was told, its run halted or its window closed, no run of events withdraws the request or extends the lease |
| `Verdicts.LateReceiptIsLost` | src/archon_horizon/pipeline/execution/worker_events.py:225-227 | a receipt after the lease ran out settles a session that nobody asked to stop as lost, whatever it says: the execution is lost, the session is not completed and has one more failure, and no account changes |
| `Verdicts.TimelyReceiptIsHonoured` | src/archon_horizon/pipeline/execution/worker_events.py:167-252 | a receipt inside the lease without stuck intents keeps its own outcome: execution status, and exactly when the session is cancelled, completed or has one more failure |
| `Verdicts.StuckReceiptFails` | src/archon_horizon/pipeline/execution/worker_events.py:229-249 | a receipt whose intents stayed unresolved past the bound fails the turn |
| `Verdicts.LostContextPauses` | src/archon_horizon/pipeline/execution/objectives.py:387-396 | a failed turn that cost an objective session its context leaves it queued and paused for an operator |
| `Verdicts.LeaseLossRules` | src/archon_horizon/pipeline/execution/scheduler.py:1346-1353 | a sweep ends exactly a live execution past its lease: requests uncertain, stop unconfirmed, claims held, one more failure |
| `Verdicts.ObjectiveOutcomes` | src/archon_horizon/pipeline/execution/objectives.py:378-417 | how each outcome, failure and finding leaves an objective session |
| `Verdicts.TurnOutcomes` | src/archon_horizon/pipeline/execution/objectives.py:403-417 | a finished objective turn completes, pauses or continues its session, exactly by what is still open, and dates its continuation |
| `Verdicts.FailureClasses` | src/archon_horizon/pipeline/execution/scheduler.py:21-23 | the failures that are retried, that wait for a repair and that count against an account, by name |
| `Verdicts.LegacyTurns` | src/archon_horizon/pipeline/execution/scheduler.py:1062-1148 | how each finished turn leaves a legacy session |
| `Verdicts.LegacyFailures` | src/archon_horizon/pipeline/execution/scheduler.py:1149-1176 | how each failure leaves a legacy session |
| `Fencing.WorkerAdmissionRespectsReserve` | src/archon_horizon/pipeline/execution/queue_policies.py:73-85 | each objective worker admission leaves the pool's worker weight at most max(1, slots - reserve) |
| `Fencing.ReservationBounds` | src/archon_horizon/pipeline/execution/queue_policies.py:89-122 | a session with its reserved children fits its category, its pool and every linked limit at once |
| `Fencing.AdmitKeepsFits` | src/archon_horizon/pipeline/execution/scheduler.py:863-904 | an admission keeps fencing, exclusive workspaces, pool and category weights and limits |
| `Fencing.BusyNeverRegained` | src/archon_horizon/pipeline/execution/scheduler.py:758-778 | no step other than an admission adds occupancy |
| `Accounts.AccountStep` | src/archon_horizon/pipeline/execution/scheduler.py:1025-1051 | a circuit closes only by reset, the cooldown never shrinks while failures remain, and the failure count drops only to zero, by a reset or by an execution started at or after the cooldown |
| `Accounts.OneProbe` | src/archon_horizon/pipeline/execution/scheduler.py:620-631 | after a failure an account admits one probe, with nothing held on it and its cooldown over |
| `Accounts.FailingAccountsCool` | src/archon_horizon/pipeline/execution/scheduler.py:115-129 | in every reachable state a failing account has a cooldown |
| `Faults.BackoffDoubles` | src/archon_horizon/pipeline/execution/scheduler.py:1032-1033 | the delay starts at the initial one, doubles with each failure up to the twenty-first and is capped |
| `Faults.WaitsAreDrawn` | src/archon_horizon/pipeline/execution/scheduler.py:1033-1033 | a wait is any number between half the delay and the delay |
| `Faults.LimitStep` | src/archon_horizon/pipeline/execution/scheduler.py:1022-1051 | one event and one limit, exactly: a provider's fault in a receipt that ends a live execution adds one failure to each account it holds, with a cooldown of at least half the delay and an open circuit past the policy of an objective; a healthy finish clears it exactly when it is closed and its cooldown was over at the start; a reset clears it; nothing else touches it |
| `Faults.FailuresCountFaults` | src/archon_horizon/pipeline/execution/scheduler.py:1025-1051 | over every run an account's failure count is the number of faults since it was last cleared or reset, and its circuit is open exactly when one of them passed the policy |
| `Sessions.SessionStep` | src/archon_horizon/pipeline/execution/scheduler.py:991-1177 | each event ends, admits, recovers or nudges an objective session, and nothing else |
| `Ledger.FailuresAreRemembered` | src/archon_horizon/pipeline/execution/objectives.py:387-402 | in every run a session's failure count equals the failures that happened to it |
| `Ledger.AutomaticRecoveryIsBounded` | src/archon_horizon/pipeline/execution/objectives.py:387-402 | over a session's whole life automatic resumption happens at most `max_recovery_attempts` times plus once for each silent failure, one outside the policy with its context kept and no message; every other attempt after a failure follows an operator recovery |
| `Ledger.ExplainedFailuresStayInPolicy` | src/archon_horizon/pipeline/execution/objectives.py:387-402 | without silent failures automatic resumption happens at most `max_recovery_attempts` times |
| `Ledger.BackoffIsWaitedOut` | src/archon_horizon/pipeline/execution/objectives.py:394-402 | over every run, if a turn of an objective session failed at t within the policy and neither an operator nor a silent failure intervened, its next admission is no earlier than t plus half the policy's delay |
| `Ledger.LedgerStep` | src/archon_horizon/pipeline/execution/objectives.py:396-400 | the count never decreases and each scheduled delay is at most `max_delay_seconds` |
| `Ledger.PauseTakesHold` | src/archon_horizon/pipeline/execution/objectives.py:394-402 | exactly when a failed turn leaves a session waiting for an operator |
| `Witnesses.SilentFailuresResumeForever` | src/archon_horizon/pipeline/execution/worker_events.py:219-224 | a run for every policy: stop receipts that fail with an empty reason, each followed by an admission, resume one session automatically as often as one likes |
| `Ledger.StalledIntentsStopRecovery` | src/archon_horizon/pipeline/execution/worker_events.py:229-249 | intents unresolved past the configured number of recovery executions pause an objective session and fail a legacy one |
| `Objectives.RunStep` | src/archon_horizon/pipeline/execution/objectives.py:197-375 | each event changes a run in one of eight ways |
| `Planners.OnePlannerPerKey` | src/archon_horizon/pipeline/execution/objectives.py:156-194 | an objective has at most one live planner with the active key and one with the next key, and at most one of them runs |
| `Planners.StepHeeds` | src/archon_horizon/pipeline/execution/objectives.py:197-249 | a queued planner stays paused while its rule is disabled, unless it was already free or an operator frees it |
| `Idling.PlanningIsBounded` | src/archon_horizon/pipeline/execution/objectives.py:206-220 | with an unchanged frontier, no operator command and no phase entered, an enabled planner completes at most max(1, `planner_max_unchanged_passes` - passes) planning passes, a disabled one only those already active or free to start |
| `Idling.ManualPauseHolds` | src/archon_horizon/pipeline/execution/objectives.py:211-216 | a manual pause is lifted exactly by the operator's accepted switch and by the entry into an accepted phase once nothing is open, busy or undelivered; completion and reconciliation otherwise never undo it |
| `Witnesses.PhaseEntryLiftsPause` | src/archon_horizon/pipeline/execution/objectives.py:347-375 | a run in which an operator pauses the planner, a phase is accepted and entered, and the planner is enabled again |
| `Idling.AlwaysReasoned` | src/archon_horizon/pipeline/execution/objectives.py:211-217 | a planner is disabled only by hand, by the idle bound or by a halted run |
| `Idling.IdlePauseReachesSuccessor` | src/archon_horizon/pipeline/execution/objectives.py:218-221 | a disabling pass pauses the queued planner if and only if the run is active or it was paused before |
| `Witnesses.PausedRunPlansAgain` | src/archon_horizon/pipeline/execution/objectives.py:206-221 | a run in which the only unchanged pass allowed ends while the run is paused, and a second pass is admitted after it is resumed |
| `Phases.PhasesInOrder` | src/archon_horizon/pipeline/execution/objectives.py:284-339 | until completion the accepted history is a prefix of the requested phases, and the current or pending phase is the matching entry |
| `Phases.PhaseChangesWhenSettled` | src/archon_horizon/pipeline/execution/objectives.py:347-375 | the phase changes only to the accepted one, with no open assignment, busy execution or pending delivery |
| `Phases.SettlingBelongsToOwner` | src/archon_horizon/pipeline/execution/scheduler.py:511-512 | between acceptance and advance only the accepting session is open, and only it can be admitted |
| `Lifecycle.SuccessorRules` | src/archon_horizon/pipeline/execution/objectives.py:156-184 | exactly when a planner is queued, when a settling phase refuses it, and the row it becomes |
| `Lifecycle.PassRules` | src/archon_horizon/pipeline/execution/objectives.py:209-217 | how a completed pass moves the rule: count, switch, pause and date |
| `Lifecycle.WaitsDouble` | src/archon_horizon/pipeline/execution/objectives.py:211-212 | the wait starts at the interval, doubles with each unchanged pass up to the sixteenth and is capped |
| `Lifecycle.PassDatesSuccessor` | src/archon_horizon/pipeline/execution/objectives.py:218-221 | in an active run the queued planner takes the rule's date and is paused exactly when the rule is off |
| `Lifecycle.SwitchRules` | src/archon_horizon/pipeline/commands.py:486-521 | switching the planner off pauses every queued planner of the run, switching it on frees its successor; nothing else of any run changes |
| `Lifecycle.AcceptanceRules` | src/archon_horizon/pipeline/execution/objectives.py:252-344 | exactly when a phase is accepted, which phase follows, and whether the run then waits for approval |
| `Lifecycle.AdvanceRules` | src/archon_horizon/pipeline/execution/objectives.py:347-375 | exactly when an accepted transition is taken, and into what |
| `Lifecycle.WakeRules` | src/archon_horizon/pipeline/execution/objectives.py:240-247 | exactly when a new frontier wakes the planner, and which queued planners it frees |
| `Commands.OccupancyIs` | src/archon_horizon/pipeline/execution/scheduler.py:758-774 | exactly when an execution holds its reservation: live, unsettled, or ended without a confirmed stop, for 300 seconds in a legacy run |
| `Commands.HeartbeatRules` | src/archon_horizon/pipeline/execution/scheduler.py:942-957 | exactly when a heartbeat is accepted and when it renews the lease |
| `Commands.RequestStarts` | src/archon_horizon/pipeline/execution/worker_events.py:261-287 | exactly when a provider request may start |
| `Commands.RequestFinishes` | src/archon_horizon/pipeline/execution/worker_events.py:297-316 | a finished request is recorded once; a second identity of its context is refused |
| `Commands.ObservationRules` | src/archon_horizon/pipeline/execution/worker_events.py:100-118 | exactly when a directory is reported ready and when a request is seen to start |
| `Commands.ReceiptContext` | src/archon_horizon/pipeline/execution/worker_events.py:181-205 | what a stop receipt makes of the session's context: adopted, refused, lost, or kept because the provider never started |
| `Commands.OperatorConfirms` | src/archon_horizon/pipeline/commands.py:129-152 | exactly when an operator may confirm a stop, and every row it changes |
| `Commands.ReplacementRules` | src/archon_horizon/pipeline/commands.py:207-237 | exactly when a context is replaced, and that only a legacy session's failures are forgotten |
| `Commands.OrphanRules` | src/archon_horizon/pipeline/execution/scheduler.py:57-83 | exactly which contexts without identity are given up before a claim from another host |
| `Commands.FailedContextRules` | src/archon_horizon/pipeline/execution/scheduler.py:84-113 | exactly which failed contexts a queued legacy session gives up |
| `Commands.ResumeRules` | src/archon_horizon/pipeline/commands.py:116-128 | exactly when a paused session is resumed; its failures stay |
| `Commands.CheckpointRules` | src/archon_horizon/pipeline/commands.py:438-449 | exactly when a session may ask to be continued later, and from when |
| `Commands.LegacyRecoveryRules` | src/archon_horizon/pipeline/commands.py:387-437 | exactly when a legacy session is retried or reopened, and that a directory taken by another unfinished session refuses it |
| `Commands.RetirementRules` | src/archon_horizon/pipeline/operations/workspace_retention.py:12-40 | exactly when a generated directory is retired, and that its contexts are given up |
| `Commands.CancelRules` | src/archon_horizon/pipeline/execution/scheduler.py:1402-1421 | a settled session stays, a queued one ends at once, a running one and its executions are told to stop |
| `Commands.CancelledPlanner` | src/archon_horizon/pipeline/execution/scheduler.py:1402-1421 | cancelling a planner switches its rule off and pauses its queued successor |
| `Commands.SweepRules` | src/archon_horizon/pipeline/execution/scheduler.py:1334-1363 | exactly which sessions expire, which stopping runs end and which turns are settled |
| `Commands.RunCommandRules` | src/archon_horizon/pipeline/commands.py:320-359 | from which status each command takes a run |
| `Commands.RunCancels` | src/archon_horizon/pipeline/commands.py:372-383 | a halting run cancels exactly its queued and running sessions, a draining one exactly its queued recurrences |
| `Commands.RunCommandLeaves` | src/archon_horizon/pipeline/commands.py:360-383 | each command takes its own run to its status, and no other run |
| `ControlPlane.ControlPlane.ClaimNext` | src/archon_horizon/pipeline/execution/scheduler.py:523-578 | a poll only retires contexts until it admits at most one execution, of a session of the queue that is due and on a harness that was asked for; it keeps every invariant and leaves the tables alone when it raises |
| `ControlPlane.ControlPlane.Start` | src/archon_horizon/pipeline/execution/scheduler.py:863-912 | the rows written are those of the admission step, or none |
| `ControlPlane.ControlPlane.ChildCapacity` | src/archon_horizon/pipeline/execution/queue_policies.py:89-122 | the narrowing loop computes the capacity that `ReservationBounds` is about |
| `ControlPlane.ControlPlane.LimitsAvailable` | src/archon_horizon/pipeline/execution/scheduler.py:620-631 | the loop returns whether every limit of the pool is free |
| `ControlPlane.ControlPlane.Finish` | src/archon_horizon/pipeline/execution/scheduler.py:991-1177 | settles execution, session, accounts, claims and planner as one step, or nothing |
| `ControlPlane.ControlPlane.WriteSettled` | src/archon_horizon/pipeline/execution/scheduler.py:1010-1053 | the row-by-row updates amount to the settlement step |
| `ControlPlane.ControlPlane.AdjustLimits` | src/archon_horizon/pipeline/execution/scheduler.py:1022-1051 | the loop leaves each limit exactly accounted for: one failure more with its cooldown and circuit on every account held after a provider's fault, cleared after a healthy finish, and otherwise as it was |
| `ControlPlane.ControlPlane.HandleStop` | src/archon_horizon/pipeline/execution/worker_events.py:167-252 | a receipt confirms the stop, leaves no turn open and no claim held and no other execution changed; after the lease it is a loss with one more failure, inside it and without stuck intents its own outcome |
| `ControlPlane.ControlPlane.SweepLeases` | src/archon_horizon/pipeline/execution/scheduler.py:1347-1353 | afterwards no live execution has an expired lease, and every invariant holds |
| `ControlPlane.ControlPlane.SettleStoppedTurns` | src/archon_horizon/pipeline/execution/scheduler.py:1334-1345 | a batch interrupts turns of confirmed stops only; a batch that is not full leaves none |
| `ControlPlane.ControlPlane.ExpireSessions` | src/archon_horizon/pipeline/execution/scheduler.py:1354-1357 | afterwards no queued or running session is past its window, and every invariant holds |
| `ControlPlane.ControlPlane.SettleRuns` | src/archon_horizon/pipeline/execution/scheduler.py:1358-1363 | afterwards a stopping run has an open session, and every invariant holds |
| `ControlPlane.ControlPlane.ReconcileAll` | src/archon_horizon/pipeline/execution/objectives.py:229-249 | the sweep over objectives is a run of reconciliation steps that keeps every invariant, or nothing |
| `ControlPlane.ControlPlane.LoseLease` | src/archon_horizon/pipeline/execution/scheduler.py:1348-1353 | lease loss ends the execution and leaves its confirmation and its claims as they were, so that an objective session stays busy |
| `ControlPlane.ControlPlane.Beat` | src/archon_horizon/pipeline/execution/scheduler.py:942-957 | a heartbeat renews a live lease and nothing once a stop is requested |
| `ControlPlane.ControlPlane.CancelSession` | src/archon_horizon/pipeline/execution/scheduler.py:1402-1421 | cancels a queued session, asks a running one to stop, and disables its planner rule |
| `ControlPlane.ControlPlane.CancelOpen` | src/archon_horizon/pipeline/commands.py:360-383 | the loop of a stopping or draining run amounts to cancelling its sessions in order |
| `ControlPlane.ControlPlane.ConfirmHostStopped` | src/archon_horizon/pipeline/commands.py:129-152 | exactly when it is accepted; it confirms the stop, interrupts turns, releases claims and retires unstarted contexts |
| `ControlPlane.ControlPlane.Recover` | src/archon_horizon/pipeline/commands.py:207-237 | nothing of a recovered session can still run and every earlier objective execution is confirmed; its new context is the only one retained, in the old workspace, and an objective ledger is kept |
| `ControlPlane.ControlPlane.ChangeRun` | src/archon_horizon/pipeline/commands.py:320-383 | a cancelled run has nothing queued or running, a draining one no queued recurrence, a completed one no open session and no unconfirmed execution |
| `ControlPlane.ControlPlane.QueueSuccessor` | src/archon_horizon/pipeline/execution/objectives.py:156-184 | at most one planner is appended, and only where none was queued; an active run then has one unless its queue is full |
| `ControlPlane.ControlPlane.TakeActiveKey` | src/archon_horizon/pipeline/execution/objectives.py:187-194 | an admitted planner is the only open holder of the active key, or the claim fails |
| `ControlPlane.ControlPlane.CompletePass` | src/archon_horizon/pipeline/execution/objectives.py:206-221 | an unchanged pass is counted, a manual pause stands, the rule stays enabled only below the bound and the delay is at most `planner_max_idle_seconds` |
| `ControlPlane.ControlPlane.Reconcile` | src/archon_horizon/pipeline/execution/objectives.py:229-247 | the run stays as it was, wakes on a new frontier or enters what was accepted; outside a transition a planner is queued afterwards unless the queue is full, and a woken run has no paused one |
| `ControlPlane.ControlPlane.Accept` | src/archon_horizon/pipeline/execution/objectives.py:252-344 | the phase joins the history with its successor and its owner on record, nothing else of the run is open, and no queued planner is left |
| `ControlPlane.ControlPlane.Advance` | src/archon_horizon/pipeline/execution/objectives.py:347-375 | a transition is taken only with nothing open, busy or undelivered, and leads to the accepted phase or to draining; otherwise nothing changes |
| `FollowUp.Walk` | src/archon_horizon/pipeline/execution/coordination_memory.py:188-211 | terminates; fails only on a reached identifier without a record; reports the bound exactly when more than 64 obligations are reached, having visited 64 of them; otherwise visits exactly the reached ones, collects exactly their owners and reports a cycle exactly when their links contain one |
| `FollowUp.LinksMean` | src/archon_horizon/pipeline/execution/coordination_memory.py:201-211 | an open obligation is owned by its session; a handled or superseded one by its delegates, and followed by its replacements |
| `FollowUp.Enter` | src/archon_horizon/pipeline/execution/coordination_memory.py:201-211 | visiting an obligation keeps the path discipline behind the ancestor sets |
| `FollowUp.OrderedAcyclic` | src/archon_horizon/pipeline/execution/coordination_memory.py:191-196 | a walk that met no cycle has a topological order of all it reached |
| `AgentClient.AgentClient.Request` | src/archon_horizon/pipeline/client.py:161-246 | a refusal leaves the journal alone; otherwise the response decides the sent intent, an unanswered one is retried within five minutes, and no other unresolved intent is touched; without a key the oldest pending row of the content is resent and none added, refused exactly when it is too old or not due, and a fresh key is used only if there is none |
| `AgentClient.AgentClient.ReplayPending` | src/archon_horizon/pipeline/client.py:326-355 | each of the oldest unresolved rows is reported by its fate, completed, blocked or deferred, and only those in the window and due, or left by another execution, are sent; an unresolved intent survives unresolved unless its own answer ended it, and a row not sent stays as it is |
| `AgentClient.AgentClient.RecoveryState` | src/archon_horizon/pipeline/client.py:357-377 | the count grows by one exactly when another execution meets the same oldest unresolved intent, starts over at one with another, and is positive exactly while something is pending |
| `AgentClient.AgentClient.ResolveIntent` | src/archon_horizon/pipeline/client.py:379-413 | closes exactly the named unresolved intent |
| `AgentClient.CounterCountsExecutions` | src/archon_horizon/pipeline/client.py:364-374 | the recovery counter is the number of successive executions that met the same oldest unresolved intent |
| `AgentClient.NewerIntentsWait` | src/archon_horizon/pipeline/client.py:367-371 | newer intents never affect the counter's intent |
| `Journal.BeginKeeps` | src/archon_horizon/pipeline/client.py:172-193 | starting a request loses no unresolved intent and sends a row's own content inside its window |
| `Journal.SettleKeeps` | src/archon_horizon/pipeline/client.py:224-240 | an answer settles its own intent only; pending and rejected rows are never deleted |
| `Journal.KeylessResends` | src/archon_horizon/pipeline/client.py:172-191 | a keyless request whose content is pending sends the oldest such row's key and number, loses and adds no row, and is refused exactly when that row left the window or is not due |
| `Journal.KeyChoice` | src/archon_horizon/pipeline/client.py:173-178 | the caller's key stands; without one a fresh key is drawn exactly when the content is not pending |
| `Journal.NewKeyAdds` | src/archon_horizon/pipeline/client.py:187-191 | an unknown key becomes a new pending row exactly when there is room |
| `Journal.DelaysDouble` | src/archon_horizon/pipeline/client.py:249-254 | the retry delay doubles with each attempt from two seconds to 256 |
| `Journal.SettleForgets` | src/archon_horizon/pipeline/client.py:239-240 | an answer deletes another row exactly when it is settled and more than a week old |
| `Repeats.RepeatResends` | src/archon_horizon/pipeline/client.py:172-191 | a keyless request event for a pending content issues no row and transmits, at most three times, the oldest pending row's key and number |
| `Repeats.PendingContentIsNotIssuedAgain` | src/archon_horizon/pipeline/client.py:172-191 | over any continuation in which a content stays pending, keyless requests for it issue no further row, whatever else happens |
| `Repeats.RepeatedCommandTakesEffectOnce` | src/archon_horizon/pipeline/client.py:172-191 | over every run whose requests for a content carry no key, and in which it stays pending from its first row on, one row is issued for it and it takes effect at most once |
| `Repeats.OnePendingPerContent` | src/archon_horizon/pipeline/client.py:172-191 | over every run without caller's keys each content has at most one pending row throughout if and only if no lost or temporary answer puts a settled row back beside a pending one of its content |
| `Repeats.OnePendingStep` | src/archon_horizon/pipeline/client.py:172-191 | one event without a caller's key keeps one pending row per content exactly unless it puts a settled row back beside a pending one |
| `Repeats.ClosedIntentRevives` | src/archon_horizon/pipeline/client.py:256-260 | a run in which a closed intent is put back beside its repetition |
| `Exchange.AtMostOnce` | src/archon_horizon/pipeline/api.py:283-316 | over every run with lost, delayed and repeated messages, crashes and replays, each journaled intent takes effect at most once |
| `Exchange.SuccessIsOriginal` | src/archon_horizon/pipeline/api.py:289-303 | every success, replayed or not, reports the value its key and content took effect with |
| `Exchange.KeysTakeEffectOnce` | src/archon_horizon/pipeline/api.py:290-303 | over every run two effects of one key on one operation are more than a whole retention apart, whatever their contents |
| `Exchange.ReusedKeyTakesEffect` | src/archon_horizon/pipeline/api.py:289-307 | exactly when a key that took effect can do so again: every earlier effect was of another operation or its receipt is gone, more than a retention later |
| `Exchange.ReusedKeyMayTakeEffect` | src/archon_horizon/pipeline/client.py:186-240 | a run in which a key forgotten by the journal takes effect again with other content |
| `Exchange.KeysKeepTheirContent` | src/archon_horizon/pipeline/client.py:181-183 | a journaled key is never sent with other content |
| `Exchange.UnresolvedStay` | src/archon_horizon/pipeline/client.py:186-240 | no event deletes a pending or rejected intent |
| `Exchange.DeclinedHadNoEffect` | src/archon_horizon/pipeline/client.py:49-81 | when the server declines an intent as having no effect, it has had none |
| `Exchange.MalformedHasNoEffect` | src/archon_horizon/pipeline/client.py:63-81 | content that validation rejects never takes effect |
| `Exchange.DeclinedStaysWithoutEffect` | src/archon_horizon/pipeline/client.py:201-236 | a declined intent can still take effect if and only if another copy of it is on the wire |
| `Exchange.InvalidMayTakeEffect` | src/archon_horizon/pipeline/client.py:228-236 | a run in which an intent marked invalid takes effect |
| `FormalizationGraph.Collect` | src/archon_horizon/frontend/src/formalizationGraph.ts:65-95 | the breadth-first loop collects exactly what the shown starts reach, each vertex once with its drawn dependencies |
| `FormalizationGraph.DependenciesAre` | src/archon_horizon/frontend/src/formalizationGraph.ts:83-94 | exactly which dependencies are drawn from a node, in terms of the first node listed with each identifier |
| `FormalizationGraph.StartsAre` | src/archon_horizon/frontend/src/formalizationGraph.ts:76-77 | exactly which nodes the collection starts from |
| `Contraction.Contract` | src/archon_horizon/frontend/src/formalizationGraph.ts:96-109 | an edge is drawn, once, exactly when its target is visible and reached through hidden vertices only |
| `Contraction.ContractionPreservesReachability` | src/archon_horizon/frontend/src/formalizationGraph.ts:96-109 | between visible vertices the contracted graph has the reachability and the cycles of the full one |
| `CycleCheck.HasCycle` | src/archon_horizon/frontend/src/formalizationGraph.ts:110-120 | true exactly when the collected dependency graph has a directed cycle |
| `Dashboard.Build` | src/archon_horizon/frontend/src/formalizationGraph.ts:65-121 | the model shows the full graph of the query: vertices, edges, cycle flag and hidden count |
| `Dashboard.HiddenAre` | src/archon_horizon/frontend/src/formalizationGraph.ts:96-96 | exactly which vertices are hidden |
| `Dashboard.HidingPreservesMeaning` | src/archon_horizon/frontend/src/formalizationGraph.ts:94-109 | hiding definitions changes neither dependency nor circularity between shown vertices |
| `Dashboard.DrawnClosed` | src/archon_horizon/frontend/src/formalizationGraph.ts:86-93 | every drawn dependency is itself collected |
| `Names.NameScore` | src/archon_horizon/search/index.py:307-337 | the loop over dots computes the score whose classes, ceilings and order the rows below state |
| `Names.UnfindableWeak` | src/archon_horizon/search/index.py:335-337 | a name with no dot-suffix that starts with the query scores below every strong match |
| `Names.ScoredContained` | src/archon_horizon/search/index.py:314-337 | a query that scores occurs in the name |
| `Names.SegmentPrefixScore` | src/archon_horizon/search/index.py:320-321 | a query that begins the last segment scores 1600 less two for each character left out, and at least one exactly when fewer than 800 are |
| `Names.ShorterSegmentsWin` | src/archon_horizon/search/index.py:320-321 | among such names the shorter last segment ranks strictly higher |
| `Names.NamePrefixScore` | src/archon_horizon/search/index.py:322-323 | a query that only begins the whole name stays below 1400, less two for each character left out |
| `Names.InsideScore` | src/archon_horizon/search/index.py:335-336 | a query that only occurs inside a segment scores at most 1200, less one for each character left out |
| `Names.ClassesInOrder` | src/archon_horizon/search/index.py:307-337 | with equally many characters left out, a segment prefix outranks a name prefix, and they outrank an inner match exactly below 400 and 200 characters |
| `Names.MidwayScore` | src/archon_horizon/search/index.py:324-334 | what a query that begins a later dot-suffix scores, by the leftmost one |
| `Names.ExactIsHighest` | src/archon_horizon/search/index.py:318-334 | no name outranks an exact match if and only if the query has no dot or a last segment of fewer than 200 characters |
| `Names.DotSuffixScore` | src/archon_horizon/search/index.py:324-334 | a name that ends in the query after a dot is an exact match if and only if the name does not begin with the query and no earlier dot-suffix does, for every query without an overlong segment |
| `Names.RepeatedQueryLoses` | src/archon_horizon/search/index.py:322-323 | a name that ends in the query after a dot and scores below 1400 |
| `Names.CaseIsIgnored` | src/archon_horizon/search/index.py:314-314 | two texts compare equal exactly when they differ in letter case alone |
| `SuffixTable.PrefixIndices` | src/archon_horizon/search/index.py:384-395 | on a sorted table the bisected scan returns what a scan of the whole table does |
| `SuffixTable.BisectLeft` | src/archon_horizon/search/index.py:387-387 | splits the table at the prefix |
| `NameSearch.TableFinds` | src/archon_horizon/search/index.py:592-611 | the table finds exactly the declarations with a dot-suffix that starts with the query |
| `NameSearch.Indexed` | src/archon_horizon/search/index.py:520-544 | the three lookups list exactly the findable declarations with a positive score, each with the linear scorer's score |
| `NameSearch.Fallback` | src/archon_horizon/search/index.py:550-558 | after the fallback the hits are those of a full scan |
| `NameSearch.Search` | src/archon_horizon/search/index.py:520-562 | the returned hits rank like the full scan's top, by score and name length, unless an exact match cut the fallback short |
| `NameSearch.ExactMatchSuffices` | src/archon_horizon/search/index.py:546-550 | exactly when an exact match costs no top hit |
| `NameSearch.ExactMatchCutsShort` | src/archon_horizon/search/index.py:546-562 | two declarations and a query for which the search answers one hit of two |
| `NameSearch.AnswersRank` | src/archon_horizon/search/index.py:558-562 | every hit is of the library, contains the query and scores above zero; none repeats; they come by falling score, shorter names first |
| `NameSearch.ExactComesFirst` | src/archon_horizon/search/index.py:534-562 | a declaration named exactly by the query, in full or by its last segment, puts an exact match first |
| `NameSearch.SearchIndex.EnsureNameIndex` | src/archon_horizon/search/index.py:589-611 | fills the cache once with dictionaries and the sorted dot-suffixes of every name |
| `NameSearch.SearchIndex.SearchName` | src/archon_horizon/search/index.py:520-562 | the cached search answers like the full scan |
| `Ranking.TopStrong` | src/archon_horizon/search/index.py:546-562 | equal counts from a floor that `limit` hits reach give the same top scores and lengths |
| `Ranking.TopRanks` | src/archon_horizon/search/index.py:560-562 | the first `limit` hits by falling score, shorter first, otherwise in the order found; a hit left out ranks no earlier than any returned |
| `TypeSearch.MatchHoldsLiterals` | src/archon_horizon/search/index.py:340-368 | what the compiled pattern matches contains each of its literals, whitespace aside |
| `TypeSearch.NeedlesAreLiterals` | src/archon_horizon/search/index.py:371-381 | the prefilter asks for exactly the compiled literals if and only if the pattern is not mistaken |
| `TypeSearch.PrefilterKeepsMatches` | src/archon_horizon/search/index.py:564-587 | exactly which matches the prefilter keeps: those whose signature holds the surplus needle, which only a mistaken pattern has; every match of a pattern without leading whitespace |
| `TypeSearch.MistakenDrops` | src/archon_horizon/search/index.py:340-381 | a padded bare mark whose match is dropped |
| `TypeSearch.SearchType` | src/archon_horizon/search/index.py:564-587 | the filtered search returns what matching every signature does; a mistaken pattern loses exactly the matches without its surplus literal |
| `TypeSearch.MatchedHits` | src/archon_horizon/search/index.py:564-587 | exactly which declarations match, in their order, scored by the length of the signature |
| `Signatures.PlainAtoms` | src/archon_horizon/search/index.py:296-301 | one to eighty characters without whitespace or brackets fill a hole, and no more |
| `Signatures.GroupAtoms` | src/archon_horizon/search/index.py:296-301 | a bracket group fills a hole exactly within its bound and without brackets of its kind inside |
| `Signatures.FilledPatternsAreFound` | src/archon_horizon/search/index.py:340-368 | any type atoms in the holes, any whitespace between the parts and for each space, and anything around them give a signature that is found, if and only if no literal has a tab or line break |
| `Signatures.NormalisingKeepsMatches` | src/archon_horizon/search/index.py:398-399 | normalising a signature loses no match, for exactly the patterns without such a literal |

## Left out

- Fairness and liveness of claiming: queue order and scan offsets are inputs of `ClaimNext`; after a foreign prelaunch context is retired a session may have no place until an operator recovers it, as in the code.
- Token budgets, readiness, deliveries, completion findings and the placement preference for another host are inputs of a step.
- Legacy maintenance, orchestrator, root-maintainer and health replenishment, and the obligations `finish` writes for them, beyond the branches that settle an assignment.
- The completion of draining runs inside `tick` is the same command as an operator's; `ChangeRun` models it. The sweeps of `tick` are separate methods.
- Disabling a host's harness after a configuration failure, since configuration is constant.
- `defer_automation` other than its `enabled` switch, and the notes, events and revisions that commands record.
- `update_assignment`, which edits the window, functions and conditions of a queued session.
- `queue_repair`, which queues an assignment into a draining run.
- The reclassification of older rejected journal rows to invalid when a client opens its journal.
- Reviewer child claims and connectors.
- The claim replay of the worker API, which repeats a stored grant.
- The selection of owners and evidence before the follow-up walk, and the issues about automations after it.
- The journal's byte limit is an input of a request; which settled rows exceed the newest thousand is one too.
- The resolution of an intent through its two repair requests is reduced to its journal effect.
- Unicode case folding and whitespace: letters beyond ASCII are not folded, and whitespace is that of ASCII.
- Text and header search, index caches, and the labels, colours and layout of the dashboard.
