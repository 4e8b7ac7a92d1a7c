/**
  What a stop receipt decides, stated over its own fields and the rows it
  meets: lost when it comes after the lease, overruled when the journal is
  stuck, and otherwise taken at its word (worker_events.py `handle`;
  scheduler.py `finish`; objectives.py `finish_values`).
 */
module Verdicts {
  import opened Wrappers
  import opened Records
  import opened Admission
  import opened Protocol
  import opened Sessions

  // ---- The receipt against the lease and the journal ----

  predicate Starting(s: State, e: nat)
    requires e < |s.executions|
  {
    s.executions[e].status == ExecStarting || s.executions[e].status == ExecRunning
  }

  // The lease ran out before the receipt came.
  predicate Late(s: State, e: nat)
    requires e < |s.executions|
  {
    Starting(s, e) && s.executions[e].leaseUntil <= s.now
  }

  // The receipt says that intents are still unresolved.
  predicate Unreconciled(r: Receipt) {
    match r.journal
    case Some(j) => j.pending > 0
    case None => r.reason == Some("agent_intents_require_reconciliation")
  }

  // They stayed unresolved past the configured bound.
  predicate Stuck(c: Config, s: State, e: nat, r: Receipt, x: Findings)
    requires Known(c, s, e)
  {
    && Starting(s, e) && s.executions[e].leaseUntil > s.now && Unreconciled(r)
    && match r.journal
       case Some(j) => j.observations >= c.runs[s.assignments[s.executions[e].assignment].run].retry.maxNoProgress
       case None => x.stalled
  }

  lemma JudgedByFields(c: Config, s: State, e: nat, r: Receipt, x: Findings)
    requires Known(c, s, e)
    ensures JudgedOutcome(c, s, e, r, x) ==
            if Late(s, e) then (OutLost, Some(Failure(LeaseExpired, "lease")))
            else if Stuck(c, s, e, r, x) then (OutFailed, Some(Failure(IntentsStalled, "intents")))
            else (r.outcome, ReportedFailure(r))
    ensures IntentsOpen(r) == Unreconciled(r)
  {
  }

  predicate AskedToStop(c: Config, s: State, e: nat)
    requires Known(c, s, e)
  {
    var item := s.assignments[s.executions[e].assignment];
    item.status.Stopping? || s.runs[item.run].status.RunStopping? || s.runs[item.run].status.RunCancelled?
  }

  // ---- How a finished turn leaves an objective session ----

  predicate BudgetReason(reason: Option<string>) {
    reason == Some("execution_budget_reached") || reason == Some("request_budget_reached")
  }

  /** A finished objective turn completes, pauses or continues its session, exactly by what is still open. */
  lemma TurnOutcomes(item: Assignment, retry: Retry, now: int, reason: Option<string>, journal: bool, x: Findings)
    ensures var y := AfterTurn(item, retry, now, reason, journal, x);
            && (y.status.Completed? <==> !journal && !x.deliveries && !x.open)
            && (y.status.Completed? <==> y.finishedAt == Some(now)) && (y.status.Completed? || (y.status.Pending? && y.finishedAt.None?))
            && (PauseHolds(y) <==> !journal && !x.deliveries && x.open
                                   && (BudgetReason(reason) || (x.stalled && !(item.checkpoint && x.waiting))))
            && (y.checkpoint <==> if !journal && x.deliveries then true else item.checkpoint && !y.status.Completed?)
            && y.attempts == item.attempts && y.retryAt.None?
            && y.notBefore == (if journal then Some(now + 60)
                               else if x.deliveries || (x.open && (PauseHolds(y) || (item.checkpoint && x.waiting))) then item.notBefore
                               else if x.open then Some(now + retry.initialDelay) else None)
  {
  }

  /** A failed objective turn is counted once; what follows is in the ledger. */
  lemma ObjectiveOutcomes(item: Assignment, retry: Retry, lost: bool, outcome: Outcome, failure: Option<Failure>, now: int,
                          stopping: bool, reason: Option<string>, journal: bool, x: Findings)
    ensures var y := ObjectiveFinish(item, retry, lost, outcome, failure, now, stopping, reason, journal, x);
            && (y.status.Cancelled? <==> stopping || outcome == OutCancelled)
            && (y.status.Completed? <==> !stopping && (outcome == OutSucceeded || outcome == OutYielded)
                                         && !journal && !x.deliveries && !x.open)
            && (y.status.Cancelled? || y.status.Completed? || y.status.Pending?)
            && (y.attempts == item.attempts + (if !stopping && (outcome == OutFailed || outcome == OutLost) then 1 else 0))
            && (y.status.Cancelled? ==> y.finishedAt == Some(now) && y.retryAt == None && y.pause == None)
  {
    hide AfterFailure; hide AfterTurn;
    if !(stopping || outcome == OutCancelled) {
      if outcome == OutFailed || outcome == OutLost { FailureEnds(item, retry, lost, failure, now, x, AfterFailure(item, retry, lost, failure, now, x)); }
      else { TurnOutcomes(item, retry, now, reason, journal, x); }
    }
  }

  // ---- How a turn leaves a legacy session ----

  predicate WorkerBatch(item: Assignment, x: Findings) {
    item.role.Worker? && !item.plans && !item.checkpoint && !x.unsettled && x.published
  }

  predicate Episode(item: Assignment, x: Findings) { item.supervises && !x.unsettled }

  predicate ReviewBatch(item: Assignment, x: Findings) {
    item.role.Maintainer? && !item.rule.RootRule? && !item.checkpoint && !x.unsettled
  }

  predicate Waiting(item: Assignment, x: Findings) { item.checkpoint && !x.unsettled && x.waiting }

  /** Which legacy sessions a finished turn completes and which it fails; the others are queued again. */
  lemma LegacyTurns(item: Assignment, run: RunStatus, retry: Retry, outcome: Outcome, failure: Option<Failure>, now: int,
                    stopping: bool, reason: Option<string>, journal: bool, x: Findings)
    requires outcome == OutSucceeded || outcome == OutYielded
    ensures var y := LegacyFinish(item, run, retry, outcome, failure, now, stopping, reason, journal, x);
            var budget := outcome == OutYielded && BudgetReason(reason);
            && (y.status.Cancelled? <==> stopping)
            && (!stopping ==>
                  && (y.status.Completed? <==>
                        && !journal && (budget || !x.deliveries)
                        && (!x.open || (!budget && x.handoff && (WorkerBatch(item, x) || (ReviewBatch(item, x) && !Episode(item, x))))))
                  && (y.status.Failed? <==>
                        if budget then journal || x.open
                        else !journal && !x.deliveries && x.open && !WorkerBatch(item, x)
                             && (Episode(item, x) || (!ReviewBatch(item, x) && x.stalled && !Waiting(item, x))))
                  && (y.status.Completed? || y.status.Failed? || y.status.Pending?))
            && (y.finishedAt.Some? <==> !y.status.Pending?) && y.attempts == item.attempts && y.retryAt == None
            // A session queued again waits a minute, unless it delivers or asked to be continued.
            && (y.status.Pending? ==>
                  && y.notBefore == (if !journal && (x.deliveries || item.checkpoint) then item.notBefore else Some(now + 60))
                  && y.checkpoint == (item.checkpoint || (!journal && x.deliveries)))
            && (y.status.Completed? || y.status.Failed? ==> !y.checkpoint)
            && (y.status.Completed? ==> y.notBefore == None)
  {
  }

  /** Which legacy sessions a failed turn retries, and when. */
  lemma LegacyFailures(item: Assignment, run: RunStatus, retry: Retry, outcome: Outcome, failure: Option<Failure>, now: int,
                       stopping: bool, reason: Option<string>, journal: bool, x: Findings)
    requires outcome == OutFailed || outcome == OutLost
    ensures var y := LegacyFinish(item, run, retry, outcome, failure, now, stopping, reason, journal, x);
            var code := if failure.Some? then failure.value.code else ExecutionFailed;
            var going := run.RunActive? || run.RunDraining?;
            && (y.status.Cancelled? <==> stopping)
            && (!stopping ==>
                  && (y.status.Pending? <==>
                        || Misconfigured(code)
                        || (going && Transient(code) && item.attempts < retry.maxAttempts
                            && !(code == RequestDeadline && !item.rule.NoRule?)))
                  && (y.status.Pending? || y.status.Failed?)
                  && y.attempts == item.attempts + (if Misconfigured(code) then 0 else 1)
                  && (y.status.Pending? && !Misconfigured(code) ==>
                        && y.retryAt.Some? && 2 * (y.retryAt.value - now) >= Backoff(retry, y.attempts)
                        && y.retryAt.value <= now + Backoff(retry, y.attempts)))
  {
    hide Backoff;
  }

  /** The failures that are retried, and those that wait for a repair, by name. */
  lemma FailureClasses(code: Code)
    ensures Transient(code) <==>
              code == ConnectionError || code == RateLimited || code == ProviderOverloaded || code == Timeout || code == HostLost
              || code == LeaseExpired || code == LocalTimeout || code == LocalUnavailable || code == RequestDeadline
    ensures Misconfigured(code) <==>
              code == AuthenticationFailed || code == InvalidConfiguration || code == StorageFull || code == ProviderMissing
    ensures AccountFault(code) <==>
              code == RateLimited || code == ProviderOverloaded || code == ConnectionError || code == Timeout
  {
  }

  // ---- From the receipt to the rows ----

  // A planning pass leaves settled sessions alone.
  lemma PassLeaves(c: Config, s: State, r: nat, observed: nat, a: nat)
    requires r < |s.runs| && r < |c.runs| && a < |s.assignments| && !Open(s.assignments[a].status)
    requires PassCompleted(c, s, r, observed).Commit?
    ensures var t := PassCompleted(c, s, r, observed).state;
            && a < |t.assignments| && t.assignments[a] == s.assignments[a] && t == s.(runs := t.runs, assignments := t.assignments)
  {
    hide AfterPass; hide Queued;
  }

  // The rows of a settlement: the execution's status, the session and the limits.
  lemma SettlementRows(c: Config, s: State, e: nat, byHost: bool, outcome: Outcome, given: Option<Failure>,
                       journal: bool, reason: Option<string>, x: Findings)
    requires Known(c, s, e) && Live(s.executions[e].status)
    requires Settle(c, s, e, byHost, outcome, given, journal, reason, x).Commit?
    ensures var t := Settle(c, s, e, byHost, outcome, given, journal, reason, x).state;
            var a := s.executions[e].assignment;
            var item := s.assignments[a];
            var run := s.runs[item.run].status;
            var objective := c.runs[item.run].mode.Objective?;
            var stopping := AskedToStop(c, s, e);
            && a < |t.assignments|
            && t.executions == s.executions[e := s.executions[e].(
                 status := SettledStatus(stopping, outcome), finishedAt := Some(s.now), leaseUntil := s.now,
                 confirmed := s.executions[e].confirmed || (byHost && outcome != OutLost))]
            && t.turns == s.turns && t.threads == s.threads && t.places == s.places && t.now == s.now
            && (!t.executions[e].confirmed ==> t.claims == s.claims)
            && t.assignments[a] == (if objective
                 then ObjectiveFinish(item, RetryOf(c, s, a), ContextLost(s, a), outcome, Reclassified(given), s.now, stopping, reason, journal, x)
                 else LegacyFinish(item, run, RetryOf(c, s, a), outcome, Reclassified(given), s.now, stopping, reason, journal, x))
            && t.limits == AdjustedLimits(c, s, e, RetryOf(c, s, a), objective, outcome, Reclassified(given), x)
  {
    hide ObjectiveFinish; hide LegacyFinish; hide AdjustedLimits; hide ContextLost; hide ReleasedClaims; hide RetryOf;
    hide PassCompleted; hide Reclassified; hide SettledStatus;
    var a := s.executions[e].assignment;
    var u := SettledRows(c, s, e, byHost, outcome, given, journal, reason, x);
    if c.runs[s.assignments[a].run].mode.Objective? && u.assignments[a].status.Completed? && s.assignments[a].rule.PlannerRule? {
      PassLeaves(c, u, s.assignments[a].run, x.frontier, a);
    }
  }

  ghost function ReceiptState(s: State, e: nat, r: Receipt): State
    requires e < |s.executions|
  {
    Settling(s, EvStopReceipt(e, 0, r, Findings(false, false, false, false, false, false, false, 0, l => 0, 0)))
  }

  lemma ReceiptRows(c: Config, s: State, e: nat, epoch: nat, r: Receipt, x: Findings)
    requires Known(c, s, e) && Live(s.executions[e].status) && StopReceipt(c, s, e, epoch, r, x).Commit?
    ensures var t := StopReceipt(c, s, e, epoch, r, x).state;
            var u := ReceiptState(s, e, r);
            var a := s.executions[e].assignment;
            var item := s.assignments[a];
            var run := s.runs[item.run].status;
            var objective := c.runs[item.run].mode.Objective?;
            var stopping := AskedToStop(c, s, e);
            var (outcome, given) := JudgedOutcome(c, s, e, r, x);
            && a < |t.assignments| && Known(c, u, e)
            && t.executions == s.executions[e := s.executions[e].(
                 status := SettledStatus(stopping, outcome), finishedAt := Some(s.now), leaseUntil := s.now, confirmed := true)]
            && t.assignments[a] == (if objective
                 then ObjectiveFinish(item, RetryOf(c, s, a), ContextLost(u, a), outcome, Reclassified(given), s.now, stopping, r.reason, IntentsOpen(r), x)
                 else LegacyFinish(item, run, RetryOf(c, s, a), outcome, Reclassified(given), s.now, stopping, r.reason, IntentsOpen(r), x))
            && t.limits == AdjustedLimits(c, u, e, RetryOf(c, s, a), objective, outcome, Reclassified(given), x)
  {
    hide ObjectiveFinish; hide LegacyFinish; hide AdjustedLimits; hide ContextLost; hide ReleasedClaims; hide InterruptedTurns;
    hide ReceiptThreads; hide JudgedOutcome; hide Settle; hide Reclassified; hide SettledStatus; hide IntentsOpen;
    var u := ReceiptState(s, e, r);
    var judged := JudgedOutcome(c, s, e, r, x);
    SettlementRows(c, u, e, true, judged.0, judged.1, IntentsOpen(r), r.reason, x);
  }

  /**
    A receipt that comes when the lease has run out settles a running session
    as lost, whatever it says: the execution is lost, the session is not
    completed, and an objective session has one more failure.
   */
  lemma LateReceiptIsLost(c: Config, s: State, e: nat, epoch: nat, r: Receipt, x: Findings)
    requires Known(c, s, e) && Late(s, e) && !AskedToStop(c, s, e) && StopReceipt(c, s, e, epoch, r, x).Commit?
    ensures var t := StopReceipt(c, s, e, epoch, r, x).state;
            var a := s.executions[e].assignment;
            && t.executions == s.executions[e := s.executions[e].(status := ExecLost, finishedAt := Some(s.now), leaseUntil := s.now, confirmed := true)]
            && a < |t.assignments| && (t.assignments[a].status.Pending? || t.assignments[a].status.Failed?)
            && t.assignments[a].attempts == s.assignments[a].attempts + 1
            && (c.runs[s.assignments[a].run].mode.Objective? ==> t.assignments[a].status.Pending?)
            && t.limits == s.limits
  {
    hide ObjectiveFinish; hide LegacyFinish; hide AdjustedLimits; hide ContextLost; hide RetryOf; hide StopReceipt; hide JudgedOutcome;
    hide ReceiptState;
    ReceiptRows(c, s, e, epoch, r, x);
    JudgedByFields(c, s, e, r, x);
    var a := s.executions[e].assignment;
    var u := ReceiptState(s, e, r);
    LostOutcomes(c, s, u, e, r, x);
  }

  lemma LostOutcomes(c: Config, s: State, u: State, e: nat, r: Receipt, x: Findings)
    requires Known(c, s, e) && u == ReceiptState(s, e, r)
    ensures var a := s.executions[e].assignment; var item := s.assignments[a];
            var lost := Reclassified(Some(Failure(LeaseExpired, "lease")));
            var y := ObjectiveFinish(item, RetryOf(c, s, a), ContextLost(u, a), OutLost, lost, s.now, false, r.reason, IntentsOpen(r), x);
            var z := LegacyFinish(item, s.runs[item.run].status, RetryOf(c, s, a), OutLost, lost, s.now, false, r.reason, IntentsOpen(r), x);
            && y.status.Pending? && y.attempts == item.attempts + 1
            && (z.status.Pending? || z.status.Failed?) && z.attempts == item.attempts + 1
    ensures var a := s.executions[e].assignment;
            AdjustedLimits(c, u, e, RetryOf(c, s, a), c.runs[s.assignments[a].run].mode.Objective?, OutLost,
                           Reclassified(Some(Failure(LeaseExpired, "lease"))), x) == s.limits
  {
    hide ObjectiveFinish; hide LegacyFinish; hide ContextLost; hide RetryOf; hide ReceiptThreads; hide InterruptedTurns; hide IntentsOpen;
    var a := s.executions[e].assignment;
    var item := s.assignments[a];
    var lost := Some(Failure(LeaseExpired, "lease"));
    ObjectiveOutcomes(item, RetryOf(c, s, a), ContextLost(u, a), OutLost, lost, s.now, false, r.reason, IntentsOpen(r), x);
    LegacyFailures(item, s.runs[item.run].status, RetryOf(c, s, a), OutLost, lost, s.now, false, r.reason, IntentsOpen(r), x);
  }

  // The status of an execution whose turn ended in this way.
  function EndStatus(stopping: bool, outcome: Outcome): ExecStatus {
    if stopping then ExecCancelled
    else match outcome
      case OutSucceeded => ExecSucceeded
      case OutYielded => ExecSucceeded
      case OutFailed => ExecFailed
      case OutCancelled => ExecCancelled
      case OutLost => ExecLost
  }

  /**
    A receipt inside the lease, or of an execution already told to stop, with no
    stuck intents, is taken at its word: its own outcome names the execution's
    status and decides the session.
   */
  lemma TimelyReceiptIsHonoured(c: Config, s: State, e: nat, epoch: nat, r: Receipt, x: Findings)
    requires Known(c, s, e) && Live(s.executions[e].status) && !Late(s, e) && !Stuck(c, s, e, r, x)
    requires StopReceipt(c, s, e, epoch, r, x).Commit?
    ensures var t := StopReceipt(c, s, e, epoch, r, x).state;
            var a := s.executions[e].assignment;
            var stopping := AskedToStop(c, s, e);
            && t.executions == s.executions[e := s.executions[e].(status := EndStatus(stopping, r.outcome), finishedAt := Some(s.now),
                                                                  leaseUntil := s.now, confirmed := true)]
            && a < |t.assignments|
            && (t.assignments[a].status.Cancelled? <==> stopping || r.outcome == OutCancelled)
            && (c.runs[s.assignments[a].run].mode.Objective? ==>
                  && (t.assignments[a].status.Completed? <==>
                        !stopping && (r.outcome == OutSucceeded || r.outcome == OutYielded)
                        && !Unreconciled(r) && !x.deliveries && !x.open)
                  && t.assignments[a].attempts ==
                       s.assignments[a].attempts + (if !stopping && (r.outcome == OutFailed || r.outcome == OutLost) then 1 else 0))
  {
    hide ObjectiveFinish; hide LegacyFinish; hide AdjustedLimits; hide ContextLost; hide RetryOf; hide StopReceipt; hide JudgedOutcome;
    hide ReceiptState; hide Late; hide Stuck; hide ReportedFailure; hide Reclassified; hide IntentsOpen; hide AskedToStop;
    ReceiptRows(c, s, e, epoch, r, x);
    JudgedByFields(c, s, e, r, x);
    var a := s.executions[e].assignment;
    var item, u := s.assignments[a], ReceiptState(s, e, r);
    var stopping, failure := AskedToStop(c, s, e), Reclassified(ReportedFailure(r));
    ObjectiveOutcomes(item, RetryOf(c, s, a), ContextLost(u, a), r.outcome, failure, s.now, stopping, r.reason, IntentsOpen(r), x);
    LegacyCancelled(item, s.runs[item.run].status, RetryOf(c, s, a), r.outcome, failure, s.now, stopping, r.reason, IntentsOpen(r), x);
  }

  // After the lease ran out the session is lost, whatever the receipt says;
  // inside it, and without stuck intents, the receipt is taken at its word.
  ghost predicate Judged(c: Config, s: State, t: State, e: nat, r: Receipt, x: Findings)
    requires Known(c, s, e)
  {
    var a := s.executions[e].assignment;
    && e < |t.executions| && a < |t.assignments|
    && (Late(s, e) && !AskedToStop(c, s, e) ==>
          && t.executions[e].status == ExecLost && !t.assignments[a].status.Completed?
          && t.assignments[a].attempts == s.assignments[a].attempts + 1)
    && (Live(s.executions[e].status) && !Late(s, e) && !Stuck(c, s, e, r, x) ==>
          t.executions[e].status == EndStatus(AskedToStop(c, s, e), r.outcome))
  }

  lemma ReceiptJudged(c: Config, s: State, e: nat, epoch: nat, r: Receipt, x: Findings)
    requires Known(c, s, e) && Live(s.executions[e].status) && StopReceipt(c, s, e, epoch, r, x).Commit?
    ensures Judged(c, s, StopReceipt(c, s, e, epoch, r, x).state, e, r, x)
  {
    hide StopReceipt; hide Late; hide Stuck; hide AskedToStop; hide JudgedOutcome; hide ReceiptState; hide ObjectiveFinish; hide LegacyFinish;
    hide AdjustedLimits;
    if Late(s, e) && !AskedToStop(c, s, e) { LateReceiptIsLost(c, s, e, epoch, r, x); }
    if !Late(s, e) && !Stuck(c, s, e, r, x) { TimelyReceiptIsHonoured(c, s, e, epoch, r, x); }
    ReceiptRows(c, s, e, epoch, r, x);
  }

  lemma LegacyCancelled(item: Assignment, run: RunStatus, retry: Retry, outcome: Outcome, failure: Option<Failure>, now: int,
                        stopping: bool, reason: Option<string>, journal: bool, x: Findings)
    ensures LegacyFinish(item, run, retry, outcome, failure, now, stopping, reason, journal, x).status.Cancelled?
            <==> stopping || outcome == OutCancelled
  {
    hide Backoff;
  }

  /** A receipt inside the lease whose intents stayed unresolved past the bound counts as a failure. */
  lemma StuckReceiptFails(c: Config, s: State, e: nat, epoch: nat, r: Receipt, x: Findings)
    requires Known(c, s, e) && Stuck(c, s, e, r, x) && !AskedToStop(c, s, e) && StopReceipt(c, s, e, epoch, r, x).Commit?
    ensures var t := StopReceipt(c, s, e, epoch, r, x).state;
            var a := s.executions[e].assignment;
            && e < |t.executions| && t.executions[e].status == ExecFailed
            && a < |t.assignments| && !t.assignments[a].status.Completed?
            && t.assignments[a].attempts == s.assignments[a].attempts + 1
  {
    hide ObjectiveFinish; hide LegacyFinish; hide AdjustedLimits; hide ContextLost; hide RetryOf; hide StopReceipt; hide JudgedOutcome;
    hide ReceiptState; hide IntentsOpen;
    ReceiptRows(c, s, e, epoch, r, x);
    JudgedByFields(c, s, e, r, x);
    var a := s.executions[e].assignment;
    var item, u := s.assignments[a], ReceiptState(s, e, r);
    var failure := Some(Failure(IntentsStalled, "intents"));
    ObjectiveOutcomes(item, RetryOf(c, s, a), ContextLost(u, a), OutFailed, failure, s.now, false, r.reason, IntentsOpen(r), x);
    LegacyFailures(item, s.runs[item.run].status, RetryOf(c, s, a), OutFailed, failure, s.now, false, r.reason, IntentsOpen(r), x);
  }

  /**
    A sweep ends a live execution whose lease ran out, and no other. Its
    requests become uncertain, its stop stays unconfirmed and its claims held;
    the session has one more failure, or is cancelled if it was asked to stop.
   */
  lemma LeaseLossRules(c: Config, s: State, e: nat, x: Findings)
    requires Known(c, s, e) && LeaseSweep(c, s, e, x).Commit?
    ensures Live(s.executions[e].status) && s.executions[e].leaseUntil <= s.now
    ensures var t := LeaseSweep(c, s, e, x).state; var a := s.executions[e].assignment; var stopping := AskedToStop(c, s, e);
            && t.executions == s.executions[e := s.executions[e].(status := if stopping then ExecCancelled else ExecLost,
                                                                  finishedAt := Some(s.now), leaseUntil := s.now)]
            && |t.turns| == |s.turns|
            && (forall q | 0 <= q < |s.turns| ::
                  t.turns[q] == if s.turns[q].execution == e && s.turns[q].status in {TurnPending, TurnSubmitted, TurnRunning, TurnUncertain}
                                then s.turns[q].(status := TurnUncertain) else s.turns[q])
            && t.threads == s.threads && t.limits == s.limits && (!s.executions[e].confirmed ==> t.claims == s.claims)
            && a < |t.assignments| && !t.assignments[a].status.Completed?
            && (t.assignments[a].status.Cancelled? <==> stopping)
            && (!stopping ==> t.assignments[a].attempts == s.assignments[a].attempts + 1)
  {
    hide ObjectiveFinish; hide LegacyFinish; hide AdjustedLimits; hide ContextLost; hide RetryOf; hide Settle;
    var u := s.(turns := UncertainTurns(s.turns, e));
    var lost := Some(Failure(LeaseExpired, "lease"));
    SettlementRows(c, u, e, false, OutLost, lost, false, None, x);
    var a := s.executions[e].assignment;
    SweptOutcomes(c, u, e, x);
  }

  lemma SweptOutcomes(c: Config, s: State, e: nat, x: Findings)
    requires Known(c, s, e)
    ensures var a := s.executions[e].assignment; var item := s.assignments[a]; var stopping := AskedToStop(c, s, e);
            var lost := Reclassified(Some(Failure(LeaseExpired, "lease")));
            var y := ObjectiveFinish(item, RetryOf(c, s, a), ContextLost(s, a), OutLost, lost, s.now, stopping, None, false, x);
            var z := LegacyFinish(item, s.runs[item.run].status, RetryOf(c, s, a), OutLost, lost, s.now, stopping, None, false, x);
            && !y.status.Completed? && !z.status.Completed?
            && (y.status.Cancelled? <==> stopping) && (z.status.Cancelled? <==> stopping)
            && (!stopping ==> y.attempts == item.attempts + 1 && z.attempts == item.attempts + 1)
            && AdjustedLimits(c, s, e, RetryOf(c, s, a), c.runs[item.run].mode.Objective?, OutLost, lost, x) == s.limits
  {
    hide ContextLost; hide RetryOf; hide Backoff; hide AskedToStop;
  }

  // The session's last context was given up.
  ghost predicate ContextGone(s: State, a: nat) {
    exists t | 0 <= t < |s.threads| ::
      s.threads[t].assignment == a && s.threads[t].status == Unavailable && forall u | t < u < |s.threads| :: s.threads[u].assignment != a
  }

  lemma {:induction false} LatestIs(s: State, a: nat, n: nat)
    requires n <= |s.threads|
    ensures var r := Latest(s, a, n);
            && (r.Some? ==> r.value < n && s.threads[r.value].assignment == a)
            && (forall u | (if r.Some? then r.value + 1 else 0) <= u < n :: s.threads[u].assignment != a)
  {
    if n > 0 { LatestIs(s, a, n - 1); }
  }

  lemma GoneIs(s: State, a: nat)
    ensures ContextLost(s, a) <==> ContextGone(s, a)
  {
    LatestIs(s, a, |s.threads|);
    var r := Latest(s, a, |s.threads|);
    hide Latest;
    if ContextGone(s, a) {
      var t :| 0 <= t < |s.threads| && s.threads[t].assignment == a && s.threads[t].status == Unavailable
               && forall u | t < u < |s.threads| :: s.threads[u].assignment != a;
      assert r == Some(t);
    }
  }

  /**
    A failed turn that cost an objective session its context leaves it queued
    and paused for an operator, whatever the failure and however few there were.
   */
  lemma LostContextPauses(c: Config, s: State, e: nat, epoch: nat, r: Receipt, x: Findings)
    requires Known(c, s, e) && Live(s.executions[e].status) && !AskedToStop(c, s, e) && StopReceipt(c, s, e, epoch, r, x).Commit?
    requires c.runs[s.assignments[s.executions[e].assignment].run].mode.Objective?
    requires Late(s, e) || Stuck(c, s, e, r, x) || r.outcome == OutFailed || r.outcome == OutLost
    requires ContextGone(ReceiptState(s, e, r), s.executions[e].assignment)
    ensures var t := StopReceipt(c, s, e, epoch, r, x).state; var a := s.executions[e].assignment;
            a < |t.assignments| && t.assignments[a].status == Pending && t.assignments[a].retryAt == None
            && t.assignments[a].pause.Some? && t.assignments[a].pause.value != ""
  {
    hide ObjectiveFinish; hide LegacyFinish; hide AdjustedLimits; hide ContextLost; hide RetryOf; hide StopReceipt; hide JudgedOutcome;
    hide ReceiptState; hide Late; hide Stuck; hide ReportedFailure; hide Reclassified; hide IntentsOpen; hide AskedToStop; hide ContextGone;
    ReceiptRows(c, s, e, epoch, r, x);
    JudgedByFields(c, s, e, r, x);
    var a := s.executions[e].assignment;
    var u := ReceiptState(s, e, r);
    GoneIs(u, a);
    var judged := JudgedOutcome(c, s, e, r, x);
    GoneFinish(s.assignments[a], RetryOf(c, s, a), judged.0, Reclassified(judged.1), s.now, r.reason, IntentsOpen(r), x);
  }

  lemma GoneFinish(item: Assignment, retry: Retry, outcome: Outcome, failure: Option<Failure>, now: int, reason: Option<string>,
                   journal: bool, x: Findings)
    requires outcome == OutFailed || outcome == OutLost
    ensures var y := ObjectiveFinish(item, retry, true, outcome, failure, now, false, reason, journal, x);
            y.status == Pending && y.retryAt == None && y.pause.Some? && y.pause.value != ""
  {
  }
}
