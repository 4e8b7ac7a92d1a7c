/**
  Each mutation of the control plane as one atomic step. Every operation runs
  under one global transaction lock, so a step either commits a new state or
  leaves the old one (a refused request, a rolled-back transaction).
 */
module Protocol {
  import opened Wrappers
  import opened Records
  import opened Sums
  import opened Admission

  datatype Txn = Abort | Commit(state: State)

  // ---- Failures ----

  datatype Code =
    | RateLimited | ProviderOverloaded | ConnectionError | Timeout | HostLost | LeaseExpired | LocalTimeout
    | LocalUnavailable | RequestDeadline | AuthenticationFailed | InvalidConfiguration | StorageFull
    | ProviderMissing | ExecutionFailed | IntentsStalled | OtherCode
  datatype Failure = Failure(code: Code, message: string)
  datatype Outcome = OutSucceeded | OutYielded | OutFailed | OutCancelled | OutLost

  predicate Transient(code: Code) {
    code in {ConnectionError, RateLimited, ProviderOverloaded, Timeout, HostLost, LeaseExpired,
             LocalTimeout, LocalUnavailable, RequestDeadline}
  }

  predicate Misconfigured(code: Code) {
    code in {AuthenticationFailed, InvalidConfiguration, StorageFull, ProviderMissing}
  }

  predicate AccountFault(code: Code) { code in {RateLimited, ProviderOverloaded, ConnectionError, Timeout} }

  predicate Finished(o: Outcome) { o.OutSucceeded? || o.OutYielded? }

  const DEADLINE_NOTE := "Provider request exceeded its execution deadline"
  const EXECUTION_BUDGET := "execution_budget_reached"
  const REQUEST_BUDGET := "request_budget_reached"
  const ADMISSION_UNACKNOWLEDGED := "request_admission_not_acknowledged"
  const INTENTS_UNRESOLVED := "agent_intents_require_reconciliation"

  // Older workers reported their own deadline as a network timeout.
  function Reclassified(failure: Option<Failure>): Option<Failure> {
    if failure.Some? && failure.value.code.Timeout? && failure.value.message == DEADLINE_NOTE
    then Some(failure.value.(code := RequestDeadline)) else failure
  }

  // What a settling execution learns from code outside this model, with the
  // random backoff draws.
  datatype Findings = Findings(
    open: bool, unsettled: bool, deliveries: bool, stalled: bool, waiting: bool, published: bool, handoff: bool,
    sessionWait: nat, accountWait: nat -> nat, frontier: nat)

  function Pow2(n: nat): nat { if n == 0 then 1 else 2 * Pow2(n - 1) }

  function Backoff(retry: Retry, failures: nat): nat
    requires failures >= 1
  {
    Min(retry.maxDelay, retry.initialDelay * Pow2(Min(failures - 1, 20)))
  }

  // A uniform draw between half the delay and the delay.
  function Jitter(delay: nat, draw: nat): (w: nat)
    ensures delay <= 2 * w && w <= delay
  {
    if 2 * draw < delay then (delay + 1) / 2 else if draw > delay then delay else draw
  }

  // Notes the server writes itself are abbreviated; only whether a note is
  // empty matters to admission.

  // ---- How a settling execution leaves its assignment ----

  // A failed turn: resume automatically within the retry ledger, else pause.
  function AfterFailure(item: Assignment, retry: Retry, contextLost: bool, failure: Option<Failure>, now: int,
                        x: Findings): Assignment {
    var tried := item.(status := Pending, finishedAt := None, retryAt := None, pause := None, attempts := item.attempts + 1);
    var code := if failure.Some? then failure.value.code else ExecutionFailed;
    if contextLost then tried.(pause := Some("context"))
    else if Transient(code) && tried.attempts <= retry.maxAttempts then
      tried.(retryAt := Some(now + Jitter(Backoff(retry, tried.attempts), x.sessionWait)))
    else tried.(pause := Some(if failure.Some? then failure.value.message else "limit"))
  }

  // A finished turn: complete the session or queue its continuation.
  function AfterTurn(item: Assignment, retry: Retry, now: int, reason: Option<string>, journal: bool,
                     x: Findings): Assignment {
    var base := item.(status := Pending, finishedAt := None, retryAt := None, pause := None);
    if journal then base.(notBefore := Some(now + 60))
    else if x.deliveries then base.(checkpoint := true)
    else if !x.open then base.(status := Completed, finishedAt := Some(now), checkpoint := false, notBefore := None)
    else if reason == Some(EXECUTION_BUDGET) || reason == Some(REQUEST_BUDGET) then base.(pause := Some("budget"))
    else if item.checkpoint && x.waiting then base
    else if x.stalled then base.(pause := Some("stalled"))
    else base.(notBefore := Some(now + retry.initialDelay))
  }

  function ObjectiveFinish(item: Assignment, retry: Retry, contextLost: bool, outcome: Outcome,
                           failure: Option<Failure>, now: int, stopping: bool, reason: Option<string>,
                           journal: bool, x: Findings): Assignment {
    if stopping || outcome.OutCancelled? then
      item.(status := Cancelled, finishedAt := Some(now), retryAt := None, pause := None)
    else if !Finished(outcome) then AfterFailure(item, retry, contextLost, failure, now, x)
    else AfterTurn(item, retry, now, reason, journal, x)
  }

  function LegacyFinish(item: Assignment, run: RunStatus, retry: Retry, outcome: Outcome,
                        failure: Option<Failure>, now: int, stopping: bool, reason: Option<string>,
                        journal: bool, x: Findings): Assignment {
    var base := item.(finishedAt := Some(now), retryAt := None);
    var again := base.(status := Pending, finishedAt := None);
    var later := again.(notBefore := Some(now + 60));
    var accounted := base.(checkpoint := false, notBefore := None);
    var handed := !x.open || x.handoff;
    var batch := if handed then accounted.(status := Completed)
                 else accounted.(status := Pending, finishedAt := None, notBefore := Some(now + 60));
    if stopping || outcome.OutCancelled? then base.(status := Cancelled)
    else if outcome.OutYielded? && (reason == Some(EXECUTION_BUDGET) || reason == Some(REQUEST_BUDGET)) then
      accounted.(status := if journal || x.open then Failed else Completed)
    else if Finished(outcome) && journal then later
    else if Finished(outcome) && x.deliveries then again.(checkpoint := true)
    else if Finished(outcome) && item.role.Worker? && !item.plans && !item.checkpoint && !x.unsettled && x.published
    then batch
    else if Finished(outcome) && item.supervises && !x.unsettled then
      accounted.(status := if x.open then Failed else Completed)
    else if Finished(outcome) && item.role.Maintainer? && !item.rule.RootRule? && !item.checkpoint && !x.unsettled
    then batch
    else if Finished(outcome) && !x.open then accounted.(status := Completed)
    else if Finished(outcome) && item.checkpoint && !x.unsettled && x.waiting then again
    else if Finished(outcome) && x.stalled then base.(status := Failed, checkpoint := false)
    else if Finished(outcome) && item.checkpoint then again
    else if Finished(outcome) then later
    else
      var code := if failure.Some? then failure.value.code else ExecutionFailed;
      var tried := item.attempts + 1;
      if Misconfigured(code) then again
      else if code.RequestDeadline? && !item.rule.NoRule? && (run.RunActive? || run.RunDraining?) then
        base.(status := Failed, attempts := tried)
      else if Transient(code) && tried <= retry.maxAttempts && (run.RunActive? || run.RunDraining?) then
        again.(attempts := tried, retryAt := Some(now + Jitter(Backoff(retry, tried), x.sessionWait)))
      else base.(status := Failed, attempts := tried)
  }

  // ---- Provider accounts ----

  function Penalised(l: Limit, retry: Retry, objective: bool, draw: nat, now: int): Limit {
    var until := now + Jitter(Backoff(retry, l.failures + 1), draw);
    l.(failures := l.failures + 1,
       cooldown := Some(if l.cooldown.Some? then Max(until, l.cooldown.value) else until),
       open := l.open || (objective && l.failures + 1 > retry.maxAttempts))
  }

  // An older in-flight success must not clear a newer failure's backoff.
  function Cleared(l: Limit, startedAt: int): Limit {
    if !l.open && (l.cooldown.None? || startedAt >= l.cooldown.value)
    then l.(failures := 0, cooldown := None) else l
  }

  predicate HeldBy(s: State, e: nat, limit: nat) {
    exists k | 0 <= k < |s.claims| ::
      s.claims[k].execution == e && s.claims[k].limit == limit && !s.claims[k].released
  }

  predicate AccountOf(c: Config, s: State, e: nat, l: nat) {
    l < |c.limits| && c.limits[l].account && HeldBy(s, e, l)
  }

  function AdjustedLimits(c: Config, s: State, e: nat, retry: Retry, objective: bool, outcome: Outcome,
                          failure: Option<Failure>, x: Findings): seq<Limit>
    requires e < |s.executions|
  {
    if failure.Some? && AccountFault(failure.value.code) then
      seq(|s.limits|, (l: nat) requires l < |s.limits| =>
        if AccountOf(c, s, e, l) then Penalised(s.limits[l], retry, objective, x.accountWait(l), s.now) else s.limits[l])
    else if Finished(outcome)
            && exists q | 0 <= q < |s.turns| :: s.turns[q].execution == e && s.turns[q].status.TurnCompleted? then
      seq(|s.limits|, (l: nat) requires l < |s.limits| =>
        if AccountOf(c, s, e, l) then Cleared(s.limits[l], s.executions[e].startedAt) else s.limits[l])
    else s.limits
  }

  function ReleasedClaims(claims: seq<Claim>, e: nat): seq<Claim> {
    seq(|claims|, (k: nat) requires k < |claims| =>
      if claims[k].execution == e then claims[k].(released := true) else claims[k])
  }

  function InterruptedTurns(turns: seq<Turn>, e: nat): seq<Turn> {
    seq(|turns|, (q: nat) requires q < |turns| =>
      if turns[q].execution == e && Unsettled(turns[q].status) then turns[q].(status := TurnInterrupted) else turns[q])
  }

  function UncertainTurns(turns: seq<Turn>, e: nat): seq<Turn> {
    seq(|turns|, (q: nat) requires q < |turns| =>
      if turns[q].execution == e && Unsettled(turns[q].status) then turns[q].(status := TurnUncertain) else turns[q])
  }

  // ---- The planner recurrence ----

  function FindKey(s: State, run: nat, key: Key, n: nat): (r: Option<nat>)
    requires n <= |s.assignments|
    ensures r.Some? ==> r.value < n && s.assignments[r.value].run == run && s.assignments[r.value].key == key
                        && Open(s.assignments[r.value].status)
    ensures r.None? ==> forall a | 0 <= a < n ::
                          !(s.assignments[a].run == run && s.assignments[a].key == key && Open(s.assignments[a].status))
  {
    if n == 0 then None
    else if s.assignments[n - 1].run == run && s.assignments[n - 1].key == key && Open(s.assignments[n - 1].status)
    then Some(n - 1)
    else FindKey(s, run, key, n - 1)
  }

  function NewPlanner(run: nat, rule: Planner): Assignment {
    Assignment(run, Worker, WORK, true, false, PlannerRule, None, Pending, None, None, rule.notBefore, None, None,
               if rule.enabled then None else Some("idle"), false, 0, NextKey)
  }

  // `ensure_successor`: at most one queued planner; a full queue defers it and
  // a settling phase refuses it.
  function EnsureSuccessor(c: Config, s: State, r: nat): Txn
    requires r < |s.runs| && r < |c.runs|
  {
    if !s.runs[r].status.RunActive? then Commit(s)
    else if FindKey(s, r, NextKey, |s.assignments|).Some? then Commit(s)
    else if |c.runs[r].policies| == 0 then Abort
    else if Queued(s, r, WORK) >= c.runs[r].policies[WORK].maxPending then Commit(s)
    else if s.runs[r].next.Some? then Abort
    else Commit(s.(assignments := s.assignments + [NewPlanner(r, s.runs[r].planner)]))
  }

  // `completed`: account for one planning pass.
  function AfterPass(c: Config, rule: Planner, observed: nat, now: int): Planner {
    var passes := if observed == rule.frontier then rule.passes + 1 else 0;
    var manual := !rule.pause.NotPaused? && !rule.pause.Idle?;
    var enabled := !manual && passes < c.plannerPasses;
    Planner(enabled, if manual then rule.pause else if enabled then NotPaused else Idle, passes, observed,
            Some(now + Min(c.plannerMaxIdle, c.plannerInterval * Pow2(Min(passes, 16)))))
  }

  function PassCompleted(c: Config, s: State, r: nat, observed: nat): Txn
    requires r < |s.runs| && r < |c.runs|
  {
    var rule := AfterPass(c, s.runs[r].planner, observed, s.now);
    var noted := s.(runs := s.runs[r := s.runs[r].(planner := rule)]);
    var ensured := EnsureSuccessor(c, noted, r);
    if ensured.Abort? then Abort
    else
      var t := ensured.state;
      var successor := FindKey(t, r, NextKey, |t.assignments|);
      if s.runs[r].status.RunActive? && successor.Some? then
        var next := t.assignments[successor.value].(
          notBefore := rule.notBefore,
          pause := if rule.enabled then None else Some("idle"));
        Commit(t.(assignments := t.assignments[successor.value := next]))
      else Commit(t)
  }

  // ---- Settling an execution (`finish`) ----

  predicate Halted(run: RunStatus) { run.RunStopping? || run.RunCancelled? }

  function SettledStatus(stopping: bool, outcome: Outcome): ExecStatus {
    if stopping || outcome.OutCancelled? then ExecCancelled
    else if Finished(outcome) then ExecSucceeded
    else if outcome.OutLost? then ExecLost else ExecFailed
  }

  function RetryOf(c: Config, s: State, a: nat): Retry
    requires a < |s.assignments| && s.assignments[a].run < |c.runs|
  {
    var spec := c.runs[s.assignments[a].run];
    if spec.mode.Objective? && s.assignments[a].category < |spec.policies|
    then spec.policies[s.assignments[a].category].retry else spec.retry
  }

  function ContextLost(s: State, a: nat): bool {
    var latest := Latest(s, a, |s.threads|);
    latest.Some? && latest.value < |s.threads| && s.threads[latest.value].status.Unavailable?
  }

  ghost predicate Known(c: Config, s: State, e: nat) {
    && e < |s.executions|
    && var a := s.executions[e].assignment;
       a < |s.assignments| && s.assignments[a].run < |s.runs| && s.assignments[a].run < |c.runs|
  }

  // The rows `finish` writes, before a completed planner is accounted for.
  function SettledRows(c: Config, s: State, e: nat, byHost: bool, outcome: Outcome, given: Option<Failure>,
                       journal: bool, reason: Option<string>, x: Findings): State
    requires Known(c, s, e)
  {
    var failure := Reclassified(given);
    var a := s.executions[e].assignment;
    var item := s.assignments[a];
    var run := s.runs[item.run].status;
    var objective := c.runs[item.run].mode.Objective?;
    var stopping := item.status.Stopping? || Halted(run);
    var confirmed := s.executions[e].confirmed || (byHost && !outcome.OutLost?);
    var row := s.executions[e].(status := SettledStatus(stopping, outcome), finishedAt := Some(s.now),
                                leaseUntil := s.now, confirmed := confirmed);
    var retry := RetryOf(c, s, a);
    var settled :=
      if objective
      then ObjectiveFinish(item, retry, ContextLost(s, a), outcome, failure, s.now, stopping, reason, journal, x)
      else LegacyFinish(item, run, retry, outcome, failure, s.now, stopping, reason, journal, x);
    s.(executions := s.executions[e := row],
       limits := AdjustedLimits(c, s, e, retry, objective, outcome, failure, x),
       claims := if confirmed then ReleasedClaims(s.claims, e) else s.claims,
       assignments := s.assignments[a := settled])
  }

  function Settle(c: Config, s: State, e: nat, byHost: bool, outcome: Outcome, given: Option<Failure>,
                  journal: bool, reason: Option<string>, x: Findings): Txn
    requires Known(c, s, e)
  {
    if !Live(s.executions[e].status) then Commit(s)
    else
      var t := SettledRows(c, s, e, byHost, outcome, given, journal, reason, x);
      var a := s.executions[e].assignment;
      var r := s.assignments[a].run;
      if c.runs[r].mode.Objective? && t.assignments[a].status.Completed? && s.assignments[a].rule.PlannerRule?
      then PassCompleted(c, t, r, x.frontier) else Commit(t)
  }

  // ---- The worker's stop receipt (`execution_finished`) ----

  datatype Journal = Journal(pending: nat, observations: nat)
  datatype Receipt = Receipt(outcome: Outcome, reason: Option<string>, failure: Option<Failure>,
                             native: Option<nat>, journal: Option<Journal>)

  function PrimaryThread(s: State, a: nat, n: nat): (r: Option<nat>)
    requires n <= |s.threads|
    ensures r.Some? ==> r.value < n && s.threads[r.value].assignment == a && Retained(s.threads[r.value].status)
    ensures r.None? ==> forall t | 0 <= t < n :: !(s.threads[t].assignment == a && Retained(s.threads[t].status))
  {
    if n == 0 then None
    else if s.threads[n - 1].assignment == a && Retained(s.threads[n - 1].status) then Some(n - 1)
    else PrimaryThread(s, a, n - 1)
  }

  // No evidence that the provider ever started on this thread.
  predicate PrelaunchAbort(s: State, e: nat, t: nat, r: Receipt)
    requires t < |s.threads|
  {
    && r.outcome.OutYielded? && s.threads[t].status.Creating?
    && (r.reason == Some(ADMISSION_UNACKNOWLEDGED) || r.reason == Some(EXECUTION_BUDGET))
    && !exists q | 0 <= q < |s.turns| ::
         && s.turns[q].thread == t
         && (s.turns[q].execution != e || s.turns[q].started || s.turns[q].identified
             || s.turns[q].status.TurnCompleted? || s.turns[q].status.TurnFailed?)
  }

  // What the receipt says about the session's context; None is a refusal.
  function ReceiptThreads(s: State, e: nat, a: nat, r: Receipt): Option<seq<Thread>> {
    var primary := PrimaryThread(s, a, |s.threads|);
    if primary.None? then Some(s.threads)
    else
      var t := primary.value;
      var thread := s.threads[t];
      var native := if r.native.Some? then r.native else thread.native;
      if native.Some? && thread.native.Some? && native != thread.native then None
      else if native.Some? then Some(s.threads[t := thread.(native := native, status := Available)])
      else if !r.outcome.OutSucceeded? && (exists q | 0 <= q < |s.turns| :: s.turns[q].thread == t)
              && !PrelaunchAbort(s, e, t, r)
      then Some(s.threads[t := thread.(status := Unavailable)])
      else Some(s.threads)
  }

  predicate Leased(s: State, e: nat) requires e < |s.executions| {
    var x := s.executions[e];
    (x.status.ExecStarting? || x.status.ExecRunning?) && x.leaseUntil > s.now
  }

  function ReportedFailure(r: Receipt): Option<Failure> {
    if r.failure.Some? then r.failure
    else if r.outcome.OutFailed? || r.outcome.OutLost? then
      Some(Failure(if r.outcome.OutLost? then HostLost else ExecutionFailed,
                   if r.reason.Some? then r.reason.value else "incomplete"))
    else None
  }

  // The journal gate: unresolved intents that persist past the bound fail the turn.
  function IntentsStuck(c: Config, s: State, e: nat, r: Receipt, x: Findings): bool
    requires Known(c, s, e)
  {
    var bound := c.runs[s.assignments[s.executions[e].assignment].run].retry.maxNoProgress;
    Leased(s, e) && IntentsOpen(r) &&
    (if r.journal.Some? then r.journal.value.observations >= bound else x.stalled)
  }

  predicate IntentsOpen(r: Receipt) {
    if r.journal.Some? then r.journal.value.pending > 0 else r.reason == Some(INTENTS_UNRESOLVED)
  }

  function JudgedOutcome(c: Config, s: State, e: nat, r: Receipt, x: Findings): (Outcome, Option<Failure>)
    requires Known(c, s, e)
  {
    var x' := s.executions[e];
    if !Leased(s, e) && (x'.status.ExecStarting? || x'.status.ExecRunning?) then
      (OutLost, Some(Failure(LeaseExpired, "lease")))
    else if IntentsStuck(c, s, e, r, x) then
      (OutFailed, Some(Failure(IntentsStalled, "intents")))
    else (r.outcome, ReportedFailure(r))
  }

  function StopReceipt(c: Config, s: State, e: nat, epoch: nat, r: Receipt, x: Findings): Txn
    requires Known(c, s, e)
  {
    if s.executions[e].number != epoch then Abort
    else
      var a := s.executions[e].assignment;
      var stopped := s.(executions := s.executions[e := s.executions[e].(confirmed := true)],
                        turns := InterruptedTurns(s.turns, e));
      var threads := ReceiptThreads(stopped, e, a, r);
      if threads.None? then Abort
      else
        var judged := JudgedOutcome(c, s, e, r, x);
        var settled := Settle(c, stopped.(threads := threads.value), e, true, judged.0, judged.1,
                              IntentsOpen(r), r.reason, x);
        if settled.Abort? then Abort
        else Commit(settled.state.(claims := ReleasedClaims(settled.state.claims, e)))
  }

  // ---- Lease loss and the other sweeps of `tick` ----

  function LeaseSweep(c: Config, s: State, e: nat, x: Findings): Txn
    requires Known(c, s, e)
  {
    if !Live(s.executions[e].status) || s.executions[e].leaseUntil > s.now then Abort
    else Settle(c, s.(turns := UncertainTurns(s.turns, e)), e, false, OutLost,
                Some(Failure(LeaseExpired, "lease")), false, None, x)
  }

  // A confirmed stop also settles an invocation whose final event was lost.
  function SettleTurn(s: State, q: nat): Txn {
    if q < |s.turns| && Unsettled(s.turns[q].status) && s.turns[q].execution < |s.executions|
       && !Live(s.executions[s.turns[q].execution].status) && s.executions[s.turns[q].execution].confirmed
    then Commit(s.(turns := s.turns[q := s.turns[q].(status := TurnInterrupted)]))
    else Abort
  }

  // A queued session is cancelled outright; a running one is asked to stop.
  function StopSession(s: State, a: nat): State
    requires a < |s.assignments|
  {
    var item := s.assignments[a];
    s.(assignments := s.assignments[a :=
         if item.status.Pending? then item.(status := Cancelled, finishedAt := Some(s.now))
         else item.(status := Stopping, finishedAt := None)],
       executions := seq(|s.executions|, (e: nat) requires e < |s.executions| =>
         if s.executions[e].assignment == a && (s.executions[e].status.ExecStarting? || s.executions[e].status.ExecRunning?)
         then s.executions[e].(status := ExecStopping) else s.executions[e]))
  }

  function Cancel(c: Config, s: State, a: nat, disable: bool): State
    requires a < |s.assignments|
  {
    var item := s.assignments[a];
    if Settled(item.status) then s
    else
      var t := StopSession(s, a);
      if disable && item.rule.PlannerRule? && ModeOf(c, s, a).Objective? && item.run < |s.runs| then
        t.(runs := s.runs[item.run := s.runs[item.run].(
             planner := s.runs[item.run].planner.(enabled := false, pause := ByCancellation))],
           assignments := PausedPlanners(t.assignments, item.run, "cancelled"))
      else t
  }

  function PausedPlanners(assignments: seq<Assignment>, run: nat, note: string): seq<Assignment> {
    seq(|assignments|, (b: nat) requires b < |assignments| =>
      if assignments[b].run == run && assignments[b].rule.PlannerRule? && assignments[b].status.Pending?
      then assignments[b].(pause := Some(note)) else assignments[b])
  }

  function ExpireSession(c: Config, s: State, a: nat): Txn {
    if a < |s.assignments| && (s.assignments[a].status.Pending? || s.assignments[a].status.Running?)
       && s.assignments[a].expiresAt.Some? && s.assignments[a].expiresAt.value <= s.now
    then Commit(Cancel(c, s, a, true)) else Abort
  }

  predicate RunOccupied(s: State, r: nat) {
    exists a | 0 <= a < |s.assignments| :: s.assignments[a].run == r && Open(s.assignments[a].status)
  }

  function SettleRun(s: State, r: nat): Txn {
    if r < |s.runs| && s.runs[r].status.RunStopping? && !RunOccupied(s, r)
    then Commit(s.(runs := s.runs[r := s.runs[r].(status := RunCancelled)])) else Abort
  }

  // ---- Heartbeats and provider observations ----

  predicate StopRequested(s: State, e: nat)
    requires e < |s.executions| && s.executions[e].assignment < |s.assignments|
    requires s.assignments[s.executions[e].assignment].run < |s.runs|
  {
    var item := s.assignments[s.executions[e].assignment];
    || s.executions[e].status.ExecStopping? || item.status.Stopping? || Halted(s.runs[item.run].status)
    || (item.expiresAt.Some? && item.expiresAt.value <= s.now)
  }

  function Heartbeat(c: Config, s: State, e: nat, epoch: nat): Txn
    requires Known(c, s, e)
  {
    var x := s.executions[e];
    if x.number != epoch || !Live(x.status) || x.leaseUntil <= s.now then Abort
    else if StopRequested(s, e) then Commit(s)
    else Commit(s.(executions := s.executions[e := x.(leaseUntil := s.now + c.lease)]))
  }

  function TurnStarted(c: Config, s: State, e: nat, epoch: nat, t: nat): Txn
    requires Known(c, s, e)
  {
    if s.executions[e].number != epoch || !Leased(s, e) || t >= |s.threads|
       || s.threads[t].assignment != s.executions[e].assignment
       || s.executions[e].workspace >= |s.places| || !s.places[s.executions[e].workspace].status.Ready?
       || !Retained(s.threads[t].status)
       || (exists q | 0 <= q < |s.turns| :: s.turns[q].thread == t && Unsettled(s.turns[q].status))
    then Abort
    else Commit(s.(turns := s.turns + [Turn(e, t, TurnSubmitted, false, false)]))
  }

  // The first native stream event shows that a submitted turn started.
  function TurnObserved(s: State, e: nat, epoch: nat, q: nat, identified: bool): Txn {
    if e >= |s.executions| || s.executions[e].number != epoch || q >= |s.turns| || s.turns[q].execution != e then Abort
    else if s.turns[q].status.TurnPending? || s.turns[q].status.TurnSubmitted? then
      Commit(s.(turns := s.turns[q := s.turns[q].(status := TurnRunning, started := true,
                                                  identified := s.turns[q].identified || identified)]))
    else Commit(s)
  }

  function TurnFinished(s: State, e: nat, epoch: nat, q: nat, ok: bool, native: Option<nat>): Txn {
    if e >= |s.executions| || s.executions[e].number != epoch || q >= |s.turns| || s.turns[q].execution != e
       || s.turns[q].thread >= |s.threads| || s.threads[s.turns[q].thread].assignment != s.executions[e].assignment
    then Abort
    else if !Unsettled(s.turns[q].status) then Commit(s)
    else
      var t := s.turns[q].thread;
      var thread := s.threads[t];
      var turns := s.turns[q := s.turns[q].(status := if ok then TurnCompleted else TurnFailed)];
      if native.None? then Commit(s.(turns := turns))
      else if thread.native.Some? && thread.native != native then Abort
      else if !Retained(thread.status) && HasRetained(s, thread.assignment) then Abort
      else Commit(s.(turns := turns, threads := s.threads[t := thread.(native := native, status := Available)]))
  }

  function Prepared(s: State, e: nat, epoch: nat): Txn {
    if e >= |s.executions| || s.executions[e].number != epoch || !Leased(s, e) || s.executions[e].workspace >= |s.places|
    then Abort
    else
      var w := s.executions[e].workspace;
      if s.places[w].origin != Some(s.executions[e].assignment) || s.places[w].host != s.executions[e].host
         || !(s.places[w].status.Preparing? || s.places[w].status.Ready?)
      then Abort
      else Commit(s.(places := s.places[w := s.places[w].(status := Ready)]))
  }

  // ---- Thread retirement during a claim ----

  predicate LiveSession(s: State, a: nat) {
    exists e | 0 <= e < |s.executions| :: s.executions[e].assignment == a && Live(s.executions[e].status)
  }

  predicate ThreadUnsettled(s: State, t: nat) {
    exists q | 0 <= q < |s.turns| :: s.turns[q].thread == t && Unsettled(s.turns[q].status)
  }

  predicate FencedOnce(s: State, a: nat) {
    exists e | 0 <= e < |s.executions| ::
      && s.executions[e].assignment == a
      && (s.executions[e].status.ExecLost? || s.executions[e].status.ExecFailed? || s.executions[e].status.ExecCancelled?)
  }

  predicate Orphaned(s: State, a: nat, host: nat, t: nat)
    requires t < |s.threads|
  {
    && s.threads[t].assignment == a && s.threads[t].status.Creating?
    && HostOf(s, s.threads[t].workspace) != Some(host) && s.threads[t].native.None?
    && !ThreadUnsettled(s, t) && !LiveSession(s, a) && FencedOnce(s, a)
  }

  function RetireOrphans(s: State, a: nat, host: nat): State {
    s.(threads := seq(|s.threads|, (t: nat) requires t < |s.threads| =>
      if Orphaned(s, a, host, t) then s.threads[t].(status := Unavailable) else s.threads[t]))
  }

  function LastTurn(s: State, t: nat, n: nat): (r: Option<nat>)
    requires n <= |s.turns|
    ensures r.Some? ==> r.value < n
  {
    if n == 0 then None else if s.turns[n - 1].thread == t then Some(n - 1) else LastTurn(s, t, n - 1)
  }

  predicate FailedContext(c: Config, s: State, a: nat, t: nat)
    requires t < |s.threads|
  {
    && ModeOf(c, s, a).Legacy? && a < |s.assignments| && s.assignments[a].status.Pending?
    && s.threads[t].assignment == a && s.threads[t].status.Available? && s.threads[t].native.Some?
    && !LiveSession(s, a)
    && var last := LastTurn(s, t, |s.turns|);
       last.Some? && s.turns[last.value].status.TurnFailed?
  }

  function RetireFailed(c: Config, s: State, a: nat): State {
    s.(threads := seq(|s.threads|, (t: nat) requires t < |s.threads| =>
      if FailedContext(c, s, a, t) then s.threads[t].(status := Unavailable) else s.threads[t]))
  }

  // ---- Admission (`start`) ----

  // A planner takes the active key and leaves a queued successor.
  function AdmitPlanner(c: Config, s: State, a: nat): Txn
    requires a < |s.assignments| && s.assignments[a].run < |s.runs| && s.assignments[a].run < |c.runs|
  {
    var r := s.assignments[a].run;
    if !(c.runs[r].mode.Objective? && s.assignments[a].rule.PlannerRule?) then Commit(s)
    else if exists b | 0 <= b < |s.assignments| ::
              b != a && s.assignments[b].run == r && s.assignments[b].key.ActiveKey? && Open(s.assignments[b].status)
    then Abort
    else EnsureSuccessor(c, s.(assignments := s.assignments[a := s.assignments[a].(key := ActiveKey)]), r)
  }

  function NewClaims(limits: seq<nat>, e: nat, units: nat): seq<Claim> {
    seq(|limits|, (i: nat) requires i < |limits| => Claim(limits[i], e, units, false))
  }

  function NumberShare(s: State, a: nat, e: nat): nat {
    if e < |s.executions| && s.executions[e].assignment == a then 1 else 0
  }

  function NextNumber(s: State, a: nat): nat {
    1 + Total((e: nat) => NumberShare(s, a, e), |s.executions|)
  }

  function AdmittedRow(item: Assignment, now: int): Assignment {
    item.(status := Running, startedAt := if item.startedAt.Some? then item.startedAt else Some(now),
          retryAt := None, finishedAt := None, checkpoint := false)
  }

  predicate Proposed(s: State, a: nat, host: nat) {
    exists w | 0 <= w < |s.places| :: s.places[w].host == host && s.places[w].origin == Some(a)
  }

  // The rows `start` writes once the planner recurrence has been served.
  function AdmittedRows(c: Config, s: State, a: nat, host: nat, harness: nat, pick: Pick, reserved: nat): State
    requires a < |s.assignments| && (host, harness) in c.pools && !pick.NoPlace?
    requires pick.Propose? ==> pick.source < |s.places|
  {
    var w := if pick.Existing? then pick.place else |s.places|;
    var e := |s.executions|;
    var retained := RetainedOn(s, a, host, |s.threads|);
    s.(places := if pick.Existing? then s.places
                 else s.places + [Place(host, s.places[pick.source].project, s.places[pick.source].repository, true,
                                        Preparing, Some(a))],
       executions := s.executions + [Execution(a, NextNumber(s, a), host, harness, w, reserved, ExecRunning,
                                               s.now + c.lease, s.now, None, false)],
       claims := s.claims + NewClaims(c.pools[(host, harness)].limits, e, 1 + reserved),
       assignments := s.assignments[a := AdmittedRow(s.assignments[a], s.now)],
       threads := if retained.Some? then s.threads
                  else s.threads + [Thread(a, w, harness, None, Creating, None)])
  }

  function Admit(c: Config, s: State, a: nat, host: nat, harness: nat, view: View): Txn {
    if !Admissible(c, s, a, host, harness, view) then Abort
    else
      var pick := Placement(c, s, a, host, view);
      var reserved := Reservation(c, s, a, host, harness);
      var planned := AdmitPlanner(c, s, a);
      if planned.Abort? then Abort
      else if pick.Propose? && Proposed(s, a, host) then Abort
      // One live primary context per assignment.
      else if RetainedOn(s, a, host, |s.threads|).None? && HasRetained(s, a) then Abort
      else if a < |planned.state.assignments| && |planned.state.places| == |s.places| then
        Commit(AdmittedRows(c, planned.state, a, host, harness, pick, reserved))
      else Abort
  }

  // ---- Operator commands ----

  function ConfirmStopped(s: State, e: nat): Txn {
    if e >= |s.executions| || s.executions[e].confirmed
       || !(s.executions[e].status.ExecLost? || s.executions[e].status.ExecCancelled?)
    then Abort
    else
      var a := s.executions[e].assignment;
      Commit(s.(
        executions := s.executions[e := s.executions[e].(confirmed := true)],
        turns := InterruptedTurns(s.turns, e),
        claims := ReleasedClaims(s.claims, e),
        threads := seq(|s.threads|, (t: nat) requires t < |s.threads| =>
          if s.threads[t].assignment == a && s.threads[t].native.None? && Retained(s.threads[t].status)
             && exists q | 0 <= q < |s.turns| :: s.turns[q].execution == e && s.turns[q].thread == t
          then s.threads[t].(status := Unavailable) else s.threads[t])))
  }

  predicate Unconfirmed(s: State, a: nat) {
    exists e | 0 <= e < |s.executions| :: s.executions[e].assignment == a && !s.executions[e].confirmed
  }

  function RecoverContext(c: Config, s: State, t: nat): Txn {
    if t >= |s.threads| || s.threads[t].assignment >= |s.assignments| then Abort
    else
      var a := s.threads[t].assignment;
      var item := s.assignments[a];
      var objective := ModeOf(c, s, a).Objective?;
      if (objective && Unconfirmed(s, a))
         || !(item.status.Pending? || item.status.Failed?) || LiveSession(s, a)
         || (exists u | 0 <= u < |s.threads| :: s.threads[u].predecessor == Some(t))
         || SessionUnsettled(s, a)
         || (exists u | 0 <= u < |s.threads| :: u != t && s.threads[u].assignment == a && Retained(s.threads[u].status))
      then Abort
      else
        var again := item.(status := Pending, finishedAt := None, retryAt := None);
        Commit(s.(
          threads := s.threads[t := s.threads[t].(status := Closed)]
                     + [Thread(a, s.threads[t].workspace, s.threads[t].harness, None, Creating, Some(t))],
          assignments := s.assignments[a := if objective then again.(pause := None) else again.(attempts := 0)]))
  }

  function ResumeSession(s: State, a: nat): Txn {
    if a >= |s.assignments| || !s.assignments[a].status.Pending? || !PauseHolds(s.assignments[a])
       || s.assignments[a].run >= |s.runs| || !s.runs[s.assignments[a].run].status.RunActive?
    then Abort
    else Commit(s.(assignments := s.assignments[a := s.assignments[a].(pause := None, retryAt := None, notBefore := None)]))
  }

  // `checkpoint_assignment`: a running session asks to be resumed later.
  function Checkpoint(s: State, a: nat, notBefore: Option<int>): Txn {
    if a >= |s.assignments| || !s.assignments[a].status.Running? then Abort
    else Commit(s.(assignments := s.assignments[a := s.assignments[a].(checkpoint := true, notBefore := notBefore)]))
  }

  predicate Reopenable(c: Config, s: State, a: nat) {
    && a < |s.assignments| && ModeOf(c, s, a).Legacy?
    && s.assignments[a].run < |s.runs|
    && (s.runs[s.assignments[a].run].status.RunActive? || s.runs[s.assignments[a].run].status.RunPaused?)
  }

  // `retry_assignment` forgets the failures of a legacy session.
  function RetrySession(c: Config, s: State, a: nat): Txn {
    if !Reopenable(c, s, a) || !s.assignments[a].status.Failed? then Abort
    else Commit(s.(assignments := s.assignments[a :=
           s.assignments[a].(status := Pending, finishedAt := None, retryAt := None, attempts := 0)]))
  }

  // `resume_assignment`, unless another unfinished session took the workspace.
  function ReopenSession(c: Config, s: State, a: nat): Txn {
    if !Reopenable(c, s, a) || !(s.assignments[a].status.Failed? || s.assignments[a].status.Completed?)
       || (exists t, u | 0 <= t < |s.threads| && 0 <= u < |s.threads| ::
             && s.threads[t].assignment == a && Retained(s.threads[t].status)
             && s.threads[u].assignment != a && Retained(s.threads[u].status)
             && s.threads[u].workspace == s.threads[t].workspace && s.threads[u].assignment < |s.assignments|
             && Open(s.assignments[s.threads[u].assignment].status))
    then Abort
    else Commit(s.(assignments := s.assignments[a :=
           s.assignments[a].(status := Pending, finishedAt := None, retryAt := None, notBefore := None, checkpoint := false)]))
  }

  function ResetCircuit(s: State, l: nat): Txn {
    if l >= |s.limits| then Abort else Commit(s.(limits := s.limits[l := Limit(0, None, false)]))
  }

  function RetirePlace(s: State, w: nat, pinned: bool): Txn {
    if w >= |s.places| || s.places[w].origin.None? || !s.places[w].status.Ready? || pinned
       || (exists e | 0 <= e < |s.executions| :: s.executions[e].workspace == w && !s.executions[e].confirmed)
       || (exists t | 0 <= t < |s.threads| ::
             && s.threads[t].workspace == w && s.threads[t].assignment < |s.assignments|
             && Open(s.assignments[s.threads[t].assignment].status))
    then Abort
    else Commit(s.(
      places := s.places[w := s.places[w].(status := Retired)],
      threads := seq(|s.threads|, (t: nat) requires t < |s.threads| =>
        if s.threads[t].workspace == w && Retained(s.threads[t].status)
        then s.threads[t].(status := Unavailable) else s.threads[t])))
  }

  // ---- Queueing ----

  datatype Request = Request(run: nat, role: Role, category: nat, plans: bool, supervises: bool, rule: Rule,
                             pinned: Option<nat>, notBefore: Option<int>, expiresAt: Option<int>, keyed: bool)

  function Enqueue(c: Config, s: State, q: Request): Txn {
    if q.run >= |s.runs| || q.run >= |c.runs| || !s.runs[q.run].status.RunActive? || s.runs[q.run].next.Some? then Abort
    else
      var spec := c.runs[q.run];
      if spec.mode.Objective? &&
         (|| q.category >= |spec.policies| || spec.policies[q.category].role != q.role || q.supervises
          || !q.rule.NoRule? || Queued(s, q.run, q.category) >= spec.policies[q.category].maxPending)
      then Abort
      else if q.rule.PlannerRule? then Abort
      else Commit(s.(assignments := s.assignments + [
             Assignment(q.run, q.role, q.category, q.plans, q.supervises, q.rule, q.pinned, Pending, None, None,
                        q.notBefore, None, q.expiresAt, None, false, 0, if q.keyed then OtherKey else NoKey)]))
  }

  // ---- Runs ----

  datatype RunOp = PauseRun | ResumeRun | DrainRun | CompleteRun | ReopenRun | CancelRun

  // Cancel the open assignments of a stopping run, or the queued recurrences
  // of a draining one, from index n on.
  function CancelRest(c: Config, s: State, r: nat, draining: bool, n: nat): (t: State)
    requires n <= |s.assignments|
    decreases |s.assignments| - n
  {
    if n == |s.assignments| then s
    else
      var item := s.assignments[n];
      var chosen := item.run == r && (if draining then item.status.Pending? && !item.rule.NoRule?
                                      else item.status.Pending? || item.status.Running?);
      var t := if chosen then Cancel(c, s, n, !draining) else s;
      if |t.assignments| == |s.assignments| then CancelRest(c, t, r, draining, n + 1) else t
  }

  predicate RunUnconfirmed(s: State, r: nat) {
    exists e | 0 <= e < |s.executions| :: RunOf(s, s.executions[e].assignment) == r && !s.executions[e].confirmed
  }

  function Transition(c: Config, s: State, r: nat, op: RunOp, missionDone: bool, unpublished: bool): Txn {
    if r >= |s.runs| || r >= |c.runs| then Abort
    else
      var run := s.runs[r];
      match op
      case PauseRun => if run.status.RunActive? then Commit(s.(runs := s.runs[r := run.(status := RunPaused)])) else Abort
      case ResumeRun => if run.status.RunPaused? then Commit(s.(runs := s.runs[r := run.(status := RunActive)])) else Abort
      case DrainRun =>
        if run.status.RunActive? && missionDone
        then Commit(CancelRest(c, s.(runs := s.runs[r := run.(status := RunDraining)]), r, true, 0)) else Abort
      case CompleteRun =>
        if run.status.RunDraining? && missionDone && !RunOccupied(s, r) && !unpublished && !RunUnconfirmed(s, r)
        then Commit(s.(runs := s.runs[r := run.(status := RunCompleted)])) else Abort
      case ReopenRun =>
        if run.status.RunDraining? || run.status.RunCompleted? then
          var t := s.(runs := s.runs[r := run.(status := RunActive)]);
          if c.runs[r].mode.Objective? && run.planner.enabled then EnsureSuccessor(c, t, r) else Commit(t)
        else Abort
      case CancelRun =>
        if run.status.RunCancelled? || run.status.RunCompleted? then Abort
        else Commit(CancelRest(c, s.(runs := s.runs[r := run.(status := RunStopping,
                                                              planner := run.planner.(enabled := false))]), r, false, 0))
  }

  // ---- Objective phases and the planner switch ----

  // `defer_automation` with `enabled`.
  function SwitchPlanner(c: Config, s: State, r: nat, enabled: bool): Txn {
    if r >= |s.runs| || r >= |c.runs| || c.runs[r].mode.Legacy? then Abort
    else
      var was := s.runs[r].planner;
      var t := s.(runs := s.runs[r := s.runs[r].(planner := was.(enabled := enabled,
                                                 pause := if enabled then NotPaused else ByOperator))]);
      if enabled && !was.enabled then
        var ensured := EnsureSuccessor(c, t, r);
        if ensured.Abort? then Abort
        else
          var u := ensured.state;
          var successor := FindKey(u, r, NextKey, |u.assignments|);
          if s.runs[r].status.RunActive? && successor.Some? then
            Commit(u.(assignments := u.assignments[successor.value := u.assignments[successor.value].(pause := None)]))
          else Commit(u)
      else if !enabled then
        Commit(t.(assignments := PausedPlanners(t.assignments, r, "operator")))
      else Commit(t)
  }

  function NextKind(phases: seq<Phase>, accepted: nat): Option<Phase> {
    if accepted + 1 < |phases| then Some(phases[accepted + 1]) else None
  }

  // An agent acts through an execution with a live lease in this run.
  predicate Acting(s: State, r: nat, e: nat) {
    && e < |s.executions| && Leased(s, e)
    && s.executions[e].assignment < |s.assignments|
    && s.assignments[s.executions[e].assignment].status.Running?
    && s.assignments[s.executions[e].assignment].run == r
  }

  predicate OthersOpen(s: State, r: nat, current: Option<nat>) {
    exists a | 0 <= a < |s.assignments| ::
      s.assignments[a].run == r && Open(s.assignments[a].status) && !s.assignments[a].key.NextKey? && Some(a) != current
  }

  // `requested` is the phase the caller names; `resolvable` whether the inputs
  // of the next phase can be found and validated.
  function AcceptPhase(c: Config, s: State, r: nat, agent: Option<nat>, requested: Option<Phase>, resolvable: bool): Txn {
    if r >= |s.runs| || r >= |c.runs| || c.runs[r].mode.Legacy? || !s.runs[r].status.RunActive? || s.runs[r].next.Some?
       || (agent.Some? && !Acting(s, r, agent.value))
    then Abort
    else
      var run := s.runs[r];
      var current := if agent.Some? then Some(s.executions[agent.value].assignment) else None;
      var kind := NextKind(c.runs[r].phases, |run.history|);
      if OthersOpen(s, r, current) || (requested.Some? && requested != kind) || (kind.Some? && !resolvable) then Abort
      else Commit(s.(
        runs := s.runs[r := run.(history := run.history + [run.phase], next := Some(Accepted(kind, current)),
                                 status := if c.runs[r].autoAdvance then RunActive else RunPaused)],
        assignments := seq(|s.assignments|, (a: nat) requires a < |s.assignments| =>
          if s.assignments[a].run == r && s.assignments[a].key.NextKey? && s.assignments[a].status.Pending?
          then s.assignments[a].(status := Cancelled, finishedAt := Some(s.now)) else s.assignments[a])))
  }

  predicate RunBusy(c: Config, s: State, r: nat) {
    exists e | 0 <= e < |s.executions| :: RunOf(s, s.executions[e].assignment) == r && Busy(c, s, e)
  }

  function AdvancePhase(c: Config, s: State, r: nat, deliveries: bool, closable: bool, frontier: nat): Txn
    requires r < |s.runs| && r < |c.runs| && s.runs[r].next.Some?
  {
    if RunOccupied(s, r) || RunBusy(c, s, r) || deliveries then Commit(s)
    else
      var run := s.runs[r];
      match run.next.value.target
      case None =>
        if !closable then Commit(s)
        else Commit(s.(runs := s.runs[r := run.(next := None, status := RunDraining)]))
      case Some(phase) =>
        EnsureSuccessor(c, s.(runs := s.runs[r := run.(phase := phase, next := None,
                                planner := Planner(true, NotPaused, 0, frontier, None))]), r)
  }

  // One objective's part of `reconcile`.
  function ReconcileRun(c: Config, s: State, r: nat, frontier: nat, deliveries: bool, closable: bool): Txn {
    if r >= |s.runs| || r >= |c.runs| || c.runs[r].mode.Legacy? || !s.runs[r].status.RunActive? then Abort
    else if s.runs[r].next.Some? then AdvancePhase(c, s, r, deliveries, closable, frontier)
    else
      var rule := s.runs[r].planner;
      var woken := frontier != rule.frontier && (rule.pause.NotPaused? || rule.pause.Idle?);
      var t := if !woken then s else s.(
        runs := s.runs[r := s.runs[r].(planner := Planner(true, NotPaused, 0, frontier, None))],
        assignments := seq(|s.assignments|, (a: nat) requires a < |s.assignments| =>
          if s.assignments[a].run == r && s.assignments[a].key.NextKey? && s.assignments[a].status.Pending?
          then s.assignments[a].(pause := None, notBefore := None) else s.assignments[a]));
      EnsureSuccessor(c, t, r)
  }

  // ---- Events ----

  datatype Event =
    | EvElapse(seconds: nat)
    | EvEnqueue(request: Request)
    | EvRetireOrphans(session: nat, host: nat)
    | EvRetireFailed(session: nat)
    | EvAdmit(session: nat, host: nat, harness: nat, view: View)
    | EvHeartbeat(execution: nat, epoch: nat)
    | EvStopReceipt(execution: nat, epoch: nat, receipt: Receipt, findings: Findings)
    | EvLeaseSweep(execution: nat, findings: Findings)
    | EvSettleTurn(turn: nat)
    | EvExpireSession(session: nat)
    | EvSettleRun(run: nat)
    | EvCancel(session: nat)
    | EvTurnStarted(execution: nat, epoch: nat, thread: nat)
    | EvTurnObserved(execution: nat, epoch: nat, turn: nat, identified: bool)
    | EvTurnFinished(execution: nat, epoch: nat, turn: nat, ok: bool, native: Option<nat>)
    | EvPrepared(execution: nat, epoch: nat)
    | EvConfirmStopped(execution: nat)
    | EvRecoverContext(thread: nat)
    | EvResumeSession(session: nat)
    | EvCheckpoint(session: nat, notBefore: Option<int>)
    | EvRetrySession(session: nat)
    | EvReopenSession(session: nat)
    | EvResetCircuit(limit: nat)
    | EvRetirePlace(place: nat, pinned: bool)
    | EvTransition(run: nat, op: RunOp, missionDone: bool, unpublished: bool)
    | EvSwitchPlanner(run: nat, enabled: bool)
    | EvAcceptPhase(run: nat, agent: Option<nat>, requested: Option<Phase>, resolvable: bool)
    | EvReconcileRun(run: nat, frontier: nat, deliveries: bool, closable: bool)

  ghost function Attempt(c: Config, s: State, ev: Event): Txn {
    match ev
    case EvElapse(d) => Commit(s.(now := s.now + d))
    case EvEnqueue(q) => Enqueue(c, s, q)
    case EvRetireOrphans(a, h) => Commit(RetireOrphans(s, a, h))
    case EvRetireFailed(a) => Commit(RetireFailed(c, s, a))
    case EvAdmit(a, h, k, v) => Admit(c, s, a, h, k, v)
    case EvHeartbeat(e, n) => if Known(c, s, e) then Heartbeat(c, s, e, n) else Abort
    case EvStopReceipt(e, n, r, x) => if Known(c, s, e) then StopReceipt(c, s, e, n, r, x) else Abort
    case EvLeaseSweep(e, x) => if Known(c, s, e) then LeaseSweep(c, s, e, x) else Abort
    case EvSettleTurn(q) => SettleTurn(s, q)
    case EvExpireSession(a) => ExpireSession(c, s, a)
    case EvSettleRun(r) => SettleRun(s, r)
    case EvCancel(a) => if a < |s.assignments| then Commit(Cancel(c, s, a, true)) else Abort
    case EvTurnStarted(e, n, t) => if Known(c, s, e) then TurnStarted(c, s, e, n, t) else Abort
    case EvTurnObserved(e, n, q, i) => TurnObserved(s, e, n, q, i)
    case EvTurnFinished(e, n, q, ok, native) => TurnFinished(s, e, n, q, ok, native)
    case EvPrepared(e, n) => Prepared(s, e, n)
    case EvConfirmStopped(e) => ConfirmStopped(s, e)
    case EvRecoverContext(t) => RecoverContext(c, s, t)
    case EvResumeSession(a) => ResumeSession(s, a)
    case EvCheckpoint(a, when) => Checkpoint(s, a, when)
    case EvRetrySession(a) => RetrySession(c, s, a)
    case EvReopenSession(a) => ReopenSession(c, s, a)
    case EvResetCircuit(l) => ResetCircuit(s, l)
    case EvRetirePlace(w, pinned) => RetirePlace(s, w, pinned)
    case EvTransition(r, op, done, unpublished) => Transition(c, s, r, op, done, unpublished)
    case EvSwitchPlanner(r, on) => SwitchPlanner(c, s, r, on)
    case EvAcceptPhase(r, g, p, ok) => AcceptPhase(c, s, r, g, p, ok)
    case EvReconcileRun(r, f, d, ok) => ReconcileRun(c, s, r, f, d, ok)
  }

  ghost function Apply(c: Config, s: State, ev: Event): State {
    var txn := Attempt(c, s, ev);
    if txn.Commit? then txn.state else s
  }

  // ---- Runs of events ----

  // Freshly launched runs over any set of workspaces, with an empty queue.
  ghost predicate Initial(c: Config, s: State) {
    && |s.runs| == |c.runs|
    && (forall r | 0 <= r < |s.runs| :: c.runs[r].mode.Objective? ==>
          && s.runs[r].status.RunActive? && s.runs[r].history == [] && s.runs[r].next.None?
          && |c.runs[r].phases| > 0 && s.runs[r].phase == c.runs[r].phases[0]
          && s.runs[r].planner.enabled && s.runs[r].planner.pause.NotPaused? && s.runs[r].planner.passes == 0)
    && s.assignments == [] && s.executions == [] && s.threads == [] && s.turns == [] && s.claims == []
    && |s.limits| == |c.limits|
    && (forall l | 0 <= l < |s.limits| :: s.limits[l] == Limit(0, None, false))
    && (forall w | 0 <= w < |s.places| :: s.places[w].origin.None?)
  }

  ghost function After(c: Config, s: State, events: seq<Event>): State {
    if events == [] then s
    else Apply(c, After(c, s, events[..|events| - 1]), events[|events| - 1])
  }
}
