/**
  What one step does to one objective session: it is nudged (queued, paused,
  stopped), admitted, ended or recovered by an operator, and nothing else.
 */
module Sessions {
  import opened Wrappers
  import opened Records
  import opened Admission
  import opened Protocol
  import opened Structure
  import opened Fencing

  // ---- Kinds of change ----

  // Steps that neither start, end nor recover the session. Only a queued
  // planner may lose its pause.
  ghost predicate Nudged(x: Assignment, y: Assignment) {
    && SameOrder(x, y) && y.attempts == x.attempts && y.startedAt == x.startedAt && y.key == x.key && y.retryAt == x.retryAt
    && (|| y.status == x.status || (x.status.Pending? && y.status.Cancelled?)
        || (x.status.Running? && y.status.Stopping?))
    && (!x.key.NextKey? && PauseHolds(x) ==> PauseHolds(y))
  }

  ghost predicate Admitted(x: Assignment, y: Assignment) {
    && SameOrder(x, y) && y.attempts == x.attempts && y.pause == x.pause && y.startedAt.Some?
    && x.status.Pending? && y.status.Running?
    && (if x.rule.PlannerRule? then y.key.ActiveKey? else y.key == x.key)
  }

  ghost predicate Recovered(x: Assignment, y: Assignment) {
    && SameOrder(x, y) && y.attempts == x.attempts && y.startedAt == x.startedAt && y.key == x.key
    && x.status.Pending? && y.status.Pending?
  }

  // The retry policy resumes a failed turn by itself.
  predicate WithinPolicy(item: Assignment, retry: Retry, failure: Option<Failure>) {
    && Transient(if failure.Some? then failure.value.code else ExecutionFailed)
    && item.attempts < retry.maxAttempts
  }

  // Outside the policy, with its context kept, the failure has no message to pause with.
  predicate Unexplained(item: Assignment, retry: Retry, lost: bool, failure: Option<Failure>) {
    !lost && !WithinPolicy(item, retry, failure) && failure.Some? && failure.value.message == ""
  }

  // The ledger's part of a settled turn: a failure is counted once, and then
  // either resumed automatically within the policy or paused with a note,
  // which is empty exactly for a silent failure.
  ghost predicate Ended(x: Assignment, y: Assignment, retry: Retry, failing: bool, silent: bool, now: int) {
    && SameOrder(x, y) && y.startedAt == x.startedAt && y.key == x.key
    && (y.status.Pending? || y.status.Completed? || y.status.Cancelled?)
    && y.attempts == x.attempts + (if failing then 1 else 0)
    && (failing ==> y.status.Pending?)
    && (failing && y.pause.None? ==>
          && 1 <= y.attempts <= retry.maxAttempts && y.retryAt.Some? && now <= y.retryAt.value <= now + retry.maxDelay
          && 2 * (y.retryAt.value - now) >= Backoff(retry, y.attempts))
    && (failing ==> (y.pause == Some("") <==> silent))
  }

  lemma FailureEnds(item: Assignment, retry: Retry, lost: bool, failure: Option<Failure>, now: int, x: Findings, y: Assignment)
    requires y == AfterFailure(item, retry, lost, failure, now, x)
    ensures Ended(item, y, retry, true, Unexplained(item, retry, lost, failure), now)
  {
    hide Transient; hide Pow2;
  }

  lemma TurnEnds(item: Assignment, retry: Retry, now: int, reason: Option<string>, journal: bool, x: Findings,
                 silent: bool, y: Assignment)
    requires y == AfterTurn(item, retry, now, reason, journal, x)
    ensures Ended(item, y, retry, false, silent, now)
  {
  }

  lemma FinishEnds(item: Assignment, retry: Retry, lost: bool, outcome: Outcome, failure: Option<Failure>, now: int,
                   stopping: bool, reason: Option<string>, journal: bool, x: Findings, y: Assignment)
    requires y == ObjectiveFinish(item, retry, lost, outcome, failure, now, stopping, reason, journal, x)
    ensures Ended(item, y, retry, !(stopping || outcome.OutCancelled? || Finished(outcome)),
                  Unexplained(item, retry, lost, failure), now)
  {
    hide AfterFailure; hide AfterTurn; hide Finished; hide Unexplained;
    if !(stopping || outcome.OutCancelled?) {
      if !Finished(outcome) { FailureEnds(item, retry, lost, failure, now, x, y); }
      else { TurnEnds(item, retry, now, reason, journal, x, Unexplained(item, retry, lost, failure), y); }
    }
  }

  // ---- The planner recurrence nudges ----

  // A newly queued session has no history; only a planner takes a successor key.
  ghost predicate Blank(x: Assignment) {
    && x.attempts == 0 && x.startedAt.None? && (x.status.Pending? || x.status.Cancelled?)
    && !x.key.ActiveKey? && (x.key.NextKey? <==> x.rule.PlannerRule?)
  }

  // Nothing is queued while a phase settles, and one successor at a time.
  ghost predicate Lone(t: State, a: nat) {
    a < |t.assignments| ==>
      var x := t.assignments[a];
      && x.run < |t.runs| && t.runs[x.run].next.None? && (x.key.NextKey? ==> t.runs[x.run].status.RunActive?)
      && (x.key.NextKey? && Open(x.status) ==>
            forall b | 0 <= b < |t.assignments| && b != a ::
              !(t.assignments[b].run == x.run && t.assignments[b].key.NextKey? && Open(t.assignments[b].status)))
  }

  ghost predicate NewBlank(s: State, t: State) {
    && |s.assignments| <= |t.assignments|
    && forall a | |s.assignments| <= a < |t.assignments| :: Blank(t.assignments[a]) && Lone(t, a)
  }

  ghost predicate AllNudged(s: State, t: State) {
    NewBlank(s, t) && forall a | 0 <= a < |s.assignments| :: Nudged(s.assignments[a], t.assignments[a])
  }

  lemma NudgedTrans(s: State, t: State, u: State)
    requires AllNudged(s, t) && AllNudged(t, u)
    requires |s.assignments| == |t.assignments| || t.runs == u.runs
    ensures AllNudged(s, u)
  {
  }

  lemma SuccessorNudges(c: Config, s: State, r: nat)
    requires WellFormed(c) && r < |s.runs| && r < |c.runs| && c.runs[r].mode.Objective? && EnsureSuccessor(c, s, r).Commit?
    ensures AllNudged(s, EnsureSuccessor(c, s, r).state)
  {
    SuccessorShape(c, s, r);
  }

  lemma PassNudges(c: Config, s: State, r: nat, observed: nat)
    requires WellFormed(c) && r < |s.runs| && r < |c.runs| && c.runs[r].mode.Objective?
    requires PassCompleted(c, s, r, observed).Commit?
    ensures AllNudged(s, PassCompleted(c, s, r, observed).state)
  {
    hide WellFormed; hide EnsureSuccessor;
    var noted := s.(runs := s.runs[r := s.runs[r].(planner := AfterPass(c, s.runs[r].planner, observed, s.now))]);
    SuccessorNudges(c, noted, r);
    var t := EnsureSuccessor(c, noted, r).state;
    assert AllNudged(t, PassCompleted(c, s, r, observed).state);
    NudgedTrans(s, t, PassCompleted(c, s, r, observed).state);
  }

  lemma CancelNudges(c: Config, s: State, a: nat, disable: bool)
    requires a < |s.assignments|
    ensures AllNudged(s, Cancel(c, s, a, disable)) && |Cancel(c, s, a, disable).assignments| == |s.assignments|
  {
    hide Nudged;
    var t := Cancel(c, s, a, disable);
    forall b | 0 <= b < |s.assignments| ensures Nudged(s.assignments[b], t.assignments[b]) {
      CancelNudge(s.assignments[b], t.assignments[b], s.now);
    }
  }

  // A cancellation leaves a row, ends or stops it, or notes a pause.
  lemma CancelNudge(x: Assignment, y: Assignment, now: int)
    requires || y == x || y == x.(pause := Some("cancelled"))
             || (x.status.Pending? && y == x.(status := Cancelled, finishedAt := Some(now)))
             || (x.status.Running? && (y == x.(status := Stopping, finishedAt := None)))
             || (x.status.Stopping? && (y == x.(finishedAt := None)))
    ensures Nudged(x, y)
  {
  }

  lemma {:induction false} CancelRestNudges(c: Config, s: State, r: nat, draining: bool, n: nat)
    requires n <= |s.assignments|
    ensures AllNudged(s, CancelRest(c, s, r, draining, n))
    decreases |s.assignments| - n
  {
    hide Cancel;
    if n < |s.assignments| {
      var item := s.assignments[n];
      var chosen := item.run == r && (if draining then item.status.Pending? && !item.rule.NoRule?
                                      else item.status.Pending? || item.status.Running?);
      CancelNudges(c, s, n, !draining);
      var t := if chosen then Cancel(c, s, n, !draining) else s;
      CancelRestNudges(c, t, r, draining, n + 1);
      NudgedTrans(s, t, CancelRest(c, t, r, draining, n + 1));
    }
  }

  lemma TransitionNudges(c: Config, s: State, r: nat, op: RunOp, done: bool, unpublished: bool)
    requires WellFormed(c) && Transition(c, s, r, op, done, unpublished).Commit?
    ensures AllNudged(s, Transition(c, s, r, op, done, unpublished).state)
  {
    hide CancelRest; hide RunOccupied; hide RunUnconfirmed; hide EnsureSuccessor; hide WellFormed;
    var run := s.runs[r];
    if op.DrainRun? {
      CancelRestNudges(c, s.(runs := s.runs[r := run.(status := RunDraining)]), r, true, 0);
    } else if op.CancelRun? {
      CancelRestNudges(c, s.(runs := s.runs[r := run.(status := RunStopping, planner := run.planner.(enabled := false))]),
                       r, false, 0);
    } else if op.ReopenRun? && c.runs[r].mode.Objective? && run.planner.enabled {
      SuccessorNudges(c, s.(runs := s.runs[r := run.(status := RunActive)]), r);
    }
  }

  lemma SwitchNudges(c: Config, s: State, r: nat, enabled: bool)
    requires WellFormed(c) && SwitchPlanner(c, s, r, enabled).Commit?
    ensures AllNudged(s, SwitchPlanner(c, s, r, enabled).state)
  {
    hide EnsureSuccessor; hide WellFormed;
    var was := s.runs[r].planner;
    var t := s.(runs := s.runs[r := s.runs[r].(planner := was.(enabled := enabled,
                                               pause := if enabled then NotPaused else ByOperator))]);
    if enabled && !was.enabled {
      SuccessorNudges(c, t, r);
      var u := EnsureSuccessor(c, t, r).state;
      assert AllNudged(u, SwitchPlanner(c, s, r, enabled).state);
      NudgedTrans(s, u, SwitchPlanner(c, s, r, enabled).state);
    }
  }

  lemma ReconcileNudges(c: Config, s: State, r: nat, frontier: nat, deliveries: bool, closable: bool)
    requires WellFormed(c) && ReconcileRun(c, s, r, frontier, deliveries, closable).Commit?
    ensures AllNudged(s, ReconcileRun(c, s, r, frontier, deliveries, closable).state)
  {
    hide EnsureSuccessor; hide WellFormed; hide RunOccupied; hide RunBusy;
    var z := ReconcileRun(c, s, r, frontier, deliveries, closable).state;
    var run := s.runs[r];
    var awake := Planner(true, NotPaused, 0, frontier, None);
    if run.next.Some? {
      if run.next.value.target.Some? && z != s {
        SuccessorNudges(c, s.(runs := s.runs[r := run.(phase := run.next.value.target.value, next := None, planner := awake)]), r);
      }
    } else if frontier != run.planner.frontier && (run.planner.pause.NotPaused? || run.planner.pause.Idle?) {
      var u := s.(runs := s.runs[r := run.(planner := awake)],
        assignments := seq(|s.assignments|, (a: nat) requires a < |s.assignments| =>
          if s.assignments[a].run == r && s.assignments[a].key.NextKey? && s.assignments[a].status.Pending?
          then s.assignments[a].(pause := None, notBefore := None) else s.assignments[a]));
      SuccessorNudges(c, u, r);
      NudgedTrans(s, u, z);
    } else {
      SuccessorNudges(c, s, r);
    }
  }

  // ---- Ending a turn ----

  // What a receipt or a lease sweep decides about the turn.
  ghost function Verdict(c: Config, s: State, ev: Event): (Outcome, Option<Failure>)
    requires (ev.EvStopReceipt? || ev.EvLeaseSweep?) && Known(c, s, ev.execution)
  {
    if ev.EvStopReceipt? then JudgedOutcome(c, s, ev.execution, ev.receipt, ev.findings)
    else (OutLost, Some(Failure(LeaseExpired, "lease")))
  }

  ghost predicate Ends(c: Config, s: State, ev: Event, a: nat) {
    && (ev.EvStopReceipt? || ev.EvLeaseSweep?) && Known(c, s, ev.execution)
    && s.executions[ev.execution].assignment == a && Live(s.executions[ev.execution].status)
    && Attempt(c, s, ev).Commit?
  }

  // The turn failed: neither finished, nor cancelled, nor asked to stop.
  ghost predicate Failing(c: Config, s: State, ev: Event, a: nat)
    requires Ends(c, s, ev, a)
  {
    var outcome := Verdict(c, s, ev).0;
    !(s.assignments[a].status.Stopping? || Halted(s.runs[s.assignments[a].run].status)
      || outcome.OutCancelled? || Finished(outcome))
  }

  // The tables `finish` reads: after the receipt's news, or with doubtful turns.
  ghost function Settling(s: State, ev: Event): State
    requires (ev.EvStopReceipt? || ev.EvLeaseSweep?) && ev.execution < |s.executions|
  {
    if ev.EvLeaseSweep? then s.(turns := UncertainTurns(s.turns, ev.execution))
    else
      var e := ev.execution;
      var stopped := s.(executions := s.executions[e := s.executions[e].(confirmed := true)],
                        turns := InterruptedTurns(s.turns, e));
      var heard := ReceiptThreads(stopped, e, s.executions[e].assignment, ev.receipt);
      if heard.Some? then stopped.(threads := heard.value) else stopped
  }

  // A failure outside the policy, with its context kept, that carries no message.
  ghost predicate Silent(c: Config, s: State, ev: Event, a: nat)
    requires Ends(c, s, ev, a)
  {
    Unexplained(s.assignments[a], RetryOf(c, s, a), ContextLost(Settling(s, ev), a), Reclassified(Verdict(c, s, ev).1))
  }

  lemma SettleEnds(c: Config, s: State, e: nat, byHost: bool, outcome: Outcome, given: Option<Failure>,
                   journal: bool, reason: Option<string>, x: Findings)
    requires WellFormed(c) && Known(c, s, e) && Live(s.executions[e].status)
    requires c.runs[s.assignments[s.executions[e].assignment].run].mode.Objective?
    requires Settle(c, s, e, byHost, outcome, given, journal, reason, x).Commit?
    ensures var t := Settle(c, s, e, byHost, outcome, given, journal, reason, x).state;
            var a := s.executions[e].assignment;
            && NewBlank(s, t)
            && Ended(s.assignments[a], t.assignments[a], RetryOf(c, s, a),
                     !(s.assignments[a].status.Stopping? || Halted(s.runs[s.assignments[a].run].status)
                       || outcome.OutCancelled? || Finished(outcome)),
                     Unexplained(s.assignments[a], RetryOf(c, s, a), ContextLost(s, a), Reclassified(given)), s.now)
            && (forall b | 0 <= b < |s.assignments| && b != a :: Nudged(s.assignments[b], t.assignments[b]))
  {
    hide ObjectiveFinish; hide LegacyFinish; hide AdjustedLimits; hide ContextLost; hide ReleasedClaims; hide RetryOf;
    hide PassCompleted; hide Reclassified; hide WellFormed; hide Finished; hide Unexplained;
    var a := s.executions[e].assignment;
    var item := s.assignments[a];
    var r := item.run;
    var u := SettledRows(c, s, e, byHost, outcome, given, journal, reason, x);
    var stopping := item.status.Stopping? || Halted(s.runs[r].status);
    FinishEnds(item, RetryOf(c, s, a), ContextLost(s, a), outcome, Reclassified(given), s.now, stopping, reason, journal, x,
               u.assignments[a]);
    if u.assignments[a].status.Completed? && item.rule.PlannerRule? {
      PassNudges(c, u, r, x.frontier);
    }
  }

  lemma ReceiptEnds(c: Config, s: State, e: nat, epoch: nat, r: Receipt, x: Findings)
    requires WellFormed(c) && Known(c, s, e) && Live(s.executions[e].status)
    requires c.runs[s.assignments[s.executions[e].assignment].run].mode.Objective?
    requires StopReceipt(c, s, e, epoch, r, x).Commit?
    ensures var t := StopReceipt(c, s, e, epoch, r, x).state;
            var a := s.executions[e].assignment;
            var judged := JudgedOutcome(c, s, e, r, x);
            && NewBlank(s, t)
            && Ended(s.assignments[a], t.assignments[a], RetryOf(c, s, a),
                     !(s.assignments[a].status.Stopping? || Halted(s.runs[s.assignments[a].run].status)
                       || judged.0.OutCancelled? || Finished(judged.0)),
                     Unexplained(s.assignments[a], RetryOf(c, s, a),
                                 ContextLost(Settling(s, EvStopReceipt(e, epoch, r, x)), a), Reclassified(judged.1)), s.now)
            && (forall b | 0 <= b < |s.assignments| && b != a :: Nudged(s.assignments[b], t.assignments[b]))
  {
    hide ReceiptThreads; hide JudgedOutcome; hide InterruptedTurns; hide ReleasedClaims; hide Settle; hide Ended; hide Nudged;
    hide WellFormed; hide Finished; hide Unexplained; hide ContextLost; hide Reclassified;
    var stopped := s.(executions := s.executions[e := s.executions[e].(confirmed := true)],
                      turns := InterruptedTurns(s.turns, e));
    var t := stopped.(threads := ReceiptThreads(stopped, e, s.executions[e].assignment, r).value);
    var judged := JudgedOutcome(c, s, e, r, x);
    SettleEnds(c, t, e, true, judged.0, judged.1, IntentsOpen(r), r.reason, x);
  }

  lemma SweepEnds(c: Config, s: State, e: nat, x: Findings)
    requires WellFormed(c) && Known(c, s, e) && LeaseSweep(c, s, e, x).Commit?
    requires c.runs[s.assignments[s.executions[e].assignment].run].mode.Objective?
    ensures var t := LeaseSweep(c, s, e, x).state;
            var a := s.executions[e].assignment;
            && NewBlank(s, t)
            && Ended(s.assignments[a], t.assignments[a], RetryOf(c, s, a),
                     !(s.assignments[a].status.Stopping? || Halted(s.runs[s.assignments[a].run].status)),
                     Unexplained(s.assignments[a], RetryOf(c, s, a), ContextLost(Settling(s, EvLeaseSweep(e, x)), a),
                                 Reclassified(Some(Failure(LeaseExpired, "lease")))), s.now)
            && (forall b | 0 <= b < |s.assignments| && b != a :: Nudged(s.assignments[b], t.assignments[b]))
  {
    hide UncertainTurns; hide Settle; hide Ended; hide Nudged; hide WellFormed; hide Unexplained; hide ContextLost; hide Reclassified;
    SettleEnds(c, s.(turns := UncertainTurns(s.turns, e)), e, false, OutLost, Some(Failure(LeaseExpired, "lease")),
               false, None, x);
  }

  // ---- Legacy settlements and admissions, seen from other sessions ----

  lemma SettleOthers(c: Config, s: State, e: nat, byHost: bool, outcome: Outcome, given: Option<Failure>,
                     journal: bool, reason: Option<string>, x: Findings)
    requires Known(c, s, e) && Settle(c, s, e, byHost, outcome, given, journal, reason, x).Commit?
    requires c.runs[s.assignments[s.executions[e].assignment].run].mode.Legacy? || !Live(s.executions[e].status)
    ensures var t := Settle(c, s, e, byHost, outcome, given, journal, reason, x).state;
            && |t.assignments| == |s.assignments|
            && (forall b | 0 <= b < |s.assignments| && (b != s.executions[e].assignment || !Live(s.executions[e].status)) ::
                  t.assignments[b] == s.assignments[b])
  {
    hide ObjectiveFinish; hide LegacyFinish; hide AdjustedLimits; hide ContextLost; hide ReleasedClaims; hide RetryOf;
    hide Reclassified;
  }

  // Settlement seen from the other sessions, or of an execution that already ended.
  lemma EndElsewhere(c: Config, s: State, ev: Event)
    requires WellFormed(c) && Attempt(c, s, ev).Commit?
    requires (ev.EvStopReceipt? || ev.EvLeaseSweep?) && Known(c, s, ev.execution)
    ensures NewBlank(s, Attempt(c, s, ev).state)
    ensures forall b | 0 <= b < |s.assignments|
                       && (s.executions[ev.execution].assignment != b || !Live(s.executions[ev.execution].status)) ::
              Nudged(s.assignments[b], Attempt(c, s, ev).state.assignments[b])
  {
    hide ReceiptThreads; hide JudgedOutcome; hide InterruptedTurns; hide ReleasedClaims; hide Settle; hide UncertainTurns;
    hide WellFormed; hide Finished; hide Ended;
    var e := ev.execution;
    var objective := c.runs[s.assignments[s.executions[e].assignment].run].mode.Objective?;
    if objective && Live(s.executions[e].status) {
      if ev.EvStopReceipt? { ReceiptEnds(c, s, e, ev.epoch, ev.receipt, ev.findings); }
      else { SweepEnds(c, s, e, ev.findings); }
    } else if ev.EvStopReceipt? {
      var r := ev.receipt;
      var stopped := s.(executions := s.executions[e := s.executions[e].(confirmed := true)],
                        turns := InterruptedTurns(s.turns, e));
      var t := stopped.(threads := ReceiptThreads(stopped, e, s.executions[e].assignment, r).value);
      var judged := JudgedOutcome(c, s, e, r, ev.findings);
      SettleOthers(c, t, e, true, judged.0, judged.1, IntentsOpen(r), r.reason, ev.findings);
    } else {
      SettleOthers(c, s.(turns := UncertainTurns(s.turns, e)), e, false, OutLost, Some(Failure(LeaseExpired, "lease")),
                   false, None, ev.findings);
    }
  }

  lemma PlannedKey(c: Config, s: State, a: nat)
    requires WellFormed(c) && RefsOk(c, s) && a < |s.assignments| && AdmitPlanner(c, s, a).Commit?
    ensures NewBlank(s, AdmitPlanner(c, s, a).state)
    ensures var y := AdmitPlanner(c, s, a).state.assignments[a];
            if c.runs[s.assignments[a].run].mode.Objective? && s.assignments[a].rule.PlannerRule?
            then y == s.assignments[a].(key := ActiveKey) else y == s.assignments[a]
  {
    var r := s.assignments[a].run;
    if c.runs[r].mode.Objective? && s.assignments[a].rule.PlannerRule? {
      SuccessorShape(c, s.(assignments := s.assignments[a := s.assignments[a].(key := ActiveKey)]), r);
    }
  }

  lemma AdmitRow(c: Config, s: State, a: nat, host: nat, harness: nat, view: View)
    requires WellFormed(c) && Sound(c, s) && Admit(c, s, a, host, harness, view).Commit?
    ensures var z := Admit(c, s, a, host, harness, view).state;
            && a < |s.assignments| && NewBlank(s, z)
            && (ModeOf(c, s, a).Objective? ==> Admitted(s.assignments[a], z.assignments[a]))
            && (forall b | 0 <= b < |s.assignments| && b != a :: z.assignments[b] == s.assignments[b])
  {
    hide Admissible; hide Placement; hide Reservation; hide AdmitPlanner; hide SessionsOk; hide ContextsOk; hide ClaimsOk;
    hide RetainedOn; hide NextNumber; hide HasRetained; hide WellFormed; hide Proposed;
    AdmitPlacement(c, s, a, host, harness, view);
    PlannedShape(c, s, a);
    PlannedKey(c, s, a);
  }

  // ---- One step, one session ----

  ghost predicate Operated(c: Config, s: State, ev: Event, a: nat) {
    || (ev.EvResumeSession? && ev.session == a && ResumeSession(s, a).Commit?)
    || (ev.EvRecoverContext? && ev.thread < |s.threads| && s.threads[ev.thread].assignment == a
        && RecoverContext(c, s, ev.thread).Commit?)
  }

  lemma CheckpointNudges(s: State, a: nat, notBefore: Option<int>)
    requires Checkpoint(s, a, notBefore).Commit?
    ensures AllNudged(s, Checkpoint(s, a, notBefore).state)
  {
  }

  lemma EnqueueNudges(c: Config, s: State, q: Request)
    requires Enqueue(c, s, q).Commit?
    ensures AllNudged(s, Enqueue(c, s, q).state)
  {
    hide Queued;
  }

  lemma OtherNudges(c: Config, s: State, ev: Event)
    requires WellFormed(c) && Attempt(c, s, ev).Commit?
    requires ev.EvEnqueue? || ev.EvCheckpoint? || ev.EvExpireSession? || ev.EvCancel? || ev.EvTransition? || ev.EvSwitchPlanner?
             || ev.EvAcceptPhase? || ev.EvReconcileRun?
    ensures AllNudged(s, Attempt(c, s, ev).state)
  {
    hide WellFormed; hide Cancel; hide Transition; hide SwitchPlanner; hide ReconcileRun; hide OthersOpen; hide Acting;
    hide Enqueue; hide Checkpoint;
    match ev {
      case EvEnqueue(q) => EnqueueNudges(c, s, q);
      case EvCheckpoint(a, when) => CheckpointNudges(s, a, when);
      case EvExpireSession(a) => CancelNudges(c, s, a, true);
      case EvCancel(a) => CancelNudges(c, s, a, true);
      case EvTransition(r, op, done, unpublished) => TransitionNudges(c, s, r, op, done, unpublished);
      case EvSwitchPlanner(r, on) => SwitchNudges(c, s, r, on);
      case EvAcceptPhase(r, g, p, ok) =>
      case EvReconcileRun(r, f, d, ok) => ReconcileNudges(c, s, r, f, d, ok);
    }
  }

  // Steps that touch no assignment, or only one of a legacy run or one an operator recovers.
  ghost predicate Still(ev: Event) {
    || ev.EvElapse? || ev.EvSettleTurn? || ev.EvSettleRun? || ev.EvTurnObserved? || ev.EvPrepared?
    || ev.EvResumeSession? || ev.EvRetrySession? || ev.EvResetCircuit? || ev.EvHeartbeat?
    || ev.EvRetireOrphans? || ev.EvRetireFailed? || ev.EvRetirePlace? || ev.EvReopenSession?
    || ev.EvTurnStarted? || ev.EvTurnFinished? || ev.EvConfirmStopped? || ev.EvRecoverContext?
  }

  lemma StillRows(c: Config, s: State, ev: Event)
    requires Attempt(c, s, ev).Commit? && Still(ev)
    ensures |Attempt(c, s, ev).state.assignments| == |s.assignments|
    ensures forall a | 0 <= a < |s.assignments| && ModeOf(c, s, a).Objective? && !Operated(c, s, ev, a) ::
              Attempt(c, s, ev).state.assignments[a] == s.assignments[a]
  {
    hide RunOccupied; hide Orphaned; hide FailedContext; hide LiveSession; hide SessionUnsettled; hide Unconfirmed;
    hide HasRetained;
  }

  lemma StepBlank(c: Config, s: State, ev: Event)
    requires WellFormed(c) && Sound(c, s)
    ensures NewBlank(s, Apply(c, s, ev))
  {
    hide Sound; hide WellFormed; hide Admit; hide StopReceipt; hide LeaseSweep; hide JudgedOutcome; hide RetryOf;
    if Attempt(c, s, ev).Commit? {
      if ev.EvAdmit? {
        AdmitRow(c, s, ev.session, ev.host, ev.harness, ev.view);
      } else if ev.EvStopReceipt? || ev.EvLeaseSweep? {
        EndElsewhere(c, s, ev);
      } else if Still(ev) {
        StillRows(c, s, ev);
      } else {
        hide Attempt;
        OtherNudges(c, s, ev);
      }
    }
  }

  /** Every step does one of four things to an objective session. */
  lemma SessionStep(c: Config, s: State, ev: Event, a: nat)
    requires WellFormed(c) && Sound(c, s) && a < |s.assignments| && ModeOf(c, s, a).Objective?
    ensures NewBlank(s, Apply(c, s, ev))
    ensures var x, y := s.assignments[a], Apply(c, s, ev).assignments[a];
            if Ends(c, s, ev, a)
            then s.assignments[a].run < |c.runs| && Ended(x, y, RetryOf(c, s, a), Failing(c, s, ev, a), Silent(c, s, ev, a), s.now)
            else if ev.EvAdmit? && ev.session == a && Attempt(c, s, ev).Commit? then Admitted(x, y)
            else if Operated(c, s, ev, a) then Recovered(x, y)
            else Nudged(x, y)
  {
    hide Sound; hide WellFormed; hide Admit; hide StopReceipt; hide LeaseSweep; hide Ended; hide JudgedOutcome; hide RetryOf;
    if Attempt(c, s, ev).Commit? {
      if ev.EvAdmit? {
        AdmitRow(c, s, ev.session, ev.host, ev.harness, ev.view);
      } else if ev.EvStopReceipt? || ev.EvLeaseSweep? {
        if !Ends(c, s, ev, a) { EndElsewhere(c, s, ev); }
        else if ev.EvStopReceipt? { ReceiptEnds(c, s, ev.execution, ev.epoch, ev.receipt, ev.findings); }
        else { SweepEnds(c, s, ev.execution, ev.findings); }
      } else if Operated(c, s, ev, a) {
        OperatedRow(c, s, ev, a);
      } else if Still(ev) {
        StillRows(c, s, ev);
      } else {
        hide Attempt;
        OtherNudges(c, s, ev);
      }
    }
  }

  lemma OperatedRow(c: Config, s: State, ev: Event, a: nat)
    requires Sound(c, s) && a < |s.assignments| && ModeOf(c, s, a).Objective? && Operated(c, s, ev, a)
    ensures |Apply(c, s, ev).assignments| == |s.assignments| && Recovered(s.assignments[a], Apply(c, s, ev).assignments[a])
  {
    hide LiveSession; hide SessionUnsettled; hide Unconfirmed; hide RefsOk; hide ContextsOk; hide ClaimsOk;
    assert Enrolled(c, s.assignments[a]);
  }
}
