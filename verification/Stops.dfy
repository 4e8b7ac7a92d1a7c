/**
  What confirms a physical stop and what renews a lease: the two facts an
  execution's fencing rests on (worker_events.py `handle`; commands.py
  `confirm_host_stopped`; scheduler.py `heartbeat`, `finish`).
 */
module Stops {
  import opened Wrappers
  import opened Records
  import opened Admission
  import opened Protocol
  import opened Structure
  import opened Fencing
  import opened Safety
  import opened Sessions
  import opened Objectives

  // ---- Steps that leave an execution's confirmation and lease alone ----

  ghost predicate Kin(x: Execution, y: Execution) { y.confirmed == x.confirmed && y.leaseUntil == x.leaseUntil }

  ghost predicate Undisturbed(s: State, t: State) {
    |s.executions| <= |t.executions| && forall e | 0 <= e < |s.executions| :: Kin(s.executions[e], t.executions[e])
  }

  lemma CancelAside(c: Config, s: State, a: nat, disable: bool)
    requires a < |s.assignments|
    ensures Undisturbed(s, Cancel(c, s, a, disable)) && |Cancel(c, s, a, disable).executions| == |s.executions|
    ensures |Cancel(c, s, a, disable).assignments| == |s.assignments|
  {
  }

  lemma {:induction false} CancelRestAside(c: Config, s: State, r: nat, draining: bool, n: nat)
    requires n <= |s.assignments|
    ensures Undisturbed(s, CancelRest(c, s, r, draining, n))
    decreases |s.assignments| - n
  {
    hide Cancel;
    if n < |s.assignments| {
      var item := s.assignments[n];
      var chosen := item.run == r && (if draining then item.status.Pending? && !item.rule.NoRule?
                                      else item.status.Pending? || item.status.Running?);
      CancelAside(c, s, n, !draining);
      CancelRestAside(c, if chosen then Cancel(c, s, n, !draining) else s, r, draining, n + 1);
    }
  }

  lemma TransitionAside(c: Config, s: State, r: nat, op: RunOp, done: bool, unpublished: bool)
    requires WellFormed(c) && Transition(c, s, r, op, done, unpublished).Commit?
    ensures Undisturbed(s, Transition(c, s, r, op, done, unpublished).state)
  {
    hide CancelRest; hide RunOccupied; hide RunUnconfirmed; hide EnsureSuccessor; hide WellFormed;
    var run := s.runs[r];
    if op.DrainRun? {
      CancelRestAside(c, s.(runs := s.runs[r := run.(status := RunDraining)]), r, true, 0);
    } else if op.CancelRun? {
      CancelRestAside(c, s.(runs := s.runs[r := run.(status := RunStopping, planner := run.planner.(enabled := false))]),
                      r, false, 0);
    } else if op.ReopenRun? && c.runs[r].mode.Objective? && run.planner.enabled {
      SuccessorShape(c, s.(runs := s.runs[r := run.(status := RunActive)]), r);
    }
  }

  lemma SwitchAside(c: Config, s: State, r: nat, enabled: bool)
    requires WellFormed(c) && SwitchPlanner(c, s, r, enabled).Commit?
    ensures SwitchPlanner(c, s, r, enabled).state.executions == s.executions
  {
    hide EnsureSuccessor; hide WellFormed;
    var was := s.runs[r].planner;
    var t := s.(runs := s.runs[r := s.runs[r].(planner := was.(enabled := enabled,
                                               pause := if enabled then NotPaused else ByOperator))]);
    if enabled && !was.enabled { SuccessorShape(c, t, r); }
  }

  lemma ReconcileAside(c: Config, s: State, r: nat, frontier: nat, deliveries: bool, closable: bool)
    requires WellFormed(c) && ReconcileRun(c, s, r, frontier, deliveries, closable).Commit?
    ensures ReconcileRun(c, s, r, frontier, deliveries, closable).state.executions == s.executions
  {
    hide EnsureSuccessor; hide WellFormed; hide RunOccupied; hide RunBusy;
    var run := s.runs[r];
    var awake := Planner(true, NotPaused, 0, frontier, None);
    if run.next.Some? {
      if run.next.value.target.Some? && !(RunOccupied(s, r) || RunBusy(c, s, r) || deliveries) {
        SuccessorShape(c, s.(runs := s.runs[r := run.(phase := run.next.value.target.value, next := None, planner := awake)]), r);
      }
    } else if frontier != run.planner.frontier && (run.planner.pause.NotPaused? || run.planner.pause.Idle?) {
      SuccessorShape(c, s.(runs := s.runs[r := run.(planner := awake)],
        assignments := seq(|s.assignments|, (a: nat) requires a < |s.assignments| =>
          if s.assignments[a].run == r && s.assignments[a].key.NextKey? && s.assignments[a].status.Pending?
          then s.assignments[a].(pause := None, notBefore := None) else s.assignments[a])), r);
    } else {
      SuccessorShape(c, s, r);
    }
  }

  lemma FinishRun(item: Assignment, run: RunStatus, retry: Retry, lost: bool, outcome: Outcome, failure: Option<Failure>,
                  now: int, stopping: bool, reason: Option<string>, journal: bool, x: Findings)
    ensures ObjectiveFinish(item, retry, lost, outcome, failure, now, stopping, reason, journal, x).run == item.run
    ensures LegacyFinish(item, run, retry, outcome, failure, now, stopping, reason, journal, x).run == item.run
  {
    hide Backoff; hide Transient;
  }

  lemma PassRun(c: Config, s: State, r: nat, observed: nat, a: nat)
    requires r < |s.runs| && r < |c.runs| && a < |s.assignments| && PassCompleted(c, s, r, observed).Commit?
    ensures a < |PassCompleted(c, s, r, observed).state.assignments|
    ensures PassCompleted(c, s, r, observed).state.assignments[a].run == s.assignments[a].run
  {
    hide AfterPass; hide Queued;
  }

  // Settling one execution: the others keep their rows, and only a host's word confirms.
  lemma SettleAside(c: Config, s: State, e: nat, byHost: bool, outcome: Outcome, given: Option<Failure>,
                    journal: bool, reason: Option<string>, x: Findings)
    requires Known(c, s, e) && Settle(c, s, e, byHost, outcome, given, journal, reason, x).Commit?
    ensures var t := Settle(c, s, e, byHost, outcome, given, journal, reason, x).state;
            && |t.executions| == |s.executions| && t.turns == s.turns && t.threads == s.threads
            && (forall f | 0 <= f < |s.executions| && f != e :: t.executions[f] == s.executions[f])
            && !Live(t.executions[e].status)
            && (!byHost ==> t.executions[e].confirmed == s.executions[e].confirmed && (!s.executions[e].confirmed ==> t.claims == s.claims))
            && (s.executions[e].confirmed ==> t.executions[e].confirmed)
            && t.executions[e].assignment == s.executions[e].assignment < |t.assignments|
            && t.assignments[s.executions[e].assignment].run == s.assignments[s.executions[e].assignment].run
  {
    hide ObjectiveFinish; hide LegacyFinish; hide AdjustedLimits; hide ContextLost; hide ReleasedClaims; hide RetryOf;
    hide PassCompleted; hide Reclassified; hide Finished;
    if Live(s.executions[e].status) {
      var u := SettledRows(c, s, e, byHost, outcome, given, journal, reason, x);
      var a := s.executions[e].assignment;
      var item := s.assignments[a];
      var r, run := item.run, s.runs[item.run].status;
      FinishRun(item, run, RetryOf(c, s, a), ContextLost(s, a), outcome, Reclassified(given), s.now,
                item.status.Stopping? || Halted(run), reason, journal, x);
      if PassCompleted(c, u, r, x.frontier).Commit? {
        PassShape(c, u, r, x.frontier);
        PassRun(c, u, r, x.frontier, a);
      }
    }
  }

  lemma TurnsQuiet(s: State, t: State, e: nat)
    ensures t.turns == InterruptedTurns(s.turns, e) ==> !HasUnsettled(t, e)
  {
  }

  lemma ReceiptAside(c: Config, s: State, e: nat, epoch: nat, r: Receipt, x: Findings)
    requires Known(c, s, e) && StopReceipt(c, s, e, epoch, r, x).Commit?
    ensures var t := StopReceipt(c, s, e, epoch, r, x).state;
            && |t.executions| == |s.executions| && !Live(t.executions[e].status) && t.executions[e].confirmed
            && t.turns == InterruptedTurns(s.turns, e) && !HasUnsettled(t, e)
            && (forall f | 0 <= f < |s.executions| && f != e :: t.executions[f] == s.executions[f])
            && (forall k | 0 <= k < |t.claims| :: t.claims[k].execution == e ==> t.claims[k].released)
  {
    hide ReceiptThreads; hide JudgedOutcome; hide InterruptedTurns; hide Settle; hide HasUnsettled;
    var stopped := s.(executions := s.executions[e := s.executions[e].(confirmed := true)],
                      turns := InterruptedTurns(s.turns, e));
    var t := stopped.(threads := ReceiptThreads(stopped, e, s.executions[e].assignment, r).value);
    var judged := JudgedOutcome(c, s, e, r, x);
    TurnsQuiet(s, StopReceipt(c, s, e, epoch, r, x).state, e);
    SettleAside(c, t, e, true, judged.0, judged.1, IntentsOpen(r), r.reason, x);
  }

  lemma SweepAside(c: Config, s: State, e: nat, x: Findings)
    requires Known(c, s, e) && LeaseSweep(c, s, e, x).Commit?
    ensures var t := LeaseSweep(c, s, e, x).state;
            && |t.executions| == |s.executions| && !Live(t.executions[e].status)
            && t.executions[e].confirmed == s.executions[e].confirmed
            && (forall f | 0 <= f < |s.executions| && f != e :: t.executions[f] == s.executions[f])
            && (!s.executions[e].confirmed ==> t.claims == s.claims)
            && (!s.executions[e].confirmed && ModeOf(c, s, s.executions[e].assignment).Objective? ==> Busy(c, t, e))
  {
    hide UncertainTurns; hide Settle; hide HasUnsettled;
    SettleAside(c, s.(turns := UncertainTurns(s.turns, e)), e, false, OutLost, Some(Failure(LeaseExpired, "lease")), false, None, x);
  }

  lemma OtherAside(c: Config, s: State, ev: Event)
    requires WellFormed(c) && Attempt(c, s, ev).Commit?
    requires ev.EvEnqueue? || ev.EvCheckpoint? || ev.EvExpireSession? || ev.EvCancel? || ev.EvTransition? || ev.EvSwitchPlanner?
             || ev.EvAcceptPhase? || ev.EvReconcileRun?
    ensures Undisturbed(s, Attempt(c, s, ev).state)
  {
    hide WellFormed; hide Cancel; hide Transition; hide SwitchPlanner; hide ReconcileRun; hide OthersOpen; hide Acting;
    hide Queued;
    match ev {
      case EvEnqueue(q) =>
      case EvCheckpoint(a, when) =>
      case EvExpireSession(a) => CancelAside(c, s, a, true);
      case EvCancel(a) => CancelAside(c, s, a, true);
      case EvTransition(r, op, done, unpublished) => TransitionAside(c, s, r, op, done, unpublished);
      case EvSwitchPlanner(r, on) => SwitchAside(c, s, r, on);
      case EvAcceptPhase(r, g, p, ok) =>
      case EvReconcileRun(r, f, d, ok) => ReconcileAside(c, s, r, f, d, ok);
    }
  }

  // Every event but a heartbeat, a receipt, a sweep or a confirmation of this execution.
  ghost predicate Concerns(ev: Event, e: nat) {
    (ev.EvHeartbeat? || ev.EvStopReceipt? || ev.EvLeaseSweep? || ev.EvConfirmStopped?) && ev.execution == e
  }

  lemma StillAside(c: Config, s: State, ev: Event, e: nat)
    requires Attempt(c, s, ev).Commit? && Still(ev) && e < |s.executions| && !Concerns(ev, e)
    ensures |Attempt(c, s, ev).state.executions| == |s.executions|
    ensures Kin(s.executions[e], Attempt(c, s, ev).state.executions[e])
  {
    hide RunOccupied; hide Orphaned; hide FailedContext; hide LiveSession; hide SessionUnsettled; hide Unconfirmed;
    hide HasRetained; hide StopRequested;
  }

  lemma Aside(c: Config, s: State, ev: Event, e: nat)
    requires WellFormed(c) && Sound(c, s) && e < |s.executions| && !Concerns(ev, e)
    ensures e < |Apply(c, s, ev).executions| && Kin(s.executions[e], Apply(c, s, ev).executions[e])
  {
    hide Sound; hide WellFormed; hide Admit; hide StopReceipt; hide LeaseSweep; hide Reservation; hide Placement;
    if Attempt(c, s, ev).Commit? {
      if ev.EvAdmit? { AdmitShape(c, s, ev.session, ev.host, ev.harness, ev.view); }
      else if ev.EvStopReceipt? { ReceiptAside(c, s, ev.execution, ev.epoch, ev.receipt, ev.findings); }
      else if ev.EvLeaseSweep? { SweepAside(c, s, ev.execution, ev.findings); }
      else if Still(ev) { StillAside(c, s, ev, e); }
      else {
        hide Attempt;
        OtherAside(c, s, ev);
      }
    }
  }

  // ---- Confirmation ----

  // The worker's stop receipt for e, or the operator's confirmation of e.
  ghost predicate Witnessed(ev: Event, e: nat) { (ev.EvStopReceipt? || ev.EvConfirmStopped?) && ev.execution == e }

  /** One step confirms a stop only by a receipt for that execution or by the operator: never a sweep, a cancellation or time. */
  lemma ConfirmStep(c: Config, s: State, ev: Event, e: nat)
    requires WellFormed(c) && Sound(c, s) && e < |s.executions| && !s.executions[e].confirmed && !Witnessed(ev, e)
    ensures e < |Apply(c, s, ev).executions| && !Apply(c, s, ev).executions[e].confirmed
  {
    hide Sound; hide WellFormed; hide Apply; hide Attempt;
    if !Concerns(ev, e) { Aside(c, s, ev, e); } else { SweptUnconfirmed(c, s, ev, e); }
  }

  lemma SweptUnconfirmed(c: Config, s: State, ev: Event, e: nat)
    requires e < |s.executions| && !s.executions[e].confirmed && (ev.EvHeartbeat? || ev.EvLeaseSweep?) && ev.execution == e
    ensures e < |Apply(c, s, ev).executions| && !Apply(c, s, ev).executions[e].confirmed
  {
    hide LeaseSweep; hide StopRequested;
    if ev.EvLeaseSweep? && Attempt(c, s, ev).Commit? { SweepAside(c, s, e, ev.findings); }
  }

  /** Over any run of events: a stop that became confirmed was witnessed by one of them. */
  lemma {:induction false} ConfirmedStopsWereWitnessed(c: Config, s: State, more: seq<Event>, e: nat)
    requires WellFormed(c) && Safe(c, s) && e < |s.executions| && !s.executions[e].confirmed
    ensures e < |After(c, s, more).executions|
    ensures After(c, s, more).executions[e].confirmed ==> exists i | 0 <= i < |more| :: Witnessed(more[i], e)
  {
    hide Apply; hide Sound; hide Fits; hide Busy;
    if more != [] {
      var n := |more| - 1;
      ConfirmedStopsWereWitnessed(c, s, more[..n], e);
      OccupancyNeverReturns(c, s, more, e);
      if !Witnessed(more[n], e) {
        var t := After(c, s, more[..n]);
        OccupancyNeverReturns(c, s, more[..n], e);
        if t.executions[e].confirmed {
          var i :| 0 <= i < n && Witnessed(more[..n][i], e);
          assert more[i] == more[..n][i];
        } else {
          ConfirmStep(c, t, more[n], e);
        }
      }
    }
  }

  // ---- Leases ----

  /** A step moves the lease of an execution that stays live only by a heartbeat that found no reason to stop. */
  lemma LeaseStep(c: Config, s: State, ev: Event, e: nat)
    requires WellFormed(c) && Sound(c, s) && e < |s.executions|
    ensures e < |Apply(c, s, ev).executions|
    ensures Live(Apply(c, s, ev).executions[e].status) && Apply(c, s, ev).executions[e].leaseUntil != s.executions[e].leaseUntil ==>
              && ev.EvHeartbeat? && ev.execution == e && Known(c, s, e) && !StopRequested(s, e)
              && ev.epoch == s.executions[e].number && s.now < s.executions[e].leaseUntil
              && Apply(c, s, ev).executions[e].leaseUntil == s.now + c.lease
  {
    hide Sound; hide WellFormed; hide Apply; hide Attempt; hide StopRequested;
    if !Concerns(ev, e) { Aside(c, s, ev, e); } else { ConcernedLease(c, s, ev, e); }
  }

  lemma ConcernedLease(c: Config, s: State, ev: Event, e: nat)
    requires e < |s.executions| && Concerns(ev, e)
    ensures e < |Apply(c, s, ev).executions|
    ensures Live(Apply(c, s, ev).executions[e].status) && Apply(c, s, ev).executions[e].leaseUntil != s.executions[e].leaseUntil ==>
              && ev.EvHeartbeat? && Known(c, s, e) && !StopRequested(s, e)
              && ev.epoch == s.executions[e].number && s.now < s.executions[e].leaseUntil
              && Apply(c, s, ev).executions[e].leaseUntil == s.now + c.lease
  {
    hide StopReceipt; hide LeaseSweep; hide StopRequested;
    if Attempt(c, s, ev).Commit? {
      if ev.EvStopReceipt? { ReceiptAside(c, s, e, ev.epoch, ev.receipt, ev.findings); }
      else if ev.EvLeaseSweep? { SweepAside(c, s, e, ev.findings); }
    }
  }

  // ---- A requested stop stands ----

  lemma HaltStands(c: Config, s: State, ev: Event, r: nat)
    requires WellFormed(c) && Sound(c, s) && r < |s.runs| && Halted(s.runs[r].status)
    ensures |Apply(c, s, ev).runs| == |s.runs| && Halted(Apply(c, s, ev).runs[r].status)
  {
    hide Sound; hide WellFormed; hide Apply; hide PassEnds; hide OthersOpen; hide RunOccupied; hide RunBusy; hide AfterPass;
    RunStep(c, s, ev, r);
  }

  // Sessions keep their run and window, and time does not go back.
  lemma WindowStands(c: Config, s: State, ev: Event, a: nat)
    requires WellFormed(c) && Sound(c, s) && a < |s.assignments|
    ensures a < |Apply(c, s, ev).assignments| && s.now <= Apply(c, s, ev).now
    ensures SameOrder(s.assignments[a], Apply(c, s, ev).assignments[a])
  {
    hide Admit; hide Reservation; hide Placement; hide SessionsOk; hide ContextsOk; hide ClaimsOk; hide WellFormed;
    if !ev.EvAdmit? { StepEvolves(c, s, ev); }
    else if Attempt(c, s, ev).Commit? { AdmitShape(c, s, ev.session, ev.host, ev.harness, ev.view); }
  }

  // For a live execution the request is one of three: it was told to stop, its
  // run halted, or its session's window closed.
  lemma StopReasons(c: Config, s: State, e: nat)
    requires Sound(c, s) && e < |s.executions| && Live(s.executions[e].status)
    ensures Known(c, s, e)
    ensures var item := s.assignments[s.executions[e].assignment];
            StopRequested(s, e) <==>
              || s.executions[e].status.ExecStopping? || Halted(s.runs[item.run].status)
              || (item.expiresAt.Some? && item.expiresAt.value <= s.now)
  {
    hide ContextsOk; hide ClaimsOk;
    assert StopAgrees(s, e);
  }

  lemma StopStands(c: Config, s: State, ev: Event, e: nat)
    requires WellFormed(c) && Safe(c, s) && e < |s.executions| && Live(s.executions[e].status)
    requires Known(c, s, e) && StopRequested(s, e)
    ensures e < |Apply(c, s, ev).executions|
    ensures Live(Apply(c, s, ev).executions[e].status) ==>
              && Known(c, Apply(c, s, ev), e) && StopRequested(Apply(c, s, ev), e)
              && Apply(c, s, ev).executions[e].leaseUntil == s.executions[e].leaseUntil
  {
    hide Apply; hide Attempt; hide Sound; hide Fits; hide WellFormed; hide Busy; hide StopRequested;
    var t := Apply(c, s, ev);
    var a := s.executions[e].assignment;
    StepSafe(c, s, ev);
    StepMonotone(c, s, ev, e);
    LeaseStep(c, s, ev, e);
    StopReasons(c, s, e);
    WindowStands(c, s, ev, a);
    if Halted(s.runs[s.assignments[a].run].status) { HaltStands(c, s, ev, s.assignments[a].run); }
    if Live(t.executions[e].status) { StopReasons(c, t, e); }
  }

  /**
    Once a stop was requested of a live execution, because it was told so, its
    run halted or its session's window closed, no run of events withdraws the
    request or extends the lease.
   */
  lemma {:induction false} RequestedStopsStand(c: Config, s: State, more: seq<Event>, e: nat)
    requires WellFormed(c) && Safe(c, s) && e < |s.executions| && Live(s.executions[e].status)
    requires Known(c, s, e) && StopRequested(s, e)
    ensures e < |After(c, s, more).executions|
    ensures Live(After(c, s, more).executions[e].status) ==>
              && Known(c, After(c, s, more), e) && StopRequested(After(c, s, more), e)
              && After(c, s, more).executions[e].leaseUntil == s.executions[e].leaseUntil
  {
    hide Apply; hide Sound; hide Fits; hide Busy; hide StopRequested;
    if more != [] {
      var n := |more| - 1;
      var t := After(c, s, more[..n]);
      RequestedStopsStand(c, s, more[..n], e);
      OccupancyNeverReturns(c, s, more[..n], e);
      StepMonotone(c, t, more[n], e);
      if Live(t.executions[e].status) { StopStands(c, t, more[n], e); }
    }
  }

  // ---- Repeated settlement ----

  lemma SecondReceipt(c: Config, s: State, e: nat, epoch: nat, r: Receipt, x: Findings)
    requires Known(c, s, e) && !Live(s.executions[e].status) && StopReceipt(c, s, e, epoch, r, x).Commit?
    ensures var t := StopReceipt(c, s, e, epoch, r, x).state;
            && t.assignments == s.assignments && t.limits == s.limits && t.runs == s.runs
            && t.executions == s.executions[e := s.executions[e].(confirmed := true)]
  {
    hide ReceiptThreads; hide JudgedOutcome; hide InterruptedTurns; hide ReleasedClaims;
  }

  /**
    Once an execution has ended in a run, every later stop receipt for it,
    after whatever events, changes no assignment, limit or run and no other
    execution: it only confirms the stop.
   */
  lemma SecondFinishChangesNothing(c: Config, start: State, events: seq<Event>, more: seq<Event>, e: nat, epoch: nat, r: Receipt, x: Findings)
    requires WellFormed(c) && Initial(c, start)
    requires var s := After(c, start, events); e < |s.executions| && !Live(s.executions[e].status)
    ensures var t := After(c, After(c, start, events), more);
            var z := Apply(c, t, EvStopReceipt(e, epoch, r, x));
            && e < |t.executions| && z.assignments == t.assignments && z.limits == t.limits && z.runs == t.runs
            && (z.executions == t.executions || z.executions == t.executions[e := t.executions[e].(confirmed := true)])
  {
    hide After; hide Initial; hide StopReceipt; hide Safe; hide Busy;
    var s := After(c, start, events);
    AlwaysSafe(c, start, events);
    OccupancyNeverReturns(c, s, more, e);
    var t := After(c, s, more);
    if Known(c, t, e) && StopReceipt(c, t, e, epoch, r, x).Commit? { SecondReceipt(c, t, e, epoch, r, x); }
  }
}
