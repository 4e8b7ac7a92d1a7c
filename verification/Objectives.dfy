/**
  The objective lifecycle over every step: planner recurrence keys, idle
  pauses and the phase sequence (objectives.py `ensure_successor`, `admitted`,
  `completed`, `reconcile`, `accept_phase`, `advance`).
 */
module Objectives {
  import opened Wrappers
  import opened Records
  import opened Admission
  import opened Protocol
  import opened Structure
  import opened Fencing
  import opened Sessions

  // ---- What one step does to a run ----

  // Same phase record; a halted run stays halted.
  ghost predicate SamePhase(x: Run, y: Run) {
    y.phase == x.phase && y.history == x.history && y.next == x.next && (Halted(x.status) ==> Halted(y.status))
  }

  predicate Manual(rule: Planner) { !rule.pause.NotPaused? && !rule.pause.Idle? }

  // A cancellation disables the planner; only a halted run leaves no note.
  ghost predicate Disabled(x: Run, y: Run) {
    && SamePhase(x, y)
    && (y.planner == x.planner.(enabled := false, pause := ByCancellation)
        || (y.planner == x.planner.(enabled := false) && Halted(y.status)))
  }

  ghost predicate Kept(x: Run, y: Run) { SamePhase(x, y) && y.planner == x.planner }

  ghost predicate Quieted(x: Run, y: Run) { Kept(x, y) || Disabled(x, y) }

  ghost predicate RunsQuieted(s: State, t: State) {
    |t.runs| == |s.runs| && forall r | 0 <= r < |s.runs| :: Quieted(s.runs[r], t.runs[r])
  }

  ghost predicate RunsKept(s: State, t: State) {
    |t.runs| == |s.runs| && forall r | 0 <= r < |s.runs| :: Kept(s.runs[r], t.runs[r])
  }

  lemma CancelRuns(c: Config, s: State, a: nat, disable: bool)
    requires a < |s.assignments|
    ensures RunsQuieted(s, Cancel(c, s, a, disable))
    ensures |Cancel(c, s, a, disable).assignments| == |s.assignments|
    ensures !disable ==> RunsKept(s, Cancel(c, s, a, disable))
    ensures forall r | 0 <= r < |s.runs| && r != s.assignments[a].run :: Cancel(c, s, a, disable).runs[r] == s.runs[r]
    ensures forall r | 0 <= r < |s.runs| ::
              Kept(s.runs[r], Cancel(c, s, a, disable).runs[r]) || Cancel(c, s, a, disable).runs[r].planner.pause.ByCancellation?
    ensures forall r | 0 <= r < |s.runs| :: Cancel(c, s, a, disable).runs[r].status == s.runs[r].status
  {
  }

  lemma {:induction false} CancelRestRuns(c: Config, s: State, r: nat, draining: bool, n: nat)
    requires n <= |s.assignments|
    ensures var t := CancelRest(c, s, r, draining, n);
            && RunsQuieted(s, t) && (draining ==> RunsKept(s, t))
            && forall i | 0 <= i < |s.runs| :: t.runs[i].status == s.runs[i].status && (i != r ==> t.runs[i] == s.runs[i])
    decreases |s.assignments| - n
  {
    hide Cancel;
    if n < |s.assignments| {
      var item := s.assignments[n];
      var chosen := item.run == r && (if draining then item.status.Pending? && !item.rule.NoRule?
                                      else item.status.Pending? || item.status.Running?);
      CancelRuns(c, s, n, !draining);
      CancelRestRuns(c, if chosen then Cancel(c, s, n, !draining) else s, r, draining, n + 1);
    }
  }

  lemma TransitionRuns(c: Config, s: State, r: nat, op: RunOp, done: bool, unpublished: bool)
    requires WellFormed(c) && Transition(c, s, r, op, done, unpublished).Commit?
    ensures RunsQuieted(s, Transition(c, s, r, op, done, unpublished).state)
    ensures forall i | 0 <= i < |s.runs| && i != r :: Transition(c, s, r, op, done, unpublished).state.runs[i] == s.runs[i]
  {
    hide CancelRest; hide RunOccupied; hide RunUnconfirmed; hide EnsureSuccessor; hide WellFormed;
    var run := s.runs[r];
    if op.DrainRun? {
      CancelRestRuns(c, s.(runs := s.runs[r := run.(status := RunDraining)]), r, true, 0);
    } else if op.CancelRun? {
      CancelRestRuns(c, s.(runs := s.runs[r := run.(status := RunStopping, planner := run.planner.(enabled := false))]),
                     r, false, 0);
    } else if op.ReopenRun? && c.runs[r].mode.Objective? && run.planner.enabled {
      SuccessorShape(c, s.(runs := s.runs[r := run.(status := RunActive)]), r);
    }
  }

  // The session a receipt or sweep completes is a planner of run r.
  ghost predicate PassEnds(c: Config, s: State, ev: Event, r: nat) {
    && (ev.EvStopReceipt? || ev.EvLeaseSweep?) && Known(c, s, ev.execution)
    && var a := s.executions[ev.execution].assignment;
       && Ends(c, s, ev, a) && s.assignments[a].run == r && s.assignments[a].rule.PlannerRule?
       && c.runs[r].mode.Objective?
       && a < |Apply(c, s, ev).assignments| && Apply(c, s, ev).assignments[a].status.Completed?
  }

  lemma PassRuns(c: Config, s: State, r: nat, observed: nat)
    requires WellFormed(c) && r < |s.runs| && r < |c.runs| && c.runs[r].mode.Objective? && PassCompleted(c, s, r, observed).Commit?
    ensures PassCompleted(c, s, r, observed).state.runs
            == s.runs[r := s.runs[r].(planner := AfterPass(c, s.runs[r].planner, observed, s.now))]
  {
    hide EnsureSuccessor; hide WellFormed; hide AfterPass;
    SuccessorShape(c, s.(runs := s.runs[r := s.runs[r].(planner := AfterPass(c, s.runs[r].planner, observed, s.now))]), r);
  }

  // The planner pass is the only run edit of a settlement.
  lemma SettleRuns(c: Config, s: State, e: nat, byHost: bool, outcome: Outcome, given: Option<Failure>,
                   journal: bool, reason: Option<string>, x: Findings)
    requires WellFormed(c) && Known(c, s, e) && Settle(c, s, e, byHost, outcome, given, journal, reason, x).Commit?
    ensures var t := Settle(c, s, e, byHost, outcome, given, journal, reason, x).state;
            var a := s.executions[e].assignment;
            var r := s.assignments[a].run;
            && a < |t.assignments|
            && t.runs == (if Live(s.executions[e].status) && c.runs[r].mode.Objective? && t.assignments[a].status.Completed?
                             && s.assignments[a].rule.PlannerRule?
                          then s.runs[r := s.runs[r].(planner := AfterPass(c, s.runs[r].planner, x.frontier, s.now))]
                          else s.runs)
  {
    hide ObjectiveFinish; hide LegacyFinish; hide AdjustedLimits; hide ContextLost; hide ReleasedClaims; hide RetryOf;
    hide PassCompleted; hide Reclassified; hide WellFormed; hide AfterPass;
    var a := s.executions[e].assignment;
    var r := s.assignments[a].run;
    if Live(s.executions[e].status) && c.runs[r].mode.Objective? && s.assignments[a].rule.PlannerRule? {
      var u := SettledRows(c, s, e, byHost, outcome, given, journal, reason, x);
      if u.assignments[a].status.Completed? {
        PassRuns(c, u, r, x.frontier);
        PassNudges(c, u, r, x.frontier);
      }
    }
  }

  lemma EndRuns(c: Config, s: State, ev: Event)
    requires WellFormed(c) && (ev.EvStopReceipt? || ev.EvLeaseSweep?) && Attempt(c, s, ev).Commit?
    ensures Known(c, s, ev.execution)
    ensures var r := s.assignments[s.executions[ev.execution].assignment].run;
            Apply(c, s, ev).runs == (if PassEnds(c, s, ev, r)
              then s.runs[r := s.runs[r].(planner := AfterPass(c, s.runs[r].planner, ev.findings.frontier, s.now))]
              else s.runs)
  {
    hide ReceiptThreads; hide JudgedOutcome; hide InterruptedTurns; hide ReleasedClaims; hide Settle; hide UncertainTurns;
    hide WellFormed; hide AfterPass;
    var e := ev.execution;
    if ev.EvStopReceipt? {
      var r := ev.receipt;
      var stopped := s.(executions := s.executions[e := s.executions[e].(confirmed := true)],
                        turns := InterruptedTurns(s.turns, e));
      var t := stopped.(threads := ReceiptThreads(stopped, e, s.executions[e].assignment, r).value);
      var judged := JudgedOutcome(c, s, e, r, ev.findings);
      SettleRuns(c, t, e, true, judged.0, judged.1, IntentsOpen(r), r.reason, ev.findings);
    } else {
      SettleRuns(c, s.(turns := UncertainTurns(s.turns, e)), e, false, OutLost, Some(Failure(LeaseExpired, "lease")),
                 false, None, ev.findings);
    }
  }

  // ---- Run edits, classified ----

  ghost predicate Switched(x: Run, y: Run, enabled: bool) {
    && SamePhase(x, y) && y.status == x.status
    && y.planner == x.planner.(enabled := enabled, pause := if enabled then NotPaused else ByOperator)
  }

  ghost predicate Woken(x: Run, y: Run, frontier: nat) {
    && SamePhase(x, y) && y.status == x.status && frontier != x.planner.frontier && !Manual(x.planner)
    && y.planner == Planner(true, NotPaused, 0, frontier, None)
  }

  ghost predicate AcceptedBy(c: Config, s: State, r: nat, agent: Option<nat>, x: Run, y: Run) {
    && r < |c.runs|
    && x.status.RunActive? && x.next.None? && y.phase == x.phase && y.planner == x.planner
    && (y.status.RunActive? || y.status.RunPaused?)
    && y.history == x.history + [x.phase]
    && (agent.Some? ==> agent.value < |s.executions|)
    && var current := if agent.Some? then Some(s.executions[agent.value].assignment) else None;
       && y.next == Some(Accepted(NextKind(c.runs[r].phases, |x.history|), current))
       && !OthersOpen(s, r, current)
  }

  ghost predicate Advanced(c: Config, s: State, r: nat, x: Run, y: Run) {
    && x.status.RunActive? && x.next.Some? && y.next.None? && y.history == x.history
    && !RunOccupied(s, r) && !RunBusy(c, s, r)
    && (if x.next.value.target.None? then y.phase == x.phase && y.status.RunDraining? && y.planner == x.planner
        else y.phase == x.next.value.target.value && y.status.RunActive? && y.planner.enabled && y.planner.pause.NotPaused?)
  }

  ghost predicate PassCounted(c: Config, x: Run, y: Run, frontier: nat, now: int) {
    SamePhase(x, y) && y.status == x.status && y.planner == AfterPass(c, x.planner, frontier, now)
  }

  // Only an operator's transition, or the end of a stopping run, changes a status on its own.
  ghost predicate StatusMoves(ev: Event, r: nat, x: Run, y: Run) {
    || y.status == x.status
    || (ev.EvTransition? && ev.run == r)
    || (ev.EvSettleRun? && ev.run == r && x.status.RunStopping? && y.status.RunCancelled?)
  }

  // Every edit of a run is one of eight.
  ghost predicate RunMoves(c: Config, s: State, ev: Event, r: nat, x: Run, y: Run) {
    || (Kept(x, y) && StatusMoves(ev, r, x, y))
    || ((ev.EvCancel? || ev.EvExpireSession?) && Disabled(x, y) && y.planner.pause.ByCancellation? && y.status == x.status)
    || (ev.EvTransition? && ev.run == r && Disabled(x, y))
    || (ev.EvSwitchPlanner? && ev.run == r && Switched(x, y, ev.enabled))
    || (ev.EvReconcileRun? && ev.run == r && x.next.None? && Woken(x, y, ev.frontier))
    || (ev.EvReconcileRun? && ev.run == r && !ev.deliveries && Advanced(c, s, r, x, y))
    || (ev.EvAcceptPhase? && ev.run == r && AcceptedBy(c, s, r, ev.agent, x, y))
    || (PassEnds(c, s, ev, r) && PassCounted(c, x, y, ev.findings.frontier, s.now))
  }

  lemma SwitchRuns(c: Config, s: State, r: nat, enabled: bool)
    requires WellFormed(c) && SwitchPlanner(c, s, r, enabled).Commit?
    ensures r < |s.runs|
    ensures var t := SwitchPlanner(c, s, r, enabled).state;
            |t.runs| == |s.runs| && t.runs == s.runs[r := t.runs[r]] && Switched(s.runs[r], t.runs[r], enabled)
  {
    hide EnsureSuccessor; hide WellFormed;
    var was := s.runs[r].planner;
    var t := s.(runs := s.runs[r := s.runs[r].(planner := was.(enabled := enabled,
                                               pause := if enabled then NotPaused else ByOperator))]);
    if enabled && !was.enabled { SuccessorShape(c, t, r); }
  }

  lemma ReconcileRuns(c: Config, s: State, r: nat, frontier: nat, deliveries: bool, closable: bool)
    requires WellFormed(c) && ReconcileRun(c, s, r, frontier, deliveries, closable).Commit?
    ensures r < |s.runs|
    ensures var t := ReconcileRun(c, s, r, frontier, deliveries, closable).state;
            && |t.runs| == |s.runs| && t.runs == s.runs[r := t.runs[r]]
            && (|| t.runs[r] == s.runs[r]
                || (s.runs[r].next.None? && Woken(s.runs[r], t.runs[r], frontier))
                || (!deliveries && Advanced(c, s, r, s.runs[r], t.runs[r])))
  {
    hide EnsureSuccessor; hide WellFormed; hide RunOccupied; hide RunBusy;
    var run := s.runs[r];
    var awake := Planner(true, NotPaused, 0, frontier, None);
    if run.next.Some? {
      if run.next.value.target.Some? && !(RunOccupied(s, r) || RunBusy(c, s, r) || deliveries) {
        SuccessorShape(c, s.(runs := s.runs[r := run.(phase := run.next.value.target.value, next := None, planner := awake)]), r);
      }
    } else if frontier != run.planner.frontier && (run.planner.pause.NotPaused? || run.planner.pause.Idle?) {
      SuccessorShape(c, s.(runs := s.runs[r := run.(planner := awake)],
        assignments := seq(|s.assignments|, (a: nat) requires a < |s.assignments| =>
          if s.assignments[a].run == r && s.assignments[a].key.NextKey? && s.assignments[a].status.Pending?
          then s.assignments[a].(pause := None, notBefore := None) else s.assignments[a])), r);
    } else {
      SuccessorShape(c, s, r);
    }
  }

  lemma AcceptRuns(c: Config, s: State, r: nat, agent: Option<nat>, requested: Option<Phase>, resolvable: bool)
    requires AcceptPhase(c, s, r, agent, requested, resolvable).Commit?
    ensures r < |s.runs|
    ensures var t := AcceptPhase(c, s, r, agent, requested, resolvable).state;
            && |t.runs| == |s.runs| && t.runs == s.runs[r := t.runs[r]]
            && AcceptedBy(c, s, r, agent, s.runs[r], t.runs[r])
  {
    hide OthersOpen;
  }

  lemma RunsUntouched(c: Config, s: State, ev: Event)
    requires WellFormed(c) && Sound(c, s) && Attempt(c, s, ev).Commit?
    requires Still(ev) || ev.EvEnqueue? || ev.EvCheckpoint? || ev.EvAdmit?
    ensures RunsKept(s, Attempt(c, s, ev).state)
    ensures forall r | 0 <= r < |s.runs| :: StatusMoves(ev, r, s.runs[r], Attempt(c, s, ev).state.runs[r])
  {
    hide Sound; hide WellFormed; hide Admit; hide RunOccupied; hide Orphaned; hide FailedContext; hide LiveSession;
    hide SessionUnsettled; hide Unconfirmed; hide HasRetained; hide Queued; hide Placement; hide Reservation;
    if ev.EvAdmit? { AdmitShape(c, s, ev.session, ev.host, ev.harness, ev.view); }
  }

  lemma RunStep(c: Config, s: State, ev: Event, r: nat)
    requires WellFormed(c) && Sound(c, s) && r < |s.runs|
    ensures |Apply(c, s, ev).runs| == |s.runs| && RunMoves(c, s, ev, r, s.runs[r], Apply(c, s, ev).runs[r])
  {
    hide Sound; hide WellFormed; hide Admit; hide StopReceipt; hide LeaseSweep; hide Cancel; hide Transition;
    hide SwitchPlanner; hide ReconcileRun; hide AcceptPhase; hide AfterPass; hide OthersOpen; hide RunOccupied; hide RunBusy;
    if Attempt(c, s, ev).Commit? {
      if Still(ev) || ev.EvEnqueue? || ev.EvCheckpoint? || ev.EvAdmit? { RunsUntouched(c, s, ev); }
      else {
        match ev
        case EvStopReceipt(_, _, _, _) => EndRuns(c, s, ev);
        case EvLeaseSweep(_, _) => EndRuns(c, s, ev);
        case EvExpireSession(a) => CancelRuns(c, s, a, true);
        case EvCancel(a) => CancelRuns(c, s, a, true);
        case EvTransition(i, op, done, unpublished) => TransitionRuns(c, s, i, op, done, unpublished);
        case EvSwitchPlanner(i, on) => SwitchRuns(c, s, i, on);
        case EvAcceptPhase(i, g, p, ok) => AcceptRuns(c, s, i, g, p, ok);
        case EvReconcileRun(i, f, d, ok) => ReconcileRuns(c, s, i, f, d, ok);
      }
    }
  }
}
