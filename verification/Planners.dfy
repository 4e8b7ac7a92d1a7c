/**
  The planner recurrence: one active and one queued planner per objective, and
  a queued planner that heeds its rule.
 */
module Planners {
  import opened Wrappers
  import opened Records
  import opened Admission
  import opened Protocol
  import opened Structure
  import opened Fencing
  import opened Safety
  import opened Sessions
  import opened Ledger

  // ---- Recurrence keys ----

  // Planners always carry a key, and a planner that runs carries the active one.
  ghost predicate KeyRow(x: Assignment) {
    && (x.key.NextKey? || x.key.ActiveKey? <==> x.rule.PlannerRule?)
    && (x.rule.PlannerRule? && (x.status.Running? || x.status.Stopping?) ==> x.key.ActiveKey?)
  }

  ghost predicate Clash(x: Assignment, y: Assignment) {
    x.run == y.run && x.key == y.key && (x.key.ActiveKey? || x.key.NextKey?) && Open(x.status) && Open(y.status)
  }

  ghost predicate KeysOk(c: Config, s: State) {
    && (forall a | 0 <= a < |s.assignments| && ModeOf(c, s, a).Objective? :: KeyRow(s.assignments[a]))
    && (forall a, b | 0 <= a < b < |s.assignments| && ModeOf(c, s, a).Objective? ::
          !Clash(s.assignments[a], s.assignments[b]))
  }

  // How one row's key moves: a settled session never reopens and a key only
  // changes from queued to active, on admission.
  ghost predicate KeyMoves(x: Assignment, y: Assignment, admitted: bool) {
    && SameOrder(x, y) && (Open(y.status) ==> Open(x.status))
    && (y.key == x.key || (admitted && y.key.ActiveKey?))
    && (admitted && x.rule.PlannerRule? ==> y.key.ActiveKey?)
    && (KeyRow(x) ==> KeyRow(y))
  }

  ghost predicate Admitting(c: Config, s: State, ev: Event, a: nat) {
    ev.EvAdmit? && ev.session == a && Attempt(c, s, ev).Commit?
  }

  lemma RowKeys(c: Config, s: State, ev: Event, a: nat)
    requires WellFormed(c) && Sound(c, s) && a < |s.assignments| && ModeOf(c, s, a).Objective?
    ensures a < |Apply(c, s, ev).assignments|
    ensures KeyMoves(s.assignments[a], Apply(c, s, ev).assignments[a], Admitting(c, s, ev, a))
  {
    hide Sound; hide WellFormed; hide Attempt; hide Apply; hide Operated; hide Failing; hide Silent; hide RetryOf;
    SessionStep(c, s, ev, a);
    if Ends(c, s, ev, a) { LiveStarted(c, s, ev.execution); }
  }

  // The unique active key is the final guard of an admission.
  lemma AdmitActive(c: Config, s: State, ev: Event, b: nat)
    requires Sound(c, s) && ev.EvAdmit? && Attempt(c, s, ev).Commit? && ModeOf(c, s, ev.session).Objective?
    requires ev.session < |s.assignments| && s.assignments[ev.session].rule.PlannerRule?
    requires b < |s.assignments| && b != ev.session && s.assignments[b].run == s.assignments[ev.session].run
    ensures !(s.assignments[b].key.ActiveKey? && Open(s.assignments[b].status))
  {
    hide Admissible; hide Placement; hide Reservation; hide SessionsOk; hide ContextsOk; hide ClaimsOk; hide EnsureSuccessor;
    hide RetainedOn; hide HasRetained; hide Proposed; hide AdmittedRows;
    CandidateRun(c, s, ev);
  }

  lemma CandidateRun(c: Config, s: State, ev: Event)
    requires Sound(c, s) && ev.EvAdmit? && Attempt(c, s, ev).Commit?
    ensures ev.session < |s.assignments| && s.assignments[ev.session].run < |s.runs| == |c.runs|
    ensures s.assignments[ev.session].status.Pending?
    ensures c.runs[s.assignments[ev.session].run].mode.Legacy? || s.runs[s.assignments[ev.session].run].next.None?
            || s.runs[s.assignments[ev.session].run].next.value.owner == Some(ev.session)
  {
    hide Placement; hide Reservation; hide SessionsOk; hide ContextsOk; hide ClaimsOk; hide AdmitPlanner;
    hide RetainedOn; hide HasRetained; hide Proposed; hide AdmittedRows; hide LimitsFree; hide Cool; hide PoolWeight; hide Blocked;
    hide KeyLive; hide SessionUnsettled;
  }

  lemma RowsKeep(c: Config, s: State, ev: Event)
    requires WellFormed(c) && Sound(c, s)
    ensures |s.assignments| <= |Apply(c, s, ev).assignments|
    ensures forall a | 0 <= a < |s.assignments| :: SameOrder(s.assignments[a], Apply(c, s, ev).assignments[a])
    ensures forall a | 0 <= a < |s.assignments| && ModeOf(c, s, a).Objective? ::
              KeyMoves(s.assignments[a], Apply(c, s, ev).assignments[a], Admitting(c, s, ev, a))
  {
    hide Sound; hide WellFormed; hide Attempt; hide Apply; hide KeyMoves; hide SameOrder; hide Admitting;
    StepBlank(c, s, ev);
    forall a | 0 <= a < |s.assignments|
      ensures SameOrder(s.assignments[a], Apply(c, s, ev).assignments[a])
      ensures ModeOf(c, s, a).Objective? ==>
                KeyMoves(s.assignments[a], Apply(c, s, ev).assignments[a], Admitting(c, s, ev, a))
    {
      StepOrder(c, s, ev, a);
      if ModeOf(c, s, a).Objective? { RowKeys(c, s, ev, a); }
    }
  }

  lemma NoClash(c: Config, s: State, ev: Event, a: nat, b: nat)
    requires WellFormed(c) && Sound(c, s) && KeysOk(c, s) && a < b < |Apply(c, s, ev).assignments|
    requires ModeOf(c, Apply(c, s, ev), a).Objective?
    ensures !Clash(Apply(c, s, ev).assignments[a], Apply(c, s, ev).assignments[b])
  {
    hide Sound; hide WellFormed; hide Attempt; hide Apply; hide Admitting; hide KeyRow;
    var t := Apply(c, s, ev);
    StepBlank(c, s, ev);
    RowsKeep(c, s, ev);
    if b < |s.assignments| { NoOldClash(c, s, ev, a, b); }
  }

  lemma NoOldClash(c: Config, s: State, ev: Event, a: nat, b: nat)
    requires WellFormed(c) && Sound(c, s) && KeysOk(c, s) && a < b < |s.assignments| <= |Apply(c, s, ev).assignments|
    requires ModeOf(c, s, a).Objective?
    requires SameOrder(s.assignments[a], Apply(c, s, ev).assignments[a]) && SameOrder(s.assignments[b], Apply(c, s, ev).assignments[b])
    ensures !Clash(Apply(c, s, ev).assignments[a], Apply(c, s, ev).assignments[b])
  {
    hide Sound; hide WellFormed; hide Attempt; hide Apply; hide KeyRow;
    var t := Apply(c, s, ev);
    if Clash(t.assignments[a], t.assignments[b]) {
      RowKeys(c, s, ev, a);
      RowKeys(c, s, ev, b);
      assert !Clash(s.assignments[a], s.assignments[b]);
      if Admitting(c, s, ev, a) { Exclusive(c, s, ev, a, b, t.assignments[a], t.assignments[b]); }
      else if Admitting(c, s, ev, b) { Exclusive(c, s, ev, b, a, t.assignments[b], t.assignments[a]); }
    }
  }

  lemma Exclusive(c: Config, s: State, ev: Event, a: nat, b: nat, x: Assignment, y: Assignment)
    requires WellFormed(c) && Sound(c, s) && KeysOk(c, s) && Admitting(c, s, ev, a) && ModeOf(c, s, a).Objective?
    requires a < |s.assignments| && b < |s.assignments| && a != b && s.assignments[a].run == s.assignments[b].run
    requires KeyMoves(s.assignments[a], x, true) && KeyMoves(s.assignments[b], y, false)
    ensures !Clash(x, y) && !Clash(y, x)
  {
    hide Sound; hide WellFormed; hide Attempt;
    assert KeyRow(s.assignments[a]);
    if s.assignments[a].rule.PlannerRule? { AdmitActive(c, s, ev, b); }
  }

  lemma KeysStep(c: Config, s: State, ev: Event)
    requires WellFormed(c) && Sound(c, s) && KeysOk(c, s)
    ensures KeysOk(c, Apply(c, s, ev))
  {
    hide Sound; hide WellFormed; hide Attempt; hide Apply; hide Admitting; hide Clash;
    var t := Apply(c, s, ev);
    StepBlank(c, s, ev);
    RowsKeep(c, s, ev);
    forall a, b | 0 <= a < b < |t.assignments| && ModeOf(c, t, a).Objective?
      ensures !Clash(t.assignments[a], t.assignments[b])
    {
      NoClash(c, s, ev, a, b);
    }
  }

  lemma {:induction false} AlwaysKeyed(c: Config, start: State, events: seq<Event>)
    requires WellFormed(c) && Initial(c, start)
    ensures KeysOk(c, After(c, start, events))
  {
    hide Sound; hide Fits; hide Apply; hide WellFormed; hide KeyRow; hide Clash;
    if events != [] {
      AlwaysKeyed(c, start, events[..|events| - 1]);
      AlwaysSafe(c, start, events[..|events| - 1]);
      KeysStep(c, After(c, start, events[..|events| - 1]), events[|events| - 1]);
    }
  }

  /** An objective has at most one live planner per key, and at most one that runs. */
  lemma OnePlannerPerKey(c: Config, start: State, events: seq<Event>, a: nat, b: nat)
    requires WellFormed(c) && Initial(c, start)
    requires var s := After(c, start, events);
             && a < b < |s.assignments| && s.assignments[a].run == s.assignments[b].run && ModeOf(c, s, a).Objective?
             && s.assignments[a].rule.PlannerRule? && s.assignments[b].rule.PlannerRule?
             && Open(s.assignments[a].status) && Open(s.assignments[b].status)
    ensures var x, y := After(c, start, events).assignments[a], After(c, start, events).assignments[b];
            && x.key != y.key && (x.key.ActiveKey? || x.key.NextKey?) && (y.key.ActiveKey? || y.key.NextKey?)
            && (x.status.Pending? || y.status.Pending?)
  {
    hide After; hide Initial; hide WellFormed;
    AlwaysKeyed(c, start, events);
    var s := After(c, start, events);
    assert KeyRow(s.assignments[a]) && KeyRow(s.assignments[b]) && !Clash(s.assignments[a], s.assignments[b]);
  }

  // ---- Pauses of the queued planner ----

  // No row loses its pause.
  ghost predicate PausesKept(s: State, t: State) {
    && |s.assignments| <= |t.assignments|
    && forall a | 0 <= a < |s.assignments| :: PauseHolds(s.assignments[a]) ==> PauseHolds(t.assignments[a])
  }

  // A queued planner waits unless its rule is enabled or it was already free to go.
  ghost predicate Heeded(s: State, t: State, a: nat) {
    a < |t.assignments| ==>
      var y := t.assignments[a];
      y.key.NextKey? && Open(y.status) && y.run < |t.runs| && !t.runs[y.run].planner.enabled ==>
        PauseHolds(y) || (a < |s.assignments| && !PauseHolds(s.assignments[a]))
  }

  ghost predicate Heeds(s: State, t: State) {
    |s.assignments| <= |t.assignments| && forall a | 0 <= a < |t.assignments| :: Heeded(s, t, a)
  }

  lemma SuccessorHeeds(c: Config, s: State, r: nat)
    requires WellFormed(c) && r < |s.runs| && r < |c.runs| && c.runs[r].mode.Objective? && EnsureSuccessor(c, s, r).Commit?
    ensures Heeds(s, EnsureSuccessor(c, s, r).state) && PausesKept(s, EnsureSuccessor(c, s, r).state)
  {
    hide WellFormed; hide EnsureSuccessor;
    SuccessorShape(c, s, r);
  }

  lemma PassHeeds(c: Config, s: State, r: nat, observed: nat)
    requires WellFormed(c) && r < |s.runs| && r < |c.runs| && c.runs[r].mode.Objective? && PassCompleted(c, s, r, observed).Commit?
    ensures Heeds(s, PassCompleted(c, s, r, observed).state)
  {
    hide WellFormed; hide EnsureSuccessor; hide AfterPass; hide FindKey;
    var noted := s.(runs := s.runs[r := s.runs[r].(planner := AfterPass(c, s.runs[r].planner, observed, s.now))]);
    SuccessorShape(c, noted, r);
  }

  lemma CancelPauses(c: Config, s: State, a: nat, disable: bool)
    requires a < |s.assignments|
    ensures |Cancel(c, s, a, disable).assignments| == |s.assignments|
    ensures PausesKept(s, Cancel(c, s, a, disable))
  {
  }

  lemma {:induction false} CancelRestPauses(c: Config, s: State, r: nat, draining: bool, n: nat)
    requires n <= |s.assignments|
    ensures |CancelRest(c, s, r, draining, n).assignments| == |s.assignments|
    ensures PausesKept(s, CancelRest(c, s, r, draining, n))
    decreases |s.assignments| - n
  {
    hide Cancel; hide PauseHolds;
    if n < |s.assignments| {
      var item := s.assignments[n];
      var chosen := item.run == r && (if draining then item.status.Pending? && !item.rule.NoRule?
                                      else item.status.Pending? || item.status.Running?);
      CancelPauses(c, s, n, !draining);
      CancelRestPauses(c, if chosen then Cancel(c, s, n, !draining) else s, r, draining, n + 1);
    }
  }

  lemma HeedsSame(s: State, u: State, t: State)
    requires u.assignments == s.assignments && Heeds(u, t)
    ensures Heeds(s, t)
  {
    forall a | 0 <= a < |t.assignments| ensures Heeded(s, t, a) { assert Heeded(u, t, a); }
  }

  lemma TransitionHeeds(c: Config, s: State, r: nat, op: RunOp, done: bool, unpublished: bool)
    requires WellFormed(c) && Transition(c, s, r, op, done, unpublished).Commit?
    ensures Heeds(s, Transition(c, s, r, op, done, unpublished).state)
  {
    hide CancelRest; hide RunOccupied; hide RunUnconfirmed; hide EnsureSuccessor; hide WellFormed; hide PauseHolds;
    var run := s.runs[r];
    if op.DrainRun? {
      CancelRestPauses(c, s.(runs := s.runs[r := run.(status := RunDraining)]), r, true, 0);
    } else if op.CancelRun? {
      CancelRestPauses(c, s.(runs := s.runs[r := run.(status := RunStopping, planner := run.planner.(enabled := false))]),
                       r, false, 0);
    } else if op.ReopenRun? && c.runs[r].mode.Objective? && run.planner.enabled {
      var u := s.(runs := s.runs[r := run.(status := RunActive)]);
      SuccessorHeeds(c, u, r);
      HeedsSame(s, u, EnsureSuccessor(c, u, r).state);
    }
  }

  lemma SwitchHeeds(c: Config, s: State, r: nat, enabled: bool)
    requires WellFormed(c) && SwitchPlanner(c, s, r, enabled).Commit?
    ensures Heeds(s, SwitchPlanner(c, s, r, enabled).state)
  {
    hide EnsureSuccessor; hide WellFormed; hide FindKey;
    var was := s.runs[r].planner;
    var t := s.(runs := s.runs[r := s.runs[r].(planner := was.(enabled := enabled,
                                               pause := if enabled then NotPaused else ByOperator))]);
    if enabled && !was.enabled { SuccessorShape(c, t, r); }
  }

  lemma ReconcileHeeds(c: Config, s: State, r: nat, frontier: nat, deliveries: bool, closable: bool)
    requires WellFormed(c) && ReconcileRun(c, s, r, frontier, deliveries, closable).Commit?
    ensures Heeds(s, ReconcileRun(c, s, r, frontier, deliveries, closable).state)
  {
    hide EnsureSuccessor; hide WellFormed; hide RunOccupied; hide RunBusy;
    var run := s.runs[r];
    var awake := Planner(true, NotPaused, 0, frontier, None);
    if run.next.Some? {
      if run.next.value.target.Some? && !(RunOccupied(s, r) || RunBusy(c, s, r) || deliveries) {
        var u := s.(runs := s.runs[r := run.(phase := run.next.value.target.value, next := None, planner := awake)]);
        SuccessorHeeds(c, u, r);
        HeedsSame(s, u, EnsureSuccessor(c, u, r).state);
      }
    } else if frontier != run.planner.frontier && (run.planner.pause.NotPaused? || run.planner.pause.Idle?) {
      SuccessorShape(c, s.(runs := s.runs[r := run.(planner := awake)],
        assignments := seq(|s.assignments|, (a: nat) requires a < |s.assignments| =>
          if s.assignments[a].run == r && s.assignments[a].key.NextKey? && s.assignments[a].status.Pending?
          then s.assignments[a].(pause := None, notBefore := None) else s.assignments[a])), r);
    } else {
      SuccessorHeeds(c, s, r);
    }
  }

  lemma CheckpointPauses(s: State, a: nat, notBefore: Option<int>)
    requires Checkpoint(s, a, notBefore).Commit?
    ensures |Checkpoint(s, a, notBefore).state.assignments| == |s.assignments|
    ensures PausesKept(s, Checkpoint(s, a, notBefore).state)
  {
  }

  lemma OtherHeeds(c: Config, s: State, ev: Event)
    requires WellFormed(c) && Attempt(c, s, ev).Commit?
    requires ev.EvEnqueue? || ev.EvCheckpoint? || ev.EvExpireSession? || ev.EvCancel? || ev.EvTransition? || ev.EvSwitchPlanner?
             || ev.EvAcceptPhase? || ev.EvReconcileRun?
    ensures Heeds(s, Attempt(c, s, ev).state)
  {
    hide WellFormed; hide Cancel; hide Transition; hide SwitchPlanner; hide ReconcileRun; hide OthersOpen; hide Acting;
    hide Queued; hide PauseHolds; hide Checkpoint;
    match ev {
      case EvEnqueue(q) =>
      case EvCheckpoint(a, when) => CheckpointPauses(s, a, when);
      case EvExpireSession(a) => CancelPauses(c, s, a, true);
      case EvCancel(a) => CancelPauses(c, s, a, true);
      case EvTransition(r, op, done, unpublished) => TransitionHeeds(c, s, r, op, done, unpublished);
      case EvSwitchPlanner(r, on) => SwitchHeeds(c, s, r, on);
      case EvAcceptPhase(r, g, p, ok) =>
      case EvReconcileRun(r, f, d, ok) => ReconcileHeeds(c, s, r, f, d, ok);
    }
  }

  ghost predicate HeedsBut(s: State, t: State, e: nat) {
    && |s.assignments| <= |t.assignments| && e < |s.executions|
    && forall a | 0 <= a < |t.assignments| && (a != s.executions[e].assignment || !Live(s.executions[e].status)) ::
         Heeded(s, t, a)
  }

  lemma SettleHeeds(c: Config, s: State, e: nat, byHost: bool, outcome: Outcome, given: Option<Failure>,
                    journal: bool, reason: Option<string>, x: Findings)
    requires WellFormed(c) && Known(c, s, e) && Settle(c, s, e, byHost, outcome, given, journal, reason, x).Commit?
    ensures HeedsBut(s, Settle(c, s, e, byHost, outcome, given, journal, reason, x).state, e)
  {
    hide ObjectiveFinish; hide LegacyFinish; hide AdjustedLimits; hide ContextLost; hide ReleasedClaims; hide RetryOf;
    hide PassCompleted; hide Reclassified; hide WellFormed; hide PauseHolds;
    var a := s.executions[e].assignment;
    var r := s.assignments[a].run;
    var t := Settle(c, s, e, byHost, outcome, given, journal, reason, x).state;
    if Live(s.executions[e].status) {
      var u := SettledRows(c, s, e, byHost, outcome, given, journal, reason, x);
      if c.runs[r].mode.Objective? && u.assignments[a].status.Completed? && s.assignments[a].rule.PlannerRule? {
        PassHeeds(c, u, r, x.frontier);
        forall b | 0 <= b < |t.assignments| && b != a ensures Heeded(s, t, b) { assert Heeded(u, t, b); }
      }
    }
  }

  lemma EndHeeds(c: Config, s: State, ev: Event)
    requires WellFormed(c) && (ev.EvStopReceipt? || ev.EvLeaseSweep?) && Attempt(c, s, ev).Commit?
    ensures HeedsBut(s, Apply(c, s, ev), ev.execution)
  {
    hide ReceiptThreads; hide JudgedOutcome; hide InterruptedTurns; hide ReleasedClaims; hide Settle; hide UncertainTurns;
    hide WellFormed; hide PauseHolds;
    var e := ev.execution;
    if ev.EvStopReceipt? {
      var r := ev.receipt;
      var stopped := s.(executions := s.executions[e := s.executions[e].(confirmed := true)],
                        turns := InterruptedTurns(s.turns, e));
      var t := stopped.(threads := ReceiptThreads(stopped, e, s.executions[e].assignment, r).value);
      var judged := JudgedOutcome(c, s, e, r, ev.findings);
      SettleHeeds(c, t, e, true, judged.0, judged.1, IntentsOpen(r), r.reason, ev.findings);
      var z := Apply(c, s, ev);
      var y := Settle(c, t, e, true, judged.0, judged.1, IntentsOpen(r), r.reason, ev.findings).state;
      forall b | 0 <= b < |z.assignments| && (b != s.executions[e].assignment || !Live(s.executions[e].status))
        ensures Heeded(s, z, b)
      {
        assert Heeded(t, y, b);
      }
    } else {
      var t := s.(turns := UncertainTurns(s.turns, e));
      SettleHeeds(c, t, e, false, OutLost, Some(Failure(LeaseExpired, "lease")), false, None, ev.findings);
      var z := Apply(c, s, ev);
      forall b | 0 <= b < |z.assignments| && (b != s.executions[e].assignment || !Live(s.executions[e].status))
        ensures Heeded(s, z, b)
      {
        assert Heeded(t, z, b);
      }
    }
  }

  lemma PlannerHeeds(c: Config, s: State, a: nat)
    requires WellFormed(c) && RefsOk(c, s) && a < |s.assignments| && AdmitPlanner(c, s, a).Commit?
    ensures var p := AdmitPlanner(c, s, a).state;
            && |s.assignments| <= |p.assignments| && p.runs == s.runs
            && forall b | 0 <= b < |p.assignments| && b != a :: Heeded(s, p, b)
  {
    hide WellFormed; hide EnsureSuccessor;
    var r := s.assignments[a].run;
    if c.runs[r].mode.Objective? && s.assignments[a].rule.PlannerRule? {
      SuccessorShape(c, s.(assignments := s.assignments[a := s.assignments[a].(key := ActiveKey)]), r);
    }
  }

  lemma AdmitHeeds(c: Config, s: State, a: nat, host: nat, harness: nat, view: View)
    requires WellFormed(c) && Sound(c, s) && Admit(c, s, a, host, harness, view).Commit?
    ensures var z := Admit(c, s, a, host, harness, view).state;
            && |s.assignments| <= |z.assignments|
            && forall b | 0 <= b < |z.assignments| && b != a :: Heeded(s, z, b)
  {
    hide Admissible; hide Placement; hide Reservation; hide AdmitPlanner; hide SessionsOk; hide ContextsOk; hide ClaimsOk;
    hide RetainedOn; hide NextNumber; hide HasRetained; hide WellFormed; hide Proposed; hide PauseHolds;
    AdmitPlacement(c, s, a, host, harness, view);
    PlannerHeeds(c, s, a);
    var p := AdmitPlanner(c, s, a).state;
    var z := Admit(c, s, a, host, harness, view).state;
    forall b | 0 <= b < |z.assignments| && b != a ensures Heeded(s, z, b) { assert Heeded(s, p, b); }
  }

  // Every step but an operator's recovery of that session heeds the rule.
  lemma StepHeeds(c: Config, s: State, ev: Event, a: nat)
    requires WellFormed(c) && Sound(c, s) && KeysOk(c, s) && a < |Apply(c, s, ev).assignments|
    requires ModeOf(c, Apply(c, s, ev), a).Objective? && !Operated(c, s, ev, a)
    ensures Heeded(s, Apply(c, s, ev), a)
  {
    hide Sound; hide WellFormed; hide Admit; hide StopReceipt; hide LeaseSweep; hide JudgedOutcome; hide PauseHolds;
    hide Operated;
    if Attempt(c, s, ev).Commit? {
      if ev.EvAdmit? {
        AdmitHeeds(c, s, ev.session, ev.host, ev.harness, ev.view);
        if a == ev.session { KeysStep(c, s, ev); AdmitMoves(c, s, ev, a); }
      } else if ev.EvStopReceipt? || ev.EvLeaseSweep? {
        EndHeeds(c, s, ev);
        if a == s.executions[ev.execution].assignment && Live(s.executions[ev.execution].status) { EndedHeeds(c, s, ev, a); }
      } else if Still(ev) {
        if a < |s.assignments| { StepOrder(c, s, ev, a); }
        StillRows(c, s, ev);
      } else {
        hide Attempt;
        OtherHeeds(c, s, ev);
      }
    }
  }

  // An admitted planner is no longer queued.
  lemma AdmitMoves(c: Config, s: State, ev: Event, a: nat)
    requires WellFormed(c) && Sound(c, s) && KeysOk(c, s) && Admitting(c, s, ev, a) && KeysOk(c, Apply(c, s, ev))
    requires a < |Apply(c, s, ev).assignments| && ModeOf(c, Apply(c, s, ev), a).Objective?
    ensures !Apply(c, s, ev).assignments[a].key.NextKey?
  {
    hide Sound; hide WellFormed; hide Attempt; hide Apply;
    CandidateRun(c, s, ev);
    StepOrder(c, s, ev, a);
    RowKeys(c, s, ev, a);
    assert KeyRow(Apply(c, s, ev).assignments[a]);
  }

  lemma EndedHeeds(c: Config, s: State, ev: Event, a: nat)
    requires WellFormed(c) && Sound(c, s) && KeysOk(c, s) && a < |Apply(c, s, ev).assignments|
    requires Ends(c, s, ev, a) && ModeOf(c, Apply(c, s, ev), a).Objective?
    ensures Heeded(s, Apply(c, s, ev), a)
  {
    hide Sound; hide WellFormed; hide Attempt; hide Apply; hide RetryOf; hide Failing; hide Silent;
    StepOrder(c, s, ev, a);
    SessionStep(c, s, ev, a);
    assert KeyRow(s.assignments[a]);
    LiveStarted(c, s, ev.execution);
  }
}
