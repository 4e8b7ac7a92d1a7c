/** How long an objective keeps planning while nothing changes. */
module Idling {
  import opened Wrappers
  import opened Records
  import opened Sums
  import opened Admission
  import opened Protocol
  import opened Structure
  import opened Fencing
  import opened Safety
  import opened Sessions
  import opened Ledger
  import opened Objectives
  import opened Planners

  // ---- The rule's own record ----

  // A planner is disabled for a recorded reason.
  ghost predicate Reasoned(c: Config, run: Run) {
    !run.planner.enabled ==>
      Manual(run.planner) || (run.planner.pause.Idle? && run.planner.passes >= c.plannerPasses) || Halted(run.status)
  }

  ghost predicate RulesOk(c: Config, s: State) {
    |s.runs| == |c.runs| && forall r | 0 <= r < |s.runs| && c.runs[r].mode.Objective? :: Reasoned(c, s.runs[r])
  }

  lemma RuleStep(c: Config, s: State, ev: Event, r: nat)
    requires WellFormed(c) && Sound(c, s) && r < |s.runs| && Reasoned(c, s.runs[r])
    ensures |Apply(c, s, ev).runs| == |s.runs| && Reasoned(c, Apply(c, s, ev).runs[r])
  {
    hide Sound; hide Apply; hide PassEnds; hide OthersOpen; hide RunOccupied; hide RunBusy;
    RunStep(c, s, ev, r);
  }

  lemma {:induction false} AlwaysReasoned(c: Config, start: State, events: seq<Event>)
    requires WellFormed(c) && Initial(c, start)
    ensures RulesOk(c, After(c, start, events))
  {
    hide Sound; hide Fits; hide Apply; hide Reasoned;
    if events == [] {
      LaunchReasoned(c, start);
    } else {
      var s := After(c, start, events[..|events| - 1]);
      AlwaysReasoned(c, start, events[..|events| - 1]);
      AlwaysSafe(c, start, events[..|events| - 1]);
      forall r: nat | r < |s.runs| && c.runs[r].mode.Objective?
        ensures |After(c, start, events).runs| == |s.runs| && Reasoned(c, After(c, start, events).runs[r])
      {
        RuleStep(c, s, events[|events| - 1], r);
      }
      AlwaysSafe(c, start, events);
      SoundRefs(c, After(c, start, events));
    }
  }

  lemma LaunchReasoned(c: Config, start: State)
    requires Initial(c, start)
    ensures RulesOk(c, start)
  {
  }

  // The operator's switch is refused only where a settling phase refuses the successor it needs.
  ghost predicate SwitchAccepted(c: Config, s: State, r: nat) {
    && r < |s.runs| && r < |c.runs| && c.runs[r].mode.Objective? && |c.runs[r].policies| > 0
    && (s.runs[r].status.RunActive? && s.runs[r].next.Some? && !KeyLive(s, r, NextKey) ==>
          Queued(s, r, WORK) >= c.runs[r].policies[WORK].maxPending)
  }

  // An accepted phase is entered: the run is active and everything has settled.
  ghost predicate EntersPhase(c: Config, s: State, r: nat, deliveries: bool) {
    && r < |s.runs| && r < |c.runs| && c.runs[r].mode.Objective? && s.runs[r].status.RunActive?
    && s.runs[r].next.Some? && s.runs[r].next.value.target.Some?
    && !RunOccupied(s, r) && !RunBusy(c, s, r) && !deliveries
  }

  ghost predicate Lifts(c: Config, s: State, ev: Event, r: nat) {
    || (ev == EvSwitchPlanner(r, true) && SwitchAccepted(c, s, r))
    || (ev.EvReconcileRun? && ev.run == r && EntersPhase(c, s, r, ev.deliveries))
  }

  lemma SwitchLifts(c: Config, s: State, r: nat)
    requires WellFormed(c) && r < |s.runs| && r < |c.runs| && !s.runs[r].planner.enabled
    ensures SwitchAccepted(c, s, r) <==> SwitchPlanner(c, s, r, true).Commit?
  {
    hide Queued;
    var t := s.(runs := s.runs[r := s.runs[r].(planner := s.runs[r].planner.(enabled := true, pause := NotPaused))]);
    SameQueued(s, t, r);
    assert KeyLive(t, r, NextKey) == KeyLive(s, r, NextKey);
  }

  lemma SameQueued(s: State, t: State, r: nat)
    requires t.assignments == s.assignments
    ensures Queued(t, r, WORK) == Queued(s, r, WORK)
  {
    var f, g := (a: nat) => QueuedShare(s, r, WORK, a), (a: nat) => QueuedShare(t, r, WORK, a);
    TotalMono(f, g, |s.assignments|);
    TotalMono(g, f, |s.assignments|);
  }

  lemma PhaseLifts(c: Config, s: State, r: nat, frontier: nat, deliveries: bool, closable: bool)
    requires WellFormed(c) && EntersPhase(c, s, r, deliveries)
    ensures ReconcileRun(c, s, r, frontier, deliveries, closable).Commit?
    ensures var t := ReconcileRun(c, s, r, frontier, deliveries, closable).state;
            && |t.runs| == |s.runs| && t.runs[r].planner == Planner(true, NotPaused, 0, frontier, None)
            && t.runs[r].phase == s.runs[r].next.value.target.value
  {
    hide RunOccupied; hide RunBusy; hide Queued; hide FindKey;
  }

  lemma LiftedPlanner(c: Config, s: State, ev: Event, r: nat)
    requires WellFormed(c) && Sound(c, s) && r < |s.runs| && !s.runs[r].planner.enabled && Lifts(c, s, ev, r)
    ensures |Apply(c, s, ev).runs| == |s.runs|
    ensures Apply(c, s, ev).runs[r].planner.enabled && Apply(c, s, ev).runs[r].planner.pause.NotPaused?
  {
    hide Sound; hide WellFormed; hide SwitchPlanner; hide ReconcileRun; hide RunOccupied; hide RunBusy; hide Queued; hide KeyLive;
    if ev.EvSwitchPlanner? {
      SwitchLifts(c, s, r);
      SwitchRuns(c, s, r, true);
    } else {
      PhaseLifts(c, s, r, ev.frontier, ev.deliveries, ev.closable);
    }
  }

  lemma RefusedSwitch(c: Config, s: State, r: nat)
    requires WellFormed(c) && Sound(c, s) && r < |s.runs| && !s.runs[r].planner.enabled && !SwitchAccepted(c, s, r)
    ensures Apply(c, s, EvSwitchPlanner(r, true)) == s
  {
    hide WellFormed; hide SwitchPlanner; hide SwitchAccepted; hide SessionsOk; hide ContextsOk; hide ClaimsOk;
    SwitchLifts(c, s, r);
  }

  /**
    Exactly which steps lift a manual pause: the operator's accepted switch,
    and the entry into an accepted phase once everything has settled. No
    planning pass and no other reconciliation does.
   */
  lemma ManualPauseHolds(c: Config, s: State, ev: Event, r: nat)
    requires WellFormed(c) && Sound(c, s) && r < |s.runs| && Manual(s.runs[r].planner) && !s.runs[r].planner.enabled
    ensures |Apply(c, s, ev).runs| == |s.runs|
    ensures Lifts(c, s, ev, r) <==> Apply(c, s, ev).runs[r].planner.enabled || !Manual(Apply(c, s, ev).runs[r].planner)
  {
    hide Sound; hide WellFormed; hide Apply; hide PassEnds; hide OthersOpen; hide RunOccupied; hide RunBusy; hide SwitchAccepted;
    RunStep(c, s, ev, r);
    SoundRefs(c, s);
    if Lifts(c, s, ev, r) {
      LiftedPlanner(c, s, ev, r);
    } else if ev == EvSwitchPlanner(r, true) {
      RefusedSwitch(c, s, r);
    } else if ev.EvReconcileRun? && ev.run == r {
      StayingPhase(c, s, ev, r);
    }
  }

  lemma StayingPhase(c: Config, s: State, ev: Event, r: nat)
    requires WellFormed(c) && Sound(c, s) && r < |s.runs| && Manual(s.runs[r].planner) && ev.EvReconcileRun? && ev.run == r
    requires !EntersPhase(c, s, r, ev.deliveries)
    ensures |Apply(c, s, ev).runs| == |s.runs| && Apply(c, s, ev).runs[r].planner == s.runs[r].planner
  {
    hide Sound; hide WellFormed; hide ReconcileRun; hide RunOccupied; hide RunBusy;
    SoundRefs(c, s);
    if Attempt(c, s, ev).Commit? {
      ReconcileRuns(c, s, r, ev.frontier, ev.deliveries, ev.closable);
      ReconcileObjective(c, s, r, ev.frontier, ev.deliveries, ev.closable);
    }
  }

  lemma ReconcileObjective(c: Config, s: State, r: nat, frontier: nat, deliveries: bool, closable: bool)
    requires ReconcileRun(c, s, r, frontier, deliveries, closable).Commit?
    ensures r < |c.runs| && c.runs[r].mode.Objective?
  {
    hide AdvancePhase; hide EnsureSuccessor;
  }

  // ---- Planning passes still to come ----

  ghost predicate Ready(s: State, r: nat) {
    exists a | 0 <= a < |s.assignments| ::
      && s.assignments[a].run == r && s.assignments[a].key.NextKey? && Open(s.assignments[a].status)
      && !PauseHolds(s.assignments[a])
  }

  ghost function Left(c: Config, s: State, r: nat): nat
    requires r < |s.runs|
  {
    var rule := s.runs[r].planner;
    if rule.enabled then Max(1, c.plannerPasses - rule.passes)
    else (if KeyLive(s, r, ActiveKey) then 1 else 0) + (if Ready(s, r) then 1 else 0)
  }

  // No operator touches the planner, no phase is entered and the frontier that
  // a pass or a reconciliation observes is the recorded one.
  ghost predicate Quiet(c: Config, s: State, ev: Event, r: nat)
    requires r < |s.runs|
  {
    && !(ev.EvSwitchPlanner? && ev.run == r) && !(ev.EvTransition? && ev.run == r)
    && (forall a | 0 <= a < |s.assignments| && s.assignments[a].run == r && s.assignments[a].rule.PlannerRule? ::
          !Operated(c, s, ev, a))
    && (ev.EvReconcileRun? && ev.run == r ==>
          && ev.frontier == s.runs[r].planner.frontier
          && !(s.runs[r].next.Some? && r < |Apply(c, s, ev).runs| && Apply(c, s, ev).runs[r].next.None?))
    && (PassEnds(c, s, ev, r) ==> ev.findings.frontier == s.runs[r].planner.frontier)
  }

  // The run is going on, or it queues no planner.
  ghost predicate Going(s: State, r: nat) {
    && r < |s.runs| && !Halted(s.runs[r].status)
    && (s.runs[r].status.RunActive? || !KeyLive(s, r, NextKey))
  }

  // ---- Where a queued or active planner comes from ----

  lemma QueuedBefore(c: Config, s: State, ev: Event, r: nat, b: nat)
    requires WellFormed(c) && Sound(c, s) && KeysOk(c, s) && r < |s.runs| && c.runs[r].mode.Objective?
    requires b < |Apply(c, s, ev).assignments|
    requires var y := Apply(c, s, ev).assignments[b]; y.run == r && y.key.NextKey? && Open(y.status)
    requires b < |s.assignments|
    ensures var x := s.assignments[b]; x.run == r && x.key.NextKey? && Open(x.status) && !Admitting(c, s, ev, b)
  {
    hide Sound; hide WellFormed; hide Apply; hide Attempt;
    StepOrder(c, s, ev, b);
    RowKeys(c, s, ev, b);
    KeysStep(c, s, ev);
    assert KeyRow(s.assignments[b]) && KeyRow(Apply(c, s, ev).assignments[b]);
  }

  lemma StillUnqueued(c: Config, s: State, ev: Event, r: nat)
    requires WellFormed(c) && Sound(c, s) && KeysOk(c, s) && r < |s.runs| && c.runs[r].mode.Objective?
    requires !KeyLive(s, r, NextKey)
    ensures r < |Apply(c, s, ev).runs|
    ensures Apply(c, s, ev).runs[r].status.RunActive? || !KeyLive(Apply(c, s, ev), r, NextKey)
  {
    hide Sound; hide WellFormed; hide Apply; hide RunMoves;
    var t := Apply(c, s, ev);
    RunStep(c, s, ev, r);
    StepBlank(c, s, ev);
    if KeyLive(t, r, NextKey) {
      var b :| 0 <= b < |t.assignments| && t.assignments[b].run == r && t.assignments[b].key == NextKey && Open(t.assignments[b].status);
      if b < |s.assignments| { QueuedBefore(c, s, ev, r, b); } else { assert Lone(t, b); }
    }
  }

  // Acceptance cancels the queued planner.
  lemma AcceptClears(c: Config, s: State, ev: Event, r: nat)
    requires KeysOk(c, s) && ev.EvAcceptPhase? && ev.run == r && Attempt(c, s, ev).Commit?
    requires r < |c.runs| && c.runs[r].mode.Objective?
    ensures !KeyLive(Apply(c, s, ev), r, NextKey)
  {
    hide OthersOpen; hide Acting; hide Clash;
    var t := Apply(c, s, ev);
    forall a | 0 <= a < |t.assignments| && t.assignments[a].run == r && t.assignments[a].key.NextKey?
      ensures !Open(t.assignments[a].status)
    {
      assert KeyRow(s.assignments[a]);
    }
  }

  lemma GoingStep(c: Config, s: State, ev: Event, r: nat)
    requires WellFormed(c) && Sound(c, s) && KeysOk(c, s) && Going(s, r) && r < |c.runs| && c.runs[r].mode.Objective?
    requires Quiet(c, s, ev, r)
    ensures Going(Apply(c, s, ev), r)
  {
    hide Sound; hide WellFormed; hide Apply; hide Attempt; hide PassEnds; hide OthersOpen; hide RunOccupied; hide RunBusy;
    hide AfterPass; hide KeyLive; hide Operated;
    RunStep(c, s, ev, r);
    if !KeyLive(s, r, NextKey) { StillUnqueued(c, s, ev, r); }
    if ev.EvAcceptPhase? && ev.run == r { AcceptGoes(c, s, ev, r); }
  }

  lemma AcceptGoes(c: Config, s: State, ev: Event, r: nat)
    requires KeysOk(c, s) && ev.EvAcceptPhase? && ev.run == r && r < |c.runs| && c.runs[r].mode.Objective?
    ensures Apply(c, s, ev) == s || !KeyLive(Apply(c, s, ev), r, NextKey)
  {
    hide Attempt; hide KeysOk; hide KeyLive;
    if Attempt(c, s, ev).Commit? { AcceptClears(c, s, ev, r); }
  }

  lemma ActiveBefore(c: Config, s: State, ev: Event, r: nat, b: nat)
    requires WellFormed(c) && Sound(c, s) && KeysOk(c, s) && r < |s.runs| && c.runs[r].mode.Objective?
    requires b < |Apply(c, s, ev).assignments|
    requires var y := Apply(c, s, ev).assignments[b]; y.run == r && y.key.ActiveKey? && Open(y.status)
    ensures b < |s.assignments| && s.assignments[b].run == r && Open(s.assignments[b].status)
    ensures s.assignments[b].key.ActiveKey? ||
            (Admitting(c, s, ev, b) && s.assignments[b].key.NextKey? && !PauseHolds(s.assignments[b])
             && !KeyLive(s, r, ActiveKey))
  {
    hide Sound; hide WellFormed; hide Apply; hide Attempt; hide Clash; hide PauseHolds;
    StepBlank(c, s, ev);
    if b < |s.assignments| {
      StepOrder(c, s, ev, b);
      RowKeys(c, s, ev, b);
      KeysStep(c, s, ev);
      assert KeyRow(s.assignments[b]) && KeyRow(Apply(c, s, ev).assignments[b]);
      if !s.assignments[b].key.ActiveKey? { AdmittedFree(c, s, ev, r, b); }
    }
  }

  lemma AdmittedFree(c: Config, s: State, ev: Event, r: nat, b: nat)
    requires Sound(c, s) && b < |s.assignments| && s.assignments[b].run == r && r < |c.runs| && c.runs[r].mode.Objective?
    requires Admitting(c, s, ev, b) && s.assignments[b].rule.PlannerRule? && s.assignments[b].key.NextKey?
    ensures !PauseHolds(s.assignments[b]) && !KeyLive(s, r, ActiveKey)
  {
    hide Sound; hide Attempt; hide PauseHolds;
    EventUnpaused(c, s, ev);
    forall d | 0 <= d < |s.assignments| && s.assignments[d].run == r
      ensures !(s.assignments[d].key == ActiveKey && Open(s.assignments[d].status))
    {
      if d != b { AdmitActive(c, s, ev, d); }
    }
  }

  // ---- A step that completes no pass ----

  // Under a disabled rule a free queued planner was free before.
  lemma ReadyBefore(c: Config, s: State, ev: Event, r: nat)
    requires WellFormed(c) && Sound(c, s) && KeysOk(c, s) && r < |s.runs| && c.runs[r].mode.Objective? && Quiet(c, s, ev, r)
    requires r < |Apply(c, s, ev).runs| && !Apply(c, s, ev).runs[r].planner.enabled && Ready(Apply(c, s, ev), r)
    ensures exists b | 0 <= b < |s.assignments| ::
              && s.assignments[b].run == r && s.assignments[b].key.NextKey? && Open(s.assignments[b].status)
              && !PauseHolds(s.assignments[b]) && !Admitting(c, s, ev, b)
  {
    hide Sound; hide WellFormed; hide Apply; hide Attempt; hide Clash; hide PauseHolds; hide Operated; hide PassEnds;
    SoundRefs(c, s);
    var t := Apply(c, s, ev);
    var b :| 0 <= b < |t.assignments| && t.assignments[b].run == r && t.assignments[b].key.NextKey?
             && Open(t.assignments[b].status) && !PauseHolds(t.assignments[b]);
    if b < |s.assignments| {
      QueuedBefore(c, s, ev, r, b);
      assert KeyRow(s.assignments[b]);
      StepHeeds(c, s, ev, b);
    } else {
      NotOperated(c, s, ev, b);
      StepHeeds(c, s, ev, b);
    }
  }

  lemma NotOperated(c: Config, s: State, ev: Event, b: nat)
    requires b >= |s.assignments|
    ensures !Operated(c, s, ev, b)
  {
    if Operated(c, s, ev, b) { OperatedExists(c, s, b, ev); }
  }

  // A cancelled planner leaves no free successor.
  lemma CancelQuiets(c: Config, s: State, ev: Event, r: nat)
    requires WellFormed(c) && Sound(c, s) && KeysOk(c, s) && r < |s.runs| && c.runs[r].mode.Objective?
    requires (ev.EvCancel? || ev.EvExpireSession?) && r < |Apply(c, s, ev).runs| && Apply(c, s, ev).runs[r] != s.runs[r]
    ensures !Ready(Apply(c, s, ev), r)
  {
    hide Sound; hide WellFormed; hide Apply; hide Attempt; hide Clash;
    KeysStep(c, s, ev);
    CancelledRows(c, s, ev, r);
    SoundRefs(c, s);
    var t := Apply(c, s, ev);
    forall b | 0 <= b < |t.assignments| && t.assignments[b].run == r && t.assignments[b].key.NextKey? && Open(t.assignments[b].status)
      ensures PauseHolds(t.assignments[b])
    {
      assert KeyRow(t.assignments[b]);
    }
  }

  lemma CancelledRows(c: Config, s: State, ev: Event, r: nat)
    requires (ev.EvCancel? || ev.EvExpireSession?) && r < |s.runs|
    requires r < |Apply(c, s, ev).runs| && Apply(c, s, ev).runs[r] != s.runs[r]
    ensures forall b | 0 <= b < |Apply(c, s, ev).assignments| ::
              var y := Apply(c, s, ev).assignments[b];
              y.run == r && y.rule.PlannerRule? && y.status.Pending? ==> PauseHolds(y)
  {
  }

  lemma IdleStep(c: Config, s: State, ev: Event, r: nat)
    requires WellFormed(c) && Sound(c, s) && KeysOk(c, s) && Going(s, r) && r < |c.runs| && c.runs[r].mode.Objective?
    requires Quiet(c, s, ev, r) && !PassEnds(c, s, ev, r)
    ensures r < |Apply(c, s, ev).runs| && Left(c, Apply(c, s, ev), r) <= Left(c, s, r)
  {
    hide Sound; hide WellFormed; hide Apply; hide Attempt; hide PassEnds; hide OthersOpen; hide RunOccupied; hide RunBusy;
    hide AfterPass; hide KeyLive; hide Operated; hide Ready; hide KeysOk;
    var t := Apply(c, s, ev);
    RunStep(c, s, ev, r);
    var x, y := s.runs[r].planner, t.runs[r].planner;
    if !y.enabled {
      if x.enabled { CancelQuiets(c, s, ev, r); }
      else { Dwindles(c, s, ev, r); }
    }
  }

  lemma Dwindles(c: Config, s: State, ev: Event, r: nat)
    requires WellFormed(c) && Sound(c, s) && KeysOk(c, s) && r < |s.runs| && c.runs[r].mode.Objective? && Quiet(c, s, ev, r)
    requires r < |Apply(c, s, ev).runs| && !Apply(c, s, ev).runs[r].planner.enabled && !s.runs[r].planner.enabled
    ensures Left(c, Apply(c, s, ev), r) <= Left(c, s, r)
  {
    hide Sound; hide WellFormed; hide Apply; hide Attempt; hide PassEnds; hide Operated; hide Quiet; hide PauseHolds;
    var t := Apply(c, s, ev);
    if Ready(t, r) { ReadyBefore(c, s, ev, r); }
    if KeyLive(t, r, ActiveKey) {
      var b :| 0 <= b < |t.assignments| && t.assignments[b].run == r && t.assignments[b].key == ActiveKey && Open(t.assignments[b].status);
      ActiveBefore(c, s, ev, r, b);
      if !s.assignments[b].key.ActiveKey? && Ready(t, r) { NotBoth(c, s, ev, r, b); }
    }
  }

  lemma OneHolder(c: Config, s: State, a: nat, b: nat)
    requires KeysOk(c, s) && a < |s.assignments| && b < |s.assignments| && a != b && ModeOf(c, s, a).Objective?
    requires s.assignments[a].run == s.assignments[b].run
    ensures !Clash(s.assignments[a], s.assignments[b])
  {
    hide KeyRow;
    if a < b { assert !Clash(s.assignments[a], s.assignments[b]); } else { assert !Clash(s.assignments[b], s.assignments[a]); }
  }

  lemma NotBoth(c: Config, s: State, ev: Event, r: nat, a: nat)
    requires WellFormed(c) && Sound(c, s) && KeysOk(c, s) && r < |s.runs| && c.runs[r].mode.Objective? && Quiet(c, s, ev, r)
    requires r < |Apply(c, s, ev).runs| && !Apply(c, s, ev).runs[r].planner.enabled
    requires a < |s.assignments| && s.assignments[a].run == r && s.assignments[a].key.NextKey? && Open(s.assignments[a].status)
    requires Admitting(c, s, ev, a)
    ensures !Ready(Apply(c, s, ev), r)
  {
    hide Sound; hide WellFormed; hide Apply; hide Attempt; hide Quiet; hide PauseHolds;
    if Ready(Apply(c, s, ev), r) {
      ReadyBefore(c, s, ev, r);
      var b :| 0 <= b < |s.assignments| && s.assignments[b].run == r && s.assignments[b].key.NextKey?
               && Open(s.assignments[b].status) && !PauseHolds(s.assignments[b]) && !Admitting(c, s, ev, b);
      SoundRefs(c, s);
      OneHolder(c, s, a, b);
    }
  }

  // ---- A completed pass ----

  // The pass that completes held the active key, so none is active after it.
  lemma PassInactive(c: Config, s: State, ev: Event, r: nat)
    requires WellFormed(c) && Sound(c, s) && KeysOk(c, s) && r < |s.runs| && c.runs[r].mode.Objective? && PassEnds(c, s, ev, r)
    ensures KeyLive(s, r, ActiveKey) && !KeyLive(Apply(c, s, ev), r, ActiveKey)
  {
    hide Sound; hide WellFormed; hide Apply; hide Attempt; hide PauseHolds;
    var a := s.executions[ev.execution].assignment;
    LiveStarted(c, s, ev.execution);
    assert KeyRow(s.assignments[a]);
    var t := Apply(c, s, ev);
    forall b | 0 <= b < |t.assignments| && t.assignments[b].run == r && t.assignments[b].key == ActiveKey
      ensures !Open(t.assignments[b].status)
    {
      if b != a && Open(t.assignments[b].status) {
        ActiveBefore(c, s, ev, r, b);
        OneHolder(c, s, a, b);
      }
    }
  }

  ghost predicate Subdued(t: State, r: nat) {
    forall a | 0 <= a < |t.assignments| && t.assignments[a].run == r && t.assignments[a].key.NextKey? && Open(t.assignments[a].status) ::
      PauseHolds(t.assignments[a]) || exists b | 0 <= b < |t.assignments| && b != a :: Clash(t.assignments[a], t.assignments[b])
  }

  // A disabling pass pauses the queued planner of an active run.
  lemma PassQuiets(c: Config, s: State, r: nat, observed: nat)
    requires WellFormed(c) && r < |s.runs| && r < |c.runs| && c.runs[r].mode.Objective? && PassCompleted(c, s, r, observed).Commit?
    requires s.runs[r].status.RunActive? && !AfterPass(c, s.runs[r].planner, observed, s.now).enabled
    ensures Subdued(PassCompleted(c, s, r, observed).state, r)
  {
    hide WellFormed; hide AfterPass; hide EnsureSuccessor;
    var noted := s.(runs := s.runs[r := s.runs[r].(planner := AfterPass(c, s.runs[r].planner, observed, s.now))]);
    SuccessorShape(c, noted, r);
    var u := EnsureSuccessor(c, noted, r).state;
    var t := PassCompleted(c, s, r, observed).state;
    var found := FindKey(u, r, NextKey, |u.assignments|);
    forall a | 0 <= a < |t.assignments| && t.assignments[a].run == r && t.assignments[a].key.NextKey? && Open(t.assignments[a].status)
      ensures PauseHolds(t.assignments[a]) || exists b | 0 <= b < |t.assignments| && b != a :: Clash(t.assignments[a], t.assignments[b])
    {
      assert found.Some?;
      if a != found.value { assert Clash(t.assignments[a], t.assignments[found.value]); }
    }
  }

  lemma SettleQuiets(c: Config, s: State, e: nat, byHost: bool, outcome: Outcome, given: Option<Failure>,
                     journal: bool, reason: Option<string>, x: Findings)
    requires WellFormed(c) && Known(c, s, e) && Settle(c, s, e, byHost, outcome, given, journal, reason, x).Commit?
    requires Live(s.executions[e].status)
    requires var a := s.executions[e].assignment; var r := s.assignments[a].run;
             var t := Settle(c, s, e, byHost, outcome, given, journal, reason, x).state;
             && c.runs[r].mode.Objective? && s.runs[r].status.RunActive? && s.assignments[a].rule.PlannerRule?
             && a < |t.assignments| && t.assignments[a].status.Completed?
             && r < |t.runs| && !t.runs[r].planner.enabled
    ensures Subdued(Settle(c, s, e, byHost, outcome, given, journal, reason, x).state,
                    s.assignments[s.executions[e].assignment].run)
  {
    hide ObjectiveFinish; hide LegacyFinish; hide AdjustedLimits; hide ContextLost; hide ReleasedClaims; hide RetryOf;
    hide PassCompleted; hide Reclassified; hide WellFormed; hide AfterPass; hide Clash; hide PauseHolds;
    var r := s.assignments[s.executions[e].assignment].run;
    var u := SettledRows(c, s, e, byHost, outcome, given, journal, reason, x);
    if u.assignments[s.executions[e].assignment].status.Completed? {
      PassRuns(c, u, r, x.frontier);
      PassQuiets(c, u, r, x.frontier);
    }
  }

  lemma EndQuiets(c: Config, s: State, ev: Event, r: nat)
    requires WellFormed(c) && PassEnds(c, s, ev, r) && r < |s.runs| && s.runs[r].status.RunActive?
    requires r < |Apply(c, s, ev).runs| && !Apply(c, s, ev).runs[r].planner.enabled
    ensures Subdued(Apply(c, s, ev), r)
  {
    hide ReceiptThreads; hide JudgedOutcome; hide InterruptedTurns; hide ReleasedClaims; hide Settle; hide UncertainTurns;
    hide WellFormed; hide Clash; hide PauseHolds;
    var e := ev.execution;
    if ev.EvStopReceipt? {
      var p := ev.receipt;
      var stopped := s.(executions := s.executions[e := s.executions[e].(confirmed := true)],
                        turns := InterruptedTurns(s.turns, e));
      var t := stopped.(threads := ReceiptThreads(stopped, e, s.executions[e].assignment, p).value);
      var judged := JudgedOutcome(c, s, e, p, ev.findings);
      SettleQuiets(c, t, e, true, judged.0, judged.1, IntentsOpen(p), p.reason, ev.findings);
    } else {
      SettleQuiets(c, s.(turns := UncertainTurns(s.turns, e)), e, false, OutLost, Some(Failure(LeaseExpired, "lease")),
                   false, None, ev.findings);
    }
  }

  lemma SubduedIdle(c: Config, t: State, r: nat)
    requires KeysOk(c, t) && r < |c.runs| && c.runs[r].mode.Objective? && Subdued(t, r)
    ensures !Ready(t, r)
  {
    hide KeyRow; hide PauseHolds;
    forall a | 0 <= a < |t.assignments| && t.assignments[a].run == r && t.assignments[a].key.NextKey? && Open(t.assignments[a].status)
      ensures PauseHolds(t.assignments[a])
    {
      forall b | 0 <= b < |t.assignments| && b != a ensures !Clash(t.assignments[a], t.assignments[b]) {
        if t.assignments[a].run == t.assignments[b].run { OneHolder(c, t, a, b); }
      }
    }
  }

  lemma PassUnready(c: Config, s: State, ev: Event, r: nat)
    requires WellFormed(c) && Sound(c, s) && KeysOk(c, s) && Going(s, r) && r < |c.runs| && c.runs[r].mode.Objective?
    requires PassEnds(c, s, ev, r) && r < |Apply(c, s, ev).runs| && !Apply(c, s, ev).runs[r].planner.enabled
    requires Apply(c, s, ev).runs[r].status == s.runs[r].status
    ensures !Ready(Apply(c, s, ev), r)
  {
    hide Sound; hide WellFormed; hide Apply; hide Attempt; hide PassEnds; hide Subdued; hide KeysOk; hide PauseHolds;
    if s.runs[r].status.RunActive? {
      KeysStep(c, s, ev);
      EndQuiets(c, s, ev, r);
      SubduedIdle(c, Apply(c, s, ev), r);
    } else {
      StillUnqueued(c, s, ev, r);
    }
  }

  lemma PassStep(c: Config, s: State, ev: Event, r: nat)
    requires WellFormed(c) && Sound(c, s) && KeysOk(c, s) && Going(s, r) && r < |c.runs| && c.runs[r].mode.Objective?
    requires Reasoned(c, s.runs[r]) && Quiet(c, s, ev, r) && PassEnds(c, s, ev, r)
    ensures r < |Apply(c, s, ev).runs| && Left(c, Apply(c, s, ev), r) + 1 <= Left(c, s, r)
  {
    hide Sound; hide WellFormed; hide Apply; hide Attempt; hide KeyLive; hide Operated; hide Ready; hide KeysOk; hide PassEnds;
    var t := Apply(c, s, ev);
    PassMoves(c, s, ev, r);
    PassInactive(c, s, ev, r);
    if !t.runs[r].planner.enabled { PassUnready(c, s, ev, r); }
  }

  lemma PassMoves(c: Config, s: State, ev: Event, r: nat)
    requires WellFormed(c) && PassEnds(c, s, ev, r) && r < |s.runs|
    ensures |Apply(c, s, ev).runs| == |s.runs|
    ensures PassCounted(c, s.runs[r], Apply(c, s, ev).runs[r], ev.findings.frontier, s.now)
  {
    hide Attempt; hide AfterPass; hide Apply;
    EndRuns(c, s, ev);
  }

  // ---- Whole runs ----

  ghost predicate QuietRun(c: Config, s: State, more: seq<Event>, r: nat) {
    more == [] ||
    var before := more[..|more| - 1];
    QuietRun(c, s, before, r) && r < |After(c, s, before).runs| && Quiet(c, After(c, s, before), more[|more| - 1], r)
  }

  ghost function Passes(c: Config, s: State, more: seq<Event>, r: nat): nat {
    if more == [] then 0
    else
      var before := more[..|more| - 1];
      Passes(c, s, before, r) + (if PassEnds(c, After(c, s, before), more[|more| - 1], r) then 1 else 0)
  }

  lemma {:induction false} PassesSpend(c: Config, s: State, more: seq<Event>, r: nat)
    requires WellFormed(c) && Safe(c, s) && KeysOk(c, s) && Going(s, r) && r < |c.runs| && c.runs[r].mode.Objective?
    requires Reasoned(c, s.runs[r]) && QuietRun(c, s, more, r)
    ensures var t := After(c, s, more);
            && Safe(c, t) && KeysOk(c, t) && Going(t, r) && Reasoned(c, t.runs[r])
            && Left(c, t, r) + Passes(c, s, more, r) <= Left(c, s, r)
  {
    hide Sound; hide Fits; hide WellFormed; hide Apply; hide KeysOk; hide Reasoned; hide Quiet; hide PassEnds; hide Left; hide KeyLive;
    hide Halted;
    if more != [] {
      var before := more[..|more| - 1];
      var t, ev := After(c, s, before), more[|more| - 1];
      PassesSpend(c, s, before, r);
      StepSafe(c, t, ev);
      KeysStep(c, t, ev);
      GoingStep(c, t, ev, r);
      RuleStep(c, t, ev, r);
      if PassEnds(c, t, ev, r) { PassStep(c, t, ev, r); } else { IdleStep(c, t, ev, r); }
    }
  }

  /**
    From any reachable state of an active objective: while the frontier stays
    the same, no operator intervenes and no phase is entered, an enabled
    planner completes at most max(1, plannerPasses - passes) planning passes,
    and a disabled one only those already active or free to start.
   */
  lemma PlanningIsBounded(c: Config, start: State, events: seq<Event>, more: seq<Event>, r: nat)
    requires WellFormed(c) && Initial(c, start) && r < |c.runs| && c.runs[r].mode.Objective?
    requires var s := After(c, start, events); r < |s.runs| && s.runs[r].status.RunActive? && QuietRun(c, s, more, r)
    ensures var s := After(c, start, events);
            Passes(c, s, more, r) <=
              if s.runs[r].planner.enabled then Max(1, c.plannerPasses - s.runs[r].planner.passes)
              else (if KeyLive(s, r, ActiveKey) then 1 else 0) + (if Ready(s, r) then 1 else 0)
  {
    hide After; hide Initial; hide Sound; hide Fits; hide WellFormed; hide KeyLive; hide Ready; hide Passes; hide QuietRun; hide Reasoned;
    hide KeysOk;
    AlwaysSafe(c, start, events);
    AlwaysKeyed(c, start, events);
    AlwaysReasoned(c, start, events);
    assert Going(After(c, start, events), r);
    PassesSpend(c, After(c, start, events), more, r);
  }

  // ---- Where the idle pause is lost ----

  /**
    When a pass disables the rule, the queued planner is paused with it if and
    only if the run is active (or the planner was paused before): a run paused
    meanwhile keeps a free successor, which starts another pass on resumption.
   */
  lemma IdlePauseReachesSuccessor(c: Config, s: State, r: nat, observed: nat, b: nat)
    requires WellFormed(c) && KeysOk(c, s) && r < |s.runs| && r < |c.runs| && c.runs[r].mode.Objective?
    requires PassCompleted(c, s, r, observed).Commit? && !AfterPass(c, s.runs[r].planner, observed, s.now).enabled
    requires b < |s.assignments| && s.assignments[b].run == r && s.assignments[b].key.NextKey? && Open(s.assignments[b].status)
    ensures b < |PassCompleted(c, s, r, observed).state.assignments|
    ensures PauseHolds(PassCompleted(c, s, r, observed).state.assignments[b]) <==>
              s.runs[r].status.RunActive? || PauseHolds(s.assignments[b])
  {
    hide WellFormed; hide AfterPass; hide KeyRow;
    var noted := s.(runs := s.runs[r := s.runs[r].(planner := AfterPass(c, s.runs[r].planner, observed, s.now))]);
    var found := FindKey(noted, r, NextKey, |s.assignments|);
    assert found.Some?;
    if found.value != b { OneHolder(c, s, b, found.value); }
  }
}
