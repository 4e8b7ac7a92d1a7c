/**
  Runs, from a fresh launch, in which the code does less than it promises:
  each shows the failure as events the control plane receives.
 */
module Witnesses {
  import opened Wrappers
  import opened Records
  import opened Sums
  import opened Admission
  import opened Protocol
  import opened Ledger
  import opened Idling
  import opened Demo

  lemma AfterThree(c: Config, s: State, a: Event, b: Event, d: Event)
    ensures After(c, s, [a, b]) == Apply(c, Apply(c, s, a), b)
    ensures After(c, s, [a, b, d]) == Apply(c, Apply(c, Apply(c, s, a), b), d)
  {
    hide Apply;
    assert [a, b, d][..2] == [a, b] && [a, b][..1] == [a] && [a][..0] == [];
    assert After(c, s, [a]) == Apply(c, s, a);
  }

  // ---- Entering a phase lifts an operator's pause ----

  lemma PausedLaunch(c: Config, s: State, r: nat)
    requires Initial(c, s) && r < |c.runs| && c.runs[r].mode.Objective?
    ensures var t := Apply(c, s, EvSwitchPlanner(r, false));
            && t == s.(runs := s.runs[r := s.runs[r].(planner := s.runs[r].planner.(enabled := false, pause := ByOperator))])
  {
    hide EnsureSuccessor; hide FindKey;
    assert PausedPlanners(s.assignments, r, "operator") == [];
  }

  lemma AcceptedLaunch(c: Config, s: State, r: nat)
    requires r < |c.runs| && r < |s.runs| && c.runs[r].mode.Objective? && c.runs[r].autoAdvance && |c.runs[r].phases| >= 2
    requires s.runs[r].status.RunActive? && s.runs[r].next.None? && s.runs[r].history == [] && s.assignments == []
    ensures var t := Apply(c, s, EvAcceptPhase(r, None, None, true));
            && |t.runs| == |s.runs| && t.assignments == [] && t.executions == s.executions
            && t.runs[r].status.RunActive? && t.runs[r].planner == s.runs[r].planner
            && t.runs[r].next == Some(Accepted(Some(c.runs[r].phases[1]), None))
  {
  }

  /**
    An operator pauses the planner, the phase is accepted and entered: the
    planner is enabled again, though nobody lifted the pause.
   */
  lemma PhaseEntryLiftsPause(c: Config, start: State, r: nat, frontier: nat)
    requires WellFormed(c) && Initial(c, start) && r < |c.runs| && c.runs[r].mode.Objective?
    requires c.runs[r].autoAdvance && |c.runs[r].phases| >= 2
    ensures var pause, accept := EvSwitchPlanner(r, false), EvAcceptPhase(r, None, None, true);
            var before := After(c, start, [pause, accept]);
            var after := After(c, start, [pause, accept, EvReconcileRun(r, frontier, false, false)]);
            && r < |before.runs| && before.runs[r].planner.pause.ByOperator? && !before.runs[r].planner.enabled
            && r < |after.runs| && after.runs[r].planner.pause.NotPaused? && after.runs[r].planner.enabled
            && after.runs[r].phase == c.runs[r].phases[1]
  {
    hide Apply; hide After; hide WellFormed;
    var pause, accept := EvSwitchPlanner(r, false), EvAcceptPhase(r, None, None, true);
    var enter := EvReconcileRun(r, frontier, false, false);
    PausedLaunch(c, start, r);
    var one := Apply(c, start, pause);
    AcceptedLaunch(c, one, r);
    var two := Apply(c, one, accept);
    EnteredLaunch(c, two, r, frontier);
    AfterThree(c, start, pause, accept, enter);
  }

  lemma EnteredLaunch(c: Config, s: State, r: nat, frontier: nat)
    requires WellFormed(c) && r < |c.runs| && r < |s.runs| && c.runs[r].mode.Objective? && s.runs[r].status.RunActive?
    requires s.assignments == [] && s.executions == [] && s.runs[r].next.Some? && s.runs[r].next.value.target.Some?
    ensures var t := Apply(c, s, EvReconcileRun(r, frontier, false, false));
            && |t.runs| == |s.runs| && t.runs[r].planner == Planner(true, NotPaused, 0, frontier, None)
            && t.runs[r].phase == s.runs[r].next.value.target.value
  {
    hide WellFormed; hide ReconcileRun;
    assert !RunOccupied(s, r) && !RunBusy(c, s, r);
    PhaseLifts(c, s, r, frontier, false, false);
  }

  // ---- A failure without a message, over and over ----

  const ORDER := Request(0, Worker, 0, false, false, NoRule, None, None, None, false)
  // A failed turn whose reason is the empty text.
  const SILENCE := Receipt(OutFailed, Some(""), None, None, None)

  // The session after n silent failures, and while it runs again.
  function Session(n: nat, status: SessionStatus): Assignment {
    Assignment(0, Worker, 0, false, false, NoRule, None, status, if n == 0 && status.Pending? then None else Some(0), None, None, None,
               None, if n == 0 then None else Some(""), false, n, NoKey)
  }

  function Failures(n: nat): seq<Execution> {
    seq(n, (e: nat) => Execution(0, e + 1, 0, 0, 0, 0, ExecFailed, 0, 0, Some(0), true))
  }

  const CONTEXT := Thread(0, 0, 0, None, Creating, None)

  function Resting(n: nat): State {
    Opening().(assignments := [Session(n, Pending)], executions := Failures(n), threads := if n == 0 then [] else [CONTEXT])
  }

  function Working(n: nat): State {
    Opening().(assignments := [Session(n, Running)], executions := Failures(n) + [NewExecution(0, n + 1)], threads := [CONTEXT])
  }

  lemma Ordered(m: nat)
    ensures Apply(Shop(m), Opening(), EvEnqueue(ORDER)) == Resting(0)
  {
    assert Queued(Opening(), 0, 0) == 0;
    assert Failures(0) == [];
  }

  lemma Resumes(m: nat, n: nat)
    ensures Apply(Shop(m), Resting(n), EvAdmit(0, 0, 0, VIEW)) == Working(n)
    ensures Attempt(Shop(m), Resting(n), EvAdmit(0, 0, 0, VIEW)).Commit?
  {
    hide Apply; hide Attempt; hide EnsureSuccessor;
    var s := Resting(n);
    assert Stopped(s) && Due(s, 0) && Placeable(s, 0);
    assert AdmitPlanner(Shop(m), s, 0) == Commit(s);
    DueAdmitted(m, s, 0, s);
    NumberOf(s, 0, n);
    assert NextNumber(s, 0) == n + 1;
  }

  lemma SilentJudgement(m: nat, n: nat, x: Findings)
    ensures Known(Shop(m), Working(n), n)
    ensures JudgedOutcome(Shop(m), Working(n), n, SILENCE, x) == (OutFailed, Some(Failure(ExecutionFailed, "")))
    ensures !IntentsOpen(SILENCE)
  {
    assert Working(n).executions[n] == NewExecution(0, n + 1);
  }

  lemma SilentRows(m: nat, n: nat, s: State, x: Findings)
    requires s == Working(n).(executions := Working(n).executions[n := NewExecution(0, n + 1).(confirmed := true)])
    ensures Known(Shop(m), s, n)
    ensures SettledRows(Shop(m), s, n, true, OutFailed, Some(Failure(ExecutionFailed, "")), false, Some(""), x) == Resting(n + 1)
  {
    hide Backoff; hide LegacyFinish; hide AfterTurn;
    assert Latest(s, 0, 1) == Some(0);
    assert AdjustedLimits(Shop(m), s, n, RetryOf(Shop(m), s, 0), true, OutFailed, Some(Failure(ExecutionFailed, "")), x) == [];
    assert ReleasedClaims(s.claims, n) == [];
    assert Failures(n + 1) == s.executions[n := s.executions[n].(status := ExecFailed, finishedAt := Some(0), leaseUntil := 0)];
    assert [Session(n, Running)][0 := Session(n + 1, Pending)] == [Session(n + 1, Pending)];
  }

  lemma SilentStop(m: nat, n: nat, x: Findings)
    ensures StopReceipt(Shop(m), Working(n), n, n + 1, SILENCE, x) == Commit(Resting(n + 1))
  {
    hide SettledRows; hide JudgedOutcome; hide PassCompleted;
    SilentJudgement(m, n, x);
    var s := Working(n);
    var stopped := s.(executions := s.executions[n := NewExecution(0, n + 1).(confirmed := true)]);
    assert s.executions[n] == NewExecution(0, n + 1);
    assert InterruptedTurns(s.turns, n) == [];
    assert PrimaryThread(stopped, 0, 1) == Some(0);
    SilentRows(m, n, stopped, x);
    assert ReleasedClaims(Resting(n + 1).claims, n) == [];
  }

  function Round(n: nat, x: Findings): seq<Event> { [EvAdmit(0, 0, 0, VIEW), EvStopReceipt(n, n + 1, SILENCE, x)] }

  function Rounds(n: nat, x: Findings): seq<Event> {
    if n == 0 then [EvEnqueue(ORDER)] else Rounds(n - 1, x) + Round(n - 1, x)
  }

  lemma AfterTwo(c: Config, s: State, events: seq<Event>, a: Event, b: Event)
    ensures After(c, s, events + [a]) == Apply(c, After(c, s, events), a)
    ensures After(c, s, events + [a, b]) == Apply(c, Apply(c, After(c, s, events), a), b)
  {
    hide Apply;
    assert (events + [a, b])[..|events| + 1] == events + [a] && (events + [a])[..|events|] == events;
  }

  lemma ObservedTwo(c: Config, s: State, events: seq<Event>, a: Event, b: Event, k: nat)
    ensures Observed(c, s, events + [a, b], k) ==
            Observe(c, After(c, s, events + [a]), b, k, Observe(c, After(c, s, events), a, k, Observed(c, s, events, k)))
  {
    hide Observe; hide After;
    assert (events + [a, b])[..|events| + 1] == events + [a] && (events + [a])[..|events|] == events;
    assert Observed(c, s, events + [a], k) == Observe(c, After(c, s, events), a, k, Observed(c, s, events, k));
  }

  lemma ObserveRound(m: nat, n: nat, x: Findings, h: History)
    ensures Observe(Shop(m), Resting(n), EvAdmit(0, 0, 0, VIEW), 0, h)
            == History(h.failures, h.automatic + (if h.waiting then 1 else 0), false)
    ensures Observe(Shop(m), Working(n), EvStopReceipt(n, n + 1, SILENCE, x), 0, h) == History(h.failures + 1, h.automatic, true)
  {
    hide Attempt; hide JudgedOutcome; hide StopReceipt;
    Resumes(m, n);
    SilentJudgement(m, n, x);
    StopCommits(m, n, x);
    assert Working(n).executions[n] == NewExecution(0, n + 1);
  }

  lemma StopCommits(m: nat, n: nat, x: Findings)
    ensures Attempt(Shop(m), Working(n), EvStopReceipt(n, n + 1, SILENCE, x)) == Commit(Resting(n + 1))
  {
    hide StopReceipt;
    SilentJudgement(m, n, x);
    SilentStop(m, n, x);
  }

  lemma {:induction false} RoundsRun(m: nat, n: nat, x: Findings)
    ensures After(Shop(m), Opening(), Rounds(n, x)) == Resting(n)
    ensures Observed(Shop(m), Opening(), Rounds(n, x), 0) == if n == 0 then History(0, 0, false) else History(n, n - 1, true)
  {
    hide Apply; hide Observe; hide Attempt;
    var c := Shop(m);
    if n == 0 {
      Ordered(m);
      assert [EvEnqueue(ORDER)][..0] == [];
      NothingYet(c, Opening(), EvEnqueue(ORDER), 0, History(0, 0, false));
    } else {
      RoundsRun(m, n - 1, x);
      var a, b := EvAdmit(0, 0, 0, VIEW), EvStopReceipt(n - 1, n, SILENCE, x);
      AfterTwo(c, Opening(), Rounds(n - 1, x), a, b);
      ObservedTwo(c, Opening(), Rounds(n - 1, x), a, b, 0);
      Resumes(m, n - 1);
      StopApplies(m, n - 1, x);
      ObserveRound(m, n - 1, x, Observed(c, Opening(), Rounds(n - 1, x), 0));
      ObserveRound(m, n - 1, x, History(n - 1, if n == 1 then 0 else n - 1, false));
    }
  }

  lemma StopApplies(m: nat, n: nat, x: Findings)
    ensures Apply(Shop(m), Working(n), EvStopReceipt(n, n + 1, SILENCE, x)) == Resting(n + 1)
  {
    hide Attempt;
    StopCommits(m, n, x);
  }

  /**
    Whatever the policy allows, stop receipts that fail with an empty reason,
    each followed by an admission, resume one objective session automatically
    more often: here as often as one likes.
   */
  lemma SilentFailuresResumeForever(m: nat, n: nat, x: Findings)
    requires n > m
    ensures WellFormed(Shop(m)) && Initial(Shop(m), Opening())
    ensures var s := After(Shop(m), Opening(), Rounds(n + 1, x));
            && |s.assignments| == 1 && ModeOf(Shop(m), s, 0).Objective? && RetryOf(Shop(m), s, 0).maxAttempts == m
            && Observed(Shop(m), Opening(), Rounds(n + 1, x), 0).automatic == n > m
  {
    hide After; hide Observed;
    ShopOpens(m);
    RoundsRun(m, n + 1, x);
  }

  // ---- A pass that ends while its run is paused ----

  const PLANNED := NewPlanner(0, FRESH)
  const DONE := Receipt(OutSucceeded, None, None, None, None)
  const CONTENT := Findings(false, false, false, false, false, false, false, 0, l => 0, 0)

  // The rule after its first unchanged pass, which is the only one allowed.
  const SPENT := Planner(false, Idle, 1, 0, Some(1))

  const PLANNING := PLANNED.(key := ActiveKey, status := Running, startedAt := Some(0))
  const PASSED := PLANNED.(key := ActiveKey, status := Completed, startedAt := Some(0), finishedAt := Some(0))

  function Planned(): State { Opening().(assignments := [PLANNED]) }

  function Underway(status: RunStatus): State {
    Opening().(runs := [Objective1(status, FRESH)], assignments := [PLANNING, PLANNED], executions := [NewExecution(0, 1)],
               threads := [CONTEXT])
  }

  function Passed(status: RunStatus): State {
    Opening().(runs := [Objective1(status, SPENT)], assignments := [PASSED, PLANNED],
               executions := [NewExecution(0, 1).(status := ExecSucceeded, finishedAt := Some(0), leaseUntil := 0, confirmed := true)],
               threads := [CONTEXT])
  }

  lemma PlannerQueued(m: nat)
    ensures Apply(Shop(m), Opening(), EvReconcileRun(0, 0, false, false)) == Planned()
  {
    assert Queued(Opening(), 0, 0) == 0;
    assert FindKey(Opening(), 0, NextKey, 0).None?;
  }

  // Taking the active key queues the next planner.
  lemma KeyTaken(m: nat, s: State, a: nat)
    requires |s.runs| == 1 && s.runs == [Objective1(RunActive, s.runs[0].planner)] && a < |s.assignments| <= 2
    requires s.assignments[a] == PLANNED && forall b | 0 <= b < |s.assignments| && b != a :: !Open(s.assignments[b].status)
    ensures AdmitPlanner(Shop(m), s, a) ==
            Commit(s.(assignments := s.assignments[a := PLANNED.(key := ActiveKey)] + [NewPlanner(0, s.runs[0].planner)]))
  {
    hide FindKey;
    var t := s.(assignments := s.assignments[a := PLANNED.(key := ActiveKey)]);
    assert FindKey(t, 0, NextKey, |t.assignments|).None?;
    FewQueued(t);
  }

  lemma FewQueued(s: State)
    requires |s.assignments| <= 2
    ensures Queued(s, 0, WORK) <= 2
  {
    var f := (a: nat) => QueuedShare(s, 0, WORK, a);
    assert Total(f, 0) == 0 && Total(f, 1) <= 1 && Total(f, 2) <= 2;
  }

  lemma PassStarts(m: nat)
    ensures Apply(Shop(m), Planned(), EvAdmit(0, 0, 0, VIEW)) == Underway(RunActive)
  {
    hide Apply; hide Attempt; hide AdmitPlanner;
    var s := Planned();
    assert Stopped(s) && Due(s, 0) && Placeable(s, 0);
    KeyTaken(m, s, 0);
    var p := AdmitPlanner(Shop(m), s, 0).state;
    assert p.assignments == [PLANNED.(key := ActiveKey), PLANNED];
    DueAdmitted(m, s, 0, p);
    NumberOf(p, 0, 0);
  }

  lemma RunPausesAndResumes(m: nat)
    ensures Apply(Shop(m), Underway(RunActive), EvTransition(0, PauseRun, false, false)) == Underway(RunPaused)
    ensures Apply(Shop(m), Passed(RunPaused), EvTransition(0, ResumeRun, false, false)) == Passed(RunActive)
  {
    hide CancelRest; hide EnsureSuccessor;
  }

  lemma PassRows(m: nat, s: State)
    requires s == Underway(RunPaused).(executions := [NewExecution(0, 1).(confirmed := true)])
    ensures Known(Shop(m), s, 0)
    ensures SettledRows(Shop(m), s, 0, true, OutSucceeded, None, false, None, CONTENT)
            == Passed(RunPaused).(runs := s.runs)
  {
    hide Backoff; hide LegacyFinish; hide AfterFailure;
    assert AdjustedLimits(Shop(m), s, 0, RetryOf(Shop(m), s, 0), true, OutSucceeded, None, CONTENT) == [];
    assert ReleasedClaims(s.claims, 0) == [];
    assert Passed(RunPaused).executions
           == s.executions[0 := s.executions[0].(status := ExecSucceeded, finishedAt := Some(0), leaseUntil := 0)];
    assert [PLANNING, PLANNED][0 := PASSED] == [PASSED, PLANNED];
  }

  lemma PassNoted(m: nat)
    ensures PassCompleted(Shop(m), Passed(RunPaused).(runs := Underway(RunPaused).runs), 0, 0) == Commit(Passed(RunPaused))
  {
    hide FindKey;
    assert Pow2(1) == 2 && AfterPass(Shop(m), FRESH, 0, 0) == SPENT;
  }

  lemma PassStops(m: nat)
    ensures Apply(Shop(m), Underway(RunPaused), EvStopReceipt(0, 1, DONE, CONTENT)) == Passed(RunPaused)
  {
    hide StopReceipt;
    PassReceipt(m);
  }

  lemma PassReceipt(m: nat)
    ensures Known(Shop(m), Underway(RunPaused), 0)
    ensures StopReceipt(Shop(m), Underway(RunPaused), 0, 1, DONE, CONTENT) == Commit(Passed(RunPaused))
  {
    hide SettledRows; hide PassCompleted;
    var s := Underway(RunPaused);
    var stopped := s.(executions := [NewExecution(0, 1).(confirmed := true)]);
    assert s.executions[0 := s.executions[0].(confirmed := true)] == stopped.executions;
    assert InterruptedTurns(s.turns, 0) == [];
    assert PrimaryThread(stopped, 0, 1) == Some(0);
    PassRows(m, stopped);
    PassNoted(m);
    assert ReleasedClaims(Passed(RunPaused).claims, 0) == [];
  }

  lemma SecondPassStarts(m: nat)
    ensures Attempt(Shop(m), Passed(RunActive), EvAdmit(1, 0, 0, VIEW)).Commit?
  {
    hide Apply; hide Attempt; hide AdmitPlanner;
    var s := Passed(RunActive);
    assert Stopped(s) && Due(s, 1) && Placeable(s, 1);
    KeyTaken(m, s, 1);
    DueAdmitted(m, s, 1, AdmitPlanner(Shop(m), s, 1).state);
  }

  const IDLE_RUN := [EvReconcileRun(0, 0, false, false), EvAdmit(0, 0, 0, VIEW), EvTransition(0, PauseRun, false, false),
                     EvStopReceipt(0, 1, DONE, CONTENT), EvTransition(0, ResumeRun, false, false)]

  lemma IdleRuns(m: nat)
    ensures After(Shop(m), Opening(), IDLE_RUN) == Passed(RunActive)
  {
    hide Apply;
    var c, s := Shop(m), Opening();
    assert IDLE_RUN[..0] == [] && IDLE_RUN[..1][..0] == [] && IDLE_RUN[..2][..1] == IDLE_RUN[..1] && IDLE_RUN[..3][..2] == IDLE_RUN[..2];
    assert IDLE_RUN[..4][..3] == IDLE_RUN[..3];
    PlannerQueued(m);
    assert After(c, s, IDLE_RUN[..1]) == Planned();
    PassStarts(m);
    assert After(c, s, IDLE_RUN[..2]) == Underway(RunActive);
    RunPausesAndResumes(m);
    assert After(c, s, IDLE_RUN[..3]) == Underway(RunPaused);
    PassStops(m);
    assert After(c, s, IDLE_RUN[..4]) == Passed(RunPaused);
  }

  /**
    The only unchanged pass a policy allows ends while the run is paused: the
    rule is disabled as idle, yet the queued planner is free, and after the run
    is resumed a second pass is admitted.
   */
  lemma PausedRunPlansAgain(m: nat)
    ensures WellFormed(Shop(m)) && Initial(Shop(m), Opening()) && Shop(m).plannerPasses == 1
    ensures var s := After(Shop(m), Opening(), IDLE_RUN);
            && |s.runs| == 1 && s.runs[0].status.RunActive? && !s.runs[0].planner.enabled && s.runs[0].planner.pause.Idle?
            && s.runs[0].planner.passes == 1 && Idling.Ready(s, 0)
            && Attempt(Shop(m), s, EvAdmit(1, 0, 0, VIEW)).Commit?
  {
    hide After; hide Attempt;
    ShopOpens(m);
    IdleRuns(m);
    SecondPassStarts(m);
    assert Passed(RunActive).assignments[1] == PLANNED;
  }
}
