/**
  The planner recurrence and the phase lifecycle of an objective, read off the
  rows alone: when a successor is queued and with what, how long it waits, when
  a phase is accepted and when it is entered (objectives.py `ensure_successor`,
  `completed`, `accept_phase`, `advance`, `reconcile`; scheduler.py
  `defer_automation`).
 */
module Lifecycle {
  import opened Wrappers
  import opened Records
  import opened Admission
  import opened Protocol
  import opened Faults

  // ---- The planner's successor ----

  ghost predicate Waiting(s: State, r: nat) {
    exists a | 0 <= a < |s.assignments| ::
      s.assignments[a].run == r && s.assignments[a].key == NextKey && s.assignments[a].status in {Pending, Running, Stopping}
  }

  lemma WaitingIs(s: State, r: nat)
    ensures FindKey(s, r, NextKey, |s.assignments|).Some? <==> Waiting(s, r)
  {
    if Waiting(s, r) {
      var a :| 0 <= a < |s.assignments| && s.assignments[a].run == r && s.assignments[a].key == NextKey
               && s.assignments[a].status in {Pending, Running, Stopping};
      assert Open(s.assignments[a].status);
    }
  }

  /**
    A successor is queued exactly in an active run without one whose work queue
    has room; a settling phase refuses it. It is a pending planner of the work
    queue that waits for the rule's date, paused if the rule is off.
   */
  lemma SuccessorRules(c: Config, s: State, r: nat)
    requires r < |s.runs| && r < |c.runs| && |c.runs[r].policies| > 0
    ensures var out := EnsureSuccessor(c, s, r); var run := s.runs[r];
            var due := run.status == RunActive && !Waiting(s, r) && Queued(s, r, 0) < c.runs[r].policies[0].maxPending;
            && (out.Abort? <==> due && run.next.Some?)
            && (out.Commit? && !due ==> out.state == s)
            && (out.Commit? && due ==>
                  var n := |s.assignments|;
                  && out.state == s.(assignments := out.state.assignments) && |out.state.assignments| == n + 1
                  && out.state.assignments[..n] == s.assignments
                  && var x := out.state.assignments[n];
                     && x.run == r && x.role == Worker && x.category == 0 && x.plans && !x.supervises && x.rule == PlannerRule
                     && x.key == NextKey && x.status == Pending && x.startedAt == None && x.finishedAt == None && x.retryAt == None
                     && x.pinned == None && x.expiresAt == None && x.attempts == 0 && !x.checkpoint
                     && x.notBefore == run.planner.notBefore && (x.pause.Some? <==> !run.planner.enabled)
                     && (x.pause.Some? ==> x.pause.value != ""))
  {
    hide Queued; hide FindKey;
    WaitingIs(s, r);
  }

  // The wait after a pass that found the frontier unchanged for the n-th time.
  function Wait(c: Config, passes: nat): int { Min(c.plannerMaxIdle, c.plannerInterval * Pow2(Min(passes, 16))) }

  /** The wait starts at the interval, doubles with each idle pass up to the sixteenth, and is capped. */
  lemma WaitsDouble(c: Config, n: nat)
    ensures Wait(c, 0) == Min(c.plannerMaxIdle, c.plannerInterval)
    ensures Wait(c, n + 1) == if n < 16 then Min(c.plannerMaxIdle, 2 * Wait(c, n)) else Wait(c, n)
  {
    hide Pow2;
    Doubling(0);
    if n < 16 {
      Doubling(n);
      var x, y := c.plannerInterval * Pow2(n), c.plannerInterval * Pow2(n + 1);
      assert y == 2 * x;
      MinDouble(c.plannerMaxIdle, x, y);
    }
  }

  /**
    A pass counts against an unchanged frontier and starts over on a new one.
    The rule stays on exactly while nobody paused it and the count is below
    its bound; an operator's pause is kept, an idle one is noted.
   */
  lemma PassRules(c: Config, rule: Planner, observed: nat, now: int)
    ensures var next := AfterPass(c, rule, observed, now);
            && next.frontier == observed && next.passes == (if observed == rule.frontier then rule.passes + 1 else 0)
            && next.notBefore == Some(now + Wait(c, next.passes))
            && (next.enabled <==> rule.pause in {NotPaused, Idle} && next.passes < c.plannerPasses)
            && next.pause == (if rule.pause in {ByOperator, ByCancellation} then rule.pause else if next.enabled then NotPaused else Idle)
  {
    hide Pow2;
  }

  /** A pass in an active run dates the queued successor by the rule, and frees or pauses it with the rule. */
  lemma PassDatesSuccessor(c: Config, s: State, r: nat, observed: nat)
    requires r < |s.runs| && r < |c.runs| && PassCompleted(c, s, r, observed).Commit? && s.runs[r].status.RunActive?
    ensures var t := PassCompleted(c, s, r, observed).state;
            && t.runs == s.runs[r := s.runs[r].(planner := AfterPass(c, s.runs[r].planner, observed, s.now))]
            && (Waiting(t, r) ==>
                  exists a | 0 <= a < |t.assignments| ::
                    && t.assignments[a].run == r && t.assignments[a].key == NextKey && t.assignments[a].status in {Pending, Running, Stopping}
                    && t.assignments[a].notBefore == t.runs[r].planner.notBefore
                    && (t.assignments[a].pause == None <==> t.runs[r].planner.enabled)
                    && (t.assignments[a].pause.Some? ==> t.assignments[a].pause.value != ""))
  {
    hide Queued; hide EnsureSuccessor; hide FindKey; hide AfterPass;
    var rule := AfterPass(c, s.runs[r].planner, observed, s.now);
    var m := s.(runs := s.runs[r := s.runs[r].(planner := rule)]);
    SuccessorQueues(c, m, r);
    var u := EnsureSuccessor(c, m, r).state;
    var successor := FindKey(u, r, NextKey, |u.assignments|);
    var t := PassCompleted(c, s, r, observed).state;
    if successor.Some? {
      assert t.assignments[successor.value].notBefore == rule.notBefore;
    } else {
      WaitingIs(u, r);
    }
  }

  /** Switching the planner off pauses every queued planner of the run; switching it on frees the successor it then has. */
  lemma SwitchRules(c: Config, s: State, r: nat, on: bool)
    requires r < |s.runs| && r < |c.runs| && SwitchPlanner(c, s, r, on).Commit?
    ensures c.runs[r].mode == Objective
    ensures var t := SwitchPlanner(c, s, r, on).state;
            && |t.runs| == |s.runs| && (forall k | 0 <= k < |s.runs| && k != r :: t.runs[k] == s.runs[k])
            && t.runs[r] == s.runs[r].(planner := s.runs[r].planner.(enabled := on, pause := if on then NotPaused else ByOperator))
            && (!on ==> && |t.assignments| == |s.assignments|
                        && forall a | 0 <= a < |s.assignments| ::
                             t.assignments[a] == if s.assignments[a].run == r && s.assignments[a].rule == PlannerRule && s.assignments[a].status == Pending
                                                 then s.assignments[a].(pause := Some("operator")) else s.assignments[a])
            && (on && !s.runs[r].planner.enabled && s.runs[r].status == RunActive && Waiting(t, r) ==>
                  exists a | 0 <= a < |t.assignments| ::
                    && t.assignments[a].run == r && t.assignments[a].key == NextKey && t.assignments[a].status in {Pending, Running, Stopping}
                    && t.assignments[a].pause == None)
  {
    hide Queued; hide EnsureSuccessor; hide FindKey;
    if on && !s.runs[r].planner.enabled {
      var was := s.runs[r].planner;
      var m := s.(runs := s.runs[r := s.runs[r].(planner := was.(enabled := true, pause := NotPaused))]);
      SuccessorQueues(c, m, r);
      var u := EnsureSuccessor(c, m, r).state;
      var successor := FindKey(u, r, NextKey, |u.assignments|);
      var t := SwitchPlanner(c, s, r, on).state;
      if s.runs[r].status == RunActive && successor.Some? {
        assert t.assignments[successor.value].pause == None;
      } else if s.runs[r].status == RunActive {
        WaitingIs(u, r);
      }
    }
  }

  lemma SuccessorQueues(c: Config, s: State, r: nat)
    requires r < |s.runs| && r < |c.runs| && EnsureSuccessor(c, s, r).Commit?
    ensures EnsureSuccessor(c, s, r).state == s.(assignments := EnsureSuccessor(c, s, r).state.assignments)
  {
    hide Queued;
  }

  // ---- Phases ----

  // Some session other than this one is unfinished, the planner's successor aside.
  ghost predicate Unfinished(s: State, r: nat, current: Option<nat>) {
    exists a | 0 <= a < |s.assignments| ::
      && s.assignments[a].run == r && s.assignments[a].status in {Pending, Running, Stopping}
      && s.assignments[a].key != NextKey && Some(a) != current
  }

  lemma UnfinishedIs(s: State, r: nat, current: Option<nat>)
    ensures OthersOpen(s, r, current) <==> Unfinished(s, r, current)
  {
    if Unfinished(s, r, current) {
      var a :| 0 <= a < |s.assignments| && s.assignments[a].run == r && s.assignments[a].status in {Pending, Running, Stopping}
               && s.assignments[a].key != NextKey && Some(a) != current;
      assert Open(s.assignments[a].status);
    }
  }

  // The execution acts for a running session of this run under a valid lease.
  ghost predicate ActsIn(s: State, r: nat, e: nat) {
    && e < |s.executions| && s.executions[e].status in {ExecStarting, ExecRunning} && s.now < s.executions[e].leaseUntil
    && s.executions[e].assignment < |s.assignments|
    && s.assignments[s.executions[e].assignment].run == r && s.assignments[s.executions[e].assignment].status == Running
  }

  /**
    A phase is accepted exactly in an active objective with no transition
    pending, by an operator or by a session of it that is running under a valid
    lease, when no other session is unfinished, the caller names the phase
    that follows, if any, and that phase's inputs resolve. What follows is
    the next requested phase; the run waits for approval unless it advances by
    itself, and its queued successor is cancelled.
   */
  lemma AcceptanceRules(c: Config, s: State, r: nat, agent: Option<nat>, requested: Option<Phase>, resolvable: bool)
    requires r < |s.runs| && r < |c.runs|
    ensures var out := AcceptPhase(c, s, r, agent, requested, resolvable); var run := s.runs[r]; var n := |run.history| + 1;
            var kind := if n < |c.runs[r].phases| then Some(c.runs[r].phases[n]) else None;
            var current := if agent.Some? && agent.value < |s.executions| then Some(s.executions[agent.value].assignment) else None;
            && (out.Commit? <==>
                  && c.runs[r].mode == Objective && run.status == RunActive && run.next == None
                  && (agent.Some? ==> ActsIn(s, r, agent.value)) && !Unfinished(s, r, current)
                  && (requested.Some? ==> requested == kind) && (kind.Some? ==> resolvable))
            && (out.Commit? ==>
                  && out.state == s.(runs := out.state.runs, assignments := out.state.assignments)
                  && out.state.runs == s.runs[r := run.(history := run.history + [run.phase], next := Some(Accepted(kind, current)),
                                                        status := if c.runs[r].autoAdvance then RunActive else RunPaused)]
                  && |out.state.assignments| == |s.assignments|
                  && (forall a | 0 <= a < |s.assignments| ::
                        out.state.assignments[a] ==
                          if s.assignments[a].run == r && s.assignments[a].key == NextKey && s.assignments[a].status == Pending
                          then s.assignments[a].(status := Cancelled, finishedAt := Some(s.now)) else s.assignments[a]))
  {
    hide OthersOpen; hide Unfinished;
    if agent.Some? && agent.value < |s.executions| { UnfinishedIs(s, r, Some(s.executions[agent.value].assignment)); }
    UnfinishedIs(s, r, None);
    if agent.Some? { ActingIs(s, r, agent.value); }
  }

  lemma ActingIs(s: State, r: nat, e: nat)
    ensures Acting(s, r, e) <==> ActsIn(s, r, e)
  {
  }

  /**
    An accepted transition is taken exactly when no session of the run is
    unfinished, none of its executions may be running and nothing is left to
    deliver: into the accepted phase with a fresh planner, or, after the last
    one and if the objective may close, into draining. Otherwise nothing changes.
   */
  lemma AdvanceRules(c: Config, s: State, r: nat, deliveries: bool, closable: bool, frontier: nat)
    requires r < |s.runs| && r < |c.runs| && s.runs[r].next.Some?
    ensures var out := AdvancePhase(c, s, r, deliveries, closable, frontier); var run := s.runs[r]; var target := run.next.value.target;
            var settled := !deliveries
                           && (forall a | 0 <= a < |s.assignments| && s.assignments[a].run == r :: s.assignments[a].status in {Completed, Failed, Cancelled})
                           && (forall e | 0 <= e < |s.executions| && RunOf(s, s.executions[e].assignment) == r :: !Busy(c, s, e));
            && (!settled || (target.None? && !closable) ==> out == Commit(s))
            && (settled && target.None? && closable ==> out == Commit(s.(runs := s.runs[r := run.(next := None, status := RunDraining)])))
            && (settled && target.Some? && out.Commit? ==>
                  out.state.runs == s.runs[r := run.(phase := target.value, next := None, planner := Planner(true, NotPaused, 0, frontier, None))])
  {
    hide EnsureSuccessor; hide Busy;
    if RunOccupied(s, r) {
      var a :| 0 <= a < |s.assignments| && s.assignments[a].run == r && Open(s.assignments[a].status);
    } else {
      forall a | 0 <= a < |s.assignments| && s.assignments[a].run == r ensures s.assignments[a].status in {Completed, Failed, Cancelled} {
        assert !Open(s.assignments[a].status);
      }
    }
    var out := AdvancePhase(c, s, r, deliveries, closable, frontier);
    if !RunOccupied(s, r) && !RunBusy(c, s, r) && !deliveries && s.runs[r].next.value.target.Some? && out.Commit? {
      SuccessorQueues(c, s.(runs := s.runs[r := s.runs[r].(phase := s.runs[r].next.value.target.value, next := None,
                              planner := Planner(true, NotPaused, 0, frontier, None))]), r);
    }
  }

  /**
    A new frontier wakes the planner of an active objective unless an operator
    or a cancellation paused it: the rule starts over, and its queued successor
    is due at once.
   */
  lemma WakeRules(c: Config, s: State, r: nat, frontier: nat, deliveries: bool, closable: bool)
    requires r < |s.runs| && r < |c.runs|
    ensures var out := ReconcileRun(c, s, r, frontier, deliveries, closable); var rule := s.runs[r].planner;
            && (out.Commit? ==> c.runs[r].mode == Objective && s.runs[r].status == RunActive)
            && (out.Commit? && s.runs[r].next.None? ==>
                  var t := out.state; var woken := frontier != rule.frontier && rule.pause in {NotPaused, Idle};
                  && |s.assignments| <= |t.assignments| <= |s.assignments| + 1
                  && t.runs == (if woken then s.runs[r := s.runs[r].(planner := Planner(true, NotPaused, 0, frontier, None))] else s.runs)
                  && (forall a | 0 <= a < |s.assignments| ::
                        t.assignments[a] ==
                          if woken && s.assignments[a].run == r && s.assignments[a].key == NextKey && s.assignments[a].status == Pending
                          then s.assignments[a].(pause := None, notBefore := None) else s.assignments[a]))
  {
    hide EnsureSuccessor; hide AdvancePhase;
    if s.runs[r].next.None? && ReconcileRun(c, s, r, frontier, deliveries, closable).Commit? {
      var rule := s.runs[r].planner;
      var m := if !(frontier != rule.frontier && (rule.pause.NotPaused? || rule.pause.Idle?)) then s else s.(
        runs := s.runs[r := s.runs[r].(planner := Planner(true, NotPaused, 0, frontier, None))],
        assignments := seq(|s.assignments|, (a: nat) requires a < |s.assignments| =>
          if s.assignments[a].run == r && s.assignments[a].key.NextKey? && s.assignments[a].status.Pending?
          then s.assignments[a].(pause := None, notBefore := None) else s.assignments[a]));
      SuccessorAppends(c, m, r);
    }
  }

  lemma SuccessorAppends(c: Config, s: State, r: nat)
    requires r < |s.runs| && r < |c.runs| && EnsureSuccessor(c, s, r).Commit?
    ensures var t := EnsureSuccessor(c, s, r).state;
            && t == s.(assignments := t.assignments) && |s.assignments| <= |t.assignments| <= |s.assignments| + 1
            && (forall a | 0 <= a < |s.assignments| :: t.assignments[a] == s.assignments[a])
  {
    hide Queued;
  }
}
