/**
  What every step keeps about the rows: references, session and execution
  status, contexts and claims. No capacity reasoning happens here.
 */
module Structure {
  import opened Wrappers
  import opened Records
  import opened Admission
  import opened Protocol

  // ---- Invariants ----

  ghost predicate RefsOk(c: Config, s: State) {
    && |s.runs| == |c.runs|
    && |s.limits| == |c.limits|
    && (forall a | 0 <= a < |s.assignments| :: s.assignments[a].run < |s.runs|)
    && (forall e | 0 <= e < |s.executions| ::
          && s.executions[e].assignment < |s.assignments|
          && s.executions[e].workspace < |s.places|
          && s.executions[e].host == s.places[s.executions[e].workspace].host
          && (s.executions[e].host, s.executions[e].harness) in c.pools)
    && (forall t | 0 <= t < |s.threads| ::
          s.threads[t].assignment < |s.assignments| && s.threads[t].workspace < |s.places|)
    && (forall q | 0 <= q < |s.turns| ::
          && s.turns[q].execution < |s.executions| && s.turns[q].thread < |s.threads|
          && s.threads[s.turns[q].thread].assignment == s.executions[s.turns[q].execution].assignment)
    && (forall k | 0 <= k < |s.claims| :: s.claims[k].execution < |s.executions| && s.claims[k].limit < |s.limits|)
  }

  // An objective session keeps its category's role and is never `failed`.
  ghost predicate Enrolled(c: Config, item: Assignment) {
    item.run < |c.runs| && c.runs[item.run].mode.Objective? ==>
      && item.category < |c.runs[item.run].policies|
      && item.role == c.runs[item.run].policies[item.category].role
      && !item.status.Failed?
  }

  // A session is stopping exactly when its execution was told to stop.
  ghost predicate StopAgrees(s: State, e: nat) {
    e < |s.executions| && s.executions[e].assignment < |s.assignments| ==>
      (s.executions[e].status.ExecStopping? <==> s.assignments[s.executions[e].assignment].status.Stopping?)
  }

  ghost predicate SessionsOk(c: Config, s: State) {
    && (forall a | 0 <= a < |s.assignments| ::
          && Enrolled(c, s.assignments[a])
          && (s.assignments[a].finishedAt.Some? <==> Settled(s.assignments[a].status))
          && (s.assignments[a].status.Running? || s.assignments[a].status.Stopping? ==> LiveSession(s, a)))
    && (forall e | 0 <= e < |s.executions| && Live(s.executions[e].status) ::
          && !s.executions[e].confirmed
          && StopAgrees(s, e)
          && s.executions[e].assignment < |s.assignments|
          && (s.assignments[s.executions[e].assignment].status.Running?
              || s.assignments[s.executions[e].assignment].status.Stopping?))
    && (forall e, f | 0 <= e < f < |s.executions| ::
          s.executions[e].assignment == s.executions[f].assignment ==>
          !(Live(s.executions[e].status) && Live(s.executions[f].status)))
  }

  ghost predicate HasThread(s: State, a: nat) {
    exists t | 0 <= t < |s.threads| :: s.threads[t].assignment == a
  }

  // Every context and every execution of a session lives in one workspace, and
  // at most one context is retained.
  ghost predicate ContextsOk(s: State) {
    && (forall t, u | 0 <= t < |s.threads| && 0 <= u < |s.threads| ::
          s.threads[t].assignment == s.threads[u].assignment ==>
          && s.threads[t].workspace == s.threads[u].workspace
          && (Retained(s.threads[t].status) && Retained(s.threads[u].status) ==> t == u))
    && (forall e, t | 0 <= e < |s.executions| && 0 <= t < |s.threads| ::
          s.executions[e].assignment == s.threads[t].assignment ==>
          s.executions[e].workspace == s.threads[t].workspace)
    && (forall e | 0 <= e < |s.executions| :: HasThread(s, s.executions[e].assignment))
  }

  // A claim is held exactly while the stop of its execution is unconfirmed.
  ghost predicate ClaimsOk(s: State) {
    forall k | 0 <= k < |s.claims| ::
      && s.claims[k].execution < |s.executions|
      && (s.claims[k].released <==> s.executions[s.claims[k].execution].confirmed)
      && s.claims[k].units == 1 + s.executions[s.claims[k].execution].native
  }

  ghost predicate Sound(c: Config, s: State) {
    RefsOk(c, s) && SessionsOk(c, s) && ContextsOk(s) && ClaimsOk(s)
  }

  // ---- What every step other than an admission does to occupancy ----

  ghost predicate SameJob(x: Execution, y: Execution) {
    && x.assignment == y.assignment && x.number == y.number && x.host == y.host && x.harness == y.harness
    && x.workspace == y.workspace && x.native == y.native && x.startedAt == y.startedAt
    && (!Live(x.status) ==> !Live(y.status) && x.finishedAt == y.finishedAt)
    && (x.confirmed ==> y.confirmed)
    && (x.status.ExecStopping? && Live(y.status) ==> y.status.ExecStopping? && y.leaseUntil == x.leaseUntil)
  }

  ghost predicate SameOrder(x: Assignment, y: Assignment) {
    && x.run == y.run && x.role == y.role && x.category == y.category && x.plans == y.plans
    && x.rule == y.rule && x.supervises == y.supervises && x.expiresAt == y.expiresAt
  }

  // A directory stays where it is: it becomes ready once prepared, and a
  // retired or broken one never returns.
  ghost predicate PlaceMoves(x: Place, y: Place) {
    && y == x.(status := y.status)
    && (x.status.Ready? ==> y.status.Ready? || y.status.Retired?)
    && (x.status.Preparing? ==> y.status.Preparing? || y.status.Ready? || y.status.Retired?)
    && (x.status.Retired? || x.status.Broken? ==> y.status == x.status)
  }

  // A context keeps its session, directory and harness, and its provider
  // identity once it has one.
  ghost predicate ThreadMoves(x: Thread, y: Thread) {
    && y == x.(native := y.native, status := y.status)
    && (x.native.Some? ==> y.native == x.native)
  }

  ghost predicate Evolves(s: State, t: State) {
    && s.now <= t.now
    && |s.threads| <= |t.threads|
    && (forall i | 0 <= i < |s.threads| :: ThreadMoves(s.threads[i], t.threads[i]))
    && |s.places| == |t.places|
    && (forall w | 0 <= w < |s.places| :: PlaceMoves(s.places[w], t.places[w]))
    && |s.executions| == |t.executions|
    && (forall e | 0 <= e < |s.executions| :: SameJob(s.executions[e], t.executions[e]))
    && |s.assignments| <= |t.assignments|
    && (forall a | 0 <= a < |s.assignments| ::
          SameOrder(s.assignments[a], t.assignments[a]) && t.assignments[a].startedAt == s.assignments[a].startedAt)
    && (forall a | |s.assignments| <= a < |t.assignments| :: t.assignments[a].startedAt.None?)
    && |s.turns| <= |t.turns|
    && (forall q | 0 <= q < |s.turns| ::
          && s.turns[q].execution == t.turns[q].execution && s.turns[q].thread == t.turns[q].thread
          && (Unsettled(t.turns[q].status) ==> Unsettled(s.turns[q].status)))
    && (forall q | |s.turns| <= q < |t.turns| ::
          t.turns[q].execution < |s.executions| && Live(s.executions[t.turns[q].execution].status))
    // A request is sent on a context only when all earlier ones are settled.
    && (forall p, q | 0 <= p < q && |s.turns| <= q < |t.turns| && t.turns[p].thread == t.turns[q].thread ::
          !Unsettled(t.turns[p].status))
    && |s.claims| == |t.claims|
    && (forall k | 0 <= k < |s.claims| ::
          && s.claims[k].limit == t.claims[k].limit && s.claims[k].execution == t.claims[k].execution
          && s.claims[k].units == t.claims[k].units && (s.claims[k].released ==> t.claims[k].released))
  }

  lemma EvolvesTrans(s: State, t: State, u: State)
    requires Evolves(s, t) && Evolves(t, u)
    ensures Evolves(s, u)
  {
  }

  lemma EvolvesRefl(s: State)
    ensures Evolves(s, s)
  {
  }

  // ---- Frames: which rows a step may touch without endangering the rest ----

  lemma ContextsFrame(s: State, t: State)
    requires ContextsOk(s)
    requires |t.threads| == |s.threads| && |t.executions| == |s.executions|
    requires forall i | 0 <= i < |s.threads| ::
               && t.threads[i].assignment == s.threads[i].assignment && t.threads[i].workspace == s.threads[i].workspace
               && (Retained(t.threads[i].status) ==> Retained(s.threads[i].status))
    requires forall e | 0 <= e < |s.executions| ::
               && t.executions[e].assignment == s.executions[e].assignment
               && t.executions[e].workspace == s.executions[e].workspace
    ensures ContextsOk(t)
  {
    forall e | 0 <= e < |t.executions| ensures HasThread(t, t.executions[e].assignment) {
      assert HasThread(s, s.executions[e].assignment);
      var i :| 0 <= i < |s.threads| && s.threads[i].assignment == s.executions[e].assignment;
      assert t.threads[i].assignment == t.executions[e].assignment;
    }
  }

  // Assignment edits that keep status, enrolment and dates coherent.
  ghost predicate MildEdit(c: Config, x: Assignment, y: Assignment) {
    && SameOrder(x, y) && x.startedAt == y.startedAt
    && (Enrolled(c, x) ==> Enrolled(c, y))
    && ((x.finishedAt.Some? <==> Settled(x.status)) ==> (y.finishedAt.Some? <==> Settled(y.status)))
    && ((x.status.Running? || x.status.Stopping?) <==> (y.status.Running? || y.status.Stopping?))
    && (x.status.Stopping? ==> y.status.Stopping?)
  }

  ghost predicate FreshRow(c: Config, s: State, x: Assignment) {
    && x.run < |s.runs| && Enrolled(c, x) && x.status.Pending? && x.finishedAt.None? && x.startedAt.None?
  }

  lemma SessionsFrame(c: Config, s: State, t: State)
    requires RefsOk(c, s) && SessionsOk(c, s)
    requires |t.executions| == |s.executions|
    requires forall e | 0 <= e < |s.executions| ::
               && t.executions[e].assignment == s.executions[e].assignment
               && (Live(t.executions[e].status) <==> Live(s.executions[e].status))
               && (Live(t.executions[e].status) ==> !t.executions[e].confirmed)
               && (Live(t.executions[e].status) ==> StopAgrees(s, e) ==> StopAgrees(t, e))
    requires |t.assignments| >= |s.assignments|
    requires forall a | 0 <= a < |s.assignments| :: MildEdit(c, s.assignments[a], t.assignments[a])
    requires forall a | |s.assignments| <= a < |t.assignments| :: FreshRow(c, s, t.assignments[a])
    ensures SessionsOk(c, t)
  {
    forall a | 0 <= a < |t.assignments| && (t.assignments[a].status.Running? || t.assignments[a].status.Stopping?)
      ensures LiveSession(t, a)
    {
      assert a < |s.assignments| && MildEdit(c, s.assignments[a], t.assignments[a]);
      var e :| 0 <= e < |s.executions| && s.executions[e].assignment == a && Live(s.executions[e].status);
      assert t.executions[e].assignment == a && Live(t.executions[e].status);
    }
    forall e | 0 <= e < |t.executions| && Live(t.executions[e].status)
      ensures t.executions[e].assignment < |t.assignments|
              && (t.assignments[t.executions[e].assignment].status.Running?
                  || t.assignments[t.executions[e].assignment].status.Stopping?)
    {
      var a := s.executions[e].assignment;
      assert Live(s.executions[e].status);
      assert MildEdit(c, s.assignments[a], t.assignments[a]);
    }
  }

  lemma RefsFrame(c: Config, s: State, t: State)
    requires RefsOk(c, s)
    requires |t.runs| == |s.runs| && |t.limits| == |s.limits|
    requires |t.executions| == |s.executions| && |t.threads| == |s.threads| && |t.turns| == |s.turns|
    requires |t.claims| == |s.claims| && |t.places| == |s.places|
    requires forall w | 0 <= w < |s.places| :: t.places[w].host == s.places[w].host
    requires |t.assignments| >= |s.assignments|
    requires forall a | 0 <= a < |s.assignments| :: t.assignments[a].run == s.assignments[a].run
    requires forall a | |s.assignments| <= a < |t.assignments| :: t.assignments[a].run < |s.runs|
    requires forall e | 0 <= e < |s.executions| :: SameJob(s.executions[e], t.executions[e])
    requires forall i | 0 <= i < |s.threads| ::
               t.threads[i].assignment == s.threads[i].assignment && t.threads[i].workspace == s.threads[i].workspace
    requires forall q | 0 <= q < |s.turns| ::
               t.turns[q].execution == s.turns[q].execution && t.turns[q].thread == s.turns[q].thread
    requires forall k | 0 <= k < |s.claims| ::
               t.claims[k].execution == s.claims[k].execution && t.claims[k].limit == s.claims[k].limit
    ensures RefsOk(c, t)
  {
  }

  // A step that starts, ends and confirms no execution, adds no context and
  // revives none: every table keeps its shape.
  ghost predicate Minor(c: Config, s: State, t: State) {
    && s.now <= t.now
    && |t.runs| == |s.runs| && |t.limits| == |s.limits| && t.claims == s.claims
    && |t.places| == |s.places| && (forall w | 0 <= w < |s.places| :: PlaceMoves(s.places[w], t.places[w]))
    && |t.executions| == |s.executions|
    && (forall e | 0 <= e < |s.executions| ::
          && SameJob(s.executions[e], t.executions[e])
          && t.executions[e].confirmed == s.executions[e].confirmed
          && (Live(t.executions[e].status) <==> Live(s.executions[e].status))
          && (Live(t.executions[e].status) ==> StopAgrees(s, e) ==> StopAgrees(t, e)))
    && |t.threads| == |s.threads|
    && (forall i | 0 <= i < |s.threads| ::
          && ThreadMoves(s.threads[i], t.threads[i])
          && (Retained(t.threads[i].status) ==> Retained(s.threads[i].status)))
    && |t.turns| == |s.turns|
    && (forall q | 0 <= q < |s.turns| ::
          && t.turns[q].execution == s.turns[q].execution && t.turns[q].thread == s.turns[q].thread
          && (Unsettled(t.turns[q].status) ==> Unsettled(s.turns[q].status)))
    && |t.assignments| >= |s.assignments|
    && (forall a | 0 <= a < |s.assignments| :: MildEdit(c, s.assignments[a], t.assignments[a]))
    && (forall a | |s.assignments| <= a < |t.assignments| :: FreshRow(c, s, t.assignments[a]))
  }

  lemma MinorKeeps(c: Config, s: State, t: State)
    requires Sound(c, s) && Minor(c, s, t)
    ensures Sound(c, t) && Evolves(s, t)
  {
    RefsFrame(c, s, t);
    ContextsFrame(s, t);
    SessionsFrame(c, s, t);
  }

  // Queueing one coherent row.
  lemma AppendKeeps(c: Config, s: State, x: Assignment)
    requires Sound(c, s) && FreshRow(c, s, x)
    ensures Sound(c, s.(assignments := s.assignments + [x]))
    ensures Evolves(s, s.(assignments := s.assignments + [x]))
  {
    var t := s.(assignments := s.assignments + [x]);
    assert Minor(c, s, t);
    MinorKeeps(c, s, t);
  }

  // The planner recurrence only queues, keys and pauses.
  lemma SuccessorShape(c: Config, s: State, r: nat)
    requires WellFormed(c) && r < |s.runs| && r < |c.runs| && c.runs[r].mode.Objective?
    requires EnsureSuccessor(c, s, r).Commit?
    ensures EnsureSuccessor(c, s, r).state == s ||
            (&& EnsureSuccessor(c, s, r).state == s.(assignments := s.assignments + [NewPlanner(r, s.runs[r].planner)])
             && s.runs[r].status.RunActive? && s.runs[r].next.None? && !KeyLive(s, r, NextKey))
  {
  }

  lemma SuccessorKeeps(c: Config, s: State, r: nat)
    requires WellFormed(c) && Sound(c, s) && r < |s.runs| && r < |c.runs| && c.runs[r].mode.Objective?
    requires EnsureSuccessor(c, s, r).Commit?
    ensures Sound(c, EnsureSuccessor(c, s, r).state) && Evolves(s, EnsureSuccessor(c, s, r).state)
  {
    SuccessorShape(c, s, r);
    var x := NewPlanner(r, s.runs[r].planner);
    assert FreshRow(c, s, x);
    AppendKeeps(c, s, x);
  }

  // ---- Minor steps ----

  lemma RunEditKeeps(c: Config, s: State, runs: seq<Run>)
    requires Sound(c, s) && |runs| == |s.runs|
    ensures Sound(c, s.(runs := runs)) && Evolves(s, s.(runs := runs))
  {
    assert Minor(c, s, s.(runs := runs));
    MinorKeeps(c, s, s.(runs := runs));
  }

  lemma AssignmentEditKeeps(c: Config, s: State, assignments: seq<Assignment>)
    requires Sound(c, s) && |assignments| == |s.assignments|
    requires forall a | 0 <= a < |s.assignments| ::
               && MildEdit(c, s.assignments[a], assignments[a])
               && (assignments[a].status.Stopping? ==> s.assignments[a].status.Stopping?)
    ensures Sound(c, s.(assignments := assignments)) && Evolves(s, s.(assignments := assignments))
  {
    assert Minor(c, s, s.(assignments := assignments));
    MinorKeeps(c, s, s.(assignments := assignments));
  }

  lemma StopKeeps(c: Config, s: State, a: nat)
    requires Sound(c, s) && a < |s.assignments| && !Settled(s.assignments[a].status)
    ensures Sound(c, StopSession(s, a)) && Evolves(s, StopSession(s, a))
  {
    hide Sound; hide Evolves;
    if s.assignments[a].status.Pending? { PendingIdle(c, s, a); }
    StopMinor(c, s, a);
    MinorKeeps(c, s, StopSession(s, a));
  }

  // A queued session has no live execution.
  lemma PendingIdle(c: Config, s: State, a: nat)
    requires Sound(c, s) && a < |s.assignments| && s.assignments[a].status.Pending?
    ensures !LiveSession(s, a)
  {
  }

  lemma StopMinor(c: Config, s: State, a: nat)
    requires a < |s.assignments| && !Settled(s.assignments[a].status)
    requires s.assignments[a].status.Pending? ==> !LiveSession(s, a)
    ensures Minor(c, s, StopSession(s, a))
  {
  }

  lemma CancelKeeps(c: Config, s: State, a: nat, disable: bool)
    requires Sound(c, s) && a < |s.assignments|
    ensures Sound(c, Cancel(c, s, a, disable)) && Evolves(s, Cancel(c, s, a, disable))
    ensures |Cancel(c, s, a, disable).assignments| == |s.assignments|
  {
    hide Sound; hide Evolves; hide StopSession;
    if Settled(s.assignments[a].status) {
      EvolvesRefl(s);
    } else {
      StopKeeps(c, s, a);
      StopShape(s, a);
      var t, z := StopSession(s, a), Cancel(c, s, a, disable);
      if z != t {
        RunEditKeeps(c, t, z.runs);
        var u := t.(runs := z.runs);
        AssignmentEditKeeps(c, u, z.assignments);
        assert z == u.(assignments := z.assignments);
        EvolvesTrans(s, t, u);
        EvolvesTrans(s, u, z);
      }
    }
  }

  lemma StopShape(s: State, a: nat)
    requires a < |s.assignments|
    ensures |StopSession(s, a).assignments| == |s.assignments| && StopSession(s, a).runs == s.runs
  {
  }

  lemma {:induction false} CancelRestKeeps(c: Config, s: State, r: nat, draining: bool, n: nat)
    requires Sound(c, s) && n <= |s.assignments|
    ensures Sound(c, CancelRest(c, s, r, draining, n)) && Evolves(s, CancelRest(c, s, r, draining, n))
    decreases |s.assignments| - n
  {
    hide Sound; hide Evolves; hide Cancel;
    EvolvesRefl(s);
    if n < |s.assignments| {
      CancelKeeps(c, s, n, !draining);
      var item := s.assignments[n];
      var chosen := item.run == r && (if draining then item.status.Pending? && !item.rule.NoRule?
                                      else item.status.Pending? || item.status.Running?);
      var t := if chosen then Cancel(c, s, n, !draining) else s;
      CancelRestKeeps(c, t, r, draining, n + 1);
      EvolvesTrans(s, t, CancelRest(c, t, r, draining, n + 1));
    }
  }

  lemma TransitionKeeps(c: Config, s: State, r: nat, op: RunOp, done: bool, unpublished: bool)
    requires WellFormed(c) && Sound(c, s) && Transition(c, s, r, op, done, unpublished).Commit?
    ensures Sound(c, Transition(c, s, r, op, done, unpublished).state)
    ensures Evolves(s, Transition(c, s, r, op, done, unpublished).state)
  {
    hide Sound; hide Evolves; hide CancelRest;
    var u := Transition(c, s, r, op, done, unpublished).state;
    var run := s.runs[r];
    var status := match op
      case PauseRun => RunPaused
      case ResumeRun => RunActive
      case DrainRun => RunDraining
      case CompleteRun => RunCompleted
      case ReopenRun => RunActive
      case CancelRun => RunStopping;
    var planner := if op.CancelRun? then run.planner.(enabled := false) else run.planner;
    var runs := s.runs[r := run.(status := status, planner := planner)];
    var t := s.(runs := runs);
    RunEditKeeps(c, s, runs);
    if op.DrainRun? || op.CancelRun? {
      CancelRestKeeps(c, t, r, op.DrainRun?, 0);
      EvolvesTrans(s, t, u);
    } else if op.ReopenRun? && c.runs[r].mode.Objective? && run.planner.enabled {
      SuccessorKeeps(c, t, r);
      EvolvesTrans(s, t, u);
    }
  }

  lemma SwitchKeeps(c: Config, s: State, r: nat, enabled: bool)
    requires WellFormed(c) && Sound(c, s) && SwitchPlanner(c, s, r, enabled).Commit?
    ensures Sound(c, SwitchPlanner(c, s, r, enabled).state) && Evolves(s, SwitchPlanner(c, s, r, enabled).state)
  {
    hide Sound; hide Evolves;
    var z := SwitchPlanner(c, s, r, enabled).state;
    var was := s.runs[r].planner;
    var runs := s.runs[r := s.runs[r].(planner := was.(enabled := enabled,
                                       pause := if enabled then NotPaused else ByOperator))];
    var t := s.(runs := runs);
    RunEditKeeps(c, s, runs);
    if enabled && !was.enabled {
      SuccessorKeeps(c, t, r);
      var u := EnsureSuccessor(c, t, r).state;
      AssignmentEditKeeps(c, u, z.assignments);
      assert z == u.(assignments := z.assignments);
      EvolvesTrans(s, t, u);
      EvolvesTrans(s, u, z);
    } else if !enabled {
      AssignmentEditKeeps(c, t, z.assignments);
      EvolvesTrans(s, t, z);
    }
  }

  lemma PassKeeps(c: Config, s: State, r: nat, observed: nat)
    requires WellFormed(c) && Sound(c, s) && r < |s.runs| && r < |c.runs| && c.runs[r].mode.Objective?
    requires PassCompleted(c, s, r, observed).Commit?
    ensures Sound(c, PassCompleted(c, s, r, observed).state) && Evolves(s, PassCompleted(c, s, r, observed).state)
  {
    hide Sound; hide Evolves;
    var z := PassCompleted(c, s, r, observed).state;
    var runs := s.runs[r := s.runs[r].(planner := AfterPass(c, s.runs[r].planner, observed, s.now))];
    var t := s.(runs := runs);
    RunEditKeeps(c, s, runs);
    SuccessorKeeps(c, t, r);
    var u := EnsureSuccessor(c, t, r).state;
    AssignmentEditKeeps(c, u, z.assignments);
    assert z == u.(assignments := z.assignments);
    EvolvesTrans(s, t, u);
    EvolvesTrans(s, u, z);
  }

  lemma AcceptMinor(c: Config, s: State, r: nat, agent: Option<nat>, requested: Option<Phase>, ok: bool)
    requires AcceptPhase(c, s, r, agent, requested, ok).Commit?
    ensures Minor(c, s, AcceptPhase(c, s, r, agent, requested, ok).state)
  {
    hide OthersOpen; hide Acting;
  }

  lemma AcceptKeeps(c: Config, s: State, r: nat, agent: Option<nat>, requested: Option<Phase>, ok: bool)
    requires Sound(c, s) && AcceptPhase(c, s, r, agent, requested, ok).Commit?
    ensures Sound(c, AcceptPhase(c, s, r, agent, requested, ok).state)
    ensures Evolves(s, AcceptPhase(c, s, r, agent, requested, ok).state)
  {
    hide Sound; hide Evolves; hide AcceptPhase; hide Minor;
    AcceptMinor(c, s, r, agent, requested, ok);
    MinorKeeps(c, s, AcceptPhase(c, s, r, agent, requested, ok).state);
  }

  lemma ReconcileKeeps(c: Config, s: State, r: nat, frontier: nat, deliveries: bool, closable: bool)
    requires WellFormed(c) && Sound(c, s) && ReconcileRun(c, s, r, frontier, deliveries, closable).Commit?
    ensures Sound(c, ReconcileRun(c, s, r, frontier, deliveries, closable).state)
    ensures Evolves(s, ReconcileRun(c, s, r, frontier, deliveries, closable).state)
  {
    hide Sound; hide Evolves;
    var z := ReconcileRun(c, s, r, frontier, deliveries, closable).state;
    var run := s.runs[r];
    var awake := Planner(true, NotPaused, 0, frontier, None);
    EvolvesRefl(s);
    if run.next.Some? {
      if z != s {
        match run.next.value.target
        case None => RunEditKeeps(c, s, z.runs);
        case Some(phase) =>
          var runs := s.runs[r := run.(phase := phase, next := None, planner := awake)];
          RunEditKeeps(c, s, runs);
          SuccessorKeeps(c, s.(runs := runs), r);
          EvolvesTrans(s, s.(runs := runs), z);
      }
    } else if frontier != run.planner.frontier && (run.planner.pause.NotPaused? || run.planner.pause.Idle?) {
      var runs := s.runs[r := run.(planner := awake)];
      var assignments := seq(|s.assignments|, (a: nat) requires a < |s.assignments| =>
        if s.assignments[a].run == r && s.assignments[a].key.NextKey? && s.assignments[a].status.Pending?
        then s.assignments[a].(pause := None, notBefore := None) else s.assignments[a]);
      var t := s.(runs := runs);
      var u := t.(assignments := assignments);
      RunEditKeeps(c, s, runs);
      AssignmentEditKeeps(c, t, assignments);
      EvolvesTrans(s, t, u);
      assert u == s.(runs := runs, assignments := assignments);
      SuccessorKeeps(c, u, r);
      EvolvesTrans(s, u, z);
    } else {
      SuccessorKeeps(c, s, r);
    }
  }

  lemma EnqueueKeeps(c: Config, s: State, q: Request)
    requires Sound(c, s) && Enqueue(c, s, q).Commit?
    ensures Sound(c, Enqueue(c, s, q).state) && Evolves(s, Enqueue(c, s, q).state)
  {
    var t := Enqueue(c, s, q).state;
    var x := t.assignments[|s.assignments|];
    assert t == s.(assignments := s.assignments + [x]);
    assert FreshRow(c, s, x);
    AppendKeeps(c, s, x);
  }

  // The remaining minor steps, each a plain edit of existing rows.
  lemma ElapseMinor(c: Config, s: State, d: nat)
    ensures Minor(c, s, s.(now := s.now + d))
  {
  }

  lemma HeartbeatMinor(c: Config, s: State, e: nat, epoch: nat)
    requires Known(c, s, e) && Heartbeat(c, s, e, epoch).Commit?
    ensures Minor(c, s, Heartbeat(c, s, e, epoch).state)
  {
  }

  lemma SettleTurnMinor(c: Config, s: State, q: nat)
    requires SettleTurn(s, q).Commit?
    ensures Minor(c, s, SettleTurn(s, q).state)
  {
  }

  lemma TurnObservedMinor(c: Config, s: State, e: nat, epoch: nat, q: nat, identified: bool)
    requires TurnObserved(s, e, epoch, q, identified).Commit?
    ensures Minor(c, s, TurnObserved(s, e, epoch, q, identified).state)
  {
  }

  lemma PreparedMinor(c: Config, s: State, e: nat, epoch: nat)
    requires Prepared(s, e, epoch).Commit?
    ensures Minor(c, s, Prepared(s, e, epoch).state)
  {
  }

  lemma SettleRunMinor(c: Config, s: State, r: nat)
    requires SettleRun(s, r).Commit?
    ensures Minor(c, s, SettleRun(s, r).state)
  {
  }

  lemma CheckpointMinor(c: Config, s: State, a: nat, notBefore: Option<int>)
    requires Checkpoint(s, a, notBefore).Commit?
    ensures Minor(c, s, Checkpoint(s, a, notBefore).state)
  {
  }

  lemma ResumeMinor(c: Config, s: State, a: nat)
    requires ResumeSession(s, a).Commit?
    ensures Minor(c, s, ResumeSession(s, a).state)
  {
  }

  lemma RetryMinor(c: Config, s: State, a: nat)
    requires RetrySession(c, s, a).Commit?
    ensures Minor(c, s, RetrySession(c, s, a).state)
  {
  }

  lemma ResetMinor(c: Config, s: State, l: nat)
    requires ResetCircuit(s, l).Commit?
    ensures Minor(c, s, ResetCircuit(s, l).state)
  {
  }

  lemma OrphansMinor(c: Config, s: State, a: nat, host: nat)
    ensures Minor(c, s, RetireOrphans(s, a, host))
  {
    hide Orphaned;
  }

  lemma FailedMinor(c: Config, s: State, a: nat)
    ensures Minor(c, s, RetireFailed(c, s, a))
  {
    hide FailedContext;
  }

  lemma RetirePlaceMinor(c: Config, s: State, w: nat, pinned: bool)
    requires RetirePlace(s, w, pinned).Commit?
    ensures Minor(c, s, RetirePlace(s, w, pinned).state)
  {
  }

  lemma ReopenMinor(c: Config, s: State, a: nat)
    requires ReopenSession(c, s, a).Commit?
    ensures Minor(c, s, ReopenSession(c, s, a).state)
  {
  }

  // ---- Ending an execution ----

  // Execution e ends or has its stop confirmed; its claims follow the
  // confirmation; its session is settled or queued again.
  ghost predicate Fences(c: Config, s: State, t: State, e: nat) {
    && e < |s.executions| && s.executions[e].assignment < |s.assignments|
    && s.now == t.now && |t.runs| == |s.runs| && |t.limits| == |s.limits| && t.places == s.places
    && |t.executions| == |s.executions|
    && (forall f | 0 <= f < |s.executions| && f != e :: t.executions[f] == s.executions[f])
    && SameJob(s.executions[e], t.executions[e]) && !Live(t.executions[e].status)
    && |t.threads| == |s.threads|
    && (forall i | 0 <= i < |s.threads| ::
          && ThreadMoves(s.threads[i], t.threads[i])
          && (Retained(t.threads[i].status) ==> Retained(s.threads[i].status)))
    && |t.turns| == |s.turns|
    && (forall q | 0 <= q < |s.turns| ::
          && t.turns[q].execution == s.turns[q].execution && t.turns[q].thread == s.turns[q].thread
          && (Unsettled(t.turns[q].status) ==> Unsettled(s.turns[q].status)))
    && |t.claims| == |s.claims|
    && (forall k | 0 <= k < |s.claims| ::
          t.claims[k] == if s.claims[k].execution == e && t.executions[e].confirmed
                         then s.claims[k].(released := true) else s.claims[k])
    && |t.assignments| == |s.assignments|
    && (forall b | 0 <= b < |s.assignments| && (b != s.executions[e].assignment || !Live(s.executions[e].status)) ::
          t.assignments[b] == s.assignments[b])
    && (Live(s.executions[e].status) ==> Closes(c, s.assignments[s.executions[e].assignment],
                                                t.assignments[s.executions[e].assignment]))
  }

  ghost predicate Closes(c: Config, x: Assignment, y: Assignment) {
    && SameOrder(x, y) && (Enrolled(c, x) ==> Enrolled(c, y)) && x.key == y.key && x.startedAt == y.startedAt
    && (y.status.Pending? || Settled(y.status))
    && (y.finishedAt.Some? <==> Settled(y.status))
  }

  lemma FencesKeepsRefs(c: Config, s: State, t: State, e: nat)
    requires RefsOk(c, s) && Fences(c, s, t, e)
    ensures RefsOk(c, t)
  {
    forall a | 0 <= a < |s.assignments| ensures t.assignments[a].run == s.assignments[a].run {
      if a != s.executions[e].assignment || !Live(s.executions[e].status) {
        assert t.assignments[a] == s.assignments[a];
      }
    }
    RefsFrame(c, s, t);
  }

  lemma FencesKeepsSessions(c: Config, s: State, t: State, e: nat)
    requires RefsOk(c, s) && SessionsOk(c, s) && Fences(c, s, t, e)
    ensures SessionsOk(c, t)
  {
    var a := s.executions[e].assignment;
    forall b | 0 <= b < |t.assignments| && (t.assignments[b].status.Running? || t.assignments[b].status.Stopping?)
      ensures LiveSession(t, b)
    {
      assert b != a || !Live(s.executions[e].status);
      assert t.assignments[b] == s.assignments[b];
      var f :| 0 <= f < |s.executions| && s.executions[f].assignment == b && Live(s.executions[f].status);
      assert t.executions[f] == s.executions[f];
    }
  }

  lemma FencesEvolves(c: Config, s: State, t: State, e: nat)
    requires RefsOk(c, s) && Fences(c, s, t, e)
    ensures Evolves(s, t)
  {
    forall a | 0 <= a < |s.assignments|
      ensures SameOrder(s.assignments[a], t.assignments[a]) && t.assignments[a].startedAt == s.assignments[a].startedAt
    {
      if a != s.executions[e].assignment || !Live(s.executions[e].status) {
        assert t.assignments[a] == s.assignments[a];
      }
    }
  }

  lemma FencesKeeps(c: Config, s: State, t: State, e: nat)
    requires Sound(c, s) && Fences(c, s, t, e)
    ensures Sound(c, t) && Evolves(s, t)
  {
    FencesKeepsRefs(c, s, t, e);
    FencesKeepsSessions(c, s, t, e);
    FencesEvolves(c, s, t, e);
    ContextsFrame(s, t);
  }

  // Every branch of both finish functions closes the session coherently.
  lemma FailureCloses(c: Config, item: Assignment, retry: Retry, lost: bool, failure: Option<Failure>, now: int,
                      x: Findings, y: Assignment)
    requires y == AfterFailure(item, retry, lost, failure, now, x)
    ensures Closes(c, item, y) && !y.status.Failed?
  {
    hide Jitter; hide Backoff; hide Transient;
  }

  lemma TurnCloses(c: Config, item: Assignment, retry: Retry, now: int, reason: Option<string>, journal: bool,
                   x: Findings, y: Assignment)
    requires y == AfterTurn(item, retry, now, reason, journal, x)
    ensures Closes(c, item, y) && !y.status.Failed?
  {
  }

  lemma ObjectiveCloses(c: Config, item: Assignment, retry: Retry, lost: bool, outcome: Outcome, failure: Option<Failure>,
                        now: int, stopping: bool, reason: Option<string>, journal: bool, x: Findings, y: Assignment)
    requires y == ObjectiveFinish(item, retry, lost, outcome, failure, now, stopping, reason, journal, x)
    ensures Closes(c, item, y) && !y.status.Failed?
  {
    hide AfterFailure; hide AfterTurn; hide Finished;
    if !(stopping || outcome.OutCancelled?) {
      if !Finished(outcome) { FailureCloses(c, item, retry, lost, failure, now, x, y); }
      else { TurnCloses(c, item, retry, now, reason, journal, x, y); }
    }
  }

  lemma LegacyCloses(c: Config, item: Assignment, run: RunStatus, retry: Retry, outcome: Outcome,
                     failure: Option<Failure>, now: int, stopping: bool, reason: Option<string>, journal: bool, x: Findings)
    requires item.run < |c.runs| && c.runs[item.run].mode.Legacy?
    ensures Closes(c, item, LegacyFinish(item, run, retry, outcome, failure, now, stopping, reason, journal, x))
  {
    hide Jitter; hide Backoff; hide Transient; hide Finished; hide Misconfigured;
  }

  lemma AdjustedLength(c: Config, s: State, e: nat, retry: Retry, objective: bool, outcome: Outcome,
                       failure: Option<Failure>, x: Findings)
    requires e < |s.executions|
    ensures |AdjustedLimits(c, s, e, retry, objective, outcome, failure, x)| == |s.limits|
  {
  }

  // The state a stop receipt or a lease sweep hands to `finish`: contexts and
  // turns already edited, the stop perhaps already confirmed.
  ghost predicate Handed(s: State, t: State, e: nat) {
    && e < |s.executions|
    && t == s.(executions := t.executions, turns := t.turns, threads := t.threads)
    && |t.executions| == |s.executions|
    && (forall f | 0 <= f < |s.executions| && f != e :: t.executions[f] == s.executions[f])
    && t.executions[e] == s.executions[e].(confirmed := t.executions[e].confirmed)
    && (s.executions[e].confirmed ==> t.executions[e].confirmed)
    && |t.threads| == |s.threads|
    && (forall i | 0 <= i < |s.threads| ::
          && ThreadMoves(s.threads[i], t.threads[i])
          && (Retained(t.threads[i].status) ==> Retained(s.threads[i].status)))
    && |t.turns| == |s.turns|
    && (forall q | 0 <= q < |s.turns| ::
          && t.turns[q].execution == s.turns[q].execution && t.turns[q].thread == s.turns[q].thread
          && (Unsettled(t.turns[q].status) ==> Unsettled(s.turns[q].status)))
  }

  lemma SettledFences(c: Config, s: State, t: State, e: nat, byHost: bool, outcome: Outcome, given: Option<Failure>,
                      journal: bool, reason: Option<string>, x: Findings)
    requires Known(c, s, e) && Known(c, t, e) && Handed(s, t, e) && Live(s.executions[e].status)
    ensures Fences(c, s, SettledRows(c, t, e, byHost, outcome, given, journal, reason, x), e)
  {
    hide ObjectiveFinish; hide LegacyFinish; hide AdjustedLimits; hide Closes; hide Reclassified; hide ContextLost;
    var failure := Reclassified(given);
    var a := t.executions[e].assignment;
    var item := t.assignments[a];
    var run := t.runs[item.run].status;
    var objective := c.runs[item.run].mode.Objective?;
    var stopping := item.status.Stopping? || Halted(run);
    var retry := RetryOf(c, t, a);
    AdjustedLength(c, t, e, retry, objective, outcome, failure, x);
    if objective {
      ObjectiveCloses(c, item, retry, ContextLost(t, a), outcome, failure, t.now, stopping, reason, journal, x,
                      ObjectiveFinish(item, retry, ContextLost(t, a), outcome, failure, t.now, stopping, reason, journal, x));
    } else {
      LegacyCloses(c, item, run, retry, outcome, failure, t.now, stopping, reason, journal, x);
    }
  }

  lemma SettleKeeps(c: Config, s: State, t: State, e: nat, byHost: bool, outcome: Outcome, given: Option<Failure>,
                    journal: bool, reason: Option<string>, x: Findings)
    requires WellFormed(c) && Sound(c, s) && Known(c, s, e) && Known(c, t, e) && Handed(s, t, e)
    requires Live(s.executions[e].status) && Settle(c, t, e, byHost, outcome, given, journal, reason, x).Commit?
    ensures Sound(c, Settle(c, t, e, byHost, outcome, given, journal, reason, x).state)
    ensures Evolves(s, Settle(c, t, e, byHost, outcome, given, journal, reason, x).state)
    ensures Settle(c, t, e, byHost, outcome, given, journal, reason, x).state.claims
            == SettledRows(c, t, e, byHost, outcome, given, journal, reason, x).claims
  {
    var u := SettledRows(c, t, e, byHost, outcome, given, journal, reason, x);
    assert Fences(c, s, u, e) && Live(t.executions[e].status) by {
      SettledFences(c, s, t, e, byHost, outcome, given, journal, reason, x);
    }
    assert Sound(c, u) && Evolves(s, u) by { FencesKeeps(c, s, u, e); }
    var r := t.assignments[t.executions[e].assignment].run;
    assert r < |u.runs| && r < |c.runs|;
    hide Sound; hide Evolves; hide Fences; hide Handed; hide SettledRows;
    if Settle(c, t, e, byHost, outcome, given, journal, reason, x) == PassCompleted(c, u, r, x.frontier)
       && c.runs[r].mode.Objective?
    {
      PassKeeps(c, u, r, x.frontier);
      PassShape(c, u, r, x.frontier);
      EvolvesTrans(s, u, PassCompleted(c, u, r, x.frontier).state);
    }
  }

  // Accounting for a planning pass touches only the run and the queue.
  lemma PassShape(c: Config, s: State, r: nat, observed: nat)
    requires r < |s.runs| && r < |c.runs| && PassCompleted(c, s, r, observed).Commit?
    ensures var t := PassCompleted(c, s, r, observed).state;
            t == s.(runs := t.runs, assignments := t.assignments)
  {
  }

  lemma ReceiptHanded(c: Config, s: State, e: nat, r: Receipt)
    requires Sound(c, s) && e < |s.executions|
    requires var a := s.executions[e].assignment;
             var stopped := s.(executions := s.executions[e := s.executions[e].(confirmed := true)],
                               turns := InterruptedTurns(s.turns, e));
             ReceiptThreads(stopped, e, a, r).Some?
    ensures var a := s.executions[e].assignment;
            var stopped := s.(executions := s.executions[e := s.executions[e].(confirmed := true)],
                              turns := InterruptedTurns(s.turns, e));
            Handed(s, stopped.(threads := ReceiptThreads(stopped, e, a, r).value), e)
  {
    hide Sound; hide PrelaunchAbort;
  }

  lemma ReceiptIdle(c: Config, s: State, t: State, e: nat)
    requires e < |s.executions| && s.executions[e].assignment < |s.assignments|
    requires Handed(s, t, e) && t.executions[e].confirmed && !Live(s.executions[e].status)
    ensures Fences(c, s, t.(claims := ReleasedClaims(t.claims, e)), e)
  {
  }

  lemma ReceiptReleases(c: Config, s: State, t: State, e: nat, outcome: Outcome, failure: Option<Failure>,
                        journal: bool, reason: Option<string>, x: Findings)
    requires Known(c, t, e) && Handed(s, t, e) && t.executions[e].confirmed
    ensures var u := SettledRows(c, t, e, true, outcome, failure, journal, reason, x);
            ReleasedClaims(u.claims, e) == u.claims
  {
    hide ObjectiveFinish; hide LegacyFinish; hide AdjustedLimits; hide Reclassified; hide ContextLost; hide RetryOf;
  }

  lemma ReceiptKeeps(c: Config, s: State, e: nat, epoch: nat, r: Receipt, x: Findings)
    requires WellFormed(c) && Sound(c, s) && Known(c, s, e) && StopReceipt(c, s, e, epoch, r, x).Commit?
    ensures Sound(c, StopReceipt(c, s, e, epoch, r, x).state)
    ensures Evolves(s, StopReceipt(c, s, e, epoch, r, x).state)
  {
    hide Sound; hide Evolves; hide SettledRows; hide Handed; hide JudgedOutcome; hide ReceiptThreads; hide InterruptedTurns;
    hide Fences; hide ReleasedClaims; hide PassCompleted; hide WellFormed;
    var z := StopReceipt(c, s, e, epoch, r, x).state;
    var a := s.executions[e].assignment;
    var stopped := s.(executions := s.executions[e := s.executions[e].(confirmed := true)],
                      turns := InterruptedTurns(s.turns, e));
    ReceiptHanded(c, s, e, r);
    var t := stopped.(threads := ReceiptThreads(stopped, e, a, r).value);
    var judged := JudgedOutcome(c, s, e, r, x);
    if Live(s.executions[e].status) {
      ReceiptReleases(c, s, t, e, judged.0, judged.1, IntentsOpen(r), r.reason, x);
      SettleKeeps(c, s, t, e, true, judged.0, judged.1, IntentsOpen(r), r.reason, x);
    } else {
      ReceiptIdle(c, s, t, e);
      FencesKeeps(c, s, z, e);
    }
  }

  lemma SweepKeeps(c: Config, s: State, e: nat, x: Findings)
    requires WellFormed(c) && Sound(c, s) && Known(c, s, e) && LeaseSweep(c, s, e, x).Commit?
    ensures Sound(c, LeaseSweep(c, s, e, x).state) && Evolves(s, LeaseSweep(c, s, e, x).state)
  {
    hide Sound; hide Evolves; hide Settle;
    var t := s.(turns := UncertainTurns(s.turns, e));
    assert Handed(s, t, e);
    SettleKeeps(c, s, t, e, false, OutLost,
                Some(Failure(LeaseExpired, "lease")), false, None, x);
  }

  lemma ConfirmKeeps(c: Config, s: State, e: nat)
    requires Sound(c, s) && ConfirmStopped(s, e).Commit?
    ensures Sound(c, ConfirmStopped(s, e).state) && Evolves(s, ConfirmStopped(s, e).state)
  {
    var t := ConfirmStopped(s, e).state;
    assert Fences(c, s, t, e);
    hide Sound; hide Evolves; hide Fences;
    FencesKeeps(c, s, t, e);
  }

  // ---- Provider turns and contexts ----

  lemma TurnStartedKeeps(c: Config, s: State, e: nat, epoch: nat, t: nat)
    requires Sound(c, s) && Known(c, s, e) && TurnStarted(c, s, e, epoch, t).Commit?
    ensures Sound(c, TurnStarted(c, s, e, epoch, t).state) && Evolves(s, TurnStarted(c, s, e, epoch, t).state)
  {
    var z := TurnStarted(c, s, e, epoch, t).state;
    assert Evolves(s, z) by { TurnStartedEvolves(c, s, e, epoch, t); }
    assert RefsOk(c, z) by { TurnStartedRefs(c, s, e, epoch, t); }
    hide Evolves; hide LiveSession; hide HasThread;
    assert ContextsOk(z) by { hide SessionsOk; hide ClaimsOk; ContextsFrame(s, z); }
    assert SessionsOk(c, z) by { hide ContextsOk; hide ClaimsOk; SessionsFrame(c, s, z); }
  }

  lemma TurnStartedRefs(c: Config, s: State, e: nat, epoch: nat, t: nat)
    requires RefsOk(c, s) && Known(c, s, e) && TurnStarted(c, s, e, epoch, t).Commit?
    ensures RefsOk(c, TurnStarted(c, s, e, epoch, t).state)
  {
  }

  lemma TurnStartedEvolves(c: Config, s: State, e: nat, epoch: nat, t: nat)
    requires Known(c, s, e) && TurnStarted(c, s, e, epoch, t).Commit?
    ensures Evolves(s, TurnStarted(c, s, e, epoch, t).state)
  {
  }

  // Replacing one context by one of the same session and workspace, when no
  // other is retained, and perhaps adding such a context.
  lemma ContextsEdit(s: State, z: State, t: nat)
    requires ContextsOk(s) && t < |s.threads|
    requires |z.executions| == |s.executions| && |s.threads| <= |z.threads| <= |s.threads| + 1
    requires forall e | 0 <= e < |s.executions| ::
               && z.executions[e].assignment == s.executions[e].assignment
               && z.executions[e].workspace == s.executions[e].workspace
    requires forall i | 0 <= i < |s.threads| && i != t :: z.threads[i] == s.threads[i]
    requires forall i | 0 <= i < |z.threads| && (i == t || i >= |s.threads|) ::
               && z.threads[i].assignment == s.threads[t].assignment
               && z.threads[i].workspace == s.threads[t].workspace
    requires |z.threads| > |s.threads| ==> !Retained(z.threads[t].status)
    requires forall i | 0 <= i < |s.threads| && i != t ::
               s.threads[i].assignment == s.threads[t].assignment ==> !Retained(s.threads[i].status)
    ensures ContextsOk(z)
  {
    forall f | 0 <= f < |z.executions| ensures HasThread(z, z.executions[f].assignment) {
      assert HasThread(s, s.executions[f].assignment);
      var i :| 0 <= i < |s.threads| && s.threads[i].assignment == s.executions[f].assignment;
      assert z.threads[i].assignment == z.executions[f].assignment;
    }
    forall f, i | 0 <= f < |z.executions| && 0 <= i < |z.threads| && z.executions[f].assignment == z.threads[i].assignment
      ensures z.executions[f].workspace == z.threads[i].workspace
    {
      var j := if i < |s.threads| then i else t;
      assert s.executions[f].assignment == s.threads[j].assignment;
    }
    forall i, j | 0 <= i < |z.threads| && 0 <= j < |z.threads| && z.threads[i].assignment == z.threads[j].assignment
      ensures z.threads[i].workspace == z.threads[j].workspace
      ensures Retained(z.threads[i].status) && Retained(z.threads[j].status) ==> i == j
    {
      var i', j' := if i < |s.threads| then i else t, if j < |s.threads| then j else t;
      assert s.threads[i'].assignment == s.threads[j'].assignment;
    }
  }

  lemma TurnFinishedContexts(c: Config, s: State, e: nat, epoch: nat, q: nat, ok: bool, native: Option<nat>)
    requires RefsOk(c, s) && ContextsOk(s) && TurnFinished(s, e, epoch, q, ok, native).Commit?
    ensures ContextsOk(TurnFinished(s, e, epoch, q, ok, native).state)
  {
    var z := TurnFinished(s, e, epoch, q, ok, native).state;
    if z.threads == s.threads || Retained(s.threads[s.turns[q].thread].status) {
      ContextsFrame(s, z);
    } else {
      ContextsEdit(s, z, s.turns[q].thread);
    }
  }

  lemma TurnFinishedShape(s: State, e: nat, epoch: nat, q: nat, ok: bool, native: Option<nat>)
    requires TurnFinished(s, e, epoch, q, ok, native).Commit?
    ensures var z := TurnFinished(s, e, epoch, q, ok, native).state;
            && z == s.(turns := z.turns, threads := z.threads)
            && |z.turns| == |s.turns| && |z.threads| == |s.threads|
            && (forall i | 0 <= i < |s.threads| ::
                  ThreadMoves(s.threads[i], z.threads[i]))
            && (forall i | 0 <= i < |s.turns| ::
                  && z.turns[i].execution == s.turns[i].execution && z.turns[i].thread == s.turns[i].thread
                  && (Unsettled(z.turns[i].status) ==> Unsettled(s.turns[i].status)))
  {
    hide HasRetained;
  }

  lemma TurnFinishedKeeps(c: Config, s: State, e: nat, epoch: nat, q: nat, ok: bool, native: Option<nat>)
    requires Sound(c, s) && TurnFinished(s, e, epoch, q, ok, native).Commit?
    ensures Sound(c, TurnFinished(s, e, epoch, q, ok, native).state)
    ensures Evolves(s, TurnFinished(s, e, epoch, q, ok, native).state)
  {
    hide TurnFinished;
    var z := TurnFinished(s, e, epoch, q, ok, native).state;
    TurnFinishedShape(s, e, epoch, q, ok, native);
    TurnFinishedContexts(c, s, e, epoch, q, ok, native);
    RefsFrame(c, s, z);
    SessionsFrame(c, s, z);
  }

  lemma RecoverRefs(c: Config, s: State, t: nat)
    requires RefsOk(c, s) && RecoverContext(c, s, t).Commit?
    ensures RefsOk(c, RecoverContext(c, s, t).state)
  {
    hide LiveSession; hide SessionUnsettled; hide Unconfirmed;
  }

  lemma RecoverKeeps(c: Config, s: State, t: nat)
    requires Sound(c, s) && RecoverContext(c, s, t).Commit?
    ensures Sound(c, RecoverContext(c, s, t).state) && Evolves(s, RecoverContext(c, s, t).state)
  {
    hide LiveSession; hide SessionUnsettled; hide Unconfirmed;
    var z := RecoverContext(c, s, t).state;
    assert RefsOk(c, z) by { RecoverRefs(c, s, t); }
    assert ContextsOk(z) by { hide RefsOk; hide SessionsOk; ContextsEdit(s, z, t); }
    assert SessionsOk(c, z) by { hide ContextsOk; SessionsFrame(c, s, z); }
    hide ContextsOk; hide RefsOk; hide SessionsOk;
    assert Evolves(s, z) by { RecoverEvolves(c, s, t); }
    hide Evolves;
  }

  lemma RecoverEvolves(c: Config, s: State, t: nat)
    requires RecoverContext(c, s, t).Commit?
    ensures Evolves(s, RecoverContext(c, s, t).state)
  {
    hide LiveSession; hide SessionUnsettled; hide Unconfirmed;
  }
}
