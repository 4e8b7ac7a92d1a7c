/**
  The control plane as the program runs it: tables updated row by row inside
  one transaction, which either commits or leaves every table as it was. Each
  method is proved against the step it takes.
 */
module ControlPlane {
  import opened Wrappers
  import opened Records
  import opened Admission
  import opened Protocol
  import opened Structure
  import opened Fencing
  import opened Safety
  import opened Sessions
  import opened Objectives
  import opened Planners
  import opened Stops
  import opened Verdicts
  import opened Faults
  import opened Admissions
  import opened Commands

  datatype Claimed = Granted(execution: nat) | NoWork | Raised

  ghost predicate Settles(txn: Txn, before: State, after: State, ok: bool) {
    ok == txn.Commit? && after == if ok then txn.state else before
  }

  // The execution row a settlement writes.
  function SettledExecution(c: Config, s: State, e: nat, byHost: bool, outcome: Outcome): Execution
    requires Known(c, s, e)
  {
    var item := s.assignments[s.executions[e].assignment];
    var stopping := item.status.Stopping? || Halted(s.runs[item.run].status);
    s.executions[e].(status := SettledStatus(stopping, outcome), finishedAt := Some(s.now), leaseUntil := s.now,
                     confirmed := s.executions[e].confirmed || (byHost && !outcome.OutLost?))
  }

  // The session row it writes.
  function SettledSession(c: Config, s: State, e: nat, outcome: Outcome, given: Option<Failure>, journal: bool,
                          reason: Option<string>, x: Findings): Assignment
    requires Known(c, s, e)
  {
    var a := s.executions[e].assignment;
    var item := s.assignments[a];
    var run := s.runs[item.run].status;
    var stopping := item.status.Stopping? || Halted(run);
    if c.runs[item.run].mode.Objective?
    then ObjectiveFinish(item, RetryOf(c, s, a), ContextLost(s, a), outcome, Reclassified(given), s.now, stopping, reason, journal, x)
    else LegacyFinish(item, run, RetryOf(c, s, a), outcome, Reclassified(given), s.now, stopping, reason, journal, x)
  }

  lemma SettledParts(c: Config, s: State, e: nat, byHost: bool, outcome: Outcome, given: Option<Failure>,
                     journal: bool, reason: Option<string>, x: Findings)
    requires Known(c, s, e)
    ensures var a := s.executions[e].assignment;
            SettledRows(c, s, e, byHost, outcome, given, journal, reason, x) ==
            s.(executions := s.executions[e := SettledExecution(c, s, e, byHost, outcome)],
               limits := AdjustedLimits(c, s, e, RetryOf(c, s, a), c.runs[s.assignments[a].run].mode.Objective?, outcome,
                                        Reclassified(given), x),
               claims := if SettledExecution(c, s, e, byHost, outcome).confirmed then ReleasedClaims(s.claims, e) else s.claims,
               assignments := s.assignments[a := SettledSession(c, s, e, outcome, given, journal, reason, x)])
  {
    hide ObjectiveFinish; hide LegacyFinish; hide AdjustedLimits; hide ContextLost; hide ReleasedClaims; hide RetryOf;
    hide Reclassified; hide SettledStatus;
  }

  class ControlPlane {
    const c: Config
    var now: int
    var runs: seq<Run>
    var assignments: seq<Assignment>
    var executions: seq<Execution>
    var threads: seq<Thread>
    var turns: seq<Turn>
    var claims: seq<Claim>
    var limits: seq<Limit>
    var places: seq<Place>

    function Db(): State
      reads this
    {
      State(now, runs, assignments, executions, threads, turns, claims, limits, places)
    }

    constructor (c: Config, s: State)
      ensures this.c == c && Db() == s
    {
      this.c := c;
      now, runs, assignments, executions, threads := s.now, s.runs, s.assignments, s.executions, s.threads;
      turns, claims, limits, places := s.turns, s.claims, s.limits, s.places;
    }

    // A transaction that raises leaves the tables as they were.
    method RollBack(s: State)
      modifies this
      ensures Db() == s
    {
      now, runs, assignments, executions, threads := s.now, s.runs, s.assignments, s.executions, s.threads;
      turns, claims, limits, places := s.turns, s.claims, s.limits, s.places;
    }

    // ---- Row updates ----

    method ReleaseClaims(e: nat)
      modifies this`claims
      ensures claims == ReleasedClaims(old(claims), e)
    {
      for k := 0 to |claims|
        invariant |claims| == |old(claims)|
        invariant forall i | 0 <= i < |claims| :: claims[i] == if i < k then ReleasedClaims(old(claims), e)[i] else old(claims)[i]
      {
        if claims[k].execution == e { claims := claims[k := claims[k].(released := true)]; }
      }
    }

    method InterruptTurns(e: nat)
      modifies this`turns
      ensures turns == InterruptedTurns(old(turns), e)
    {
      for q := 0 to |turns|
        invariant |turns| == |old(turns)|
        invariant forall i | 0 <= i < |turns| :: turns[i] == if i < q then InterruptedTurns(old(turns), e)[i] else old(turns)[i]
      {
        if turns[q].execution == e && Unsettled(turns[q].status) { turns := turns[q := turns[q].(status := TurnInterrupted)]; }
      }
    }

    method DoubtTurns(e: nat)
      modifies this`turns
      ensures turns == UncertainTurns(old(turns), e)
    {
      for q := 0 to |turns|
        invariant |turns| == |old(turns)|
        invariant forall i | 0 <= i < |turns| :: turns[i] == if i < q then UncertainTurns(old(turns), e)[i] else old(turns)[i]
      {
        if turns[q].execution == e && Unsettled(turns[q].status) { turns := turns[q := turns[q].(status := TurnUncertain)]; }
      }
    }

    method AdjustLimits(e: nat, retry: Retry, objective: bool, outcome: Outcome, failure: Option<Failure>, x: Findings)
      requires e < |executions|
      modifies this`limits
      ensures limits == AdjustedLimits(c, old(Db()), e, retry, objective, outcome, failure, x)
      // Each limit is exactly accounted for.
      ensures |limits| == |old(limits)| && forall l | 0 <= l < |limits| ::
                Accounted(c, old(Db()), e, retry, objective, outcome, failure, l, limits[l])
    {
      hide HeldBy; hide Backoff; hide Penalised; hide Cleared; hide Accounted;
      var s := Db();
      ghost var goal := AdjustedLimits(c, s, e, retry, objective, outcome, failure, x);
      forall l | 0 <= l < |limits| ensures |goal| == |limits| && Accounted(c, s, e, retry, objective, outcome, failure, l, goal[l]) {
        AdjustedExactly(c, s, e, retry, objective, outcome, failure, x, l);
      }
      var faulty := failure.Some? && AccountFault(failure.value.code);
      var healthy := Finished(outcome) && exists q | 0 <= q < |turns| :: turns[q].execution == e && turns[q].status.TurnCompleted?;
      if !faulty && !healthy { return; }
      for l := 0 to |limits|
        invariant |limits| == |s.limits| == |goal|
        invariant forall i | 0 <= i < |limits| :: limits[i] == if i < l then goal[i] else s.limits[i]
      {
        if AccountOf(c, s, e, l) {
          limits := limits[l := if faulty then Penalised(limits[l], retry, objective, x.accountWait(l), now)
                                else Cleared(limits[l], executions[e].startedAt)];
        }
      }
    }

    // ---- What an admission may take ----

    /** The loop over a pool's limits decides whether all of them are free. */
    method LimitsAvailable(pool: seq<nat>) returns (free: bool)
      ensures free == LimitsFree(c, Db(), pool)
    {
      for i := 0 to |pool|
        invariant forall j | 0 <= j < i :: LimitFree(c, Db(), pool[j])
      {
        var l := pool[i];
        if l >= |limits| || limits[l].open { return false; }
        var used := Held(Db(), l);
        var maximum := Ceiling(c, Db(), l);
        if maximum.Some? && used >= maximum.value { return false; }
      }
      return true;
    }

    /** The narrowing loop computes the child capacity a session may reserve. */
    method ChildCapacity(a: nat, host: nat, harness: nat) returns (capacity: Option<nat>)
      requires a < |assignments| && (host, harness) in c.pools
      ensures capacity == NativeCapacity(c, Db(), a, host, harness)
    {
      hide CategoryWeight; hide PoolWeight; hide Held; hide Ceiling; hide Reserve;
      var pool, item := c.pools[(host, harness)], assignments[a];
      if pool.childCap.None? { return None; }
      if ModeOf(c, Db(), a).Legacy? { return pool.childCap; }
      var spec := c.runs[item.run];
      if item.category >= |spec.policies| || item.plans { return Some(0); }
      var used, hostUsed := CategoryWeight(c, Db(), item.run, item.category), PoolWeight(c, Db(), host, harness);
      var reserve := if item.role.Worker? then Reserve(spec.policies) else 0;
      var first := Min(pool.childCap.value, Min(spec.policies[item.category].slots - used - 1, Max(1, pool.slots - reserve) - hostUsed - 1));
      var count := first;
      for i := 0 to |pool.limits|
        invariant count == NarrowBy(c, Db(), pool.limits[..i], first)
      {
        var l := pool.limits[i];
        assert pool.limits[..i + 1][..i] == pool.limits[..i];
        var maximum := Ceiling(c, Db(), l);
        if maximum.Some? { count := Min(count, maximum.value - Held(Db(), l) - 1); }
      }
      assert pool.limits[..|pool.limits|] == pool.limits;
      return Some(Max(0, count));
    }

    // ---- The planner recurrence ----

    method QueueSuccessor(r: nat) returns (ok: bool)
      requires r < |runs| && r < |c.runs|
      modifies this
      ensures Settles(EnsureSuccessor(c, old(Db()), r), old(Db()), Db(), ok)
      // At most one planner is queued, and only where none was; an active run
      // then has one, unless the queue is full.
      ensures ok ==> Db() == old(Db()).(assignments := assignments) && Follows(old(Db()), assignments, r)
      ensures ok && runs[r].status.RunActive? ==>
                || KeyLive(Db(), r, NextKey)
                || (|c.runs[r].policies| > 0 && Queued(Db(), r, WORK) >= c.runs[r].policies[WORK].maxPending)
    {
      hide FindKey; hide Queued;
      var s := Db();
      if !runs[r].status.RunActive? || FindKey(s, r, NextKey, |assignments|).Some? { return true; }
      if |c.runs[r].policies| == 0 { return false; }
      if Queued(s, r, WORK) >= c.runs[r].policies[WORK].maxPending { return true; }
      if runs[r].next.Some? { return false; }
      assignments := assignments + [NewPlanner(r, runs[r].planner)];
      assert assignments[|s.assignments|].key == NextKey;
      return true;
    }

    /** One planning pass: note the frontier, then queue, delay or pause the successor. */
    method CompletePass(r: nat, observed: nat) returns (ok: bool)
      requires r < |runs| && r < |c.runs|
      modifies this
      ensures Settles(PassCompleted(c, old(Db()), r, observed), old(Db()), Db(), ok)
      // The pass is counted, the delay is bounded, a manual pause stands, and a
      // rule stays enabled only below the bound of unchanged passes.
      ensures ok ==> |runs| == |old(runs)| && Db() == old(Db()).(runs := runs, assignments := assignments)
                     && PassAccounted(c, old(runs[r]).planner, runs[r].planner, observed, now)
      ensures ok ==> |old(assignments)| <= |assignments| <= |old(assignments)| + 1
    {
      hide EnsureSuccessor; hide AfterPass; hide FindKey;
      PassAccounts(c, runs[r].planner, observed, now);
      var s := Db();
      var rule := AfterPass(c, runs[r].planner, observed, now);
      runs := runs[r := runs[r].(planner := rule)];
      ok := QueueSuccessor(r);
      if !ok {
        RollBack(s);
        return;
      }
      var successor := FindKey(Db(), r, NextKey, |assignments|);
      if s.runs[r].status.RunActive? && successor.Some? {
        var b := successor.value;
        assignments := assignments[b := assignments[b].(notBefore := rule.notBefore,
                                                        pause := if rule.enabled then None else Some("idle"))];
      }
    }

    // ---- Settling an execution ----

    method WriteSettled(e: nat, byHost: bool, outcome: Outcome, given: Option<Failure>, journal: bool, reason: Option<string>, x: Findings)
      requires Known(c, Db(), e)
      modifies this
      ensures Db() == SettledRows(c, old(Db()), e, byHost, outcome, given, journal, reason, x)
    {
      hide SettledRows; hide SettledExecution; hide SettledSession; hide AdjustedLimits; hide ReleasedClaims; hide RetryOf;
      SettledParts(c, Db(), e, byHost, outcome, given, journal, reason, x);
      var a := executions[e].assignment;
      var row := SettledExecution(c, Db(), e, byHost, outcome);
      var session := SettledSession(c, Db(), e, outcome, given, journal, reason, x);
      AdjustLimits(e, RetryOf(c, Db(), a), c.runs[assignments[a].run].mode.Objective?, outcome, Reclassified(given), x);
      if row.confirmed { ReleaseClaims(e); }
      executions, assignments := executions[e := row], assignments[a := session];
    }

    /** `finish`: fence an execution and account for its session; an execution that already ended is left alone. */
    method Finish(e: nat, byHost: bool, outcome: Outcome, given: Option<Failure>, journal: bool, reason: Option<string>, x: Findings)
        returns (ok: bool)
      requires Known(c, Db(), e)
      modifies this
      ensures Settles(Settle(c, old(Db()), e, byHost, outcome, given, journal, reason, x), old(Db()), Db(), ok)
    {
      hide SettledRows; hide PassCompleted;
      var s := Db();
      if !Live(executions[e].status) { return true; }
      var a := executions[e].assignment;
      var r := assignments[a].run;
      var planner := assignments[a].rule.PlannerRule?;
      SettledKnown(c, s, e, byHost, outcome, given, journal, reason, x);
      WriteSettled(e, byHost, outcome, given, journal, reason, x);
      ok := true;
      if c.runs[r].mode.Objective? && assignments[a].status.Completed? && planner {
        ok := CompletePass(r, x.frontier);
        if !ok { RollBack(s); }
      }
    }

    /** `execution_finished`: the worker's receipt confirms the stop, whatever it says about the turn. */
    method HandleStop(e: nat, epoch: nat, r: Receipt, x: Findings) returns (ok: bool)
      requires Known(c, Db(), e)
      modifies this
      ensures Settles(StopReceipt(c, old(Db()), e, epoch, r, x), old(Db()), Db(), ok)
      // The stop is confirmed, no turn of the execution is left open and none of
      // its claims is held; no other execution changes.
      ensures ok ==> |executions| == |old(executions)| && executions[e].confirmed && !Live(executions[e].status)
                     && !HasUnsettled(Db(), e)
      ensures ok ==> forall k | 0 <= k < |claims| :: claims[k].execution == e ==> claims[k].released
      ensures ok ==> forall f | 0 <= f < |executions| && f != e :: executions[f] == old(executions)[f]
      ensures ok && Live(old(executions)[e].status) ==> Judged(c, old(Db()), Db(), e, r, x)
    {
      hide Judged;
      hide ReceiptThreads; hide JudgedOutcome; hide InterruptedTurns; hide ReleasedClaims; hide Settle; hide HasUnsettled;
      var s := Db();
      if Live(executions[e].status) && StopReceipt(c, s, e, epoch, r, x).Commit? { ReceiptJudged(c, s, e, epoch, r, x); }
      if executions[e].number != epoch { return false; }
      var a := executions[e].assignment;
      var judged := JudgedOutcome(c, s, e, r, x);
      executions := executions[e := executions[e].(confirmed := true)];
      InterruptTurns(e);
      var heard := ReceiptThreads(Db(), e, a, r);
      if heard.None? {
        RollBack(s);
        return false;
      }
      threads := heard.value;
      ok := Finish(e, true, judged.0, judged.1, IntentsOpen(r), r.reason, x);
      if ok { ReleaseClaims(e); } else { RollBack(s); }
      if ok { Received(c, s, Db(), e, epoch, r, x); }
    }

    /** A lost lease fences the execution; its reservations stay. */
    method LoseLease(e: nat, x: Findings) returns (ok: bool)
      requires Known(c, Db(), e)
      modifies this
      ensures Settles(LeaseSweep(c, old(Db()), e, x), old(Db()), Db(), ok)
      // The execution ends, and nothing about its physical stop is assumed: its
      // claims stand, and an objective session stays busy.
      ensures ok ==> |executions| == |old(executions)| && !Live(executions[e].status)
                     && executions[e].confirmed == old(executions)[e].confirmed
      ensures ok && !old(executions)[e].confirmed ==> claims == old(claims)
      ensures ok && !old(executions)[e].confirmed && ModeOf(c, old(Db()), old(executions)[e].assignment).Objective? ==>
                e < |executions| && Busy(c, Db(), e)
    {
      hide UncertainTurns; hide Settle; hide Busy;
      var s := Db();
      if !Live(executions[e].status) || executions[e].leaseUntil > now { return false; }
      DoubtTurns(e);
      ok := Finish(e, false, OutLost, Some(Failure(LeaseExpired, "lease")), false, None, x);
      if ok { Swept(c, s, Db(), e, x); } else { RollBack(s); }
    }

    // ---- Cancellation ----

    method StopExecutions(a: nat)
      modifies this`executions
      ensures executions == StoppedExecutions(old(executions), a)
    {
      for e := 0 to |executions|
        invariant |executions| == |old(executions)|
        invariant forall i | 0 <= i < |executions| :: executions[i] == if i < e then StoppedExecutions(old(executions), a)[i] else old(executions)[i]
      {
        if executions[e].assignment == a && (executions[e].status.ExecStarting? || executions[e].status.ExecRunning?) {
          executions := executions[e := executions[e].(status := ExecStopping)];
        }
      }
    }

    method PausePlanners(run: nat, note: string)
      modifies this`assignments
      ensures assignments == PausedPlanners(old(assignments), run, note)
    {
      for b := 0 to |assignments|
        invariant |assignments| == |old(assignments)|
        invariant forall i | 0 <= i < |assignments| ::
                    assignments[i] == if i < b then PausedPlanners(old(assignments), run, note)[i] else old(assignments)[i]
      {
        if assignments[b].run == run && assignments[b].rule.PlannerRule? && assignments[b].status.Pending? {
          assignments := assignments[b := assignments[b].(pause := Some(note))];
        }
      }
    }

    /** `cancel`: a queued session ends at once, a running one is asked to stop. */
    method CancelSession(a: nat, disable: bool)
      requires a < |assignments|
      modifies this
      ensures Db() == Cancel(c, old(Db()), a, disable)
    {
      hide StoppedExecutions; hide PausedPlanners;
      CancelParts(c, Db(), a, disable);
      var item := assignments[a];
      if Settled(item.status) { return; }
      var objective := ModeOf(c, Db(), a).Objective?;
      assignments := assignments[a := if item.status.Pending? then item.(status := Cancelled, finishedAt := Some(now))
                                      else item.(status := Stopping, finishedAt := None)];
      StopExecutions(a);
      if disable && item.rule.PlannerRule? && objective && item.run < |runs| {
        runs := runs[item.run := runs[item.run].(planner := runs[item.run].planner.(enabled := false, pause := ByCancellation))];
        PausePlanners(item.run, "cancelled");
      }
    }

    /** Cancel a stopping run's open sessions, or a draining run's queued recurrences. */
    method CancelOpen(r: nat, draining: bool)
      modifies this
      ensures Db() == CancelRest(c, old(Db()), r, draining, 0)
    {
      hide Cancel;
      var count := |assignments|;
      for n := 0 to count
        invariant |assignments| == count
        invariant CancelRest(c, Db(), r, draining, n) == CancelRest(c, old(Db()), r, draining, 0)
      {
        var item := assignments[n];
        CancelCount(c, Db(), n, !draining);
        if item.run == r && (if draining then item.status.Pending? && !item.rule.NoRule? else item.status.Pending? || item.status.Running?) {
          CancelSession(n, !draining);
        }
      }
    }

    // ---- Admission ----

    method TakeActiveKey(a: nat) returns (ok: bool)
      requires a < |assignments| && assignments[a].run < |runs| && assignments[a].run < |c.runs|
      modifies this
      ensures Settles(AdmitPlanner(c, old(Db()), a), old(Db()), Db(), ok)
      // An admitted planner is the only open holder of the active key.
      ensures ok ==> |old(assignments)| <= |assignments| && Db() == old(Db()).(assignments := assignments)
      ensures ok && c.runs[old(assignments)[a].run].mode.Objective? && old(assignments)[a].rule.PlannerRule? ==>
                && assignments[a].key.ActiveKey?
                && forall b | 0 <= b < |assignments| && b != a ::
                     assignments[b].run == assignments[a].run && assignments[b].key.ActiveKey? ==> !Open(assignments[b].status)
    {
      hide EnsureSuccessor; hide KeyLive; hide Queued;
      var s := Db();
      var r := assignments[a].run;
      if !(c.runs[r].mode.Objective? && assignments[a].rule.PlannerRule?) { return true; }
      if exists b | 0 <= b < |assignments| :: b != a && assignments[b].run == r && assignments[b].key.ActiveKey? && Open(assignments[b].status) {
        return false;
      }
      assignments := assignments[a := assignments[a].(key := ActiveKey)];
      ok := QueueSuccessor(r);
      if !ok { RollBack(s); }
    }

    method WriteClaims(pool: seq<nat>, e: nat, units: nat)
      modifies this`claims
      ensures claims == old(claims) + NewClaims(pool, e, units)
    {
      for i := 0 to |pool|
        invariant claims == old(claims) + NewClaims(pool[..i], e, units)
      {
        claims := claims + [Claim(pool[i], e, units, false)];
        assert NewClaims(pool[..i + 1], e, units) == NewClaims(pool[..i], e, units) + [Claim(pool[i], e, units, false)];
      }
      assert pool[..|pool|] == pool;
    }

    method WriteAdmitted(a: nat, host: nat, harness: nat, pick: Pick, reserved: nat)
      requires a < |assignments| && (host, harness) in c.pools && !pick.NoPlace?
      requires pick.Propose? ==> pick.source < |places|
      modifies this
      ensures Db() == AdmittedRows(c, old(Db()), a, host, harness, pick, reserved)
    {
      hide NextNumber; hide RetainedOn; hide NewClaims;
      var s := Db();
      var w, e, retained := if pick.Existing? then pick.place else |places|, |executions|, RetainedOn(s, a, host, |threads|);
      if pick.Propose? {
        places := places + [Place(host, places[pick.source].project, places[pick.source].repository, true, Preparing, Some(a))];
      }
      executions := executions + [Execution(a, NextNumber(s, a), host, harness, w, reserved, ExecRunning, now + c.lease, now, None, false)];
      WriteClaims(c.pools[(host, harness)].limits, e, 1 + reserved);
      assignments := assignments[a := AdmittedRow(assignments[a], now)];
      if retained.None? { threads := threads + [Thread(a, w, harness, None, Creating, None)]; }
    }

    /** `start`, with the admission tests that precede it. */
    method Start(a: nat, host: nat, harness: nat, view: View) returns (ok: bool)
      modifies this
      ensures Settles(Admit(c, old(Db()), a, host, harness, view), old(Db()), Db(), ok)
    {
      hide Admissible; hide Placement; hide Reservation; hide AdmitPlanner; hide AdmittedRows; hide RetainedOn; hide HasRetained;
      hide Proposed; hide NativeCapacity;
      var s := Db();
      if !Admissible(c, s, a, host, harness, view) { return false; }
      AdmissibleParts(c, s, a, host, harness, view);
      var pick := Placement(c, s, a, host, view);
      var capacity := ChildCapacity(a, host, harness);
      var reserved := if ModeOf(c, s, a).Objective? && capacity.Some? then capacity.value else 0;
      assert reserved == Reservation(c, s, a, host, harness) by { ReservedChildren(c, s, a, host, harness); }
      ok := TakeActiveKey(a);
      if !ok { return; }
      if (pick.Propose? && Proposed(s, a, host)) || (RetainedOn(s, a, host, |s.threads|).None? && HasRetained(s, a))
         || a >= |assignments| || |places| != |s.places| {
        RollBack(s);
        return false;
      }
      WriteAdmitted(a, host, harness, pick, reserved);
    }

    method RetireForeign(a: nat, host: nat)
      modifies this`threads
      ensures Db() == RetireOrphans(old(Db()), a, host)
    {
      hide Orphaned;
      var s := Db();
      for t := 0 to |threads|
        invariant |threads| == |s.threads|
        invariant forall i | 0 <= i < |threads| ::
                    threads[i] == if i < t && Orphaned(s, a, host, i) then s.threads[i].(status := Unavailable) else s.threads[i]
      {
        if Orphaned(s, a, host, t) { threads := threads[t := threads[t].(status := Unavailable)]; }
      }
      assert threads == RetireOrphans(s, a, host).threads;
    }

    method RetireFailing(a: nat)
      modifies this`threads
      ensures Db() == RetireFailed(c, old(Db()), a)
    {
      hide FailedContext;
      var s := Db();
      for t := 0 to |threads|
        invariant |threads| == |s.threads|
        invariant forall i | 0 <= i < |threads| ::
                    threads[i] == if i < t && FailedContext(c, s, a, i) then s.threads[i].(status := Unavailable) else s.threads[i]
      {
        if FailedContext(c, s, a, t) { threads := threads[t := threads[t].(status := Unavailable)]; }
      }
      assert threads == RetireFailed(c, s, a).threads;
    }

    /**
      One poll of `claim`: the candidates in queue order against the host's
      pools. Up to the grant only contexts are retired; at most one execution
      is admitted, as the newest row.
     */
    method ClaimNext(host: nat, queue: seq<nat>, pools: seq<nat>, ready: nat -> bool, spent: nat -> bool, view: (nat, nat) -> View)
        returns (result: Claimed, ghost trace: seq<Event>)
      modifies this
      ensures Db() == After(c, old(Db()), trace)
      ensures result.Raised? ==> trace == []
      ensures result.NoWork? ==> Retiring(trace)
      ensures result.Granted? ==>
                && |trace| > 0 && Retiring(trace[..|trace| - 1]) && trace[|trace| - 1].EvAdmit?
                && result.execution == |old(executions)| && |executions| == result.execution + 1
      // The admitted session was queued, due and free to run on a pool that was asked for.
      ensures result.Granted? ==>
                GrantsDue(c, old(Db()), host, queue, pools, trace[|trace| - 1])
      ensures WellFormed(c) && Safe(c, old(Db())) ==> Safe(c, Db())
    {
      hide Safe; hide WellFormed; hide Apply; hide After; hide Admit; hide RetireOrphans; hide RetireFailed; hide Blocked;
      hide SessionUnsettled; hide KeyLive; hide Candidate; hide Admissible; hide LimitsFree; hide GrantsDue;
      var s := Db();
      trace := [];
      AfterNone(c, s);
      for i := 0 to |queue|
        invariant Db() == After(c, s, trace) && Retiring(trace) && executions == s.executions
        invariant assignments == s.assignments && runs == s.runs && now == s.now
        invariant WellFormed(c) && Safe(c, s) ==> Safe(c, Db())
      {
        var a := queue[i];
        if !Candidate(c, Db(), a) { continue; }
        CandidateExists(c, Db(), a);
        if !ready(a) || SessionUnsettled(Db(), a) || Blocked(c, Db(), a, None, spent(a))
           || (assignments[a].key.NextKey? && KeyLive(Db(), assignments[a].run, ActiveKey)) { continue; }
        for j := 0 to |pools|
          invariant Db() == After(c, s, trace) && Retiring(trace) && executions == s.executions && a < |assignments|
          invariant assignments == s.assignments && runs == s.runs && now == s.now
          invariant WellFormed(c) && Safe(c, s) ==> Safe(c, Db())
        {
          var pool := (host, pools[j]);
          if pool !in c.pools || Blocked(c, Db(), a, Some(pool), spent(a))
             || (assignments[a].pinned.Some? && assignments[a].pinned.value != pools[j]) { continue; }
          ghost var before := trace;
          ghost var s1 := Db();
          RetireForeign(a, host);
          ghost var s2 := Db();
          RetireFailing(a);
          RetireTrace(c, s, before, s1, s2, Db(), a, host);
          trace := before + [EvRetireOrphans(a, host), EvRetireFailed(a)];
          RetireSafe(c, s1, s2, Db(), a, host);
          ghost var s3 := Db();
          var free := LimitsAvailable(c.pools[pool].limits);
          if !free || !Admissible(c, Db(), a, host, pools[j], view(a, pools[j])) { continue; }
          var ok := Start(a, host, pools[j], view(a, pools[j]));
          if !ok {
            RollBack(s);
            AfterNone(c, s);
            return Raised, [];
          }
          AdmittedDue(c, s, s3, a, host, pools[j], view(a, pools[j]), queue, pools);
          AdmitTrace(c, s, trace, s3, Db(), a, host, pools[j], view(a, pools[j]));
          trace := trace + [EvAdmit(a, host, pools[j], view(a, pools[j]))];
          return Granted(|s.executions|), trace;
        }
      }
      result := NoWork;
    }

    // ---- Leases ----

    /** A heartbeat renews a live lease, unless the session was asked to stop. */
    method Beat(e: nat, epoch: nat) returns (ok: bool, stop: bool)
      requires Known(c, Db(), e)
      modifies this`executions
      ensures Settles(Heartbeat(c, old(Db()), e, epoch), old(Db()), Db(), ok)
      ensures ok ==> stop == StopRequested(old(Db()), e)
      ensures ok && stop ==> executions == old(executions)
    {
      if executions[e].number != epoch || !Live(executions[e].status) || executions[e].leaseUntil <= now { return false, false; }
      stop := StopRequested(Db(), e);
      if !stop { executions := executions[e := executions[e].(leaseUntil := now + c.lease)]; }
      ok := true;
    }

    /**
      The lease sweep of `tick`: afterwards no live execution has an expired
      lease, and nothing that was fenced has been released.
     */
    method SweepLeases(findings: nat -> Findings) returns (ok: bool, ghost trace: seq<Event>)
      requires WellFormed(c) && Safe(c, Db())
      modifies this
      ensures Db() == After(c, old(Db()), trace) && Safe(c, Db())
      ensures !ok ==> trace == []
      ensures ok ==> forall e | 0 <= e < |executions| :: Live(executions[e].status) ==> executions[e].leaseUntil > now
    {
      hide Safe; hide WellFormed; hide Apply; hide After; hide LeaseSweep;
      var s := Db();
      trace := [];
      AfterNone(c, s);
      var count := |executions|;
      for e := 0 to count
        invariant Db() == After(c, s, trace) && Safe(c, Db()) && |executions| == count && now == s.now
        invariant forall i | 0 <= i < e :: Live(executions[i].status) ==> executions[i].leaseUntil > now
      {
        if Live(executions[e].status) && executions[e].leaseUntil <= now {
          SafeKnown(c, Db(), e);
          ghost var s1 := Db();
          ok := LoseLease(e, findings(e));
          if !ok {
            RollBack(s);
            AfterNone(c, s);
            return false, [];
          }
          SweepTrace(c, s, trace, s1, Db(), e, findings(e));
          trace := trace + [EvLeaseSweep(e, findings(e))];
        }
      }
      ok := true;
    }

    /** The operator confirms that a fenced process is gone: its turns, claims and unstarted contexts are settled. */
    method ConfirmHostStopped(e: nat) returns (ok: bool)
      modifies this
      ensures Settles(ConfirmStopped(old(Db()), e), old(Db()), Db(), ok)
      ensures ok <==> e < |old(executions)| && !old(executions)[e].confirmed && old(executions)[e].status in {ExecLost, ExecCancelled}
      ensures ok ==> executions == old(executions)[e := old(executions)[e].(confirmed := true)]
                     && TurnsStopped(old(Db()), Db(), e) && ClaimsReleased(old(Db()), Db(), e)
    {
      hide InterruptedTurns; hide ReleasedClaims; hide TurnsStopped; hide ClaimsReleased;
      var s := Db();
      OperatorConfirms(s, e);
      if e >= |executions| || executions[e].confirmed || !(executions[e].status.ExecLost? || executions[e].status.ExecCancelled?) {
        return false;
      }
      var a := executions[e].assignment;
      for t := 0 to |threads|
        invariant |threads| == |s.threads|
        invariant forall i | 0 <= i < |threads| ::
                    threads[i] == if i < t && Stranded(s, e, a, i) then s.threads[i].(status := Unavailable) else s.threads[i]
        invariant Db() == s.(threads := threads)
      {
        if Stranded(s, e, a, t) { threads := threads[t := threads[t].(status := Unavailable)]; }
      }
      assert threads == ConfirmStopped(s, e).state.threads;
      executions := executions[e := executions[e].(confirmed := true)];
      InterruptTurns(e);
      ReleaseClaims(e);
      ok := true;
    }

    // ---- Objectives ----

    method WakePlanners(r: nat)
      modifies this`assignments
      ensures assignments == WokenPlanners(old(assignments), r)
    {
      for a := 0 to |assignments|
        invariant |assignments| == |old(assignments)|
        invariant forall i | 0 <= i < |assignments| ::
                    assignments[i] == if i < a then WokenPlanners(old(assignments), r)[i] else old(assignments)[i]
      {
        if assignments[a].run == r && assignments[a].key.NextKey? && assignments[a].status.Pending? {
          assignments := assignments[a := assignments[a].(pause := None, notBefore := None)];
        }
      }
    }

    /** `advance`: enter the accepted phase, or finish the objective, once everything has settled. */
    method Advance(r: nat, deliveries: bool, closable: bool, frontier: nat) returns (ok: bool)
      requires r < |runs| && r < |c.runs| && runs[r].next.Some?
      modifies this
      ensures Settles(AdvancePhase(c, old(Db()), r, deliveries, closable, frontier), old(Db()), Db(), ok)
      // The transition is taken only when nothing is open, busy or undelivered,
      // and then leads to the accepted phase.
      ensures ok ==> |runs| == |old(runs)| && runs[r].history == old(runs)[r].history
      ensures ok && runs[r].next != old(runs)[r].next ==>
                && !RunOccupied(old(Db()), r) && !RunBusy(c, old(Db()), r) && !deliveries && runs[r].next.None?
                && (if old(runs)[r].next.value.target.Some? then runs[r].phase == old(runs)[r].next.value.target.value
                    else runs[r].phase == old(runs)[r].phase && runs[r].status.RunDraining?)
      ensures ok && runs[r].next == old(runs)[r].next ==> Db() == old(Db())
    {
      hide RunOccupied; hide RunBusy; hide EnsureSuccessor; hide Queued; hide KeyLive;
      var s := Db();
      if RunOccupied(s, r) || RunBusy(c, s, r) || deliveries { return true; }
      var target := runs[r].next.value.target;
      if target.None? {
        if closable { runs := runs[r := runs[r].(next := None, status := RunDraining)]; }
        return true;
      }
      runs := runs[r := runs[r].(phase := target.value, next := None, planner := Planner(true, NotPaused, 0, frontier, None))];
      ok := QueueSuccessor(r);
      if !ok { RollBack(s); }
    }

    /** One objective of `reconcile`: advance, wake on a new frontier, and keep a successor queued. */
    method Reconcile(r: nat, frontier: nat, deliveries: bool, closable: bool) returns (ok: bool)
      modifies this
      ensures Settles(ReconcileRun(c, old(Db()), r, frontier, deliveries, closable), old(Db()), Db(), ok)
      // The run stays as it was, wakes on a new frontier, or enters what was accepted.
      ensures ok ==> r < |runs| == |old(runs)| && r < |c.runs|
      ensures ok && WellFormed(c) ==>
                || runs[r] == old(runs)[r] || (old(runs)[r].next.None? && Woken(old(runs)[r], runs[r], frontier))
                || (!deliveries && Advanced(c, old(Db()), r, old(runs)[r], runs[r]))
      // Outside a transition it then has a queued planner, unless its queue is full;
      // a woken run has no paused one.
      ensures ok && old(runs)[r].next.None? ==>
                || KeyLive(Db(), r, NextKey)
                || (|c.runs[r].policies| > 0 && Queued(Db(), r, WORK) >= c.runs[r].policies[WORK].maxPending)
      ensures ok && old(runs)[r].next.None? && frontier != old(runs)[r].planner.frontier && !Manual(old(runs)[r].planner) ==>
                forall a | 0 <= a < |assignments| ::
                  assignments[a].run == r && assignments[a].key.NextKey? && assignments[a].status.Pending? ==> !PauseHolds(assignments[a])
    {
      hide AdvancePhase; hide EnsureSuccessor; hide KeyLive; hide Queued; hide WellFormed; hide RunOccupied; hide RunBusy;
      var s := Db();
      if WellFormed(c) && ReconcileRun(c, s, r, frontier, deliveries, closable).Commit? {
        ReconcileRuns(c, s, r, frontier, deliveries, closable);
      }
      if r >= |runs| || r >= |c.runs| || c.runs[r].mode.Legacy? || !runs[r].status.RunActive? { return false; }
      if runs[r].next.Some? {
        ok := Advance(r, deliveries, closable, frontier);
        return;
      }
      var rule := runs[r].planner;
      if frontier != rule.frontier && (rule.pause.NotPaused? || rule.pause.Idle?) {
        WokenParts(s, r);
        runs := runs[r := runs[r].(planner := Planner(true, NotPaused, 0, frontier, None))];
        WakePlanners(r);
      }
      ok := QueueSuccessor(r);
      if !ok { RollBack(s); }
    }

    method SupersedeSuccessors(r: nat)
      modifies this`assignments
      ensures assignments == SupersededSuccessors(old(assignments), r, now)
    {
      for a := 0 to |assignments|
        invariant |assignments| == |old(assignments)|
        invariant forall i | 0 <= i < |assignments| ::
                    assignments[i] == if i < a then SupersededSuccessors(old(assignments), r, now)[i] else old(assignments)[i]
      {
        if assignments[a].run == r && assignments[a].key.NextKey? && assignments[a].status.Pending? {
          assignments := assignments[a := assignments[a].(status := Cancelled, finishedAt := Some(now))];
        }
      }
    }

    /** `accept_phase`: record the decision, name its owner and cancel the queued planner. */
    method Accept(r: nat, agent: Option<nat>, requested: Option<Phase>, resolvable: bool) returns (ok: bool)
      modifies this
      ensures Settles(AcceptPhase(c, old(Db()), r, agent, requested, resolvable), old(Db()), Db(), ok)
      // The phase joins the history, its successor and owner are on record, and
      // no queued planner of the run is left.
      ensures ok ==> r < |runs| == |old(runs)| && AcceptedBy(c, old(Db()), r, agent, old(runs)[r], runs[r])
      ensures ok ==> forall a | 0 <= a < |assignments| ::
                assignments[a].run == r && assignments[a].key.NextKey? ==> !assignments[a].status.Pending?
      ensures ok && KeysOk(c, old(Db())) ==> !KeyLive(Db(), r, NextKey)
    {
      hide OthersOpen; hide SupersededSuccessors; hide Acting; hide KeyLive; hide KeysOk;
      var s := Db();
      if r >= |runs| || r >= |c.runs| || c.runs[r].mode.Legacy? || !runs[r].status.RunActive? || runs[r].next.Some? { return false; }
      if agent.Some? && !Acting(s, r, agent.value) { return false; }
      if agent.Some? { ActingExists(s, r, agent.value); }
      var current := if agent.Some? then Some(executions[agent.value].assignment) else None;
      var kind := NextKind(c.runs[r].phases, |runs[r].history|);
      if OthersOpen(s, r, current) || (requested.Some? && requested != kind) || (kind.Some? && !resolvable) { return false; }
      SupersededParts(s, r);
      runs := runs[r := runs[r].(history := runs[r].history + [runs[r].phase], next := Some(Accepted(kind, current)),
                                 status := if c.runs[r].autoAdvance then RunActive else RunPaused)];
      SupersedeSuccessors(r);
      ok := true;
      AcceptRuns(c, s, r, agent, requested, resolvable);
      AcceptedQueue(c, s, Db(), r, agent, requested, resolvable);
    }

    // ---- Commands ----

    /** A run's status commands, with the guard of `complete_run`. */
    method ChangeRun(r: nat, op: RunOp, missionDone: bool, unpublished: bool) returns (ok: bool)
      modifies this
      ensures Settles(Transition(c, old(Db()), r, op, missionDone, unpublished), old(Db()), Db(), ok)
      // A cancelled run has nothing queued or running, a draining one no queued
      // recurrence, and a completed one no open session and no process left.
      ensures ok && op.CancelRun? ==> forall a | 0 <= a < |assignments| && assignments[a].run == r ::
                !assignments[a].status.Pending? && !assignments[a].status.Running?
      ensures ok && op.DrainRun? ==> forall a | 0 <= a < |assignments| && assignments[a].run == r && !assignments[a].rule.NoRule? ::
                !assignments[a].status.Pending?
      ensures ok && op.CompleteRun? ==> !RunOccupied(Db(), r) && !RunUnconfirmed(Db(), r)
    {
      hide CancelRest; hide RunOccupied; hide RunUnconfirmed; hide EnsureSuccessor; hide KeyLive; hide Queued;
      var s := Db();
      if r >= |runs| || r >= |c.runs| { return false; }
      var status := runs[r].status;
      match op {
        case PauseRun =>
          if !status.RunActive? { return false; }
          runs := runs[r := runs[r].(status := RunPaused)];
        case ResumeRun =>
          if !status.RunPaused? { return false; }
          runs := runs[r := runs[r].(status := RunActive)];
        case DrainRun =>
          if !status.RunActive? || !missionDone { return false; }
          runs := runs[r := runs[r].(status := RunDraining)];
          CancelRestClears(c, Db(), r, true, 0);
          CancelOpen(r, true);
        case CompleteRun =>
          if !status.RunDraining? || !missionDone || RunOccupied(s, r) || unpublished || RunUnconfirmed(s, r) { return false; }
          runs := runs[r := runs[r].(status := RunCompleted)];
          SameSettled(s, Db(), r);
        case ReopenRun =>
          if !(status.RunDraining? || status.RunCompleted?) { return false; }
          runs := runs[r := runs[r].(status := RunActive)];
          if c.runs[r].mode.Objective? && runs[r].planner.enabled {
            ok := QueueSuccessor(r);
            if !ok { RollBack(s); }
            return;
          }
        case CancelRun =>
          if status.RunCancelled? || status.RunCompleted? { return false; }
          runs := runs[r := runs[r].(status := RunStopping, planner := runs[r].planner.(enabled := false))];
          CancelRestClears(c, Db(), r, false, 0);
          CancelOpen(r, false);
      }
      ok := true;
    }

    /** `recover_context`: close a context and open its successor, once nothing of the session can still run. */
    method Recover(t: nat) returns (ok: bool)
      modifies this
      ensures Settles(RecoverContext(c, old(Db()), t), old(Db()), Db(), ok)
      // Nothing of the session can still run, its new context is the only one
      // retained and stays in the old workspace, and an objective session keeps
      // its ledger.
      ensures ok ==> t < |old(threads)| && old(threads)[t].assignment < |assignments| == |old(assignments)|
                     && Replaced(c, old(Db()), Db(), t)
    {
      hide Unconfirmed; hide LiveSession; hide SessionUnsettled; hide Replaced;
      var s := Db();
      if t >= |threads| || threads[t].assignment >= |assignments| { return false; }
      var a := threads[t].assignment;
      var objective := ModeOf(c, s, a).Objective?;
      if (objective && Unconfirmed(s, a)) || !(assignments[a].status.Pending? || assignments[a].status.Failed?) || LiveSession(s, a)
         || (exists u | 0 <= u < |threads| :: threads[u].predecessor == Some(t)) || SessionUnsettled(s, a)
         || (exists u | 0 <= u < |threads| :: u != t && threads[u].assignment == a && Retained(threads[u].status)) {
        return false;
      }
      var again := assignments[a].(status := Pending, finishedAt := None, retryAt := None);
      assignments := assignments[a := if objective then again.(pause := None) else again.(attempts := 0)];
      threads := threads[t := threads[t].(status := Closed)]
                 + [Thread(a, threads[t].workspace, threads[t].harness, None, Creating, Some(t))];
      ok := true;
      RecoveredFacts(c, s, Db(), t);
    }

    // ---- The sweeps of `tick` ----

    /** A confirmed stop settles the turns whose final event was lost, in bounded batches. */
    method SettleStoppedTurns(batch: nat) returns (ghost trace: seq<Event>)
      requires WellFormed(c) && Safe(c, Db())
      modifies this`turns
      ensures Db() == After(c, old(Db()), trace) && Safe(c, Db()) && |turns| == |old(turns)| && |trace| <= batch
      ensures |trace| < batch ==> forall q | 0 <= q < |turns| :: !Loose(Db(), q)
    {
      hide Safe; hide WellFormed; hide Apply; hide After; hide Attempt;
      var s := Db();
      trace := [];
      AfterNone(c, s);
      var left := batch;
      for q := 0 to |turns|
        invariant Db() == After(c, s, trace) && Safe(c, Db()) && |turns| == |s.turns| && |trace| == batch - left
        invariant left > 0 ==> forall i | 0 <= i < q :: !Loose(Db(), i)
      {
        if left > 0 && Loose(Db(), q) {
          ghost var s1 := Db();
          turns := turns[q := turns[q].(status := TurnInterrupted)];
          TurnSettles(c, s1, q);
          StepTrace(c, s, trace, s1, Db(), EvSettleTurn(q));
          trace := trace + [EvSettleTurn(q)];
          left := left - 1;
        }
      }
    }

    /** Sessions past their window are cancelled or asked to stop; none is left queued or running. */
    method ExpireSessions() returns (ghost trace: seq<Event>)
      requires WellFormed(c) && Safe(c, Db())
      modifies this
      ensures Db() == After(c, old(Db()), trace) && Safe(c, Db())
      ensures forall a | 0 <= a < |assignments| :: !Overdue(Db(), a)
    {
      hide Safe; hide WellFormed; hide Apply; hide After; hide Cancel;
      var s := Db();
      trace := [];
      AfterNone(c, s);
      var count := |assignments|;
      for a := 0 to count
        invariant Db() == After(c, s, trace) && Safe(c, Db()) && |assignments| == count && now == s.now
        invariant forall i | 0 <= i < a :: !Overdue(Db(), i)
      {
        if Overdue(Db(), a) {
          ghost var s1 := Db();
          CancelSession(a, true);
          ExpireTrace(c, s, trace, s1, Db(), a);
          trace := trace + [EvExpireSession(a)];
        }
      }
    }

    /** A stopping run whose sessions have all settled is cancelled. */
    method SettleRuns() returns (ghost trace: seq<Event>)
      requires WellFormed(c) && Safe(c, Db())
      modifies this`runs
      ensures Db() == After(c, old(Db()), trace) && Safe(c, Db()) && |runs| == |old(runs)|
      ensures forall r | 0 <= r < |runs| :: runs[r].status.RunStopping? ==> RunOccupied(Db(), r)
    {
      hide Safe; hide WellFormed; hide Apply; hide After; hide RunOccupied;
      var s := Db();
      trace := [];
      AfterNone(c, s);
      for r := 0 to |runs|
        invariant Db() == After(c, s, trace) && Safe(c, Db()) && |runs| == |s.runs|
        invariant forall i | 0 <= i < r :: runs[i].status.RunStopping? ==> RunOccupied(Db(), i)
      {
        if runs[r].status.RunStopping? && !RunOccupied(Db(), r) {
          ghost var s1 := Db();
          runs := runs[r := runs[r].(status := RunCancelled)];
          StepTrace(c, s, trace, s1, Db(), EvSettleRun(r)) by { RunSettles(c, s1, r); }
          SameOccupied(s1, Db());
          trace := trace + [EvSettleRun(r)];
        }
      }
    }

    /** `reconcile` over every active objective; one that raises undoes the whole sweep. */
    method ReconcileAll(frontier: nat -> nat, deliveries: nat -> bool, closable: nat -> bool) returns (ok: bool, ghost trace: seq<Event>)
      requires WellFormed(c) && Safe(c, Db())
      modifies this
      ensures Db() == After(c, old(Db()), trace) && Safe(c, Db())
      ensures !ok ==> trace == []
    {
      hide Safe; hide WellFormed; hide Apply; hide After; hide ReconcileRun;
      var s := Db();
      trace := [];
      AfterNone(c, s);
      var count := |runs|;
      for r := 0 to count
        invariant Db() == After(c, s, trace) && Safe(c, Db())
      {
        if r < |runs| && r < |c.runs| && c.runs[r].mode.Objective? && runs[r].status.RunActive? {
          ghost var s1 := Db();
          ok := Reconcile(r, frontier(r), deliveries(r), closable(r));
          if !ok {
            RollBack(s);
            AfterNone(c, s);
            return false, [];
          }
          StepTrace(c, s, trace, s1, Db(), EvReconcileRun(r, frontier(r), deliveries(r), closable(r))) by {
            Reconciles(c, s1, Db(), r, frontier(r), deliveries(r), closable(r));
          }
          trace := trace + [EvReconcileRun(r, frontier(r), deliveries(r), closable(r))];
        }
      }
      ok := true;
    }
  }

  // An unsettled turn of an execution whose stop is confirmed.
  predicate Loose(s: State, q: nat) {
    && q < |s.turns| && Unsettled(s.turns[q].status) && s.turns[q].execution < |s.executions|
    && !Live(s.executions[s.turns[q].execution].status) && s.executions[s.turns[q].execution].confirmed
  }

  predicate Overdue(s: State, a: nat) {
    && a < |s.assignments| && (s.assignments[a].status.Pending? || s.assignments[a].status.Running?)
    && s.assignments[a].expiresAt.Some? && s.assignments[a].expiresAt.value <= s.now
  }

  lemma StepTrace(c: Config, s: State, trace: seq<Event>, s1: State, s2: State, ev: Event)
    requires WellFormed(c) && Safe(c, s1) && s1 == After(c, s, trace) && Attempt(c, s1, ev) == Commit(s2)
    ensures s2 == After(c, s, trace + [ev]) && Safe(c, s2)
  {
    hide Safe; hide WellFormed; hide Attempt; hide After;
    AfterNext(c, s, trace, ev);
    StepSafe(c, s1, ev);
  }

  lemma TurnSettles(c: Config, s: State, q: nat)
    requires Loose(s, q)
    ensures var t := s.(turns := s.turns[q := s.turns[q].(status := TurnInterrupted)]);
            Attempt(c, s, EvSettleTurn(q)) == Commit(t) && forall i: nat :: Loose(t, i) ==> Loose(s, i) && i != q
  {
  }

  lemma RunSettles(c: Config, s: State, r: nat)
    requires r < |s.runs| && s.runs[r].status.RunStopping? && !RunOccupied(s, r)
    ensures Attempt(c, s, EvSettleRun(r)) == Commit(s.(runs := s.runs[r := s.runs[r].(status := RunCancelled)]))
  {
    hide RunOccupied;
  }

  lemma SameOccupied(s: State, t: State)
    requires t.assignments == s.assignments
    ensures forall r: nat :: RunOccupied(t, r) == RunOccupied(s, r)
  {
  }

  lemma Reconciles(c: Config, s: State, t: State, r: nat, frontier: nat, deliveries: bool, closable: bool)
    requires ReconcileRun(c, s, r, frontier, deliveries, closable) == Commit(t)
    ensures Attempt(c, s, EvReconcileRun(r, frontier, deliveries, closable)) == Commit(t)
  {
    hide ReconcileRun;
  }

  lemma ExpireTrace(c: Config, s: State, trace: seq<Event>, s1: State, s2: State, a: nat)
    requires WellFormed(c) && Safe(c, s1) && s1 == After(c, s, trace) && Overdue(s1, a) && s2 == Cancel(c, s1, a, true)
    ensures s2 == After(c, s, trace + [EvExpireSession(a)]) && Safe(c, s2) && s2.now == s1.now
    ensures |s2.assignments| == |s1.assignments|
    ensures !Overdue(s2, a) && forall b: nat :: Overdue(s2, b) ==> Overdue(s1, b)
  {
    hide Safe; hide WellFormed; hide After; hide Cancel;
    assert Attempt(c, s1, EvExpireSession(a)) == Commit(s2);
    StepTrace(c, s, trace, s1, s2, EvExpireSession(a));
    CancelOverdue(c, s1, a);
  }

  lemma CancelOverdue(c: Config, s: State, a: nat)
    requires Overdue(s, a)
    ensures var t := Cancel(c, s, a, true);
            && |t.assignments| == |s.assignments| && t.now == s.now && !Overdue(t, a)
            && forall b: nat :: Overdue(t, b) ==> Overdue(s, b)
  {
  }

  // ---- What the steps of the recurrence and the commands achieve ----

  // The queue is as it was, or one planner longer where none was queued.
  ghost predicate Follows(s: State, assignments: seq<Assignment>, r: nat) {
    || assignments == s.assignments
    || (&& |assignments| == |s.assignments| + 1 && assignments[..|s.assignments|] == s.assignments
        && r < |s.runs| && s.runs[r].status.RunActive? && s.runs[r].next.None? && !KeyLive(s, r, NextKey)
        && assignments[|s.assignments|] == NewPlanner(r, s.runs[r].planner))
  }

  // One planning pass, told by its effect on the rule.
  ghost predicate PassAccounted(c: Config, was: Planner, rule: Planner, observed: nat, now: int) {
    && rule.frontier == observed && rule.passes == (if observed == was.frontier then was.passes + 1 else 0)
    && (rule.enabled <==> !Manual(was) && rule.passes < c.plannerPasses)
    && (Manual(was) ==> rule.pause == was.pause) && (!Manual(was) ==> (rule.pause.Idle? <==> !rule.enabled))
    && rule.notBefore.Some? && rule.notBefore.value <= now + c.plannerMaxIdle
  }

  lemma PassAccounts(c: Config, was: Planner, observed: nat, now: int)
    ensures PassAccounted(c, was, AfterPass(c, was, observed, now), observed, now)
  {
    hide Pow2;
  }

  lemma AcceptedQueue(c: Config, s: State, t: State, r: nat, agent: Option<nat>, requested: Option<Phase>, resolvable: bool)
    requires AcceptPhase(c, s, r, agent, requested, resolvable) == Commit(t)
    ensures forall a | 0 <= a < |t.assignments| ::
              t.assignments[a].run == r && t.assignments[a].key.NextKey? ==> !t.assignments[a].status.Pending?
    ensures KeysOk(c, s) ==> !KeyLive(t, r, NextKey)
  {
    hide OthersOpen; hide Acting; hide Clash;
    if KeysOk(c, s) {
      forall a | 0 <= a < |t.assignments| && t.assignments[a].run == r && t.assignments[a].key.NextKey?
        ensures !Open(t.assignments[a].status)
      {
        assert KeyRow(s.assignments[a]);
      }
    }
  }

  lemma Received(c: Config, s: State, t: State, e: nat, epoch: nat, r: Receipt, x: Findings)
    requires Known(c, s, e) && StopReceipt(c, s, e, epoch, r, x) == Commit(t)
    ensures |t.executions| == |s.executions| && t.executions[e].confirmed && !Live(t.executions[e].status) && !HasUnsettled(t, e)
    ensures forall k | 0 <= k < |t.claims| :: t.claims[k].execution == e ==> t.claims[k].released
    ensures forall f | 0 <= f < |s.executions| && f != e :: t.executions[f] == s.executions[f]
  {
    hide StopReceipt; hide HasUnsettled;
    ReceiptAside(c, s, e, epoch, r, x);
  }

  lemma Swept(c: Config, s: State, t: State, e: nat, x: Findings)
    requires Known(c, s, e) && LeaseSweep(c, s, e, x) == Commit(t)
    ensures |t.executions| == |s.executions| && !Live(t.executions[e].status) && t.executions[e].confirmed == s.executions[e].confirmed
    ensures !s.executions[e].confirmed ==> t.claims == s.claims
    ensures !s.executions[e].confirmed && ModeOf(c, s, s.executions[e].assignment).Objective? ==> Busy(c, t, e)
  {
    hide LeaseSweep; hide Busy;
    SweepAside(c, s, e, x);
  }

  // What a draining or stopping run must not keep.
  predicate Chosen(item: Assignment, r: nat, draining: bool) {
    item.run == r && (if draining then item.status.Pending? && !item.rule.NoRule? else item.status.Pending? || item.status.Running?)
  }

  lemma CancelClears(c: Config, s: State, a: nat, disable: bool)
    requires a < |s.assignments|
    ensures |Cancel(c, s, a, disable).assignments| == |s.assignments|
    ensures !Cancel(c, s, a, disable).assignments[a].status.Pending? && !Cancel(c, s, a, disable).assignments[a].status.Running?
  {
  }

  // The loop leaves none of them from n on.
  lemma {:induction false} CancelRestClears(c: Config, s: State, r: nat, draining: bool, n: nat)
    requires n <= |s.assignments|
    ensures var t := CancelRest(c, s, r, draining, n);
            && |t.assignments| == |s.assignments| && AllNudged(s, t)
            && forall a | n <= a < |t.assignments| :: !Chosen(t.assignments[a], r, draining)
    decreases |s.assignments| - n
  {
    hide Cancel;
    CancelRestNudges(c, s, r, draining, n);
    if n < |s.assignments| {
      CancelClears(c, s, n, !draining);
      CancelNudges(c, s, n, !draining);
      var u := if Chosen(s.assignments[n], r, draining) then Cancel(c, s, n, !draining) else s;
      CancelRestClears(c, u, r, draining, n + 1);
    }
  }

  lemma SameSettled(s: State, t: State, r: nat)
    requires t.assignments == s.assignments && t.executions == s.executions
    ensures RunOccupied(t, r) == RunOccupied(s, r) && RunUnconfirmed(t, r) == RunUnconfirmed(s, r)
  {
  }

  // A recovered session: fenced, with one retained context in its old workspace.
  ghost predicate Replaced(c: Config, s: State, z: State, t: nat)
    requires t < |s.threads| && s.threads[t].assignment < |z.assignments| == |s.assignments|
  {
    var a := s.threads[t].assignment;
    var objective := ModeOf(c, s, a).Objective?;
    && z.executions == s.executions && !LiveSession(z, a) && !SessionUnsettled(s, a)
    && (objective ==> forall e | 0 <= e < |z.executions| :: z.executions[e].assignment == a ==> z.executions[e].confirmed)
    && |z.threads| == |s.threads| + 1
    && z.threads[|s.threads|].assignment == a && z.threads[|s.threads|].workspace == s.threads[t].workspace
    && (forall u | 0 <= u < |z.threads| && z.threads[u].assignment == a :: Retained(z.threads[u].status) <==> u == |s.threads|)
    && z.assignments[a].status.Pending?
    && (objective ==> z.assignments[a].attempts == s.assignments[a].attempts && z.assignments[a].pause.None?)
  }

  lemma RecoveredFacts(c: Config, s: State, z: State, t: nat)
    requires RecoverContext(c, s, t) == Commit(z)
    ensures t < |s.threads| && s.threads[t].assignment < |z.assignments| == |s.assignments| && Replaced(c, s, z, t)
  {
    hide SessionUnsettled;
  }

  function SupersededSuccessors(assignments: seq<Assignment>, r: nat, now: int): seq<Assignment> {
    seq(|assignments|, (a: nat) requires a < |assignments| =>
      if assignments[a].run == r && assignments[a].key.NextKey? && assignments[a].status.Pending?
      then assignments[a].(status := Cancelled, finishedAt := Some(now)) else assignments[a])
  }

  lemma SupersededParts(s: State, r: nat)
    ensures SupersededSuccessors(s.assignments, r, s.now) == seq(|s.assignments|, (a: nat) requires a < |s.assignments| =>
              if s.assignments[a].run == r && s.assignments[a].key.NextKey? && s.assignments[a].status.Pending?
              then s.assignments[a].(status := Cancelled, finishedAt := Some(s.now)) else s.assignments[a])
  {
  }

  lemma ActingExists(s: State, r: nat, e: nat)
    requires Acting(s, r, e)
    ensures e < |s.executions|
  {
  }

  predicate Stranded(s: State, e: nat, a: nat, t: nat)
    requires t < |s.threads|
  {
    && s.threads[t].assignment == a && s.threads[t].native.None? && Retained(s.threads[t].status)
    && exists q | 0 <= q < |s.turns| :: s.turns[q].execution == e && s.turns[q].thread == t
  }

  function WokenPlanners(assignments: seq<Assignment>, r: nat): seq<Assignment> {
    seq(|assignments|, (a: nat) requires a < |assignments| =>
      if assignments[a].run == r && assignments[a].key.NextKey? && assignments[a].status.Pending?
      then assignments[a].(pause := None, notBefore := None) else assignments[a])
  }

  lemma WokenParts(s: State, r: nat)
    ensures WokenPlanners(s.assignments, r) == seq(|s.assignments|, (a: nat) requires a < |s.assignments| =>
              if s.assignments[a].run == r && s.assignments[a].key.NextKey? && s.assignments[a].status.Pending?
              then s.assignments[a].(pause := None, notBefore := None) else s.assignments[a])
  {
  }

  lemma SafeKnown(c: Config, s: State, e: nat)
    requires Safe(c, s) && e < |s.executions|
    ensures Known(c, s, e)
  {
    hide SessionsOk; hide ContextsOk; hide ClaimsOk; hide Fits;
  }

  lemma SweepTrace(c: Config, s: State, trace: seq<Event>, s1: State, s2: State, e: nat, x: Findings)
    requires WellFormed(c) && Safe(c, s1) && s1 == After(c, s, trace) && Known(c, s1, e) && LeaseSweep(c, s1, e, x) == Commit(s2)
    ensures s2 == After(c, s, trace + [EvLeaseSweep(e, x)]) && Safe(c, s2) && s2.now == s1.now
    ensures |s2.executions| == |s1.executions| && !Live(s2.executions[e].status)
    ensures forall i | 0 <= i < |s1.executions| && i != e :: s2.executions[i] == s1.executions[i]
  {
    hide Safe; hide WellFormed; hide LeaseSweep; hide After;
    AfterNext(c, s, trace, EvLeaseSweep(e, x));
    StepSafe(c, s1, EvLeaseSweep(e, x));
    SweepRows(c, s1, e, x);
  }

  lemma SweepRows(c: Config, s: State, e: nat, x: Findings)
    requires WellFormed(c) && Known(c, s, e) && LeaseSweep(c, s, e, x).Commit?
    ensures var t := LeaseSweep(c, s, e, x).state;
            && t.now == s.now && |t.executions| == |s.executions| && !Live(t.executions[e].status)
            && forall i | 0 <= i < |s.executions| && i != e :: t.executions[i] == s.executions[i]
  {
    hide UncertainTurns; hide WellFormed; hide ObjectiveFinish; hide LegacyFinish; hide AdjustedLimits; hide ContextLost;
    hide ReleasedClaims; hide RetryOf; hide PassCompleted; hide Reclassified;
    var u := s.(turns := UncertainTurns(s.turns, e));
    var v := SettledRows(c, u, e, false, OutLost, Some(Failure(LeaseExpired, "lease")), false, None, x);
    var r := s.assignments[s.executions[e].assignment].run;
    if PassCompleted(c, v, r, x.frontier).Commit? { PassShape(c, v, r, x.frontier); }
  }

  ghost predicate Retiring(trace: seq<Event>) {
    forall i | 0 <= i < |trace| :: trace[i].EvRetireOrphans? || trace[i].EvRetireFailed?
  }

  lemma AfterNone(c: Config, s: State)
    ensures After(c, s, []) == s
  {
  }

  lemma AfterNext(c: Config, s: State, trace: seq<Event>, ev: Event)
    ensures After(c, s, trace + [ev]) == Apply(c, After(c, s, trace), ev)
  {
    hide Apply;
    assert (trace + [ev])[..|trace|] == trace;
  }

  // The event admits a session of the queue that is due, on a harness that was asked for.
  ghost predicate GrantsDue(c: Config, s: State, host: nat, queue: seq<nat>, pools: seq<nat>, ev: Event) {
    ev.EvAdmit? && ev.session in queue && ev.host == host && ev.harness in pools && Due(c, s, ev.session, ev.harness)
  }

  lemma AdmittedDue(c: Config, s: State, t: State, a: nat, host: nat, harness: nat, view: View, queue: seq<nat>, pools: seq<nat>)
    requires Admit(c, t, a, host, harness, view).Commit? && t.assignments == s.assignments && t.runs == s.runs && t.now == s.now
    requires a in queue && harness in pools
    ensures GrantsDue(c, s, host, queue, pools, EvAdmit(a, host, harness, view))
  {
    hide Admit;
    AdmissionTerms(c, t, a, host, harness, view);
  }

  lemma CandidateExists(c: Config, s: State, a: nat)
    requires Candidate(c, s, a)
    ensures a < |s.assignments|
  {
  }

  lemma RetireTrace(c: Config, s: State, trace: seq<Event>, s1: State, s2: State, s3: State, a: nat, host: nat)
    requires s1 == After(c, s, trace) && s2 == RetireOrphans(s1, a, host) && s3 == RetireFailed(c, s2, a)
    ensures s3 == After(c, s, trace + [EvRetireOrphans(a, host), EvRetireFailed(a)])
    ensures s3.executions == s1.executions && s3.assignments == s1.assignments && s3.runs == s1.runs && s3.now == s1.now
  {
    hide Orphaned; hide FailedContext; hide After;
    AfterNext(c, s, trace, EvRetireOrphans(a, host));
    AfterNext(c, s, trace + [EvRetireOrphans(a, host)], EvRetireFailed(a));
    assert trace + [EvRetireOrphans(a, host)] + [EvRetireFailed(a)] == trace + [EvRetireOrphans(a, host), EvRetireFailed(a)];
  }

  lemma RetireSafe(c: Config, s1: State, s2: State, s3: State, a: nat, host: nat)
    requires s2 == RetireOrphans(s1, a, host) && s3 == RetireFailed(c, s2, a)
    ensures WellFormed(c) && Safe(c, s1) ==> Safe(c, s3)
  {
    hide Safe; hide WellFormed; hide RetireOrphans; hide RetireFailed;
    if WellFormed(c) && Safe(c, s1) {
      StepSafe(c, s1, EvRetireOrphans(a, host));
      StepSafe(c, s2, EvRetireFailed(a));
    }
  }

  lemma AdmitTrace(c: Config, s: State, trace: seq<Event>, s3: State, s4: State, a: nat, host: nat, harness: nat, view: View)
    requires s3 == After(c, s, trace) && Admit(c, s3, a, host, harness, view) == Commit(s4)
    ensures s4 == After(c, s, trace + [EvAdmit(a, host, harness, view)]) && |s4.executions| == |s3.executions| + 1
    ensures WellFormed(c) && Safe(c, s3) ==> Safe(c, s4)
  {
    hide Safe; hide WellFormed; hide Admit; hide After;
    AfterNext(c, s, trace, EvAdmit(a, host, harness, view));
    AdmitCount(c, s3, a, host, harness, view);
    if WellFormed(c) && Safe(c, s3) { StepSafe(c, s3, EvAdmit(a, host, harness, view)); }
  }

  lemma AdmitCount(c: Config, s: State, a: nat, host: nat, harness: nat, view: View)
    requires Admit(c, s, a, host, harness, view).Commit?
    ensures |Admit(c, s, a, host, harness, view).state.executions| == |s.executions| + 1
  {
    hide Admissible; hide Placement; hide Reservation; hide RetainedOn; hide NextNumber; hide HasRetained; hide Proposed; hide Queued;
    hide FindKey;
  }

  function StoppedExecutions(executions: seq<Execution>, a: nat): seq<Execution> {
    seq(|executions|, (e: nat) requires e < |executions| =>
      if executions[e].assignment == a && (executions[e].status.ExecStarting? || executions[e].status.ExecRunning?)
      then executions[e].(status := ExecStopping) else executions[e])
  }

  lemma CancelParts(c: Config, s: State, a: nat, disable: bool)
    requires a < |s.assignments|
    ensures var item := s.assignments[a];
            var t := s.(assignments := s.assignments[a := if item.status.Pending? then item.(status := Cancelled, finishedAt := Some(s.now))
                                                          else item.(status := Stopping, finishedAt := None)],
                        executions := StoppedExecutions(s.executions, a));
            Cancel(c, s, a, disable) ==
            if Settled(item.status) then s
            else if disable && item.rule.PlannerRule? && ModeOf(c, s, a).Objective? && item.run < |s.runs| then
              t.(runs := s.runs[item.run := s.runs[item.run].(
                   planner := s.runs[item.run].planner.(enabled := false, pause := ByCancellation))],
                 assignments := PausedPlanners(t.assignments, item.run, "cancelled"))
            else t
  {
    hide PausedPlanners;
    assert StopSession(s, a).executions == StoppedExecutions(s.executions, a);
  }

  lemma ReservedChildren(c: Config, s: State, a: nat, host: nat, harness: nat)
    requires a < |s.assignments| && (host, harness) in c.pools
    ensures Reservation(c, s, a, host, harness) ==
            var capacity := NativeCapacity(c, s, a, host, harness);
            if ModeOf(c, s, a).Objective? && capacity.Some? then capacity.value else 0
  {
    hide NativeCapacity;
  }

  lemma CancelCount(c: Config, s: State, a: nat, disable: bool)
    requires a < |s.assignments|
    ensures |Cancel(c, s, a, disable).assignments| == |s.assignments|
  {
  }

  lemma AdmissibleParts(c: Config, s: State, a: nat, host: nat, harness: nat, view: View)
    requires Admissible(c, s, a, host, harness, view)
    ensures a < |s.assignments| && s.assignments[a].run < |s.runs| && s.assignments[a].run < |c.runs| && (host, harness) in c.pools
    ensures !Placement(c, s, a, host, view).NoPlace?
  {
    hide Placement; hide Blocked; hide LimitsFree; hide Cool; hide SessionUnsettled; hide KeyLive; hide PoolWeight; hide RetainedOn;
  }

  lemma SettledKnown(c: Config, s: State, e: nat, byHost: bool, outcome: Outcome, given: Option<Failure>,
                     journal: bool, reason: Option<string>, x: Findings)
    requires Known(c, s, e)
    ensures var t := SettledRows(c, s, e, byHost, outcome, given, journal, reason, x);
            |t.assignments| == |s.assignments| && t.runs == s.runs
  {
    hide ObjectiveFinish; hide LegacyFinish; hide AdjustedLimits; hide ContextLost; hide ReleasedClaims; hide RetryOf;
    hide Reclassified; hide Finished;
  }
}
