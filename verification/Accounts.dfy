/**
  Provider accounts over every step: failures, cooldowns, circuits and the
  single recovery probe (scheduler.py `finish`, `limits_available`; commands.py
  `reset_circuit`).
 */
module Accounts {
  import opened Wrappers
  import opened Records
  import opened Admission
  import opened Protocol
  import opened Structure
  import opened Fencing
  import opened Safety

  // ---- Which steps touch the limits at all ----

  lemma {:induction false} CancelRestLimits(c: Config, s: State, r: nat, draining: bool, n: nat)
    requires n <= |s.assignments|
    ensures CancelRest(c, s, r, draining, n).limits == s.limits
    decreases |s.assignments| - n
  {
    if n < |s.assignments| {
      var item := s.assignments[n];
      var chosen := item.run == r && (if draining then item.status.Pending? && !item.rule.NoRule?
                                      else item.status.Pending? || item.status.Running?);
      var t := if chosen then Cancel(c, s, n, !draining) else s;
      if |t.assignments| == |s.assignments| { CancelRestLimits(c, t, r, draining, n + 1); }
    }
  }

  lemma TransitionLimits(c: Config, s: State, r: nat, op: RunOp, done: bool, unpublished: bool)
    requires Transition(c, s, r, op, done, unpublished).Commit?
    ensures Transition(c, s, r, op, done, unpublished).state.limits == s.limits
  {
    hide CancelRest; hide RunOccupied; hide RunUnconfirmed; hide Queued;
    if op.DrainRun? {
      CancelRestLimits(c, s.(runs := s.runs[r := s.runs[r].(status := RunDraining)]), r, true, 0);
    } else if op.CancelRun? {
      CancelRestLimits(c, s.(runs := s.runs[r := s.runs[r].(status := RunStopping,
                                                           planner := s.runs[r].planner.(enabled := false))]), r, false, 0);
    }
  }

  lemma AdmitLimits(c: Config, s: State, a: nat, host: nat, harness: nat, view: View)
    requires WellFormed(c) && Sound(c, s) && Admit(c, s, a, host, harness, view).Commit?
    ensures Admit(c, s, a, host, harness, view).state.limits == s.limits
  {
    hide Admit; hide Reservation; hide Placement; hide Sound;
    AdmitShape(c, s, a, host, harness, view);
  }

  lemma LimitsUntouched(c: Config, s: State, ev: Event)
    requires WellFormed(c) && Sound(c, s)
    requires !ev.EvStopReceipt? && !ev.EvLeaseSweep? && !ev.EvResetCircuit?
    ensures Apply(c, s, ev).limits == s.limits
  {
    hide Sound; hide Admit; hide Transition; hide Admissible; hide Orphaned; hide FailedContext; hide Queued; hide RunBusy;
    hide WellFormed; hide OthersOpen; hide Acting; hide RunOccupied; hide LiveSession; hide SessionUnsettled; hide Unconfirmed;
    hide HasRetained;
    if Attempt(c, s, ev).Commit? {
      if ev.EvAdmit? { AdmitLimits(c, s, ev.session, ev.host, ev.harness, ev.view); }
      else if ev.EvTransition? { TransitionLimits(c, s, ev.run, ev.op, ev.missionDone, ev.unpublished); }
    }
  }

  // ---- How a settling execution moves a limit ----

  // One settlement either leaves the limit, counts one more failure with a
  // cooldown no shorter than before, or clears it after a healthy execution
  // that started once the cooldown was over.
  ghost predicate Moves(c: Config, s: State, e: nat, l: nat, x: Limit, y: Limit)
    requires e < |s.executions|
  {
    || y == x
    || (&& AccountOf(c, s, e, l) && y.failures == x.failures + 1 && y.cooldown.Some? && (x.open ==> y.open)
        && (x.cooldown.Some? ==> x.cooldown.value <= y.cooldown.value) && y.cooldown.value >= s.now)
    || (&& AccountOf(c, s, e, l) && !x.open && y == Limit(0, None, false)
        && (x.cooldown.Some? ==> x.cooldown.value <= s.executions[e].startedAt))
  }

  lemma AdjustedMoves(c: Config, s: State, e: nat, retry: Retry, objective: bool, outcome: Outcome,
                      failure: Option<Failure>, x: Findings, l: nat)
    requires e < |s.executions| && l < |s.limits|
    ensures |AdjustedLimits(c, s, e, retry, objective, outcome, failure, x)| == |s.limits|
    ensures Moves(c, s, e, l, s.limits[l], AdjustedLimits(c, s, e, retry, objective, outcome, failure, x)[l])
  {
    hide AccountOf; hide Backoff;
    var y := AdjustedLimits(c, s, e, retry, objective, outcome, failure, x)[l];
    if y != s.limits[l] && failure.Some? && AccountFault(failure.value.code) {
      assert y == Penalised(s.limits[l], retry, objective, x.accountWait(l), s.now);
    } else if y != s.limits[l] {
      assert y == Cleared(s.limits[l], s.executions[e].startedAt);
    }
  }

  lemma SettleMoves(c: Config, s: State, e: nat, byHost: bool, outcome: Outcome, given: Option<Failure>,
                    journal: bool, reason: Option<string>, x: Findings, l: nat)
    requires Known(c, s, e) && l < |s.limits| && Settle(c, s, e, byHost, outcome, given, journal, reason, x).Commit?
    ensures var t := Settle(c, s, e, byHost, outcome, given, journal, reason, x).state;
            |t.limits| == |s.limits| && Moves(c, s, e, l, s.limits[l], t.limits[l])
  {
    hide ObjectiveFinish; hide LegacyFinish; hide AdjustedLimits; hide ContextLost; hide PassCompleted; hide ReleasedClaims;
    var a := s.executions[e].assignment;
    var objective := c.runs[s.assignments[a].run].mode.Objective?;
    AdjustedMoves(c, s, e, RetryOf(c, s, a), objective, outcome, Reclassified(given), x, l);
    if Live(s.executions[e].status) {
      var u := SettledRows(c, s, e, byHost, outcome, given, journal, reason, x);
      if PassCompleted(c, u, s.assignments[a].run, x.frontier).Commit? {
        PassShape(c, u, s.assignments[a].run, x.frontier);
      }
    }
  }

  lemma ReceiptMoves(c: Config, s: State, e: nat, epoch: nat, r: Receipt, x: Findings, l: nat)
    requires Known(c, s, e) && l < |s.limits| && StopReceipt(c, s, e, epoch, r, x).Commit?
    ensures var t := StopReceipt(c, s, e, epoch, r, x).state;
            |t.limits| == |s.limits| && Moves(c, s, e, l, s.limits[l], t.limits[l])
  {
    hide ReceiptThreads; hide JudgedOutcome; hide InterruptedTurns; hide ReleasedClaims; hide Settle;
    var a := s.executions[e].assignment;
    var stopped := s.(executions := s.executions[e := s.executions[e].(confirmed := true)],
                      turns := InterruptedTurns(s.turns, e));
    var t := stopped.(threads := ReceiptThreads(stopped, e, a, r).value);
    var judged := JudgedOutcome(c, s, e, r, x);
    SettleMoves(c, t, e, true, judged.0, judged.1, IntentsOpen(r), r.reason, x, l);
    assert AccountOf(c, t, e, l) == AccountOf(c, s, e, l);
  }

  lemma SweepMoves(c: Config, s: State, e: nat, x: Findings, l: nat)
    requires Known(c, s, e) && l < |s.limits| && LeaseSweep(c, s, e, x).Commit?
    ensures var t := LeaseSweep(c, s, e, x).state;
            |t.limits| == |s.limits| && Moves(c, s, e, l, s.limits[l], t.limits[l])
  {
    hide UncertainTurns; hide Settle;
    var t := s.(turns := UncertainTurns(s.turns, e));
    SettleMoves(c, t, e, false, OutLost, Some(Failure(LeaseExpired, "lease")), false, None, x, l);
    assert AccountOf(c, t, e, l) == AccountOf(c, s, e, l);
  }

  // ---- The account guarantees ----

  ghost predicate AccountsOk(s: State) {
    forall l | 0 <= l < |s.limits| :: s.limits[l].failures > 0 ==> s.limits[l].cooldown.Some?
  }

  /**
    Step by step: an open circuit closes only by the administrator's reset; the
    cooldown never shrinks while failures remain; and the failure count drops
    only to zero, by a reset or by an execution that held the account, started
    at or after the cooldown and ran on a closed circuit.
   */
  lemma AccountStep(c: Config, s: State, ev: Event, l: nat)
    requires WellFormed(c) && Sound(c, s) && AccountsOk(s) && l < |s.limits|
    ensures l < |Apply(c, s, ev).limits|
    ensures var x, y := s.limits[l], Apply(c, s, ev).limits[l];
            && (x.open && !y.open ==> ev == EvResetCircuit(l))
            && (y.failures < x.failures ==> y.failures == 0)
            && (y.failures < x.failures ==>
                  (|| ev == EvResetCircuit(l)
                   || ((ev.EvStopReceipt? || ev.EvLeaseSweep?) && ev.execution < |s.executions| && !x.open
                       && AccountOf(c, s, ev.execution, l) && x.cooldown.Some?
                       && x.cooldown.value <= s.executions[ev.execution].startedAt)))
            && (x.cooldown.Some? && y.failures > 0 ==> y.cooldown.Some? && x.cooldown.value <= y.cooldown.value)
            && (y.failures > 0 ==> y.cooldown.Some?)
  {
    hide Sound; hide WellFormed; hide StopReceipt; hide LeaseSweep; hide AccountOf;
    if ev.EvStopReceipt? {
      if Attempt(c, s, ev).Commit? { ReceiptMoves(c, s, ev.execution, ev.epoch, ev.receipt, ev.findings, l); }
    } else if ev.EvLeaseSweep? {
      if Attempt(c, s, ev).Commit? { SweepMoves(c, s, ev.execution, ev.findings, l); }
    } else if !ev.EvResetCircuit? {
      LimitsUntouched(c, s, ev);
    }
  }

  /** The same over every run: in each reachable state a failing account has a cooldown. */
  lemma {:induction false} FailingAccountsCool(c: Config, start: State, events: seq<Event>)
    requires WellFormed(c) && Initial(c, start)
    ensures AccountsOk(After(c, start, events))
  {
    hide Apply; hide Sound; hide Fits;
    if events != [] {
      var s := After(c, start, events[..|events| - 1]);
      var ev := events[|events| - 1];
      FailingAccountsCool(c, start, events[..|events| - 1]);
      AlwaysSafe(c, start, events[..|events| - 1]);
      AlwaysSafe(c, start, events);
      SoundRefs(c, s);
      SoundRefs(c, After(c, start, events));
      forall l: nat | l < |After(c, start, events).limits|
        ensures After(c, start, events).limits[l].failures > 0 ==> After(c, start, events).limits[l].cooldown.Some?
      {
        AccountStep(c, s, ev, l);
      }
    }
  }

  /**
    After a failure an account admits one probe only: nothing may be held on
    it, its cooldown must be over, and the probe holds a single unit.
   */
  lemma OneProbe(c: Config, s: State, a: nat, host: nat, harness: nat, view: View, l: nat)
    requires WellFormed(c) && Sound(c, s) && Admit(c, s, a, host, harness, view).Commit?
    requires (host, harness) in c.pools && l in c.pools[(host, harness)].limits && l < |s.limits|
    requires s.limits[l].failures > 0
    ensures Held(s, l) == 0 && Held(Admit(c, s, a, host, harness, view).state, l) == 1
    ensures !s.limits[l].open && (s.limits[l].cooldown.Some? ==> s.limits[l].cooldown.value <= s.now)
  {
    hide Admit; hide Admits; hide PoolWeight; hide CategoryWeight; hide Held; hide Placement; hide Reservation; hide Blocked;
    hide SessionUnsettled; hide KeyLive; hide SessionsOk; hide ContextsOk; hide ClaimsOk;
    AdmitPlacement(c, s, a, host, harness, view);
    AdmitShape(c, s, a, host, harness, view);
    var pick := Placement(c, s, a, host, view);
    var w := if pick.Existing? then pick.place else |s.places|;
    var n := Reservation(c, s, a, host, harness);
    HeldGrows(c, s, Admit(c, s, a, host, harness, view).state, a, host, harness, w, n, l);
    var limits := c.pools[(host, harness)].limits;
    var i :| 0 <= i < |limits| && limits[i] == l;
    assert LimitFree(c, s, limits[i]);
    if n > 0 { ReservationBounds(c, s, a, host, harness); }
  }
}
