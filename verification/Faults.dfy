/**
  Provider accounts, exactly: which stop receipts count a fault against an
  account, which clear it, and what the count is after any run (scheduler.py
  `finish`, commands.py `reset_circuit`).
 */
module Faults {
  import opened Wrappers
  import opened Records
  import opened Admission
  import opened Protocol
  import opened Structure
  import opened Safety
  import opened Accounts
  import opened Stops
  import opened Verdicts

  // ---- The delay after the n-th failure ----

  lemma {:induction false} Doubling(n: nat)
    ensures Pow2(n + 1) == 2 * Pow2(n) && Pow2(n) > 0 && Pow2(0) == 1
  {
    if n > 0 { Doubling(n - 1); }
  }

  lemma MinDouble(most: nat, x: nat, y: nat)
    requires y == 2 * x
    ensures Min(most, y) == Min(most, 2 * Min(most, x))
  {
  }

  /** The delay starts at the initial one, doubles with each failure up to the twenty-first, and is capped. */
  lemma BackoffDoubles(retry: Retry, n: nat)
    requires n >= 1
    ensures Backoff(retry, 1) == Min(retry.maxDelay, retry.initialDelay)
    ensures Backoff(retry, n + 1) == (if n <= 20 then Min(retry.maxDelay, 2 * Backoff(retry, n)) else Backoff(retry, n))
    ensures Backoff(retry, n) <= retry.maxDelay
  {
    hide Pow2;
    Doubling(0);
    if n <= 20 {
      Doubling(n - 1);
      var x, y := retry.initialDelay * Pow2(n - 1), retry.initialDelay * Pow2(n);
      assert y == 2 * x;
      MinDouble(retry.maxDelay, x, y);
    }
  }

  /** The wait is some number between half the delay and the delay, and every such number can be drawn. */
  lemma WaitsAreDrawn(delay: nat, wait: nat)
    ensures (exists draw: nat :: Jitter(delay, draw) == wait) <==> delay <= 2 * wait && wait <= delay
  {
    if delay <= 2 * wait && wait <= delay { assert Jitter(delay, wait) == wait; }
  }

  // ---- Faults and clearances ----

  // The execution holds units on a provider account.
  ghost predicate HoldsAccount(c: Config, s: State, e: nat, l: nat) {
    && l < |c.limits| && c.limits[l].account
    && exists k | 0 <= k < |s.claims| :: s.claims[k].execution == e && s.claims[k].limit == l && !s.claims[k].released
  }

  // An objective's category has its own retry policy, a legacy run one for all.
  function PolicyOf(c: Config, s: State, e: nat): Retry
    requires Known(c, s, e)
  {
    var item := s.assignments[s.executions[e].assignment];
    var spec := c.runs[item.run];
    if spec.mode == Objective && item.category < |spec.policies| then spec.policies[item.category].retry else spec.retry
  }

  // The provider's fault: overload, rate limit or a broken connection, but not
  // the worker's own deadline that older workers reported as a timeout.
  predicate ProviderFault(failure: Option<Failure>) {
    && failure.Some?
    && failure.value.code in {RateLimited, ProviderOverloaded, ConnectionError, Timeout}
    && !(failure.value.code == Timeout && failure.value.message == "Provider request exceeded its execution deadline")
  }

  // A committed receipt that ends a live execution and is taken at its word.
  ghost predicate Heard(c: Config, s: State, ev: Event) {
    && ev.EvStopReceipt? && Known(c, s, ev.execution) && Live(s.executions[ev.execution].status)
    && !Late(s, ev.execution) && !Stuck(c, s, ev.execution, ev.receipt, ev.findings)
    && StopReceipt(c, s, ev.execution, ev.epoch, ev.receipt, ev.findings).Commit?
  }

  ghost predicate CountsFault(c: Config, s: State, ev: Event, l: nat) {
    Heard(c, s, ev) && HoldsAccount(c, s, ev.execution, l) && ProviderFault(ev.receipt.failure)
  }

  // A healthy finish clears a closed account whose cooldown was over when it started.
  ghost predicate ClearsAccount(c: Config, s: State, ev: Event, l: nat) {
    && Heard(c, s, ev) && HoldsAccount(c, s, ev.execution, l) && !ProviderFault(ev.receipt.failure)
    && (ev.receipt.outcome == OutSucceeded || ev.receipt.outcome == OutYielded)
    && (exists q | 0 <= q < |s.turns| :: s.turns[q].execution == ev.execution && s.turns[q].status == TurnCompleted)
    && l < |s.limits| && !s.limits[l].open
    && (s.limits[l].cooldown.Some? ==> s.limits[l].cooldown.value <= s.executions[ev.execution].startedAt)
  }

  // One more failure, a cooldown of at least half the delay, and an open
  // circuit past the policy of an objective.
  ghost predicate Faulted(x: Limit, y: Limit, retry: Retry, objective: bool, now: int) {
    && y.failures == x.failures + 1
    && y.cooldown.Some? && 2 * (y.cooldown.value - now) >= Backoff(retry, y.failures)
    && (x.cooldown.Some? ==> y.cooldown.value >= x.cooldown.value)
    && (y.cooldown.value <= now + Backoff(retry, y.failures) || y.cooldown == x.cooldown)
    && (y.open <==> x.open || (objective && y.failures > retry.maxAttempts))
  }

  lemma FaultByName(failure: Option<Failure>)
    ensures (Reclassified(failure).Some? && Reclassified(failure).value.code in {RateLimited, ProviderOverloaded, ConnectionError, Timeout})
            <==> ProviderFault(failure)
  {
  }

  lemma ReportedFault(r: Receipt)
    ensures ProviderFault(ReportedFailure(r)) <==> ProviderFault(r.failure)
  {
  }

  lemma PolicyIs(c: Config, s: State, e: nat)
    requires Known(c, s, e)
    ensures RetryOf(c, s, s.executions[e].assignment) == PolicyOf(c, s, e)
  {
  }

  // One limit under a settlement with this outcome and failure: on an account
  // the execution holds, a provider's fault counts one failure more, with its
  // cooldown and circuit; a healthy finish clears a closed account unless it
  // cooled down since the start. Nothing else changes.
  ghost predicate Accounted(c: Config, s: State, e: nat, retry: Retry, objective: bool, outcome: Outcome,
                            failure: Option<Failure>, l: nat, y: Limit)
    requires e < |s.executions| && l < |s.limits|
  {
    var fault := failure.Some? && failure.value.code in {RateLimited, ProviderOverloaded, ConnectionError, Timeout};
    var healthy := (outcome == OutSucceeded || outcome == OutYielded)
                   && exists q | 0 <= q < |s.turns| :: s.turns[q].execution == e && s.turns[q].status.TurnCompleted?;
    if HoldsAccount(c, s, e, l) && fault then Faulted(s.limits[l], y, retry, objective, s.now)
    else if HoldsAccount(c, s, e, l) && healthy && !s.limits[l].open
            && (s.limits[l].cooldown.Some? ==> s.limits[l].cooldown.value <= s.executions[e].startedAt)
    then y == Limit(0, None, false)
    else y == s.limits[l]
  }

  lemma AdjustedExactly(c: Config, s: State, e: nat, retry: Retry, objective: bool, outcome: Outcome,
                        failure: Option<Failure>, x: Findings, l: nat)
    requires e < |s.executions| && l < |s.limits|
    ensures var y := AdjustedLimits(c, s, e, retry, objective, outcome, failure, x);
            |y| == |s.limits| && Accounted(c, s, e, retry, objective, outcome, failure, l, y[l])
  {
    hide Backoff;
    assert AccountOf(c, s, e, l) == HoldsAccount(c, s, e, l);
    if failure.Some? && AccountFault(failure.value.code) && AccountOf(c, s, e, l) {
      PenaltyIs(s.limits[l], retry, objective, x.accountWait(l), s.now);
      assert AdjustedLimits(c, s, e, retry, objective, outcome, failure, x)[l]
             == Penalised(s.limits[l], retry, objective, x.accountWait(l), s.now);
    }
  }

  lemma PenaltyIs(l: Limit, retry: Retry, objective: bool, draw: nat, now: int)
    ensures Faulted(l, Penalised(l, retry, objective, draw, now), retry, objective, now)
  {
    hide Backoff;
  }

  lemma HeardTurns(s: State, e: nat, r: Receipt)
    requires e < |s.executions|
    ensures var u := ReceiptState(s, e, r);
            && (forall l: nat, c: Config :: HoldsAccount(c, u, e, l) == HoldsAccount(c, s, e, l))
            && u.limits == s.limits && u.now == s.now && |u.executions| == |s.executions| && u.executions[e].startedAt == s.executions[e].startedAt
            && ((exists q | 0 <= q < |u.turns| :: u.turns[q].execution == e && u.turns[q].status.TurnCompleted?)
                <==> (exists q | 0 <= q < |s.turns| :: s.turns[q].execution == e && s.turns[q].status.TurnCompleted?))
  {
    hide ReceiptThreads;
    var u := ReceiptState(s, e, r);
    if exists q | 0 <= q < |s.turns| :: s.turns[q].execution == e && s.turns[q].status.TurnCompleted? {
      var q :| 0 <= q < |s.turns| && s.turns[q].execution == e && s.turns[q].status.TurnCompleted?;
      assert u.turns[q] == s.turns[q];
    }
    if exists q | 0 <= q < |u.turns| :: u.turns[q].execution == e && u.turns[q].status.TurnCompleted? {
      var q :| 0 <= q < |u.turns| && u.turns[q].execution == e && u.turns[q].status.TurnCompleted?;
      assert s.turns[q] == u.turns[q];
    }
  }

  // A limit under one receipt.
  ghost predicate MovesExactly(c: Config, s: State, ev: Event, l: nat, x: Limit, y: Limit) {
    if CountsFault(c, s, ev, l) then Faulted(x, y, PolicyOf(c, s, ev.execution),
                                             c.runs[s.assignments[s.executions[ev.execution].assignment].run].mode == Objective, s.now)
    else if ClearsAccount(c, s, ev, l) then y == Limit(0, None, false)
    else y == x
  }

  lemma ReceiptExactly(c: Config, s: State, ev: Event, l: nat)
    requires ev.EvStopReceipt? && Known(c, s, ev.execution) && l < |s.limits|
    requires StopReceipt(c, s, ev.execution, ev.epoch, ev.receipt, ev.findings).Commit?
    ensures var t := StopReceipt(c, s, ev.execution, ev.epoch, ev.receipt, ev.findings).state;
            |t.limits| == |s.limits| && MovesExactly(c, s, ev, l, s.limits[l], t.limits[l])
  {
    hide ObjectiveFinish; hide LegacyFinish; hide AdjustedLimits; hide ContextLost; hide StopReceipt; hide JudgedOutcome; hide RetryOf;
    hide ReceiptState; hide Late; hide Stuck; hide Faulted; hide Reclassified; hide AccountFault; hide ProviderFault; hide PolicyOf;
    hide HoldsAccount; hide ReportedFailure;
    var e, r, x := ev.execution, ev.receipt, ev.findings;
    if Live(s.executions[e].status) {
      ReceiptRows(c, s, e, ev.epoch, r, x);
      JudgedByFields(c, s, e, r, x);
      HeardTurns(s, e, r);
      PolicyIs(c, s, e);
      var judged := JudgedOutcome(c, s, e, r, x);
      var objective := c.runs[s.assignments[s.executions[e].assignment].run].mode.Objective?;
      AdjustedExactly(c, ReceiptState(s, e, r), e, PolicyOf(c, s, e), objective, judged.0, Reclassified(judged.1), x, l);
      FaultByName(judged.1);
      ReportedFault(r);
      NoFaults();
    } else {
      SecondReceipt(c, s, e, ev.epoch, r, x);
    }
  }

  lemma NoFaults()
    ensures !ProviderFault(Some(Failure(LeaseExpired, "lease"))) && !ProviderFault(Some(Failure(IntentsStalled, "intents")))
  {
  }

  lemma SweepLeaves(c: Config, s: State, e: nat, x: Findings)
    requires Known(c, s, e) && LeaseSweep(c, s, e, x).Commit?
    ensures LeaseSweep(c, s, e, x).state.limits == s.limits
  {
    hide ObjectiveFinish; hide LegacyFinish; hide ContextLost; hide RetryOf; hide Settle; hide UncertainTurns;
    var u := s.(turns := UncertainTurns(s.turns, e));
    SettlementRows(c, u, e, false, OutLost, Some(Failure(LeaseExpired, "lease")), false, None, x);
  }

  /**
    One event and one limit, exactly: a provider's fault is counted on every
    account the execution holds, a healthy finish clears it, an administrator's
    reset clears it, and nothing else touches it.
   */
  lemma LimitStep(c: Config, s: State, ev: Event, l: nat)
    requires WellFormed(c) && Sound(c, s) && l < |s.limits|
    ensures |Apply(c, s, ev).limits| == |s.limits|
    ensures var x, y := s.limits[l], Apply(c, s, ev).limits[l];
            if ev == EvResetCircuit(l) then y == Limit(0, None, false) else MovesExactly(c, s, ev, l, x, y)
  {
    hide Sound; hide WellFormed; hide StopReceipt; hide LeaseSweep; hide Late; hide Stuck; hide Faulted; hide ProviderFault;
    hide PolicyOf; hide HoldsAccount;
    if ev.EvStopReceipt? {
      if Attempt(c, s, ev).Commit? { ReceiptExactly(c, s, ev, l); }
    } else if ev.EvLeaseSweep? {
      if Attempt(c, s, ev).Commit? { SweepLeaves(c, s, ev.execution, ev.findings); }
    } else if !ev.EvResetCircuit? {
      LimitsUntouched(c, s, ev);
    }
  }

  // ---- Over runs ----

  // The faults since the last clearance or reset, and whether they opened the circuit.
  datatype Record = Record(faults: nat, tripped: bool)

  ghost function Noted(c: Config, s: State, ev: Event, l: nat, h: Record): Record {
    if ev == EvResetCircuit(l) then Record(0, false)
    else if CountsFault(c, s, ev, l) then
      var objective := c.runs[s.assignments[s.executions[ev.execution].assignment].run].mode == Objective;
      Record(h.faults + 1, h.tripped || (objective && h.faults + 1 > PolicyOf(c, s, ev.execution).maxAttempts))
    else if ClearsAccount(c, s, ev, l) then Record(0, false)
    else h
  }

  ghost function Recorded(c: Config, start: State, events: seq<Event>, l: nat): Record {
    if events == [] then Record(0, false)
    else
      var before := events[..|events| - 1];
      Noted(c, After(c, start, before), events[|events| - 1], l, Recorded(c, start, before, l))
  }

  /**
    Over every run an account's failure count is the number of provider faults
    since its last clearance or reset, and its circuit is open exactly when one
    of them went past the policy of an objective.
   */
  lemma {:induction false} FailuresCountFaults(c: Config, start: State, events: seq<Event>, l: nat)
    requires WellFormed(c) && Initial(c, start) && l < |start.limits|
    ensures l < |After(c, start, events).limits|
    ensures After(c, start, events).limits[l].failures == Recorded(c, start, events, l).faults
    ensures After(c, start, events).limits[l].open == Recorded(c, start, events, l).tripped
  {
    hide Apply; hide Safe; hide CountsFault; hide ClearsAccount; hide PolicyOf; hide Backoff;
    if events != [] {
      var n := |events| - 1;
      var s := After(c, start, events[..n]);
      FailuresCountFaults(c, start, events[..n], l);
      AlwaysSafe(c, start, events[..n]);
      assert Sound(c, s) by { SafeSound(c, s); }
      LimitStep(c, s, events[n], l);
    }
  }

  lemma SafeSound(c: Config, s: State)
    requires Safe(c, s)
    ensures Sound(c, s)
  {
  }
}
