/**
  The retry ledger of an objective session over its whole life: failures are
  counted and never forgotten, and automatic recovery is bounded
  (objectives.py `finish_values`; commands.py `resume_session`,
  `recover_context`).
 */
module Ledger {
  import opened Wrappers
  import opened Records
  import opened Admission
  import opened Protocol
  import opened Structure
  import opened Fencing
  import opened Safety
  import opened Sessions

  // What an observer of the run records about one session: its failed turns,
  // the admissions that followed a failure with no operator recovery between,
  // and whether its last turn failed and nobody has recovered it yet.
  datatype History = History(failures: nat, automatic: nat, waiting: bool)

  ghost function Observe(c: Config, s: State, ev: Event, a: nat, h: History): History {
    if Ends(c, s, ev, a) then
      if Failing(c, s, ev, a) then History(h.failures + 1, h.automatic, true) else h.(waiting := false)
    else if ev.EvAdmit? && ev.session == a && Attempt(c, s, ev).Commit? then
      History(h.failures, h.automatic + (if h.waiting then 1 else 0), false)
    else if Operated(c, s, ev, a) then h.(waiting := false)
    else h
  }

  ghost function Observed(c: Config, start: State, events: seq<Event>, a: nat): History {
    if events == [] then History(0, 0, false)
    else
      var before := events[..|events| - 1];
      Observe(c, After(c, start, before), events[|events| - 1], a, Observed(c, start, before, a))
  }

  // How many failures of the session were silent: left to an operator by the
  // policy, with the context kept and no message to pause with.
  ghost function Silences(c: Config, start: State, events: seq<Event>, a: nat): nat {
    if events == [] then 0
    else
      var before := events[..|events| - 1];
      Silences(c, start, before, a) + Silenced(c, After(c, start, before), events[|events| - 1], a)
  }

  ghost function Silenced(c: Config, s: State, ev: Event, a: nat): nat {
    if Ends(c, s, ev, a) && Failing(c, s, ev, a) && Silent(c, s, ev, a) then 1 else 0
  }

  // ---- The invariant ----

  ghost predicate Begun(x: Assignment) {
    && (x.status.Running? || x.status.Stopping? ==> x.startedAt.Some?)
    && (x.key.NextKey? ==> x.rule.PlannerRule? && x.startedAt.None?)
  }

  ghost predicate Balanced(x: Assignment, h: History, limit: nat, silences: nat) {
    && Begun(x)
    && x.attempts == h.failures && h.automatic <= h.failures
    && (h.waiting ==> x.startedAt.Some? && !x.status.Running? && !x.status.Stopping?)
    && (h.waiting ==> h.automatic + 1 <= h.failures)
    && h.automatic + (if h.waiting && !PauseHolds(x) then 1 else 0) <= limit + silences
  }

  ghost predicate Tracked(c: Config, s: State, a: nat, h: History, silences: nat) {
    if a >= |s.assignments| then h == History(0, 0, false)
    else ModeOf(c, s, a).Objective? ==> Balanced(s.assignments[a], h, RetryOf(c, s, a).maxAttempts, silences)
  }

  // ---- Each kind of change keeps the balance ----

  lemma NudgedBalanced(x: Assignment, y: Assignment, h: History, limit: nat, silences: nat)
    requires Balanced(x, h, limit, silences) && Nudged(x, y)
    ensures Balanced(y, h, limit, silences)
  {
  }

  lemma RecoveredBalanced(x: Assignment, y: Assignment, h: History, limit: nat, silences: nat)
    requires Balanced(x, h, limit, silences) && Recovered(x, y)
    ensures Balanced(y, h.(waiting := false), limit, silences)
  {
  }

  lemma AdmittedBalanced(x: Assignment, y: Assignment, h: History, limit: nat, silences: nat)
    requires Balanced(x, h, limit, silences) && Admitted(x, y) && !PauseHolds(x)
    ensures Balanced(y, History(h.failures, h.automatic + (if h.waiting then 1 else 0), false), limit, silences)
  {
  }

  lemma EndedBalanced(x: Assignment, y: Assignment, h: History, retry: Retry, failing: bool, silent: bool, now: int, silences: nat)
    requires Balanced(x, h, retry.maxAttempts, silences) && Ended(x, y, retry, failing, silent, now)
    requires x.status.Running? || x.status.Stopping?
    ensures Balanced(y, if failing then History(h.failures + 1, h.automatic, true) else h.(waiting := false),
                     retry.maxAttempts, silences + (if failing && silent then 1 else 0))
  {
  }

  // ---- One step ----

  lemma LiveStarted(c: Config, s: State, e: nat)
    requires Sound(c, s) && e < |s.executions| && Live(s.executions[e].status)
    ensures var a := s.executions[e].assignment;
            a < |s.assignments| && (s.assignments[a].status.Running? || s.assignments[a].status.Stopping?)
  {
  }

  lemma AdmissionUnpaused(c: Config, s: State, a: nat, host: nat, harness: nat, view: View)
    requires Admit(c, s, a, host, harness, view).Commit?
    ensures a < |s.assignments| && !PauseHolds(s.assignments[a])
  {
    hide Placement; hide Reservation; hide AdmitPlanner; hide RetainedOn; hide AdmittedRows;
    hide Cool; hide SessionUnsettled; hide KeyLive; hide PoolWeight; hide LimitsFree; hide CategoryWeight; hide WorkerWeight;
    hide Started;
  }

  lemma NothingYet(c: Config, s: State, ev: Event, a: nat, h: History)
    requires a >= |s.assignments|
    ensures Observe(c, s, ev, a, h) == h
  {
    hide Attempt; hide JudgedOutcome; hide ResumeSession; hide RecoverContext;
    if ev.EvAdmit? && ev.session == a && Attempt(c, s, ev).Commit? { AdmitExists(c, s, a, ev); }
    if Operated(c, s, ev, a) { OperatedExists(c, s, a, ev); }
  }

  lemma AdmitExists(c: Config, s: State, a: nat, ev: Event)
    requires ev.EvAdmit? && ev.session == a && Attempt(c, s, ev).Commit?
    ensures a < |s.assignments|
  {
    hide Admit;
    AdmissionUnpaused(c, s, a, ev.host, ev.harness, ev.view);
  }

  lemma OperatedExists(c: Config, s: State, a: nat, ev: Event)
    requires Operated(c, s, ev, a)
    ensures a < |s.assignments|
  {
    hide LiveSession; hide SessionUnsettled; hide Unconfirmed;
  }

  lemma SameRetry(c: Config, s: State, t: State, a: nat)
    requires a < |s.assignments| && a < |t.assignments| && SameOrder(s.assignments[a], t.assignments[a])
    requires s.assignments[a].run < |c.runs|
    ensures ModeOf(c, s, a) == ModeOf(c, t, a) && RetryOf(c, s, a) == RetryOf(c, t, a)
  {
  }

  // A session keeps its run, category and rule.
  lemma StepOrder(c: Config, s: State, ev: Event, a: nat)
    requires WellFormed(c) && Sound(c, s) && a < |s.assignments|
    ensures a < |Apply(c, s, ev).assignments| && SameOrder(s.assignments[a], Apply(c, s, ev).assignments[a])
    ensures s.assignments[a].run < |c.runs|
  {
    hide Admit; hide Reservation; hide Placement; hide SessionsOk; hide ContextsOk; hide ClaimsOk; hide WellFormed;
    if !ev.EvAdmit? { StepEvolves(c, s, ev); }
    else if Attempt(c, s, ev).Commit? { AdmitShape(c, s, ev.session, ev.host, ev.harness, ev.view); }
  }

  lemma SessionTracked(c: Config, s: State, ev: Event, a: nat, h: History, silences: nat)
    requires WellFormed(c) && Sound(c, s) && a < |s.assignments| && ModeOf(c, s, a).Objective?
    requires Balanced(s.assignments[a], h, RetryOf(c, s, a).maxAttempts, silences)
    ensures a < |Apply(c, s, ev).assignments|
    ensures Balanced(Apply(c, s, ev).assignments[a], Observe(c, s, ev, a, h), RetryOf(c, s, a).maxAttempts,
                     silences + Silenced(c, s, ev, a))
  {
    hide Sound; hide WellFormed; hide Attempt; hide Apply; hide Ended; hide Nudged; hide Admitted; hide Recovered;
    hide Balanced; hide RetryOf; hide Operated; hide Failing; hide Silent;
    SessionStep(c, s, ev, a);
    var x, y, limit := s.assignments[a], Apply(c, s, ev).assignments[a], RetryOf(c, s, a).maxAttempts;
    if Ends(c, s, ev, a) {
      LiveStarted(c, s, ev.execution);
      EndedBalanced(x, y, h, RetryOf(c, s, a), Failing(c, s, ev, a), Silent(c, s, ev, a), s.now, silences);
    } else if ev.EvAdmit? && ev.session == a && Attempt(c, s, ev).Commit? {
      EventUnpaused(c, s, ev);
      AdmittedBalanced(x, y, h, limit, silences);
    } else if Operated(c, s, ev, a) {
      RecoveredBalanced(x, y, h, limit, silences);
    } else {
      NudgedBalanced(x, y, h, limit, silences);
    }
  }

  lemma EventUnpaused(c: Config, s: State, ev: Event)
    requires ev.EvAdmit? && Attempt(c, s, ev).Commit?
    ensures ev.session < |s.assignments| && !PauseHolds(s.assignments[ev.session])
  {
    hide Admit;
    AdmissionUnpaused(c, s, ev.session, ev.host, ev.harness, ev.view);
  }

  lemma BlankBalanced(x: Assignment, limit: nat, silences: nat)
    requires Blank(x)
    ensures Balanced(x, History(0, 0, false), limit, silences)
  {
  }

  lemma TrackedStep(c: Config, s: State, ev: Event, a: nat, h: History, silences: nat)
    requires WellFormed(c) && Sound(c, s) && Tracked(c, s, a, h, silences)
    ensures Tracked(c, Apply(c, s, ev), a, Observe(c, s, ev, a, h), silences + Silenced(c, s, ev, a))
  {
    hide Sound; hide WellFormed; hide Attempt; hide Apply; hide Balanced; hide RetryOf; hide Silenced;
    hide Observe; hide Blank;
    var t := Apply(c, s, ev);
    if a >= |s.assignments| {
      NothingYet(c, s, ev, a, h);
      StepBlank(c, s, ev);
      if a < |t.assignments| && ModeOf(c, t, a).Objective? {
        BlankBalanced(t.assignments[a], RetryOf(c, t, a).maxAttempts, silences + Silenced(c, s, ev, a));
      }
    } else {
      StepOrder(c, s, ev, a);
      SameRetry(c, s, t, a);
      if ModeOf(c, s, a).Objective? { SessionTracked(c, s, ev, a, h, silences); }
    }
  }

  lemma {:induction false} AlwaysTracked(c: Config, start: State, events: seq<Event>, a: nat)
    requires WellFormed(c) && Initial(c, start)
    ensures Tracked(c, After(c, start, events), a, Observed(c, start, events, a), Silences(c, start, events, a))
  {
    hide Sound; hide Fits; hide Attempt; hide Apply; hide WellFormed; hide Silenced; hide Observe;
    hide Balanced; hide RetryOf;
    if events != [] {
      var before := events[..|events| - 1];
      AlwaysTracked(c, start, before, a);
      AlwaysSafe(c, start, before);
      TrackedStep(c, After(c, start, before), events[|events| - 1], a, Observed(c, start, before, a),
                  Silences(c, start, before, a));
    }
  }

  // ---- The guarantees ----

  /** The ledger is exact: no event in any run forgets a failure of an objective session. */
  lemma FailuresAreRemembered(c: Config, start: State, events: seq<Event>, a: nat)
    requires WellFormed(c) && Initial(c, start)
    requires a < |After(c, start, events).assignments| && ModeOf(c, After(c, start, events), a).Objective?
    ensures After(c, start, events).assignments[a].attempts == Observed(c, start, events, a).failures
    ensures Observed(c, start, events, a).automatic <= Observed(c, start, events, a).failures
  {
    hide After; hide Observed; hide Silences; hide RetryOf;
    AlwaysTracked(c, start, events, a);
  }

  /**
    Over its whole life a session is resumed automatically at most
    `maxAttempts` times, and once more for each silent failure; every other
    admission after a failure follows a recorded operator recovery.
   */
  lemma AutomaticRecoveryIsBounded(c: Config, start: State, events: seq<Event>, a: nat)
    requires WellFormed(c) && Initial(c, start)
    requires a < |After(c, start, events).assignments| && ModeOf(c, After(c, start, events), a).Objective?
    ensures RunOf(After(c, start, events), a) < |c.runs|
    ensures Observed(c, start, events, a).automatic
            <= RetryOf(c, After(c, start, events), a).maxAttempts + Silences(c, start, events, a)
  {
    hide After; hide Observed; hide Silences; hide RetryOf;
    AlwaysTracked(c, start, events, a);
  }

  /** With a message on every failure that the policy leaves to an operator, the policy's own bound holds. */
  lemma ExplainedFailuresStayInPolicy(c: Config, start: State, events: seq<Event>, a: nat)
    requires WellFormed(c) && Initial(c, start) && Silences(c, start, events, a) == 0
    requires a < |After(c, start, events).assignments| && ModeOf(c, After(c, start, events), a).Objective?
    ensures RunOf(After(c, start, events), a) < |c.runs|
    ensures Observed(c, start, events, a).automatic <= RetryOf(c, After(c, start, events), a).maxAttempts
  {
    hide After; hide Observed; hide Silences; hide RetryOf;
    AutomaticRecoveryIsBounded(c, start, events, a);
  }

  /** One step: the count never decreases and each automatic delay is within the policy. */
  lemma LedgerStep(c: Config, s: State, ev: Event, a: nat)
    requires WellFormed(c) && Sound(c, s) && a < |s.assignments| && ModeOf(c, s, a).Objective?
    ensures a < |Apply(c, s, ev).assignments|
    ensures s.assignments[a].attempts <= Apply(c, s, ev).assignments[a].attempts <= s.assignments[a].attempts + 1
    ensures Ends(c, s, ev, a) && Failing(c, s, ev, a) && Apply(c, s, ev).assignments[a].pause.None? ==>
              var y := Apply(c, s, ev).assignments[a];
              && y.retryAt.Some? && s.now <= y.retryAt.value <= s.now + RetryOf(c, s, a).maxDelay
              && y.attempts <= RetryOf(c, s, a).maxAttempts
  {
    hide Sound; hide WellFormed; hide Attempt; hide Apply; hide RetryOf; hide Operated; hide Failing; hide Silent;
    SessionStep(c, s, ev, a);
  }

  // ---- Backoff ----

  // A failed turn that nobody has recovered yet: when it failed and as which failure.
  datatype Setback = Setback(at: int, count: nat)

  // The last turn's failure, until an admission, an operator's recovery or a
  // silent failure.
  ghost function Noticed(c: Config, s: State, ev: Event, a: nat, h: Option<Setback>): Option<Setback> {
    if Ends(c, s, ev, a) then
      if Failing(c, s, ev, a) && !Silent(c, s, ev, a) then Some(Setback(s.now, s.assignments[a].attempts + 1)) else None
    else if ev.EvAdmit? && ev.session == a && Attempt(c, s, ev).Commit? then None
    else if Operated(c, s, ev, a) then None
    else h
  }

  ghost function LastSetback(c: Config, start: State, events: seq<Event>, a: nat): Option<Setback> {
    if events == [] then None
    else
      var before := events[..|events| - 1];
      Noticed(c, After(c, start, before), events[|events| - 1], a, LastSetback(c, start, before, a))
  }

  // The session waits for an operator, or for at least half the delay of its failure.
  ghost predicate Backing(x: Assignment, h: Option<Setback>, retry: Retry) {
    h.Some? ==>
      && x.startedAt.Some? && !x.key.NextKey? && h.value.count >= 1
      && (PauseHolds(x)
          || (x.retryAt.Some? && 2 * (x.retryAt.value - h.value.at) >= Backoff(retry, h.value.count)))
  }

  lemma NudgedBacking(x: Assignment, y: Assignment, h: Option<Setback>, retry: Retry)
    requires Backing(x, h, retry) && Nudged(x, y)
    ensures Backing(y, h, retry)
  {
    hide Backoff;
  }

  lemma EndedBacking(x: Assignment, y: Assignment, retry: Retry, failing: bool, silent: bool, now: int)
    requires Ended(x, y, retry, failing, silent, now) && Begun(x) && (x.status.Running? || x.status.Stopping?)
    ensures Backing(y, if failing && !silent then Some(Setback(now, x.attempts + 1)) else None, retry)
  {
    hide Backoff;
  }

  ghost predicate BacksOff(c: Config, s: State, a: nat, h: Option<Setback>) {
    if a >= |s.assignments| then h.None?
    else ModeOf(c, s, a).Objective? ==> Backing(s.assignments[a], h, RetryOf(c, s, a))
  }

  lemma SessionBacks(c: Config, s: State, ev: Event, a: nat, h: Option<Setback>)
    requires WellFormed(c) && Sound(c, s) && a < |s.assignments| && ModeOf(c, s, a).Objective?
    requires Backing(s.assignments[a], h, RetryOf(c, s, a)) && Begun(s.assignments[a])
    ensures a < |Apply(c, s, ev).assignments|
    ensures Backing(Apply(c, s, ev).assignments[a], Noticed(c, s, ev, a, h), RetryOf(c, s, a))
  {
    hide Sound; hide WellFormed; hide Attempt; hide Apply; hide Ended; hide Nudged; hide Admitted; hide Recovered; hide Backing; hide Begun;
    hide RetryOf; hide Operated; hide Failing; hide Silent;
    SessionStep(c, s, ev, a);
    var x, y := s.assignments[a], Apply(c, s, ev).assignments[a];
    NoSetback(y, RetryOf(c, s, a));
    if Ends(c, s, ev, a) {
      LiveStarted(c, s, ev.execution);
      EndedBacking(x, y, RetryOf(c, s, a), Failing(c, s, ev, a), Silent(c, s, ev, a), s.now);
    } else if !(ev.EvAdmit? && ev.session == a && Attempt(c, s, ev).Commit?) && !Operated(c, s, ev, a) {
      NudgedBacking(x, y, h, RetryOf(c, s, a));
    }
  }

  lemma NoSetback(y: Assignment, retry: Retry)
    ensures Backing(y, None, retry)
  {
  }

  lemma NothingPends(c: Config, s: State, ev: Event, a: nat, h: Option<Setback>)
    requires a >= |s.assignments|
    ensures Noticed(c, s, ev, a, h) == h
  {
    hide Attempt; hide JudgedOutcome; hide ResumeSession; hide RecoverContext;
    if ev.EvAdmit? && ev.session == a && Attempt(c, s, ev).Commit? { AdmitExists(c, s, a, ev); }
    if Operated(c, s, ev, a) { OperatedExists(c, s, a, ev); }
  }

  lemma TrackedBegun(c: Config, s: State, a: nat, h: History, silences: nat)
    requires Tracked(c, s, a, h, silences) && a < |s.assignments| && ModeOf(c, s, a).Objective?
    ensures Begun(s.assignments[a])
  {
    hide RetryOf;
  }

  lemma {:induction false} AlwaysBacksOff(c: Config, start: State, events: seq<Event>, a: nat)
    requires WellFormed(c) && Initial(c, start)
    ensures BacksOff(c, After(c, start, events), a, LastSetback(c, start, events, a))
  {
    hide Apply; hide Sound; hide Fits; hide WellFormed; hide Noticed; hide Backing; hide RetryOf; hide Tracked; hide Observed; hide Silences;
    if events != [] {
      var n := |events| - 1;
      var s, ev := After(c, start, events[..n]), events[n];
      var h := LastSetback(c, start, events[..n], a);
      AlwaysBacksOff(c, start, events[..n], a);
      AlwaysSafe(c, start, events[..n]);
      AlwaysTracked(c, start, events[..n], a);
      var t := Apply(c, s, ev);
      if a >= |s.assignments| {
        NothingPends(c, s, ev, a, h);
        if a < |t.assignments| { NoSetback(t.assignments[a], if ModeOf(c, t, a).Objective? then RetryOf(c, t, a) else Retry(0, 0, 0, 0)); }
      } else {
        StepOrder(c, s, ev, a);
        SameRetry(c, s, t, a);
        if ModeOf(c, s, a).Objective? {
          TrackedBegun(c, s, a, Observed(c, start, events[..n], a), Silences(c, start, events[..n], a));
          SessionBacks(c, s, ev, a, h);
        }
      }
    }
  }

  lemma AdmissionDue(c: Config, s: State, a: nat, host: nat, harness: nat, view: View)
    requires Admit(c, s, a, host, harness, view).Commit?
    ensures a < |s.assignments| && (s.assignments[a].retryAt.Some? ==> s.assignments[a].retryAt.value <= s.now)
  {
    hide Placement; hide Reservation; hide AdmitPlanner; hide RetainedOn; hide AdmittedRows; hide Blocked;
    hide Cool; hide SessionUnsettled; hide KeyLive; hide PoolWeight; hide LimitsFree;
  }

  /**
    Over every run: when a turn of an objective session failed, and its failure
    was not silent, the next admission without an operator's recovery comes no
    earlier than half the policy's delay after the failure.
   */
  lemma BackoffIsWaitedOut(c: Config, start: State, events: seq<Event>, a: nat, host: nat, harness: nat, view: View)
    requires WellFormed(c) && Initial(c, start)
    requires a < |After(c, start, events).assignments| && ModeOf(c, After(c, start, events), a).Objective?
    requires Admit(c, After(c, start, events), a, host, harness, view).Commit? && LastSetback(c, start, events, a).Some?
    ensures RunOf(After(c, start, events), a) < |c.runs| && LastSetback(c, start, events, a).value.count >= 1
    ensures var setback := LastSetback(c, start, events, a).value;
            2 * (After(c, start, events).now - setback.at)
            >= Backoff(RetryOf(c, After(c, start, events), a), setback.count)
  {
    hide After; hide Initial; hide Admit; hide LastSetback; hide Backoff; hide RetryOf;
    var s := After(c, start, events);
    AlwaysBacksOff(c, start, events, a);
    AdmissionDue(c, s, a, host, harness, view);
    AdmissionUnpaused(c, s, a, host, harness, view);
  }

  // ---- Where the bound fails ----

  /**
    Exactly when a failed turn leaves a session that waits for an operator: a
    lost context, or a failure outside the retry policy with a non-empty
    message. An empty message writes an empty pause note, which admission
    reads as no pause.
   */
  lemma PauseTakesHold(item: Assignment, retry: Retry, lost: bool, failure: Option<Failure>, now: int, x: Findings)
    ensures PauseHolds(AfterFailure(item, retry, lost, failure, now, x)) <==>
              lost || (!WithinPolicy(item, retry, failure) && (failure.None? || failure.value.message != ""))
  {
    hide Transient; hide Backoff;
  }

  // ---- Intents that stay unresolved ----

  lemma StalledRows(c: Config, s: State, e: nat, journal: bool, reason: Option<string>, x: Findings)
    requires Known(c, s, e)
    requires s.assignments[s.executions[e].assignment].status.Running?
    requires !Halted(s.runs[s.assignments[s.executions[e].assignment].run].status)
    ensures var a := s.executions[e].assignment;
            var t := SettledRows(c, s, e, true, OutFailed, Some(Failure(IntentsStalled, "intents")), journal, reason, x);
            && a < |t.assignments|
            && var y := t.assignments[a];
            && y.attempts == s.assignments[a].attempts + 1
            && (if c.runs[s.assignments[a].run].mode.Objective? then y.status.Pending? && PauseHolds(y) else y.status.Failed?)
  {
    hide AdjustedLimits; hide ContextLost; hide ReleasedClaims; hide RetryOf; hide Backoff; hide AfterTurn;
  }

  /**
    A stop receipt whose journal still has pending intents after the
    configured number of recovery executions fails the turn: an objective
    session pauses for an operator, a legacy one fails.
   */
  lemma StalledIntentsStopRecovery(c: Config, s: State, e: nat, epoch: nat, r: Receipt, x: Findings)
    requires Known(c, s, e) && Leased(s, e) && StopReceipt(c, s, e, epoch, r, x).Commit?
    requires s.assignments[s.executions[e].assignment].status.Running?
    requires !Halted(s.runs[s.assignments[s.executions[e].assignment].run].status)
    requires r.journal.Some? && r.journal.value.pending > 0
    requires r.journal.value.observations >= c.runs[s.assignments[s.executions[e].assignment].run].retry.maxNoProgress
    ensures var a := s.executions[e].assignment;
            var t := StopReceipt(c, s, e, epoch, r, x).state;
            && a < |t.assignments| && t.assignments[a].attempts == s.assignments[a].attempts + 1
            && (if c.runs[s.assignments[a].run].mode.Objective? then t.assignments[a].status.Pending? && PauseHolds(t.assignments[a])
                else t.assignments[a].status.Failed?)
  {
    hide ReceiptThreads; hide InterruptedTurns; hide ReleasedClaims; hide SettledRows; hide PassCompleted;
    var a := s.executions[e].assignment;
    var stopped := s.(executions := s.executions[e := s.executions[e].(confirmed := true)],
                      turns := InterruptedTurns(s.turns, e));
    var t := stopped.(threads := ReceiptThreads(stopped, e, a, r).value);
    assert JudgedOutcome(c, s, e, r, x) == (OutFailed, Some(Failure(IntentsStalled, "intents")));
    StalledRows(c, t, e, IntentsOpen(r), r.reason, x);
  }
}
