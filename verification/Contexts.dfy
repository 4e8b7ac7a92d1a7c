/**
  What executions, contexts and directories keep over whole runs: epochs,
  leases, one request at a time, provider identities, retired directories
  (scheduler.py `start`, `heartbeat`; worker_events.py `turn_started`,
  `turn_finished`; commands.py `retire_workspace`).
 */
module Contexts {
  import opened Wrappers
  import opened Records
  import opened Sums
  import opened Admission
  import opened Protocol
  import opened Structure
  import opened Fencing
  import opened Safety
  import opened Stops
  import opened Admissions

  // ---- The rows an admission writes ----

  /**
    A new execution runs under the next epoch of its session with a whole
    lease; its session is running, with its first start kept and no retry date.
   */
  lemma AdmissionRows(c: Config, s: State, a: nat, host: nat, harness: nat, view: View)
    requires WellFormed(c) && Sound(c, s) && Admit(c, s, a, host, harness, view).Commit?
    ensures a < |s.assignments| && (host, harness) in c.pools
    ensures var z := Admit(c, s, a, host, harness, view).state; var n := |s.executions|;
            && |z.executions| == n + 1 && z.executions[..n] == s.executions && a < |z.assignments|
            && (var x := z.executions[n];
                && x.assignment == a && x.number == NextNumber(s, a) && x.host == host && x.harness == harness
                && x.status == ExecRunning && x.leaseUntil == s.now + c.lease && x.startedAt == s.now
                && x.finishedAt == None && !x.confirmed)
            && (var y := z.assignments[a];
                && y.status == Running && y.retryAt == None && y.finishedAt == None && !y.checkpoint
                && y.startedAt == (if s.assignments[a].startedAt.Some? then s.assignments[a].startedAt else Some(s.now)))
            && z.limits == s.limits && z.turns == s.turns && z.runs == s.runs && z.now == s.now
            && (z.threads == s.threads
                || exists w :: z.threads == s.threads + [Thread(a, w, harness, None, Creating, None)])
  {
    hide Admissible; hide Placement; hide Reservation; hide AdmitPlanner; hide SessionsOk; hide ContextsOk; hide ClaimsOk;
    hide RetainedOn; hide HasRetained; hide WellFormed; hide Proposed; hide NextNumber; hide NewClaims;
    AdmitPlacement(c, s, a, host, harness, view);
    PlannedShape(c, s, a);
    SameNumber(s, AdmitPlanner(c, s, a).state, a);
  }

  lemma SameNumber(s: State, p: State, a: nat)
    requires p.executions == s.executions
    ensures NextNumber(p, a) == NextNumber(s, a)
  {
    TotalMono((e: nat) => NumberShare(p, a, e), (e: nat) => NumberShare(s, a, e), |s.executions|);
    TotalMono((e: nat) => NumberShare(s, a, e), (e: nat) => NumberShare(p, a, e), |s.executions|);
  }

  // ---- Epochs ----

  // How many of the first n executions belong to the session.
  function Earlier(s: State, a: nat, n: nat): nat
    requires n <= |s.executions|
  {
    if n == 0 then 0 else Earlier(s, a, n - 1) + (if s.executions[n - 1].assignment == a then 1 else 0)
  }

  ghost predicate Numbered(s: State) {
    forall e | 0 <= e < |s.executions| :: s.executions[e].number == 1 + Earlier(s, s.executions[e].assignment, e)
  }

  lemma {:induction false} NumberCounts(s: State, a: nat, n: nat)
    requires n <= |s.executions|
    ensures Total((e: nat) => NumberShare(s, a, e), n) == Earlier(s, a, n)
  {
    if n > 0 { NumberCounts(s, a, n - 1); }
  }

  lemma {:induction false} EarlierSame(s: State, z: State, a: nat, n: nat)
    requires n <= |s.executions| && n <= |z.executions|
    requires forall e | 0 <= e < n :: z.executions[e].assignment == s.executions[e].assignment
    ensures Earlier(s, a, n) == Earlier(z, a, n)
  {
    if n > 0 { EarlierSame(s, z, a, n - 1); }
  }

  lemma NumberedStep(c: Config, s: State, ev: Event)
    requires WellFormed(c) && Safe(c, s) && Numbered(s)
    ensures Numbered(Apply(c, s, ev))
  {
    hide Fits; hide RefsOk; hide SessionsOk; hide ContextsOk; hide ClaimsOk; hide WellFormed; hide Admit; hide NextNumber; hide Busy;
    var z := Apply(c, s, ev);
    if ev.EvAdmit? {
      if Attempt(c, s, ev).Commit? {
        var n := |s.executions|;
        AdmissionRows(c, s, ev.session, ev.host, ev.harness, ev.view);
        NextIs(s, ev.session);
        forall e | 0 <= e < |z.executions| ensures z.executions[e].number == 1 + Earlier(z, z.executions[e].assignment, e) {
          assert e < n ==> z.executions[..n][e] == s.executions[e];
          assert forall f | 0 <= f < n :: z.executions[..n][f] == s.executions[f];
          EarlierSame(s, z, z.executions[e].assignment, e);
        }
      }
    } else {
      hide Attempt;
      StepEvolves(c, s, ev);
      forall e | 0 <= e < |z.executions| ensures z.executions[e].number == 1 + Earlier(z, z.executions[e].assignment, e) {
        assert SameJob(s.executions[e], z.executions[e]);
        assert forall f | 0 <= f < e :: SameJob(s.executions[f], z.executions[f]);
        EarlierSame(s, z, z.executions[e].assignment, e);
      }
    }
  }

  lemma NextIs(s: State, a: nat)
    ensures NextNumber(s, a) == 1 + Earlier(s, a, |s.executions|)
  {
    NumberCounts(s, a, |s.executions|);
  }

  /** Over every run the epochs of a session count its executions: one, two, three, in order and without gaps. */
  lemma {:induction false} EpochsCount(c: Config, start: State, events: seq<Event>, e: nat)
    requires WellFormed(c) && Initial(c, start) && e < |After(c, start, events).executions|
    ensures var s := After(c, start, events); s.executions[e].number == 1 + Earlier(s, s.executions[e].assignment, e)
  {
    hide Safe; hide Apply;
    AlwaysNumbered(c, start, events);
  }

  lemma {:induction false} AlwaysNumbered(c: Config, start: State, events: seq<Event>)
    requires WellFormed(c) && Initial(c, start)
    ensures Numbered(After(c, start, events))
  {
    hide Safe; hide Apply;
    if events != [] {
      var before := events[..|events| - 1];
      AlwaysNumbered(c, start, before);
      AlwaysSafe(c, start, before);
      NumberedStep(c, After(c, start, before), events[|events| - 1]);
    }
  }

  // ---- Leases ----

  ghost predicate Leasing(c: Config, s: State, e: nat) {
    e < |s.executions| && Live(s.executions[e].status) ==> s.executions[e].leaseUntil <= s.now + c.lease
  }

  lemma LeasingStep(c: Config, s: State, ev: Event, e: nat)
    requires WellFormed(c) && Safe(c, s) && Leasing(c, s, e) && e < |Apply(c, s, ev).executions|
    ensures Leasing(c, Apply(c, s, ev), e)
  {
    hide Fits; hide Sound; hide WellFormed; hide Admit; hide NextNumber; hide Busy; hide StopRequested;
    if ev.EvAdmit? {
      if Attempt(c, s, ev).Commit? {
        AdmissionRows(c, s, ev.session, ev.host, ev.harness, ev.view);
        var z := Apply(c, s, ev);
        if e < |s.executions| { assert z.executions[..|s.executions|][e] == s.executions[e]; }
      }
    } else {
      hide Attempt; hide Apply;
      StepEvolves(c, s, ev);
      EvolvedLease(s, Apply(c, s, ev), e);
      LeaseStep(c, s, ev, e);
    }
  }

  lemma EvolvedLease(s: State, z: State, e: nat)
    requires Evolves(s, z) && e < |z.executions|
    ensures s.now <= z.now && e < |s.executions| && (Live(z.executions[e].status) ==> Live(s.executions[e].status))
  {
    assert e < |s.executions| && SameJob(s.executions[e], z.executions[e]);
  }

  /** No live execution ever holds a lease that runs longer than the configured one. */
  lemma {:induction false} LeasesAreBounded(c: Config, start: State, events: seq<Event>, e: nat)
    requires WellFormed(c) && Initial(c, start)
    requires e < |After(c, start, events).executions| && Live(After(c, start, events).executions[e].status)
    ensures After(c, start, events).executions[e].leaseUntil <= After(c, start, events).now + c.lease
  {
    hide Safe; hide Apply;
    if events != [] {
      var before := events[..|events| - 1];
      AlwaysSafe(c, start, before);
      var t := After(c, start, before);
      if e < |t.executions| && Live(t.executions[e].status) { LeasesAreBounded(c, start, before, e); }
      LeasingStep(c, t, events[|events| - 1], e);
    }
  }

  // ---- One request at a time ----

  // Only the latest request of a context may be unsettled.
  ghost predicate OneRequest(s: State) {
    forall p, q | 0 <= p < q < |s.turns| && s.turns[p].thread == s.turns[q].thread :: !Unsettled(s.turns[p].status)
  }

  lemma OneRequestStep(c: Config, s: State, ev: Event)
    requires WellFormed(c) && Safe(c, s) && OneRequest(s)
    ensures OneRequest(Apply(c, s, ev))
  {
    hide Fits; hide Sound; hide WellFormed; hide Admit; hide NextNumber; hide Unsettled;
    if ev.EvAdmit? {
      if Attempt(c, s, ev).Commit? { AdmissionRows(c, s, ev.session, ev.host, ev.harness, ev.view); }
    } else {
      hide Attempt; hide Apply;
      StepEvolves(c, s, ev);
      EvolvedRequests(s, Apply(c, s, ev));
    }
  }

  lemma EvolvedRequests(s: State, z: State)
    requires Evolves(s, z) && OneRequest(s)
    ensures OneRequest(z)
  {
    hide Unsettled;
    forall p, q | 0 <= p < q < |z.turns| && z.turns[p].thread == z.turns[q].thread ensures !Unsettled(z.turns[p].status) {
      if q < |s.turns| { assert s.turns[p].thread == s.turns[q].thread; }
    }
  }

  /** Over every run a context has one request in flight at most, and it is the last one sent. */
  lemma {:induction false} OneRequestPerContext(c: Config, start: State, events: seq<Event>)
    requires WellFormed(c) && Initial(c, start)
    ensures var s := After(c, start, events);
            forall p, q | 0 <= p < q < |s.turns| && s.turns[p].thread == s.turns[q].thread ::
              s.turns[p].status in {TurnCompleted, TurnFailed, TurnInterrupted}
  {
    hide Safe; hide Apply; hide Unsettled;
    AlwaysOneRequest(c, start, events);
    var s := After(c, start, events);
    forall p, q | 0 <= p < q < |s.turns| && s.turns[p].thread == s.turns[q].thread
      ensures s.turns[p].status in {TurnCompleted, TurnFailed, TurnInterrupted}
    {
      SettledIs(s.turns[p].status);
    }
  }

  lemma SettledIs(st: TurnStatus)
    ensures !Unsettled(st) <==> st in {TurnCompleted, TurnFailed, TurnInterrupted}
  {
  }

  lemma {:induction false} AlwaysOneRequest(c: Config, start: State, events: seq<Event>)
    requires WellFormed(c) && Initial(c, start)
    ensures OneRequest(After(c, start, events))
  {
    hide Safe; hide Apply;
    if events != [] {
      var before := events[..|events| - 1];
      AlwaysOneRequest(c, start, before);
      AlwaysSafe(c, start, before);
      OneRequestStep(c, After(c, start, before), events[|events| - 1]);
    }
  }

  // ---- Identities and directories over any continuation ----

  lemma RowsStep(c: Config, s: State, ev: Event)
    requires WellFormed(c) && Safe(c, s)
    ensures var z := Apply(c, s, ev);
            && |s.threads| <= |z.threads| && (forall t | 0 <= t < |s.threads| :: ThreadMoves(s.threads[t], z.threads[t]))
            && |s.places| <= |z.places| && (forall w | 0 <= w < |s.places| :: PlaceMoves(s.places[w], z.places[w]))
            && |s.executions| <= |z.executions|
            && (forall e | 0 <= e < |s.executions| :: z.executions[e].workspace == s.executions[e].workspace)
            && (forall e | |s.executions| <= e < |z.executions| && z.executions[e].workspace < |s.places| ::
                  s.places[z.executions[e].workspace].status in {Ready, Preparing})
  {
    hide Fits; hide Sound; hide WellFormed; hide Admit; hide NextNumber;
    var z := Apply(c, s, ev);
    if ev.EvAdmit? {
      if Attempt(c, s, ev).Commit? {
        AdmissionRows(c, s, ev.session, ev.host, ev.harness, ev.view);
        AdmissionPlace(c, s, ev.session, ev.host, ev.harness, ev.view);
        assert forall e | 0 <= e < |s.executions| :: z.executions[..|s.executions|][e] == s.executions[e];
      }
    } else {
      hide Attempt; hide Apply;
      StepEvolves(c, s, ev);
      EvolvedRows(s, z);
    }
  }

  lemma EvolvedRows(s: State, z: State)
    requires Evolves(s, z)
    ensures |s.threads| <= |z.threads| && (forall t | 0 <= t < |s.threads| :: ThreadMoves(s.threads[t], z.threads[t]))
    ensures |s.places| == |z.places| && (forall w | 0 <= w < |s.places| :: PlaceMoves(s.places[w], z.places[w]))
    ensures |s.executions| == |z.executions|
    ensures forall e | 0 <= e < |s.executions| :: z.executions[e].workspace == s.executions[e].workspace
  {
    forall e | 0 <= e < |s.executions| ensures z.executions[e].workspace == s.executions[e].workspace {
      assert SameJob(s.executions[e], z.executions[e]);
    }
  }

  /** Over any continuation a context keeps its session, directory, harness and predecessor, and its provider identity for good. */
  lemma {:induction false} IdentitiesStand(c: Config, s: State, more: seq<Event>, t: nat)
    requires WellFormed(c) && Safe(c, s) && t < |s.threads|
    ensures Safe(c, After(c, s, more)) && t < |After(c, s, more).threads|
    ensures var x, y := s.threads[t], After(c, s, more).threads[t];
            && y.assignment == x.assignment && y.workspace == x.workspace && y.harness == x.harness && y.predecessor == x.predecessor
            && (x.native.Some? ==> y.native == x.native)
  {
    hide Safe; hide Apply;
    if more != [] {
      var before := more[..|more| - 1];
      IdentitiesStand(c, s, before, t);
      var m := After(c, s, before);
      RowsStep(c, m, more[|more| - 1]);
      StepSafe(c, m, more[|more| - 1]);
      assert ThreadMoves(m.threads[t], Apply(c, m, more[|more| - 1]).threads[t]);
    }
  }

  /** A retired or broken directory stays so, and no later execution works in it. */
  lemma {:induction false} RetiredStayEmpty(c: Config, s: State, more: seq<Event>, w: nat)
    requires WellFormed(c) && Safe(c, s) && w < |s.places| && s.places[w].status in {Retired, Broken}
    ensures Safe(c, After(c, s, more)) && w < |After(c, s, more).places| && After(c, s, more).places[w] == s.places[w]
    ensures |s.executions| <= |After(c, s, more).executions|
    ensures forall e | |s.executions| <= e < |After(c, s, more).executions| :: After(c, s, more).executions[e].workspace != w
  {
    hide Safe; hide Apply;
    if more != [] {
      var before := more[..|more| - 1];
      RetiredStayEmpty(c, s, before, w);
      var m := After(c, s, before);
      RowsStep(c, m, more[|more| - 1]);
      StepSafe(c, m, more[|more| - 1]);
      assert PlaceMoves(m.places[w], Apply(c, m, more[|more| - 1]).places[w]);
    }
  }

  // ---- Generated directories ----

  ghost predicate GeneratedOnce(s: State) {
    forall v, w | 0 <= v < w < |s.places| && s.places[v].host == s.places[w].host && s.places[v].origin.Some? ::
      s.places[v].origin != s.places[w].origin
  }

  lemma GeneratedStep(c: Config, s: State, ev: Event)
    requires WellFormed(c) && Safe(c, s) && GeneratedOnce(s)
    ensures GeneratedOnce(Apply(c, s, ev))
  {
    hide Fits; hide Sound; hide WellFormed; hide Admit; hide Copyable;
    if ev.EvAdmit? {
      if Attempt(c, s, ev).Commit? { AdmissionPlace(c, s, ev.session, ev.host, ev.harness, ev.view); }
    } else {
      hide Attempt; hide Apply;
      StepEvolves(c, s, ev);
      EvolvedOrigins(s, Apply(c, s, ev));
    }
  }

  lemma EvolvedOrigins(s: State, z: State)
    requires Evolves(s, z) && GeneratedOnce(s)
    ensures GeneratedOnce(z)
  {
    assert forall w | 0 <= w < |s.places| :: PlaceMoves(s.places[w], z.places[w]);
  }

  /** Over every run a session has at most one generated directory on each host. */
  lemma {:induction false} OneGeneratedDirectory(c: Config, start: State, events: seq<Event>)
    requires WellFormed(c) && Initial(c, start)
    ensures var s := After(c, start, events);
            forall v, w | 0 <= v < w < |s.places| && s.places[v].host == s.places[w].host && s.places[v].origin.Some? ::
              s.places[v].origin != s.places[w].origin
  {
    hide Safe; hide Apply;
    if events != [] {
      var before := events[..|events| - 1];
      OneGeneratedDirectory(c, start, before);
      AlwaysSafe(c, start, before);
      GeneratedStep(c, After(c, start, before), events[|events| - 1]);
    }
  }
}
