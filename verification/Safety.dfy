/** The fencing and reservation guarantees over every run of events. */
module Safety {
  import opened Records
  import opened Admission
  import opened Protocol
  import opened Structure
  import opened Fencing

  lemma InitialSound(c: Config, s: State)
    requires WellFormed(c) && Initial(c, s)
    ensures Sound(c, s) && Fits(c, s)
  {
  }

  // Cancellations, receipts, sweeps and commands: everything but the plain edits.
  lemma StepLarge(c: Config, s: State, ev: Event)
    requires WellFormed(c) && Sound(c, s) && Attempt(c, s, ev).Commit?
    requires ev.EvEnqueue? || ev.EvStopReceipt? || ev.EvLeaseSweep? || ev.EvExpireSession? || ev.EvCancel?
             || ev.EvTurnStarted? || ev.EvTurnFinished? || ev.EvConfirmStopped? || ev.EvRecoverContext?
             || ev.EvTransition? || ev.EvSwitchPlanner? || ev.EvAcceptPhase? || ev.EvReconcileRun?
    ensures Sound(c, Attempt(c, s, ev).state) && Evolves(s, Attempt(c, s, ev).state)
  {
    hide Sound; hide Evolves; hide WellFormed;
    hide Enqueue; hide StopReceipt; hide LeaseSweep; hide Cancel; hide TurnStarted; hide TurnFinished; hide ConfirmStopped;
    hide RecoverContext; hide Transition; hide SwitchPlanner; hide AcceptPhase; hide ReconcileRun;
    match ev {
      case EvEnqueue(q) => EnqueueKeeps(c, s, q);
      case EvStopReceipt(e, n, r, x) => ReceiptKeeps(c, s, e, n, r, x);
      case EvLeaseSweep(e, x) => SweepKeeps(c, s, e, x);
      case EvExpireSession(a) => CancelKeeps(c, s, a, true);
      case EvCancel(a) => CancelKeeps(c, s, a, true);
      case EvTurnStarted(e, n, t) => TurnStartedKeeps(c, s, e, n, t);
      case EvTurnFinished(e, n, q, ok, native) => TurnFinishedKeeps(c, s, e, n, q, ok, native);
      case EvConfirmStopped(e) => ConfirmKeeps(c, s, e);
      case EvRecoverContext(t) => RecoverKeeps(c, s, t);
      case EvTransition(r, op, done, unpublished) => TransitionKeeps(c, s, r, op, done, unpublished);
      case EvSwitchPlanner(r, on) => SwitchKeeps(c, s, r, on);
      case EvAcceptPhase(r, g, p, ok) => AcceptKeeps(c, s, r, g, p, ok);
      case EvReconcileRun(r, f, d, ok) => ReconcileKeeps(c, s, r, f, d, ok);
    }
  }

  lemma StepSmall(c: Config, s: State, ev: Event)
    requires Sound(c, s) && Attempt(c, s, ev).Commit?
    requires ev.EvElapse? || ev.EvSettleTurn? || ev.EvSettleRun? || ev.EvTurnObserved? || ev.EvPrepared?
             || ev.EvCheckpoint? || ev.EvResumeSession? || ev.EvRetrySession? || ev.EvResetCircuit? || ev.EvHeartbeat?
             || ev.EvRetireOrphans? || ev.EvRetireFailed? || ev.EvRetirePlace? || ev.EvReopenSession?
    ensures Sound(c, Attempt(c, s, ev).state) && Evolves(s, Attempt(c, s, ev).state)
  {
    hide Sound; hide Evolves; hide Minor; hide RetireOrphans; hide RetireFailed; hide RetirePlace;
    hide SettleTurn; hide SettleRun; hide TurnObserved; hide Prepared; hide ResumeSession; hide RetrySession; hide Heartbeat;
    hide ReopenSession; hide ResetCircuit; hide Checkpoint;
    match ev {
      case EvElapse(d) => ElapseMinor(c, s, d);
      case EvRetireOrphans(a, h) => OrphansMinor(c, s, a, h);
      case EvRetireFailed(a) => FailedMinor(c, s, a);
      case EvHeartbeat(e, n) => HeartbeatMinor(c, s, e, n);
      case EvSettleTurn(q) => SettleTurnMinor(c, s, q);
      case EvSettleRun(r) => SettleRunMinor(c, s, r);
      case EvTurnObserved(e, n, q, i) => TurnObservedMinor(c, s, e, n, q, i);
      case EvPrepared(e, n) => PreparedMinor(c, s, e, n);
      case EvResumeSession(a) => ResumeMinor(c, s, a);
      case EvCheckpoint(a, when) => CheckpointMinor(c, s, a, when);
      case EvRetrySession(a) => RetryMinor(c, s, a);
      case EvReopenSession(a) => ReopenMinor(c, s, a);
      case EvResetCircuit(l) => ResetMinor(c, s, l);
      case EvRetirePlace(w, pinned) => RetirePlaceMinor(c, s, w, pinned);
    }
    MinorKeeps(c, s, Attempt(c, s, ev).state);
  }

  // Every step but an admission only lets occupancy shrink.
  lemma StepEvolves(c: Config, s: State, ev: Event)
    requires WellFormed(c) && Sound(c, s) && !ev.EvAdmit?
    ensures Sound(c, Apply(c, s, ev)) && Evolves(s, Apply(c, s, ev))
  {
    hide Sound; hide Evolves; hide Attempt;
    EvolvesRefl(s);
    if Attempt(c, s, ev).Commit? {
      if ev.EvElapse? || ev.EvSettleTurn? || ev.EvSettleRun? || ev.EvTurnObserved? || ev.EvPrepared?
         || ev.EvCheckpoint? || ev.EvResumeSession? || ev.EvRetrySession? || ev.EvResetCircuit? || ev.EvHeartbeat?
         || ev.EvRetireOrphans? || ev.EvRetireFailed? || ev.EvRetirePlace? || ev.EvReopenSession?
      {
        StepSmall(c, s, ev);
      } else {
        StepLarge(c, s, ev);
      }
    }
  }

  ghost predicate Safe(c: Config, s: State) { Sound(c, s) && Fits(c, s) }

  lemma StepSafe(c: Config, s: State, ev: Event)
    requires WellFormed(c) && Safe(c, s)
    ensures Safe(c, Apply(c, s, ev))
  {
    hide Sound; hide Fits; hide Evolves; hide Admit;
    if ev.EvAdmit? {
      if Attempt(c, s, ev).Commit? {
        AdmitKeepsSound(c, s, ev.session, ev.host, ev.harness, ev.view);
        AdmitKeepsFits(c, s, ev.session, ev.host, ev.harness, ev.view);
      }
    } else {
      hide Attempt;
      StepEvolves(c, s, ev);
      assert RefsOk(c, s) by { SoundRefs(c, s); }
      EvolvingFits(c, s, Apply(c, s, ev));
    }
  }

  lemma SoundRefs(c: Config, s: State)
    requires Sound(c, s)
    ensures RefsOk(c, s)
  {
  }

  /** Every reachable state satisfies the row and capacity invariants. */
  lemma {:induction false} AlwaysSafe(c: Config, start: State, events: seq<Event>)
    requires WellFormed(c) && Initial(c, start)
    ensures Safe(c, After(c, start, events))
  {
    hide Sound; hide Fits; hide Apply;
    if events == [] {
      InitialSound(c, start);
    } else {
      AlwaysSafe(c, start, events[..|events| - 1]);
      StepSafe(c, After(c, start, events[..|events| - 1]), events[|events| - 1]);
    }
  }

  // ---- What the invariants mean, state by state ----

  /**
    An objective session is never admitted while an earlier execution of it has
    an unconfirmed stop: not after lease loss, from another host, after its
    context was retired or after it was recovered.
   */
  lemma ReadmissionIsFenced(c: Config, start: State, events: seq<Event>, a: nat, host: nat, harness: nat, view: View)
    requires WellFormed(c) && Initial(c, start)
    requires Admit(c, After(c, start, events), a, host, harness, view).Commit?
    requires ModeOf(c, After(c, start, events), a).Objective?
    ensures forall e | 0 <= e < |After(c, start, events).executions| ::
              After(c, start, events).executions[e].assignment == a ==> After(c, start, events).executions[e].confirmed
  {
    hide Sound; hide Fits; hide Admit; hide After; hide Initial;
    AlwaysSafe(c, start, events);
    ObjectiveReadmission(c, After(c, start, events), a, host, harness, view);
  }

  /** A legacy session keeps the reservation of an unconfirmed execution for the grace period. */
  lemma LegacyReadmissionWaits(c: Config, start: State, events: seq<Event>, a: nat, host: nat, harness: nat, view: View, e: nat)
    requires WellFormed(c) && Initial(c, start)
    requires Admit(c, After(c, start, events), a, host, harness, view).Commit?
    requires e < |After(c, start, events).executions| && After(c, start, events).executions[e].assignment == a
    ensures var s := After(c, start, events); var x := s.executions[e];
            && !Live(x.status) && !HasUnsettled(s, e)
            && (x.confirmed || (if x.finishedAt.Some? then x.finishedAt.value else x.startedAt) + GRACE <= s.now)
  {
    hide Sound; hide Fits; hide Admit; hide After; hide Initial;
    AlwaysSafe(c, start, events);
    AdmissionClears(c, After(c, start, events), a, host, harness, view, e);
  }

  /** Two executions of one objective session are never both possibly running. */
  lemma OneProcessPerSession(c: Config, start: State, events: seq<Event>, e: nat, f: nat)
    requires WellFormed(c) && Initial(c, start)
    requires var s := After(c, start, events);
             && e < f < |s.executions| && s.executions[e].assignment == s.executions[f].assignment
             && ModeOf(c, s, s.executions[e].assignment).Objective?
    ensures After(c, start, events).executions[e].confirmed
  {
    hide Sound; hide After; hide Initial;
    AlwaysSafe(c, start, events);
  }

  /** Every context and execution of a session stays in the workspace it started in. */
  lemma OneWorkspacePerSession(c: Config, start: State, events: seq<Event>, e: nat, f: nat)
    requires WellFormed(c) && Initial(c, start)
    requires var s := After(c, start, events);
             e < |s.executions| && f < |s.executions| && s.executions[e].assignment == s.executions[f].assignment
    ensures After(c, start, events).executions[e].workspace == After(c, start, events).executions[f].workspace
  {
    hide Fits; hide After; hide Initial; hide RefsOk; hide SessionsOk; hide ClaimsOk;
    AlwaysSafe(c, start, events);
    var s := After(c, start, events);
    assert HasThread(s, s.executions[e].assignment);
  }

  /** Busy executions never share a workspace. */
  lemma WorkspacesAreExclusive(c: Config, start: State, events: seq<Event>, e: nat, f: nat)
    requires WellFormed(c) && Initial(c, start)
    requires var s := After(c, start, events); e < f < |s.executions| && Busy(c, s, e) && Busy(c, s, f)
    ensures After(c, start, events).executions[e].workspace != After(c, start, events).executions[f].workspace
  {
    hide Sound; hide After; hide Initial; hide Busy;
    AlwaysSafe(c, start, events);
  }

  /** Pool slots, category slots and finite shared limits are never exceeded. */
  lemma BudgetsHold(c: Config, start: State, events: seq<Event>)
    requires WellFormed(c) && Initial(c, start)
    ensures forall h: nat, k: nat | (h, k) in c.pools ::
              PoolWeight(c, After(c, start, events), h, k) <= c.pools[(h, k)].slots
    ensures forall r: nat, g: nat | r < |c.runs| && c.runs[r].mode.Objective? && g < |c.runs[r].policies| ::
              CategoryWeight(c, After(c, start, events), r, g) <= c.runs[r].policies[g].slots
    ensures forall l: nat | l < |c.limits| && c.limits[l].maximum.Some? ::
              Held(After(c, start, events), l) <= c.limits[l].maximum.value
  {
    hide Sound; hide After; hide Initial; hide PoolWeight; hide CategoryWeight; hide Held;
    AlwaysSafe(c, start, events);
  }

  /** Units are held exactly while a stop is unconfirmed, in the amount the session reserved. */
  lemma ClaimsFollowStops(c: Config, start: State, events: seq<Event>, k: nat)
    requires WellFormed(c) && Initial(c, start) && k < |After(c, start, events).claims|
    ensures var s := After(c, start, events); var claim := s.claims[k];
            && claim.execution < |s.executions|
            && (claim.released <==> s.executions[claim.execution].confirmed)
            && claim.units == 1 + s.executions[claim.execution].native
  {
    hide Fits; hide After; hide Initial; hide RefsOk; hide SessionsOk; hide ContextsOk;
    AlwaysSafe(c, start, events);
  }

  /** A run that passes the completion guard holds no claim and has no process left. */
  lemma CompletedRunHoldsNothing(c: Config, start: State, events: seq<Event>, r: nat, unpublished: bool, k: nat)
    requires WellFormed(c) && Initial(c, start) && k < |After(c, start, events).claims|
    requires Transition(c, After(c, start, events), r, CompleteRun, true, unpublished).Commit?
    requires var s := After(c, start, events);
             s.claims[k].execution < |s.executions| && RunOf(s, s.executions[s.claims[k].execution].assignment) == r
    ensures After(c, start, events).claims[k].released
  {
    hide Fits; hide After; hide Initial; hide RefsOk; hide SessionsOk; hide ContextsOk;
    AlwaysSafe(c, start, events);
  }

  /** A session is open on one live execution at most; its dates follow its status. */
  lemma SessionsStayCoherent(c: Config, start: State, events: seq<Event>, a: nat)
    requires WellFormed(c) && Initial(c, start) && a < |After(c, start, events).assignments|
    ensures var s := After(c, start, events); var item := s.assignments[a];
            && (item.finishedAt.Some? <==> Settled(item.status))
            && (LiveSession(s, a) <==> item.status.Running? || item.status.Stopping?)
            && (forall e, f | 0 <= e < f < |s.executions| ::
                  s.executions[e].assignment == s.executions[f].assignment == a ==>
                  !(Live(s.executions[e].status) && Live(s.executions[f].status)))
  {
    hide Fits; hide After; hide Initial; hide RefsOk; hide ContextsOk; hide ClaimsOk;
    AlwaysSafe(c, start, events);
  }

  // ---- What holds between two states of one run ----

  // One step: old executions keep their job, and busy status is not regained.
  lemma StepMonotone(c: Config, s: State, ev: Event, e: nat)
    requires WellFormed(c) && Safe(c, s) && e < |s.executions|
    ensures e < |Apply(c, s, ev).executions| && SameJob(s.executions[e], Apply(c, s, ev).executions[e])
    ensures Busy(c, Apply(c, s, ev), e) ==> Busy(c, s, e)
  {
    hide Admit; hide Fits; hide Busy; hide Reservation; hide Placement; hide SessionsOk; hide ContextsOk; hide ClaimsOk;
    if ev.EvAdmit? {
      if Attempt(c, s, ev).Commit? {
        AdmitShape(c, s, ev.session, ev.host, ev.harness, ev.view);
        var pick := Placement(c, s, ev.session, ev.host, ev.view);
        var w := if pick.Existing? then pick.place else |s.places|;
        var z := Apply(c, s, ev);
        assert z.executions[e] == s.executions[e];
        OldBusy(c, s, z, ev.session, ev.host, ev.harness, w, Reservation(c, s, ev.session, ev.host, ev.harness), e);
      }
    } else {
      StepEvolves(c, s, ev);
      BusyNeverRegained(c, s, Apply(c, s, ev), e);
    }
  }

  lemma SameJobTrans(x: Execution, y: Execution, z: Execution)
    requires SameJob(x, y) && SameJob(y, z)
    ensures SameJob(x, z)
  {
  }

  /**
    Over any continuation an execution keeps its session, host, workspace and
    weight; once it stops being busy it stays free; and a confirmed stop stays
    confirmed.
   */
  lemma {:induction false} OccupancyNeverReturns(c: Config, s: State, more: seq<Event>, e: nat)
    requires WellFormed(c) && Safe(c, s) && e < |s.executions|
    ensures Safe(c, After(c, s, more))
    ensures e < |After(c, s, more).executions| && SameJob(s.executions[e], After(c, s, more).executions[e])
    ensures !Busy(c, s, e) ==> !Busy(c, After(c, s, more), e)
  {
    hide Safe; hide Apply; hide Busy; hide SameJob;
    if more == [] {
      SameJobRefl(s.executions[e]);
    } else {
      var t := After(c, s, more[..|more| - 1]);
      OccupancyNeverReturns(c, s, more[..|more| - 1], e);
      StepSafe(c, t, more[|more| - 1]);
      StepMonotone(c, t, more[|more| - 1], e);
      SameJobTrans(s.executions[e], t.executions[e], After(c, s, more).executions[e]);
    }
  }

  lemma SameJobRefl(x: Execution)
    ensures SameJob(x, x)
  {
  }
}
