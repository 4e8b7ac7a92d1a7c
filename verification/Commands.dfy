/**
  When each command and event takes hold and what it leaves, read off the rows
  alone (commands.py `apply`; operations/workspace_retention.py `retire`;
  objectives.py `accept_phase`, `reconcile`, `completed`; worker_events.py;
  scheduler.py `cancel`, `heartbeat`).
 */
module Commands {
  import opened Wrappers
  import opened Records
  import opened Admission
  import opened Protocol

  // ---- Occupancy ----

  /**
    An execution holds its reservation while it is live, while a request of it
    is unsettled, and after it ended without a confirmed stop: in an objective
    until the stop is confirmed, in a legacy run for 300 seconds.
   */
  lemma OccupancyIs(c: Config, s: State, e: nat)
    requires e < |s.executions| && s.executions[e].assignment < |s.assignments| && s.assignments[s.executions[e].assignment].run < |c.runs|
    ensures var x := s.executions[e]; var objective := c.runs[s.assignments[x.assignment].run].mode == Objective;
            var ended := if x.finishedAt.Some? then x.finishedAt.value else x.startedAt;
            Busy(c, s, e) <==>
              || x.status in {ExecStarting, ExecRunning, ExecStopping}
              || (!x.confirmed && (objective || s.now < ended + 300))
              || (exists q | 0 <= q < |s.turns| ::
                    s.turns[q].execution == e && s.turns[q].status in {TurnPending, TurnSubmitted, TurnRunning, TurnUncertain})
  {
  }

  // ---- Stops ----

  // Every row but those named stays.
  ghost predicate TurnsStopped(s: State, t: State, e: nat) {
    && |t.turns| == |s.turns|
    && (forall q | 0 <= q < |s.turns| ::
          t.turns[q] == if s.turns[q].execution == e && s.turns[q].status in {TurnPending, TurnSubmitted, TurnRunning, TurnUncertain}
                        then s.turns[q].(status := TurnInterrupted) else s.turns[q])
  }

  ghost predicate ClaimsReleased(s: State, t: State, e: nat) {
    && |t.claims| == |s.claims|
    && (forall k | 0 <= k < |s.claims| ::
          t.claims[k] == if s.claims[k].execution == e then s.claims[k].(released := true) else s.claims[k])
  }

  /**
    An operator confirms the stop of a lost or cancelled execution whose stop
    nobody confirmed. It interrupts its requests, releases its claims, and
    gives up each context without identity that it had worked on.
   */
  lemma OperatorConfirms(s: State, e: nat)
    ensures ConfirmStopped(s, e).Commit? <==>
              e < |s.executions| && !s.executions[e].confirmed && s.executions[e].status in {ExecLost, ExecCancelled}
    ensures ConfirmStopped(s, e).Commit? ==>
              var t := ConfirmStopped(s, e).state;
              && t == s.(executions := s.executions[e := s.executions[e].(confirmed := true)], turns := t.turns, claims := t.claims, threads := t.threads)
              && TurnsStopped(s, t, e) && ClaimsReleased(s, t, e) && |t.threads| == |s.threads|
              && (forall i | 0 <= i < |s.threads| ::
                    var x := s.threads[i];
                    var used := exists q | 0 <= q < |s.turns| :: s.turns[q].execution == e && s.turns[q].thread == i;
                    t.threads[i] == if used && x.assignment == s.executions[e].assignment && x.native == None && x.status in {Creating, Available}
                                    then x.(status := Unavailable) else x)
  {
  }

  /** A cancelled session ends at once if queued, and is told to stop if running; a settled one stays. */
  lemma CancelRules(c: Config, s: State, a: nat, disable: bool)
    requires a < |s.assignments|
    ensures var t := Cancel(c, s, a, disable); var x := s.assignments[a];
            && (x.status in {Completed, Failed, Cancelled} ==> t == s)
            && (x.status !in {Completed, Failed, Cancelled} ==>
                  && |t.assignments| == |s.assignments| && |t.executions| == |s.executions|
                  && t == s.(assignments := t.assignments, executions := t.executions, runs := t.runs)
                  && t.assignments[a] == (if x.status == Pending then x.(status := Cancelled, finishedAt := Some(s.now))
                                          else x.(status := Stopping, finishedAt := None))
                  && (forall e | 0 <= e < |s.executions| ::
                        t.executions[e] == if s.executions[e].assignment == a && s.executions[e].status in {ExecStarting, ExecRunning}
                                           then s.executions[e].(status := ExecStopping) else s.executions[e]))
  {
  }

  /** Cancelling a planner switches its recurrence off and pauses its queued successor, unless the run is draining. */
  lemma CancelledPlanner(c: Config, s: State, a: nat, disable: bool)
    requires a < |s.assignments| && s.assignments[a].status in {Pending, Running, Stopping} && s.assignments[a].run < |s.runs| && s.assignments[a].run < |c.runs|
    ensures var t := Cancel(c, s, a, disable); var r := s.assignments[a].run;
            var off := disable && s.assignments[a].rule == PlannerRule && c.runs[r].mode == Objective;
            && t.runs == (if off then s.runs[r := s.runs[r].(planner := s.runs[r].planner.(enabled := false, pause := ByCancellation))] else s.runs)
            && (forall b | 0 <= b < |s.assignments| && b != a && b < |t.assignments| ::
                  t.assignments[b] == if off && s.assignments[b].run == r && s.assignments[b].rule == PlannerRule && s.assignments[b].status == Pending
                                      then s.assignments[b].(pause := Some("cancelled")) else s.assignments[b])
  {
  }

  /** The sweeps: a session past its window is cancelled, a stopping run without open sessions ends, a turn of a confirmed stop is settled. */
  lemma SweepRules(c: Config, s: State, a: nat, r: nat, q: nat)
    ensures ExpireSession(c, s, a).Commit? <==>
              a < |s.assignments| && s.assignments[a].status in {Pending, Running} && s.assignments[a].expiresAt.Some? && s.assignments[a].expiresAt.value <= s.now
    ensures ExpireSession(c, s, a).Commit? ==> ExpireSession(c, s, a).state == Cancel(c, s, a, true)
    ensures SettleRun(s, r).Commit? <==>
              && r < |s.runs| && s.runs[r].status == RunStopping
              && forall b | 0 <= b < |s.assignments| && s.assignments[b].run == r :: s.assignments[b].status in {Completed, Failed, Cancelled}
    ensures SettleRun(s, r).Commit? ==> SettleRun(s, r).state == s.(runs := s.runs[r := s.runs[r].(status := RunCancelled)])
    ensures SettleTurn(s, q).Commit? <==>
              && q < |s.turns| && s.turns[q].status in {TurnPending, TurnSubmitted, TurnRunning, TurnUncertain} && s.turns[q].execution < |s.executions|
              && s.executions[s.turns[q].execution].confirmed
              && s.executions[s.turns[q].execution].status in {ExecSucceeded, ExecFailed, ExecCancelled, ExecLost}
    ensures SettleTurn(s, q).Commit? ==> SettleTurn(s, q).state == s.(turns := s.turns[q := s.turns[q].(status := TurnInterrupted)])
  {
    hide Cancel;
    if r < |s.runs| && RunOccupied(s, r) {
      var b :| 0 <= b < |s.assignments| && s.assignments[b].run == r && Open(s.assignments[b].status);
    }
  }

  // ---- Heartbeats and requests ----

  /** A heartbeat of the current epoch inside the lease renews it, unless the execution, its session, its run or its window asks it to stop. */
  lemma HeartbeatRules(c: Config, s: State, e: nat, epoch: nat)
    requires Known(c, s, e)
    ensures var x := s.executions[e]; var item := s.assignments[x.assignment]; var out := Heartbeat(c, s, e, epoch);
            var stop := x.status == ExecStopping || item.status == Stopping || s.runs[item.run].status in {RunStopping, RunCancelled}
                        || (item.expiresAt.Some? && item.expiresAt.value <= s.now);
            && (out.Commit? <==> x.number == epoch && x.status in {ExecStarting, ExecRunning, ExecStopping} && s.now < x.leaseUntil)
            && (out.Commit? ==> out.state == if stop then s else s.(executions := s.executions[e := x.(leaseUntil := s.now + c.lease)]))
  {
  }

  /** A request starts only under a valid lease, in a ready directory, on a retained context of the session with nothing in flight. */
  lemma RequestStarts(c: Config, s: State, e: nat, epoch: nat, t: nat)
    requires Known(c, s, e)
    ensures TurnStarted(c, s, e, epoch, t).Commit? <==>
              && s.executions[e].number == epoch && s.executions[e].status in {ExecStarting, ExecRunning} && s.now < s.executions[e].leaseUntil
              && t < |s.threads| && s.threads[t].assignment == s.executions[e].assignment && s.threads[t].status in {Creating, Available}
              && s.executions[e].workspace < |s.places| && s.places[s.executions[e].workspace].status == Ready
              && (forall q | 0 <= q < |s.turns| && s.turns[q].thread == t :: s.turns[q].status in {TurnCompleted, TurnFailed, TurnInterrupted})
    ensures TurnStarted(c, s, e, epoch, t).Commit? ==>
              TurnStarted(c, s, e, epoch, t).state == s.(turns := s.turns + [Turn(e, t, TurnSubmitted, false, false)])
  {
    if t < |s.threads| && exists q | 0 <= q < |s.turns| :: s.turns[q].thread == t && Unsettled(s.turns[q].status) {
      var q :| 0 <= q < |s.turns| && s.turns[q].thread == t && Unsettled(s.turns[q].status);
    }
  }

  /**
    A finished request is recorded once. The identity it reports is adopted by
    its context, and refused if the context has another one or if the session
    keeps another context.
   */
  lemma RequestFinishes(s: State, e: nat, epoch: nat, q: nat, ok: bool, native: Option<nat>)
    requires e < |s.executions| && s.executions[e].number == epoch && q < |s.turns| && s.turns[q].execution == e
    requires s.turns[q].thread < |s.threads| && s.threads[s.turns[q].thread].assignment == s.executions[e].assignment
    ensures var out := TurnFinished(s, e, epoch, q, ok, native); var t := s.turns[q].thread; var x := s.threads[t];
            var open := s.turns[q].status in {TurnPending, TurnSubmitted, TurnRunning, TurnUncertain};
            var clash := open && native.Some? &&
                         ((x.native.Some? && x.native != native)
                          || (x.status in {Unavailable, Closed} && exists u | 0 <= u < |s.threads| ::
                                s.threads[u].assignment == x.assignment && s.threads[u].status in {Creating, Available}));
            && (out.Abort? <==> clash)
            && (out.Commit? && !open ==> out.state == s)
            && (out.Commit? && open ==>
                  out.state == s.(turns := s.turns[q := s.turns[q].(status := if ok then TurnCompleted else TurnFailed)],
                                  threads := if native.None? then s.threads else s.threads[t := x.(native := native, status := Available)]))
  {
    if u :| 0 <= u < |s.threads| && s.threads[u].assignment == s.threads[s.turns[q].thread].assignment && Retained(s.threads[u].status) {
      assert s.threads[u].status in {Creating, Available};
    }
  }

  // ---- What a receipt says about the context ----

  ghost predicate Evidence(s: State, e: nat, t: nat) {
    exists q | 0 <= q < |s.turns| ::
      && s.turns[q].thread == t
      && (s.turns[q].execution != e || s.turns[q].started || s.turns[q].identified || s.turns[q].status in {TurnCompleted, TurnFailed})
  }

  /**
    The retained context of the session takes the identity the receipt
    reports; a different one refuses the receipt. Without any identity a turn
    that did not succeed loses the context, unless nothing shows that the
    provider ever started. Every other context stays.
   */
  lemma ReceiptContext(s: State, e: nat, a: nat, r: Receipt, t: nat)
    requires t < |s.threads| && s.threads[t].assignment == a && s.threads[t].status in {Creating, Available}
    requires forall u | 0 <= u < |s.threads| && u != t && s.threads[u].assignment == a :: s.threads[u].status in {Unavailable, Closed}
    ensures var out := ReceiptThreads(s, e, a, r); var x := s.threads[t];
            var known := x.native.Some? || r.native.Some?;
            var used := exists q | 0 <= q < |s.turns| :: s.turns[q].thread == t;
            var neverStarted := r.outcome == OutYielded && x.status == Creating && !Evidence(s, e, t)
                                && r.reason in {Some("request_admission_not_acknowledged"), Some("execution_budget_reached")};
            && (out.None? <==> x.native.Some? && r.native.Some? && x.native != r.native)
            && (out.Some? && known ==>
                  out.value == s.threads[t := x.(native := if r.native.Some? then r.native else x.native, status := Available)])
            && (out.Some? && !known ==>
                  out.value == if r.outcome != OutSucceeded && used && !neverStarted
                               then s.threads[t := x.(status := Unavailable)] else s.threads)
  {
    hide PrelaunchAbort;
    LaunchIs(s, e, t, r);
    assert PrimaryThread(s, a, |s.threads|) == Some(t);
  }

  lemma LaunchIs(s: State, e: nat, t: nat, r: Receipt)
    requires t < |s.threads|
    ensures PrelaunchAbort(s, e, t, r) <==>
              && r.outcome == OutYielded && s.threads[t].status == Creating && !Evidence(s, e, t)
              && r.reason in {Some("request_admission_not_acknowledged"), Some("execution_budget_reached")}
  {
    if Evidence(s, e, t) {
      var q :| 0 <= q < |s.turns| && s.turns[q].thread == t
               && (s.turns[q].execution != e || s.turns[q].started || s.turns[q].identified || s.turns[q].status in {TurnCompleted, TurnFailed});
      assert s.turns[q].status.TurnCompleted? || s.turns[q].status.TurnFailed? || s.turns[q].execution != e || s.turns[q].started || s.turns[q].identified;
    }
  }

  // ---- Recovery by an operator ----

  /** Resuming a paused session frees it at once and forgets no failure. */
  lemma ResumeRules(s: State, a: nat)
    ensures ResumeSession(s, a).Commit? <==>
              && a < |s.assignments| && s.assignments[a].status == Pending && s.assignments[a].pause.Some? && s.assignments[a].pause.value != ""
              && s.assignments[a].run < |s.runs| && s.runs[s.assignments[a].run].status == RunActive
    ensures ResumeSession(s, a).Commit? ==>
              ResumeSession(s, a).state == s.(assignments := s.assignments[a := s.assignments[a].(pause := None, retryAt := None, notBefore := None)])
  {
  }

  // A legacy session of a run that is active or paused.
  ghost predicate Recoverable(c: Config, s: State, a: nat) {
    && a < |s.assignments| && (s.assignments[a].run < |c.runs| ==> c.runs[s.assignments[a].run].mode == Legacy)
    && s.assignments[a].run < |s.runs| && s.runs[s.assignments[a].run].status in {RunActive, RunPaused}
  }

  // Another open session keeps a context in the directory that this session's context is in.
  ghost predicate Displaced(s: State, a: nat) {
    exists t, u | 0 <= t < |s.threads| && 0 <= u < |s.threads| ::
      && s.threads[t].assignment == a && s.threads[t].status in {Creating, Available}
      && s.threads[u].assignment != a && s.threads[u].status in {Creating, Available} && s.threads[u].workspace == s.threads[t].workspace
      && s.threads[u].assignment < |s.assignments| && s.assignments[s.threads[u].assignment].status in {Pending, Running, Stopping}
  }

  /** A failed legacy session is retried with its failures forgotten; a settled one is reopened unless its directory was taken. */
  lemma LegacyRecoveryRules(c: Config, s: State, a: nat)
    ensures RetrySession(c, s, a).Commit? <==> Recoverable(c, s, a) && s.assignments[a].status == Failed
    ensures RetrySession(c, s, a).Commit? ==>
              RetrySession(c, s, a).state == s.(assignments := s.assignments[a :=
                s.assignments[a].(status := Pending, finishedAt := None, retryAt := None, attempts := 0)])
    ensures ReopenSession(c, s, a).Commit? <==>
              Recoverable(c, s, a) && s.assignments[a].status in {Failed, Completed} && !Displaced(s, a)
    ensures ReopenSession(c, s, a).Commit? ==>
              ReopenSession(c, s, a).state == s.(assignments := s.assignments[a :=
                s.assignments[a].(status := Pending, finishedAt := None, retryAt := None, notBefore := None, checkpoint := false)])
  {
    if Displaced(s, a) {
      var t, u :| 0 <= t < |s.threads| && 0 <= u < |s.threads|
        && s.threads[t].assignment == a && s.threads[t].status in {Creating, Available}
        && s.threads[u].assignment != a && s.threads[u].status in {Creating, Available} && s.threads[u].workspace == s.threads[t].workspace
        && s.threads[u].assignment < |s.assignments| && s.assignments[s.threads[u].assignment].status in {Pending, Running, Stopping};
      assert Retained(s.threads[t].status) && Retained(s.threads[u].status) && Open(s.assignments[s.threads[u].assignment].status);
    }
    if t, u :| 0 <= t < |s.threads| && 0 <= u < |s.threads| && s.threads[t].assignment == a && Retained(s.threads[t].status)
               && s.threads[u].assignment != a && Retained(s.threads[u].status) && s.threads[u].workspace == s.threads[t].workspace
               && s.threads[u].assignment < |s.assignments| && Open(s.assignments[s.threads[u].assignment].status)
    {
      assert s.threads[t].status in {Creating, Available} && s.threads[u].status in {Creating, Available};
    }
  }

  /**
    A generated directory that is ready and not pinned is retired exactly when
    every execution in it has a confirmed stop and no open session has a context
    in it; its contexts are then given up.
   */
  lemma RetirementRules(s: State, w: nat, pinned: bool)
    ensures RetirePlace(s, w, pinned).Commit? <==>
              && w < |s.places| && s.places[w].origin.Some? && s.places[w].status == Ready && !pinned
              && (forall e | 0 <= e < |s.executions| && s.executions[e].workspace == w :: s.executions[e].confirmed)
              && (forall t | 0 <= t < |s.threads| && s.threads[t].workspace == w && s.threads[t].assignment < |s.assignments| ::
                    s.assignments[s.threads[t].assignment].status in {Completed, Failed, Cancelled})
    ensures RetirePlace(s, w, pinned).Commit? ==>
              var t := RetirePlace(s, w, pinned).state;
              && t == s.(places := s.places[w := s.places[w].(status := Retired)], threads := t.threads) && |t.threads| == |s.threads|
              && (forall i | 0 <= i < |s.threads| ::
                    t.threads[i] == if s.threads[i].workspace == w && s.threads[i].status in {Creating, Available}
                                    then s.threads[i].(status := Unavailable) else s.threads[i])
  {
  }

  /**
    The context of a session that is queued or failed is replaced, in its own
    directory and harness and without identity, exactly when nothing of the
    session can still run or is unsettled, the context was not replaced before
    and no other one is retained. An objective session keeps its failures.
   */
  lemma ReplacementRules(c: Config, s: State, t: nat)
    requires t < |s.threads| && s.threads[t].assignment < |s.assignments| && s.assignments[s.threads[t].assignment].run < |c.runs|
    ensures var a := s.threads[t].assignment; var item := s.assignments[a]; var out := RecoverContext(c, s, t);
            var objective := c.runs[item.run].mode == Objective;
            && (out.Commit? <==>
                  && item.status in {Pending, Failed}
                  && (forall e | 0 <= e < |s.executions| && s.executions[e].assignment == a ::
                        s.executions[e].status !in {ExecStarting, ExecRunning, ExecStopping} && (objective ==> s.executions[e].confirmed))
                  && (forall u | 0 <= u < |s.threads| :: s.threads[u].predecessor != Some(t))
                  && (forall q | 0 <= q < |s.turns| && s.turns[q].thread < |s.threads| && s.threads[s.turns[q].thread].assignment == a ::
                        s.turns[q].status in {TurnCompleted, TurnFailed, TurnInterrupted})
                  && (forall u | 0 <= u < |s.threads| && u != t && s.threads[u].assignment == a :: s.threads[u].status in {Unavailable, Closed}))
            && (out.Commit? ==>
                  out.state == s.(
                    threads := s.threads[t := s.threads[t].(status := Closed)]
                               + [Thread(a, s.threads[t].workspace, s.threads[t].harness, None, Creating, Some(t))],
                    assignments := s.assignments[a := item.(status := Pending, finishedAt := None, retryAt := None,
                                                            pause := if objective then None else item.pause,
                                                            attempts := if objective then item.attempts else 0)]))
  {
    var a := s.threads[t].assignment;
    LiveIs(s, a);
    SettledTurns(s, a);
    hide LiveSession; hide SessionUnsettled;
    assert (exists u | 0 <= u < |s.threads| :: u != t && s.threads[u].assignment == a && Retained(s.threads[u].status))
      <==> !(forall u | 0 <= u < |s.threads| && u != t && s.threads[u].assignment == a :: s.threads[u].status in {Unavailable, Closed});
  }

  lemma LiveIs(s: State, a: nat)
    ensures LiveSession(s, a) <==> exists e | 0 <= e < |s.executions| ::
              s.executions[e].assignment == a && s.executions[e].status in {ExecStarting, ExecRunning, ExecStopping}
  {
    if LiveSession(s, a) {
      var e :| 0 <= e < |s.executions| && s.executions[e].assignment == a && Live(s.executions[e].status);
      assert s.executions[e].status in {ExecStarting, ExecRunning, ExecStopping};
    }
    if e :| 0 <= e < |s.executions| && s.executions[e].assignment == a && s.executions[e].status in {ExecStarting, ExecRunning, ExecStopping} {
      assert Live(s.executions[e].status);
    }
  }

  lemma SettledTurns(s: State, a: nat)
    ensures !SessionUnsettled(s, a) <==>
              forall q | 0 <= q < |s.turns| && s.turns[q].thread < |s.threads| && s.threads[s.turns[q].thread].assignment == a ::
                s.turns[q].status in {TurnCompleted, TurnFailed, TurnInterrupted}
  {
    if SessionUnsettled(s, a) {
      var q :| 0 <= q < |s.turns| && Unsettled(s.turns[q].status) && s.turns[q].thread < |s.threads| && s.threads[s.turns[q].thread].assignment == a;
      assert s.turns[q].status !in {TurnCompleted, TurnFailed, TurnInterrupted};
    }
    if q :| 0 <= q < |s.turns| && s.turns[q].thread < |s.threads| && s.threads[s.turns[q].thread].assignment == a
            && s.turns[q].status !in {TurnCompleted, TurnFailed, TurnInterrupted}
    {
      assert Unsettled(s.turns[q].status);
    }
  }

  /**
    Before a claim on a host, a context that never got an identity on another
    host is given up once an earlier execution of the session was fenced and
    nothing is live or in flight on it.
   */
  lemma OrphanRules(s: State, a: nat, host: nat, t: nat)
    requires t < |s.threads|
    ensures var x := s.threads[t];
            var orphan := && x.assignment == a && x.status == Creating && x.native == None
                          && (x.workspace < |s.places| ==> s.places[x.workspace].host != host)
                          && (forall q | 0 <= q < |s.turns| && s.turns[q].thread == t :: s.turns[q].status in {TurnCompleted, TurnFailed, TurnInterrupted})
                          && (forall e | 0 <= e < |s.executions| && s.executions[e].assignment == a ::
                                s.executions[e].status !in {ExecStarting, ExecRunning, ExecStopping})
                          && (exists e | 0 <= e < |s.executions| ::
                                s.executions[e].assignment == a && s.executions[e].status in {ExecLost, ExecFailed, ExecCancelled});
            && |RetireOrphans(s, a, host).threads| == |s.threads|
            && RetireOrphans(s, a, host).threads[t] == if orphan then x.(status := Unavailable) else x
  {
    LiveIs(s, a);
    FencedIs(s, a);
    InFlight(s, t);
    hide LiveSession; hide FencedOnce; hide ThreadUnsettled;
  }

  lemma FencedIs(s: State, a: nat)
    ensures FencedOnce(s, a) <==> exists e | 0 <= e < |s.executions| ::
              s.executions[e].assignment == a && s.executions[e].status in {ExecLost, ExecFailed, ExecCancelled}
  {
    if e :| 0 <= e < |s.executions| && s.executions[e].assignment == a && s.executions[e].status in {ExecLost, ExecFailed, ExecCancelled} {
      assert s.executions[e].status.ExecLost? || s.executions[e].status.ExecFailed? || s.executions[e].status.ExecCancelled?;
    }
  }

  lemma InFlight(s: State, t: nat)
    ensures !ThreadUnsettled(s, t) <==>
              forall q | 0 <= q < |s.turns| && s.turns[q].thread == t :: s.turns[q].status in {TurnCompleted, TurnFailed, TurnInterrupted}
  {
    if q :| 0 <= q < |s.turns| && s.turns[q].thread == t && s.turns[q].status !in {TurnCompleted, TurnFailed, TurnInterrupted} {
      assert Unsettled(s.turns[q].status);
    }
  }

  /** A queued legacy session gives up a context whose last request failed, once nothing of it is live. */
  lemma FailedContextRules(c: Config, s: State, a: nat, t: nat)
    requires t < |s.threads| && a < |s.assignments| && s.assignments[a].run < |c.runs|
    ensures var x := s.threads[t];
            var failed := && x.assignment == a && x.status == Available && x.native.Some?
                          && c.runs[s.assignments[a].run].mode == Legacy && s.assignments[a].status == Pending
                          && (forall e | 0 <= e < |s.executions| && s.executions[e].assignment == a ::
                                s.executions[e].status !in {ExecStarting, ExecRunning, ExecStopping})
                          && (exists q | 0 <= q < |s.turns| :: && s.turns[q].thread == t && s.turns[q].status == TurnFailed
                                                               && forall p | q < p < |s.turns| :: s.turns[p].thread != t);
            && |RetireFailed(c, s, a).threads| == |s.threads|
            && RetireFailed(c, s, a).threads[t] == if failed then x.(status := Unavailable) else x
  {
    LiveIs(s, a);
    LastIs(s, t, |s.turns|);
    hide LiveSession; hide LastTurn;
    var last := LastTurn(s, t, |s.turns|);
    if q :| 0 <= q < |s.turns| && s.turns[q].thread == t && s.turns[q].status == TurnFailed && forall p | q < p < |s.turns| :: s.turns[p].thread != t {
      assert last == Some(q);
    }
  }

  lemma {:induction false} LastIs(s: State, t: nat, n: nat)
    requires n <= |s.turns|
    ensures var r := LastTurn(s, t, n);
            && (r.Some? ==> s.turns[r.value].thread == t)
            && (forall q | (if r.Some? then r.value + 1 else 0) <= q < n :: s.turns[q].thread != t)
  {
    if n > 0 { LastIs(s, t, n - 1); }
  }

  /** A leased execution reports its own directory ready on its host, and the first native event shows that a submitted request started. */
  lemma ObservationRules(s: State, e: nat, epoch: nat, q: nat, identified: bool)
    requires e < |s.executions| && s.executions[e].workspace < |s.places|
    ensures var w := s.executions[e].workspace;
            && (Prepared(s, e, epoch).Commit? <==>
                  && s.executions[e].number == epoch && s.executions[e].status in {ExecStarting, ExecRunning} && s.now < s.executions[e].leaseUntil
                  && s.places[w].origin == Some(s.executions[e].assignment) && s.places[w].host == s.executions[e].host
                  && s.places[w].status in {Preparing, Ready})
            && (Prepared(s, e, epoch).Commit? ==> Prepared(s, e, epoch).state == s.(places := s.places[w := s.places[w].(status := Ready)]))
    ensures TurnObserved(s, e, epoch, q, identified).Commit? <==> s.executions[e].number == epoch && q < |s.turns| && s.turns[q].execution == e
    ensures TurnObserved(s, e, epoch, q, identified).Commit? ==>
              TurnObserved(s, e, epoch, q, identified).state ==
                if s.turns[q].status in {TurnPending, TurnSubmitted}
                then s.(turns := s.turns[q := s.turns[q].(status := TurnRunning, started := true, identified := s.turns[q].identified || identified)])
                else s
  {
  }

  /** A running session may ask to be continued later, and from when. */
  lemma CheckpointRules(s: State, a: nat, notBefore: Option<int>)
    ensures Checkpoint(s, a, notBefore).Commit? <==> a < |s.assignments| && s.assignments[a].status == Running
    ensures Checkpoint(s, a, notBefore).Commit? ==>
              Checkpoint(s, a, notBefore).state == s.(assignments := s.assignments[a := s.assignments[a].(checkpoint := true, notBefore := notBefore)])
  {
  }

  // ---- Runs ----

  /** From which status each command takes a run, and to which. */
  lemma RunCommandRules(c: Config, s: State, r: nat, op: RunOp, done: bool, unpublished: bool)
    requires r < |s.runs| && r < |c.runs| && c.runs[r].mode.Legacy?
    ensures var from := s.runs[r].status;
            Transition(c, s, r, op, done, unpublished).Commit? <==>
              match op
              case PauseRun => from == RunActive
              case ResumeRun => from == RunPaused
              case DrainRun => from == RunActive && done
              case CompleteRun => from == RunDraining && done && !unpublished && !RunOccupied(s, r) && !RunUnconfirmed(s, r)
              case ReopenRun => from in {RunDraining, RunCompleted}
              case CancelRun => from !in {RunCancelled, RunCompleted}
  {
    hide CancelRest;
  }

  lemma {:induction false} CancelRestRuns(c: Config, s: State, r: nat, draining: bool, n: nat)
    requires n <= |s.assignments|
    ensures var t := CancelRest(c, s, r, draining, n);
            |t.runs| == |s.runs| && forall k | 0 <= k < |s.runs| :: t.runs[k].status == s.runs[k].status
    decreases |s.assignments| - n
  {
    hide Cancel;
    if n < |s.assignments| {
      var item := s.assignments[n];
      var chosen := item.run == r && (if draining then item.status.Pending? && !item.rule.NoRule?
                                      else item.status.Pending? || item.status.Running?);
      var t := if chosen then Cancel(c, s, n, !draining) else s;
      CancelRuns(c, s, n, !draining);
      if |t.assignments| == |s.assignments| { CancelRestRuns(c, t, r, draining, n + 1); }
    }
  }

  lemma CancelRuns(c: Config, s: State, a: nat, disable: bool)
    requires a < |s.assignments|
    ensures var t := Cancel(c, s, a, disable);
            |t.runs| == |s.runs| && forall k | 0 <= k < |s.runs| :: t.runs[k].status == s.runs[k].status
  {
  }

  lemma SuccessorRuns(c: Config, s: State, r: nat)
    requires r < |s.runs| && r < |c.runs| && EnsureSuccessor(c, s, r).Commit?
    ensures EnsureSuccessor(c, s, r).state.runs == s.runs
  {
    hide Queued;
  }

  /** A run command changes the status of its own run alone. */
  lemma RunCommandLeaves(c: Config, s: State, r: nat, op: RunOp, done: bool, unpublished: bool)
    requires Transition(c, s, r, op, done, unpublished).Commit?
    ensures r < |s.runs|
    ensures var t := Transition(c, s, r, op, done, unpublished).state;
            && |t.runs| == |s.runs|
            && (forall k | 0 <= k < |s.runs| && k != r :: t.runs[k].status == s.runs[k].status)
            && t.runs[r].status == (match op
                                    case PauseRun => RunPaused
                                    case ResumeRun => RunActive
                                    case DrainRun => RunDraining
                                    case CompleteRun => RunCompleted
                                    case ReopenRun => RunActive
                                    case CancelRun => RunStopping)
  {
    hide CancelRest; hide EnsureSuccessor; hide RunOccupied; hide RunUnconfirmed;
    var run := s.runs[r];
    match op {
      case DrainRun => CancelRestRuns(c, s.(runs := s.runs[r := run.(status := RunDraining)]), r, true, 0);
      case CancelRun =>
        CancelRestRuns(c, s.(runs := s.runs[r := run.(status := RunStopping, planner := run.planner.(enabled := false))]), r, false, 0);
      case ReopenRun =>
        if c.runs[r].mode.Objective? && run.planner.enabled { SuccessorRuns(c, s.(runs := s.runs[r := run.(status := RunActive)]), r); }
      case _ =>
    }
  }

  // One cancellation changes the status of its own session alone.
  lemma CancelStatus(c: Config, s: State, n: nat, disable: bool, a: nat)
    requires n < |s.assignments| && a < |s.assignments|
    ensures var t := Cancel(c, s, n, disable); var x := s.assignments[a];
            && |t.assignments| == |s.assignments| && t.assignments[a].run == x.run && t.assignments[a].rule == x.rule
            && t.assignments[a].status == (if a != n || x.status in {Completed, Failed, Cancelled} then x.status
                                           else if x.status == Pending then Cancelled else Stopping)
  {
  }

  /**
    A halting run cancels each of its queued and running sessions, a draining
    one only its queued recurrences: exactly these, and no session of another run.
   */
  lemma {:induction false} RunCancels(c: Config, s: State, r: nat, draining: bool, n: nat, a: nat)
    requires n <= |s.assignments| && a < |s.assignments|
    ensures var t := CancelRest(c, s, r, draining, n); var x := s.assignments[a];
            var chosen := a >= n && x.run == r && (if draining then x.status == Pending && x.rule != NoRule else x.status in {Pending, Running});
            && |t.assignments| == |s.assignments|
            && t.assignments[a].status == (if !chosen then x.status else if x.status == Pending then Cancelled else Stopping)
    decreases |s.assignments| - n
  {
    hide Cancel;
    if n < |s.assignments| {
      var item := s.assignments[n];
      var chosen := item.run == r && (if draining then item.status.Pending? && !item.rule.NoRule?
                                      else item.status.Pending? || item.status.Running?);
      var t := if chosen then Cancel(c, s, n, !draining) else s;
      CancelStatus(c, s, n, !draining, a);
      RunCancels(c, t, r, draining, n + 1, a);
    }
  }
}
