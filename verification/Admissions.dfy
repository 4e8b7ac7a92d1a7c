/**
  What every admission respects, read off the rows it met: dates, pins, the
  account's state, the place and its project, session budgets, and weights in
  plain sums (scheduler.py `claim`, `available_workspace`; queue_policies.py
  `blocker`, `native_capacity`).
 */
module Admissions {
  import opened Wrappers
  import opened Records
  import opened Admission
  import opened Protocol
  import opened Structure
  import opened Fencing
  import opened Safety

  // ---- The terms of one admission ----

  // The session is queued and due, inside its window, not paused, in a run that
  // is active or draining, free to run there, and pinned to no other harness.
  ghost predicate Due(c: Config, s: State, a: nat, harness: nat) {
    && a < |s.assignments| && s.assignments[a].run < |s.runs| && s.assignments[a].run < |c.runs|
    && var item := s.assignments[a]; var run := s.runs[item.run];
       && item.status == Pending && (run.status == RunActive || run.status == RunDraining)
       && (item.notBefore.Some? ==> item.notBefore.value <= s.now)
       && (item.retryAt.Some? ==> item.retryAt.value <= s.now)
       && (item.expiresAt.Some? ==> s.now < item.expiresAt.value)
       && (item.pause.Some? ==> item.pause.value == "")
       && (item.pinned.Some? ==> item.pinned.value == harness)
       && (c.runs[item.run].mode == Objective && run.next.Some? ==> run.next.value.owner == Some(a))
  }

  /** No session is admitted unless it is due, eligible, ready and, in an objective, inside its token budget. */
  lemma AdmissionTerms(c: Config, s: State, a: nat, host: nat, harness: nat, view: View)
    requires Admit(c, s, a, host, harness, view).Commit?
    ensures Due(c, s, a, harness)
    ensures view.eligible && view.ready && (c.runs[s.assignments[a].run].mode == Objective ==> !view.overBudget)
  {
    hide Placement; hide Reservation; hide AdmitPlanner; hide RetainedOn; hide AdmittedRows;
    hide Cool; hide SessionUnsettled; hide KeyLive; hide PoolWeight; hide LimitsFree; hide CategoryWeight; hide WorkerWeight; hide Started;
  }

  /** Its accounts are closed circuits out of cooldown, and no request of the session is still unsettled. */
  lemma AdmissionAccounts(c: Config, s: State, a: nat, host: nat, harness: nat, view: View)
    requires Admit(c, s, a, host, harness, view).Commit?
    ensures (host, harness) in c.pools
    ensures forall l | l in c.pools[(host, harness)].limits && l < |s.limits| ::
              && !s.limits[l].open && (s.limits[l].cooldown.Some? ==> s.limits[l].cooldown.value <= s.now)
    ensures forall q | 0 <= q < |s.turns| && s.turns[q].thread < |s.threads| && s.threads[s.turns[q].thread].assignment == a ::
              s.turns[q].status in {TurnCompleted, TurnFailed, TurnInterrupted}
  {
    hide Placement; hide Reservation; hide AdmitPlanner; hide RetainedOn; hide AdmittedRows; hide Blocked;
    hide KeyLive; hide PoolWeight; hide LimitsFree;
    var limits := c.pools[(host, harness)].limits;
    forall l | l in limits && l < |s.limits|
      ensures !s.limits[l].open && (s.limits[l].cooldown.Some? ==> s.limits[l].cooldown.value <= s.now)
    {
      var i :| 0 <= i < |limits| && limits[i] == l;
      assert limits[i] < |s.limits|;
    }
  }

  // ---- The place ----

  ghost predicate Fitting(c: Config, s: State, a: nat, host: nat, p: Place)
    requires a < |s.assignments| && s.assignments[a].run < |c.runs|
  {
    && p.host == host && p.project == c.runs[s.assignments[a].run].project
    && (p.status == Ready || (p.status == Preparing && p.origin == Some(a)))
  }

  lemma PlacementFits(c: Config, s: State, a: nat, host: nat, view: View)
    requires a < |s.assignments| && s.assignments[a].run < |c.runs|
    ensures var pick := Placement(c, s, a, host, view);
            && (pick.Existing? ==> Fitting(c, s, a, host, s.places[pick.place]))
            && (pick.Propose? ==> view.capable && Source(s, c.runs[s.assignments[a].run].project, host, view.pin, pick.source))
  {
    hide BusyPlace; hide RetainedPlace; hide NativeForeign; hide RetainedOn; hide Latest;
  }

  // A ready working directory of the project that a fresh one can be copied from.
  ghost predicate Copyable(s: State, project: nat, host: nat, pin: Option<nat>, w: nat) {
    && w < |s.places| && s.places[w].host == host && s.places[w].project == project && s.places[w].working && s.places[w].status == Ready
    && (pin.Some? ==> s.places[w].repository == pin.value)
  }

  /** The new execution works on its host, in its run's project, in a ready directory or in the session's own fresh one. */
  lemma AdmissionPlace(c: Config, s: State, a: nat, host: nat, harness: nat, view: View)
    requires WellFormed(c) && Sound(c, s) && Admit(c, s, a, host, harness, view).Commit?
    ensures a < |s.assignments| && s.assignments[a].run < |c.runs|
    ensures var z := Admit(c, s, a, host, harness, view).state;
            && |z.executions| == |s.executions| + 1
            && z.executions[|s.executions|].workspace < |z.places|
            && Fitting(c, s, a, host, z.places[z.executions[|s.executions|].workspace])
            && |s.places| <= |z.places| <= |s.places| + 1 && (forall w | 0 <= w < |s.places| :: z.places[w] == s.places[w])
            // A new directory copies a ready one of the project, and is the session's only one on the host.
            && (|z.places| > |s.places| ==>
                  && z.executions[|s.executions|].workspace == |s.places| && z.places[|s.places|].origin == Some(a)
                  && z.places[|s.places|].working && z.places[|s.places|].status == Preparing
                  && (exists v: nat :: Copyable(s, c.runs[s.assignments[a].run].project, host, view.pin, v)
                                       && s.places[v].repository == z.places[|s.places|].repository)
                  && (forall w | 0 <= w < |s.places| :: !(s.places[w].host == host && s.places[w].origin == Some(a))))
  {
    hide Admissible; hide Placement; hide Reservation; hide AdmitPlanner; hide SessionsOk; hide ContextsOk; hide ClaimsOk;
    hide RetainedOn; hide NextNumber; hide HasRetained; hide WellFormed;
    AdmitPlacement(c, s, a, host, harness, view);
    AdmissionTerms(c, s, a, host, harness, view);
    PlacementFits(c, s, a, host, view);
    PlannedShape(c, s, a);
    var pick := Placement(c, s, a, host, view);
    if pick.Propose? { assert Copyable(s, c.runs[s.assignments[a].run].project, host, view.pin, pick.source); }
  }

  // A ready working directory of the project on the host that no execution may be using.
  ghost predicate Vacant(c: Config, s: State, project: nat, host: nat, w: nat) {
    && w < |s.places| && s.places[w].host == host && s.places[w].project == project && s.places[w].working && s.places[w].status == Ready
    && forall e | 0 <= e < |s.executions| && s.executions[e].workspace == w :: !Busy(c, s, e)
  }

  // An unfinished session has its context there.
  ghost predicate Spoken(s: State, w: nat) {
    exists t | 0 <= t < |s.threads| ::
      && s.threads[t].workspace == w && s.threads[t].status in {Creating, Available}
      && s.threads[t].assignment < |s.assignments| && s.assignments[s.threads[t].assignment].status in {Pending, Running, Stopping}
  }

  lemma FreeIs(c: Config, s: State, project: nat, host: nat, w: nat)
    requires w < |s.places|
    ensures FreePlace(c, s, project, host, true, w) <==> Vacant(c, s, project, host, w)
    ensures FreePlace(c, s, project, host, false, w) <==> Vacant(c, s, project, host, w) && !Spoken(s, w)
  {
    hide Busy;
    if RetainedPlace(s, w) {
      var t :| 0 <= t < |s.threads| && s.threads[t].workspace == w && Retained(s.threads[t].status)
               && s.threads[t].assignment < |s.assignments| && Open(s.assignments[s.threads[t].assignment].status);
      assert s.threads[t].status in {Creating, Available} && s.assignments[s.threads[t].assignment].status in {Pending, Running, Stopping};
    }
    if Spoken(s, w) {
      var t :| 0 <= t < |s.threads| && s.threads[t].workspace == w && s.threads[t].status in {Creating, Available}
               && s.threads[t].assignment < |s.assignments| && s.assignments[s.threads[t].assignment].status in {Pending, Running, Stopping};
      assert Retained(s.threads[t].status) && Open(s.assignments[s.threads[t].assignment].status);
    }
  }

  /**
    A session without a context takes the first vacant directory of its project
    on the host that no unfinished session has its context in. Failing that, a
    capable host copies the first ready one, and another host takes the first
    vacant one; with neither it is placed nowhere.
   */
  lemma FreshPlacement(c: Config, s: State, a: nat, host: nat, view: View)
    requires a < |s.assignments| && s.assignments[a].run < |c.runs|
    requires forall t | 0 <= t < |s.threads| :: s.threads[t].assignment != a
    ensures var pick := Placement(c, s, a, host, view);
            var project := c.runs[s.assignments[a].run].project;
            var room := exists w: nat :: Vacant(c, s, project, host, w) && !Spoken(s, w);
            && (room ==> && pick.Existing? && Vacant(c, s, project, host, pick.place) && !Spoken(s, pick.place)
                         && forall w: nat | w < pick.place :: !(Vacant(c, s, project, host, w) && !Spoken(s, w)))
            && (!room && view.capable ==>
                  if exists w: nat :: Copyable(s, project, host, view.pin, w)
                  then pick.Propose? && Copyable(s, project, host, view.pin, pick.source)
                       && forall w: nat | w < pick.source :: !Copyable(s, project, host, view.pin, w)
                  else pick == NoPlace)
            && (!room && !view.capable ==>
                  if exists w: nat :: Vacant(c, s, project, host, w)
                  then pick.Existing? && Vacant(c, s, project, host, pick.place)
                       && forall w: nat | w < pick.place :: !Vacant(c, s, project, host, w)
                  else pick == NoPlace)
  {
    hide BusyPlace; hide RetainedPlace; hide RetainedOn; hide Latest; hide Vacant; hide Spoken; hide FreePlace;
    NoThread(s, a, host, |s.threads|);
    var project := c.runs[s.assignments[a].run].project;
    forall w: nat | w < |s.places|
      ensures FreePlace(c, s, project, host, true, w) <==> Vacant(c, s, project, host, w)
      ensures FreePlace(c, s, project, host, false, w) <==> Vacant(c, s, project, host, w) && !Spoken(s, w)
    {
      FreeIs(c, s, project, host, w);
    }
    forall w: nat | Vacant(c, s, project, host, w) ensures w < |s.places| { VacantListed(c, s, project, host, w); }
    forall w: nat | w < |s.places| ensures Source(s, project, host, view.pin, w) <==> Copyable(s, project, host, view.pin, w) { }
    if w: nat :| Copyable(s, project, host, view.pin, w) { assert Source(s, project, host, view.pin, w); }
  }

  lemma VacantListed(c: Config, s: State, project: nat, host: nat, w: nat)
    requires Vacant(c, s, project, host, w)
    ensures w < |s.places|
  {
    hide Busy;
  }

  // A fresh directory being prepared for the session on a capable host, with a
  // ready one of its project and repository beside it to copy.
  ghost predicate Preparable(s: State, a: nat, capable: bool, w: nat) {
    && w < |s.places| && capable && s.places[w].status == Preparing && s.places[w].origin == Some(a)
    && exists v | 0 <= v < |s.places| ::
         && v != w && s.places[v].status == Ready && s.places[v].host == s.places[w].host
         && s.places[v].repository == s.places[w].repository && s.places[v].project == s.places[w].project
  }

  /**
    A session with a retained context on the host goes back to that context's
    directory, exactly when it belongs to the project, no execution may be
    using it and it is ready or can be prepared; nothing else will do.
   */
  lemma RetainedPlacement(c: Config, s: State, a: nat, host: nat, view: View, t: nat)
    requires Sound(c, s) && a < |s.assignments| && s.assignments[a].run < |c.runs|
    requires t < |s.threads| && s.threads[t].assignment == a && s.threads[t].status in {Creating, Available}
    requires s.threads[t].workspace < |s.places| && s.places[s.threads[t].workspace].host == host
    requires forall u | t < u < |s.threads| :: s.threads[u].assignment != a
    ensures var w := s.threads[t].workspace;
            var fits := && s.places[w].project == c.runs[s.assignments[a].run].project
                        && (forall e | 0 <= e < |s.executions| && s.executions[e].workspace == w :: !Busy(c, s, e))
                        && (s.places[w].status == Ready || Preparable(s, a, view.capable, w));
            Placement(c, s, a, host, view) == if fits then Existing(w) else NoPlace
  {
    hide Busy; hide RefsOk; hide SessionsOk; hide ClaimsOk; hide RetainedPlace; hide NativeForeign;
    LatestAt(s, a, |s.threads|, t);
    OnlyRetained(s, a, host, t);
    var w := s.threads[t].workspace;
    if BusyPlace(c, s, w) {
      var e :| 0 <= e < |s.executions| && s.executions[e].workspace == w && Busy(c, s, e);
    }
    assert CanPrepare(s, a, view.capable, w) == Preparable(s, a, view.capable, w);
  }

  lemma {:induction false} LatestAt(s: State, a: nat, n: nat, t: nat)
    requires t < n <= |s.threads| && s.threads[t].assignment == a && forall u | t < u < n :: s.threads[u].assignment != a
    ensures Latest(s, a, n) == Some(t)
  {
    if n > t + 1 { LatestAt(s, a, n - 1, t); }
  }

  lemma OnlyRetained(s: State, a: nat, host: nat, t: nat)
    requires ContextsOk(s) && t < |s.threads| && RetainedAt(s, a, host, t)
    ensures RetainedOn(s, a, host, |s.threads|) == Some(t)
  {
    var r := RetainedOn(s, a, host, |s.threads|);
    assert r.Some? && RetainedAt(s, a, host, r.value);
  }

  /** A session whose provider context lives on another host, or whose last context was given up, is placed nowhere here. */
  lemma ContextsStayHome(c: Config, s: State, a: nat, host: nat, harness: nat, view: View, t: nat)
    requires Sound(c, s) && a < |s.assignments| && s.assignments[a].run < |c.runs|
    requires t < |s.threads| && s.threads[t].assignment == a && s.threads[t].workspace < |s.places|
    requires || (s.places[s.threads[t].workspace].host != host
                 && (s.threads[t].status == Available || (s.threads[t].status == Creating && s.threads[t].native.Some?)))
             || (s.threads[t].status in {Unavailable, Closed} && forall u | t < u < |s.threads| :: s.threads[u].assignment != a)
    ensures Placement(c, s, a, host, view) == NoPlace && !Admissible(c, s, a, host, harness, view)
  {
    hide RefsOk; hide SessionsOk; hide ClaimsOk; hide RetainedPlace; hide BusyPlace; hide Blocked; hide LimitsFree; hide Cool;
    hide SessionUnsettled; hide KeyLive; hide PoolWeight; hide Candidate;
    if s.threads[t].status in {Unavailable, Closed} {
      LatestAt(s, a, |s.threads|, t);
    } else {
      assert NativeForeign(s, a, host);
      if RetainedOn(s, a, host, |s.threads|).Some? { OnlyHome(s, a, host, t); }
    }
  }

  lemma OnlyHome(s: State, a: nat, host: nat, t: nat)
    requires ContextsOk(s) && t < |s.threads| && s.threads[t].assignment == a && Retained(s.threads[t].status)
    requires HostOf(s, s.threads[t].workspace) != Some(host)
    ensures RetainedOn(s, a, host, |s.threads|).None?
  {
    var r := RetainedOn(s, a, host, |s.threads|);
  }

  /** A queued planner waits while another planner of its run is unfinished under the active key. */
  lemma PlannersTakeTurns(c: Config, s: State, a: nat, host: nat, harness: nat, view: View, b: nat)
    requires a < |s.assignments| && s.assignments[a].key == NextKey
    requires b < |s.assignments| && s.assignments[b].run == s.assignments[a].run && s.assignments[b].key == ActiveKey
             && s.assignments[b].status in {Pending, Running, Stopping}
    ensures !Admissible(c, s, a, host, harness, view)
  {
    hide Placement; hide Blocked; hide LimitsFree; hide Cool; hide SessionUnsettled; hide PoolWeight; hide Candidate; hide RetainedOn;
    assert Open(s.assignments[b].status);
    assert KeyLive(s, s.assignments[a].run, ActiveKey);
  }

  /** A continued session stays on the harness of its retained context. */
  lemma ContextsKeepHarness(c: Config, s: State, a: nat, host: nat, harness: nat, view: View, t: nat)
    requires Sound(c, s) && Admit(c, s, a, host, harness, view).Commit?
    requires t < |s.threads| && s.threads[t].assignment == a && s.threads[t].status in {Creating, Available}
    ensures s.threads[t].harness == harness && s.threads[t].workspace < |s.places| && s.places[s.threads[t].workspace].host == host
  {
    hide SessionsOk; hide ClaimsOk; hide Placement; hide Blocked; hide LimitsFree; hide Cool; hide Reservation; hide AdmitPlanner;
    hide SessionUnsettled; hide KeyLive; hide PoolWeight; hide Candidate; hide AdmittedRows; hide Proposed;
    assert HasRetained(s, a);
    var r := RetainedOn(s, a, host, |s.threads|);
    assert r.Some? && RetainedAt(s, a, host, r.value);
  }

  lemma {:induction false} NoThread(s: State, a: nat, host: nat, n: nat)
    requires n <= |s.threads| && forall t | 0 <= t < n :: s.threads[t].assignment != a
    ensures Latest(s, a, n).None? && RetainedOn(s, a, host, n).None?
  {
    if n > 0 { NoThread(s, a, host, n - 1); }
  }

  // ---- Projects over runs ----

  ghost predicate InProject(c: Config, s: State, e: nat) {
    e < |s.executions| ==>
      && s.executions[e].assignment < |s.assignments| && s.assignments[s.executions[e].assignment].run < |c.runs|
      && s.executions[e].workspace < |s.places|
      && s.places[s.executions[e].workspace].project == c.runs[s.assignments[s.executions[e].assignment].run].project
  }

  // No event moves a directory to another project or a session to another run.
  lemma ProjectStep(c: Config, s: State, ev: Event)
    requires WellFormed(c) && Safe(c, s) && forall e | 0 <= e < |s.executions| :: InProject(c, s, e)
    ensures forall e | 0 <= e < |Apply(c, s, ev).executions| :: InProject(c, Apply(c, s, ev), e)
  {
    hide Safe; hide Sound; hide Fits; hide WellFormed; hide Admit; hide Attempt; hide Apply;
    assert Sound(c, s) by { SafeSound(c, s); }
    if ev.EvAdmit? {
      ProjectAdmit(c, s, ev);
    } else {
      StepEvolves(c, s, ev);
      var z := Apply(c, s, ev);
      forall e | 0 <= e < |z.executions| ensures InProject(c, z, e) {
        assert InProject(c, s, e) && SameJob(s.executions[e], z.executions[e]);
        assert SameOrder(s.assignments[s.executions[e].assignment], z.assignments[s.executions[e].assignment]);
        assert PlaceMoves(s.places[s.executions[e].workspace], z.places[s.executions[e].workspace]);
      }
    }
  }

  lemma SafeSound(c: Config, s: State)
    requires Safe(c, s)
    ensures Sound(c, s)
  {
    hide Sound; hide Fits;
  }

  lemma ProjectAdmit(c: Config, s: State, ev: Event)
    requires WellFormed(c) && Sound(c, s) && ev.EvAdmit? && forall e | 0 <= e < |s.executions| :: InProject(c, s, e)
    ensures forall e | 0 <= e < |Apply(c, s, ev).executions| :: InProject(c, Apply(c, s, ev), e)
  {
    hide WellFormed; hide Admit; hide Placement; hide Reservation; hide SessionsOk; hide ContextsOk; hide ClaimsOk;
    if Attempt(c, s, ev).Commit? {
      AdmissionPlace(c, s, ev.session, ev.host, ev.harness, ev.view);
      AdmitShape(c, s, ev.session, ev.host, ev.harness, ev.view);
      var z := Apply(c, s, ev);
      forall e | 0 <= e < |z.executions| ensures InProject(c, z, e) {
        if e < |s.executions| {
          assert InProject(c, s, e);
          assert SameOrder(s.assignments[s.executions[e].assignment], z.assignments[s.executions[e].assignment]);
        }
      }
    }
  }

  /** Over every run, every execution works in a directory of its session's own project. */
  lemma {:induction false} ProjectsStaySeparate(c: Config, start: State, events: seq<Event>)
    requires WellFormed(c) && Initial(c, start)
    ensures var s := After(c, start, events); forall e | 0 <= e < |s.executions| :: InProject(c, s, e)
  {
    hide Safe; hide Apply;
    if events != [] {
      var before := events[..|events| - 1];
      ProjectsStaySeparate(c, start, before);
      AlwaysSafe(c, start, before);
      ProjectStep(c, After(c, start, before), events[|events| - 1]);
    }
  }
}
