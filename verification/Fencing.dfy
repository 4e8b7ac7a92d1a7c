/**
  The lease, fencing and reservation results: occupancy only shrinks between
  admissions, every admission fits the budgets it draws on, and an
  objective session never has two executions whose stop is unconfirmed.
 */
module Fencing {
  import opened Wrappers
  import opened Records
  import opened Sums
  import opened Admission
  import opened Protocol
  import opened Structure

  // ---- Between admissions, occupancy only shrinks ----

  // Busy status once lost is never regained.
  lemma BusyNeverRegained(c: Config, s: State, t: State, e: nat)
    requires RefsOk(c, s) && Evolves(s, t) && e < |s.executions|
    ensures Busy(c, t, e) ==> Busy(c, s, e)
  {
    assert SameJob(s.executions[e], t.executions[e]);
    assert SameOrder(s.assignments[s.executions[e].assignment], t.assignments[s.executions[e].assignment]);
    if HasUnsettled(t, e) {
      var q :| 0 <= q < |t.turns| && t.turns[q].execution == e && Unsettled(t.turns[q].status);
      if q < |s.turns| {
        assert HasUnsettled(s, e);
      }
    }
  }

  lemma WeightsShrink(c: Config, s: State, t: State)
    requires RefsOk(c, s) && Evolves(s, t)
    ensures forall h, k :: PoolWeight(c, t, h, k) <= PoolWeight(c, s, h, k)
    ensures forall r, g :: CategoryWeight(c, t, r, g) <= CategoryWeight(c, s, r, g)
    ensures forall h, k :: WorkerWeight(c, t, h, k) <= WorkerWeight(c, s, h, k)
  {
    hide Busy;
    forall h, k ensures PoolWeight(c, t, h, k) <= PoolWeight(c, s, h, k) {
      forall e: nat | e < |s.executions| ensures PoolShare(c, t, h, k, e) <= PoolShare(c, s, h, k, e) {
        BusyNeverRegained(c, s, t, e);
        assert SameJob(s.executions[e], t.executions[e]);
      }
      TotalMono((e: nat) => PoolShare(c, t, h, k, e), (e: nat) => PoolShare(c, s, h, k, e), |s.executions|);
    }
    forall r, g ensures CategoryWeight(c, t, r, g) <= CategoryWeight(c, s, r, g) {
      forall e: nat | e < |s.executions| ensures CategoryShare(c, t, r, g, e) <= CategoryShare(c, s, r, g, e) {
        BusyNeverRegained(c, s, t, e);
        assert SameJob(s.executions[e], t.executions[e]);
        assert SameOrder(s.assignments[s.executions[e].assignment], t.assignments[s.executions[e].assignment]);
      }
      TotalMono((e: nat) => CategoryShare(c, t, r, g, e), (e: nat) => CategoryShare(c, s, r, g, e), |s.executions|);
    }
    forall h, k ensures WorkerWeight(c, t, h, k) <= WorkerWeight(c, s, h, k) {
      forall e: nat | e < |s.executions| ensures WorkerShare(c, t, h, k, e) <= WorkerShare(c, s, h, k, e) {
        BusyNeverRegained(c, s, t, e);
        assert SameJob(s.executions[e], t.executions[e]);
        assert SameOrder(s.assignments[s.executions[e].assignment], t.assignments[s.executions[e].assignment]);
      }
      TotalMono((e: nat) => WorkerShare(c, t, h, k, e), (e: nat) => WorkerShare(c, s, h, k, e), |s.executions|);
    }
  }

  lemma HeldShrinks(s: State, t: State, l: nat)
    requires Evolves(s, t)
    ensures Held(t, l) <= Held(s, l)
  {
    forall k: nat | k < |s.claims| ensures ClaimShare(t, l, k) <= ClaimShare(s, l, k) {
    }
    TotalMono((k: nat) => ClaimShare(t, l, k), (k: nat) => ClaimShare(s, l, k), |s.claims|);
  }

  // ---- Occupancy invariants ----

  // An objective session has at most one execution that may still be running.
  ghost predicate Fenced(c: Config, s: State) {
    forall e, f | 0 <= e < f < |s.executions| ::
      (s.executions[e].assignment == s.executions[f].assignment
       && ModeOf(c, s, s.executions[e].assignment).Objective?) ==> s.executions[e].confirmed
  }

  ghost predicate PlacesExclusive(c: Config, s: State) {
    forall e, f | 0 <= e < f < |s.executions| ::
      s.executions[e].workspace == s.executions[f].workspace ==> !(Busy(c, s, e) && Busy(c, s, f))
  }

  ghost predicate PoolsFit(c: Config, s: State) {
    forall h: nat, k: nat | (h, k) in c.pools :: PoolWeight(c, s, h, k) <= c.pools[(h, k)].slots
  }

  ghost predicate CategoriesFit(c: Config, s: State) {
    forall r: nat, g: nat | r < |c.runs| && c.runs[r].mode.Objective? && g < |c.runs[r].policies| ::
      CategoryWeight(c, s, r, g) <= c.runs[r].policies[g].slots
  }

  ghost predicate LimitsFit(c: Config, s: State) {
    forall l: nat | l < |c.limits| && c.limits[l].maximum.Some? :: Held(s, l) <= c.limits[l].maximum.value
  }

  ghost predicate Fits(c: Config, s: State) {
    Fenced(c, s) && PlacesExclusive(c, s) && PoolsFit(c, s) && CategoriesFit(c, s) && LimitsFit(c, s)
  }

  lemma EvolvingFits(c: Config, s: State, t: State)
    requires RefsOk(c, s) && Fits(c, s) && Evolves(s, t)
    ensures Fits(c, t)
  {
    assert PoolsFit(c, t) && CategoriesFit(c, t) by { WeightsShrink(c, s, t); }
    assert LimitsFit(c, t) by {
      forall l: nat | l < |c.limits| && c.limits[l].maximum.Some? ensures Held(t, l) <= c.limits[l].maximum.value {
        HeldShrinks(s, t, l);
      }
    }
    assert PlacesExclusive(c, t) by {
      forall e, f | 0 <= e < f < |t.executions| && t.executions[e].workspace == t.executions[f].workspace
        ensures !(Busy(c, t, e) && Busy(c, t, f))
      {
        BusyNeverRegained(c, s, t, e);
        BusyNeverRegained(c, s, t, f);
        assert SameJob(s.executions[e], t.executions[e]) && SameJob(s.executions[f], t.executions[f]);
      }
    }
    assert Fenced(c, t) by {
      forall e, f | 0 <= e < f < |t.executions| && t.executions[e].assignment == t.executions[f].assignment
                    && ModeOf(c, t, t.executions[e].assignment).Objective?
        ensures t.executions[e].confirmed
      {
        assert SameJob(s.executions[e], t.executions[e]) && SameJob(s.executions[f], t.executions[f]);
        assert SameOrder(s.assignments[s.executions[e].assignment], t.assignments[s.executions[e].assignment]);
      }
    }
  }

  // ---- Admission ----

  // The planner recurrence edits the queue only: the admitted row keeps its
  // order, other rows are kept, and at most a coherent planner row is added.
  ghost predicate Planned(c: Config, s: State, p: State, a: nat) {
    && a < |s.assignments|
    && p == s.(assignments := p.assignments)
    && |s.assignments| <= |p.assignments|
    && (forall b | 0 <= b < |s.assignments| && b != a :: p.assignments[b] == s.assignments[b])
    && p.assignments[a] == s.assignments[a].(key := p.assignments[a].key)
    && (forall b | |s.assignments| <= b < |p.assignments| :: FreshRow(c, s, p.assignments[b]))
  }

  lemma PlannedShape(c: Config, s: State, a: nat)
    requires WellFormed(c) && RefsOk(c, s) && a < |s.assignments| && AdmitPlanner(c, s, a).Commit?
    ensures Planned(c, s, AdmitPlanner(c, s, a).state, a)
    ensures AdmitPlanner(c, s, a).state == s.(assignments := AdmitPlanner(c, s, a).state.assignments)
  {
    var r := s.assignments[a].run;
    if c.runs[r].mode.Objective? && s.assignments[a].rule.PlannerRule? {
      var t := s.(assignments := s.assignments[a := s.assignments[a].(key := ActiveKey)]);
      SuccessorShape(c, t, r);
      assert FreshRow(c, s, NewPlanner(r, s.runs[r].planner));
    }
  }

  lemma {:induction false} LatestNone(s: State, a: nat, n: nat)
    requires n <= |s.threads|
    ensures Latest(s, a, n).Some? ==> Latest(s, a, n).value < n && s.threads[Latest(s, a, n).value].assignment == a
    ensures Latest(s, a, n).None? ==> forall t | 0 <= t < n :: s.threads[t].assignment != a
  {
    if n > 0 {
      LatestNone(s, a, n - 1);
    }
  }

  // A committed admission has either a retained context on this host, whose
  // workspace it takes, or a session without any context.
  lemma AdmissionHome(c: Config, s: State, a: nat, host: nat, harness: nat, view: View)
    requires Sound(c, s) && Admit(c, s, a, host, harness, view).Commit?
    ensures var kept := RetainedOn(s, a, host, |s.threads|);
            if kept.Some? then Placement(c, s, a, host, view) == Existing(s.threads[kept.value].workspace)
            else !HasThread(s, a)
  {
    hide RefsOk; hide SessionsOk; hide ClaimsOk; hide Candidate; hide Blocked; hide LimitsFree; hide Cool; hide SessionUnsettled;
    hide KeyLive; hide PoolWeight; hide Reservation; hide AdmitPlanner; hide AdmittedRows; hide Proposed; hide BusyPlace; hide RetainedPlace;
    hide CanPrepare; hide NativeForeign; hide Latest; hide RetainedOn;
    LatestNone(s, a, |s.threads|);
  }

  // No earlier execution of the session still occupies anything.
  lemma AdmissionClears(c: Config, s: State, a: nat, host: nat, harness: nat, view: View, e: nat)
    requires Sound(c, s) && Admit(c, s, a, host, harness, view).Commit?
    requires e < |s.executions| && s.executions[e].assignment == a
    ensures !Busy(c, s, e)
  {
    hide Admissible;
    AdmissionHome(c, s, a, host, harness, view);
    assert HasThread(s, a);
    var kept := RetainedOn(s, a, host, |s.threads|);
    var w := s.threads[kept.value].workspace;
    assert s.executions[e].workspace == w;
    assert Placement(c, s, a, host, view) == Existing(w);
    assert !BusyPlace(c, s, w) by { AdmitPlacement(c, s, a, host, harness, view); }
  }

  lemma AdmitPlacement(c: Config, s: State, a: nat, host: nat, harness: nat, view: View)
    requires Admit(c, s, a, host, harness, view).Commit?
    ensures Admissible(c, s, a, host, harness, view)
    ensures a < |s.assignments| && s.assignments[a].run < |c.runs| && s.assignments[a].status.Pending?
    ensures (host, harness) in c.pools
    ensures var pick := Placement(c, s, a, host, view);
            && !pick.NoPlace?
            && (pick.Existing? ==> pick.place < |s.places| && s.places[pick.place].host == host
                                   && !BusyPlace(c, s, pick.place))
            && (pick.Propose? ==> pick.source < |s.places|)
  {
    hide Placement; hide Blocked; hide LimitsFree; hide Cool; hide SessionUnsettled; hide KeyLive;
  }

  /**
    In an objective run, an assignment is admitted only when every earlier
    execution of it has a confirmed physical stop.
   */
  lemma ObjectiveReadmission(c: Config, s: State, a: nat, host: nat, harness: nat, view: View)
    requires Sound(c, s) && Admit(c, s, a, host, harness, view).Commit? && ModeOf(c, s, a).Objective?
    ensures forall e | 0 <= e < |s.executions| :: s.executions[e].assignment == a ==> s.executions[e].confirmed
  {
    forall e | 0 <= e < |s.executions| && s.executions[e].assignment == a ensures s.executions[e].confirmed {
      AdmissionClears(c, s, a, host, harness, view, e);
    }
  }

  // What an admission leaves behind: one running execution in workspace w with
  // its claims, and a context if the session had none.
  ghost predicate Admits(c: Config, s: State, z: State, a: nat, host: nat, harness: nat, w: nat, reserved: nat) {
    && a < |s.assignments| && (host, harness) in c.pools
    && z.now == s.now && z.runs == s.runs && z.turns == s.turns && z.limits == s.limits
    && |s.places| <= |z.places| && z.places[..|s.places|] == s.places
    && w < |z.places| && z.places[w].host == host
    && |z.executions| == |s.executions| + 1 && z.executions[..|s.executions|] == s.executions
    && (var x := z.executions[|s.executions|];
        && x.assignment == a && x.host == host && x.harness == harness && x.workspace == w && x.native == reserved
        && x.status.ExecRunning? && !x.confirmed)
    && z.claims == s.claims + NewClaims(c.pools[(host, harness)].limits, |s.executions|, 1 + reserved)
    && (z.threads == s.threads
        || (exists t: Thread :: t.assignment == a && t.workspace == w && z.threads == s.threads + [t]))
    && |s.assignments| <= |z.assignments|
    && (forall b | 0 <= b < |s.assignments| && b != a :: z.assignments[b] == s.assignments[b])
    && SameOrder(s.assignments[a], z.assignments[a])
    && s.assignments[a].status.Pending? && z.assignments[a].status.Running? && z.assignments[a].finishedAt.None?
    && (forall b | |s.assignments| <= b < |z.assignments| :: FreshRow(c, s, z.assignments[b]))
  }

  lemma RowsAdmit(c: Config, s: State, p: State, a: nat, host: nat, harness: nat, pick: Pick, reserved: nat)
    requires Planned(c, s, p, a) && (host, harness) in c.pools && s.assignments[a].status.Pending?
    requires !pick.NoPlace? && (pick.Propose? ==> pick.source < |s.places|)
    requires pick.Existing? ==> pick.place < |s.places| && s.places[pick.place].host == host
    ensures Admits(c, s, AdmittedRows(c, p, a, host, harness, pick, reserved), a, host, harness,
                   if pick.Existing? then pick.place else |s.places|, reserved)
  {
    hide RetainedOn; hide NextNumber;
    var w := if pick.Existing? then pick.place else |s.places|;
    var z := AdmittedRows(c, p, a, host, harness, pick, reserved);
    var t := Thread(a, w, harness, None, Creating, None);
    assert z.threads == s.threads || z.threads == s.threads + [t];
  }

  lemma AdmitShape(c: Config, s: State, a: nat, host: nat, harness: nat, view: View)
    requires WellFormed(c) && Sound(c, s) && Admit(c, s, a, host, harness, view).Commit?
    ensures a < |s.assignments| && s.assignments[a].run < |c.runs| && (host, harness) in c.pools
    ensures var pick := Placement(c, s, a, host, view);
            var w := if pick.Existing? then pick.place else |s.places|;
            var z := Admit(c, s, a, host, harness, view).state;
            && Admits(c, s, z, a, host, harness, w, Reservation(c, s, a, host, harness))
            && (if RetainedOn(s, a, host, |s.threads|).Some? then z.threads == s.threads
                else |z.threads| == |s.threads| + 1)
  {
    hide Admissible; hide Placement; hide Reservation; hide AdmitPlanner; hide SessionsOk; hide ContextsOk; hide ClaimsOk;
    hide RetainedOn; hide NextNumber; hide Admits; hide Planned; hide HasRetained; hide WellFormed; hide Proposed;
    AdmitPlacement(c, s, a, host, harness, view);
    PlannedShape(c, s, a);
    var p := AdmitPlanner(c, s, a).state;
    SameRetained(s, p, a, host, |s.threads|);
    RowsAdmit(c, s, p, a, host, harness, Placement(c, s, a, host, view), Reservation(c, s, a, host, harness));
  }

  lemma {:induction false} SameRetained(s: State, p: State, a: nat, host: nat, n: nat)
    requires p.threads == s.threads && p.places == s.places && n <= |s.threads|
    ensures RetainedOn(p, a, host, n) == RetainedOn(s, a, host, n)
  {
    if n > 0 { SameRetained(s, p, a, host, n - 1); }
  }

  lemma AdmitsRefs(c: Config, s: State, z: State, a: nat, host: nat, harness: nat, w: nat, reserved: nat)
    requires WellFormed(c) && RefsOk(c, s) && Admits(c, s, z, a, host, harness, w, reserved)
    ensures RefsOk(c, z)
  {
    assert forall e | 0 <= e < |s.executions| :: z.executions[e] == s.executions[e];
    assert forall v | 0 <= v < |s.places| :: z.places[v] == s.places[v];
  }

  lemma AdmitsLive(c: Config, s: State, z: State, a: nat, host: nat, harness: nat, w: nat, reserved: nat, e: nat)
    requires RefsOk(c, s) && SessionsOk(c, s) && Admits(c, s, z, a, host, harness, w, reserved)
    requires e < |z.executions| && Live(z.executions[e].status)
    ensures StopAgrees(z, e) && !z.executions[e].confirmed
    ensures z.executions[e].assignment < |z.assignments|
    ensures z.assignments[z.executions[e].assignment].status.Running?
            || z.assignments[z.executions[e].assignment].status.Stopping?
    ensures e < |s.executions| ==> z.executions[e] == s.executions[e] && z.executions[e].assignment != a
  {
    if e < |s.executions| {
      assert z.executions[e] == s.executions[e];
      assert StopAgrees(s, e);
    }
  }

  lemma AdmitsRunning(c: Config, s: State, z: State, a: nat, host: nat, harness: nat, w: nat, reserved: nat, b: nat)
    requires RefsOk(c, s) && SessionsOk(c, s) && Admits(c, s, z, a, host, harness, w, reserved) && b < |z.assignments|
    ensures Enrolled(c, z.assignments[b]) && (z.assignments[b].finishedAt.Some? <==> Settled(z.assignments[b].status))
    ensures z.assignments[b].status.Running? || z.assignments[b].status.Stopping? ==> LiveSession(z, b)
  {
    if b == a {
      assert z.executions[|s.executions|].assignment == a;
      assert Enrolled(c, s.assignments[a]);
    } else if z.assignments[b].status.Running? || z.assignments[b].status.Stopping? {
      assert LiveSession(s, b);
      var e :| 0 <= e < |s.executions| && s.executions[e].assignment == b && Live(s.executions[e].status);
      assert z.executions[e] == s.executions[e];
    }
  }

  lemma AdmitsSessions(c: Config, s: State, z: State, a: nat, host: nat, harness: nat, w: nat, reserved: nat)
    requires RefsOk(c, s) && SessionsOk(c, s) && Admits(c, s, z, a, host, harness, w, reserved)
    ensures SessionsOk(c, z)
  {
    hide RefsOk; hide LiveSession; hide Enrolled; hide StopAgrees; hide FreshRow;
    forall e: nat | e < |z.executions| && Live(z.executions[e].status)
      ensures StopAgrees(z, e) && !z.executions[e].confirmed
      ensures z.executions[e].assignment < |z.assignments|
      ensures z.assignments[z.executions[e].assignment].status.Running?
              || z.assignments[z.executions[e].assignment].status.Stopping?
      ensures e < |s.executions| ==> z.executions[e] == s.executions[e] && z.executions[e].assignment != a
    {
      AdmitsLive(c, s, z, a, host, harness, w, reserved, e);
    }
    forall b: nat | b < |z.assignments|
      ensures Enrolled(c, z.assignments[b]) && (z.assignments[b].finishedAt.Some? <==> Settled(z.assignments[b].status))
      ensures z.assignments[b].status.Running? || z.assignments[b].status.Stopping? ==> LiveSession(z, b)
    {
      AdmitsRunning(c, s, z, a, host, harness, w, reserved, b);
    }
  }

  lemma AdmitsClaims(c: Config, s: State, z: State, a: nat, host: nat, harness: nat, w: nat, reserved: nat)
    requires ClaimsOk(s) && Admits(c, s, z, a, host, harness, w, reserved)
    ensures ClaimsOk(z)
  {
    assert forall e | 0 <= e < |s.executions| :: z.executions[e] == s.executions[e];
  }

  // The new execution runs in the workspace of the context it resumes.
  lemma ContextsResumed(s: State, z: State, t: nat)
    requires ContextsOk(s) && t < |s.threads| && z.threads == s.threads
    requires |z.executions| == |s.executions| + 1 && z.executions[..|s.executions|] == s.executions
    requires z.executions[|s.executions|].assignment == s.threads[t].assignment
    requires z.executions[|s.executions|].workspace == s.threads[t].workspace
    ensures ContextsOk(z)
  {
    assert forall e | 0 <= e < |s.executions| :: z.executions[e] == s.executions[e];
    forall f | 0 <= f < |z.executions| ensures HasThread(z, z.executions[f].assignment) {
      var i := t;
      if f < |s.executions| {
        assert HasThread(s, s.executions[f].assignment);
        i :| 0 <= i < |s.threads| && s.threads[i].assignment == s.executions[f].assignment;
      }
      assert z.threads[i].assignment == z.executions[f].assignment;
    }
  }

  // A session without contexts has no executions either.
  lemma ContextsCreated(s: State, z: State, a: nat)
    requires ContextsOk(s) && !HasThread(s, a)
    requires |z.threads| == |s.threads| + 1 && z.threads[..|s.threads|] == s.threads
    requires |z.executions| == |s.executions| + 1 && z.executions[..|s.executions|] == s.executions
    requires z.executions[|s.executions|].assignment == z.threads[|s.threads|].assignment == a
    requires z.executions[|s.executions|].workspace == z.threads[|s.threads|].workspace
    ensures ContextsOk(z)
  {
    assert forall e | 0 <= e < |s.executions| :: z.executions[e] == s.executions[e];
    assert forall i | 0 <= i < |s.threads| :: z.threads[i] == s.threads[i] && z.threads[i].assignment != a;
    forall f | 0 <= f < |z.executions|
      ensures HasThread(z, z.executions[f].assignment)
      ensures f < |s.executions| ==> z.executions[f].assignment != a
    {
      var i := |s.threads|;
      if f < |s.executions| {
        assert HasThread(s, s.executions[f].assignment);
        i :| 0 <= i < |s.threads| && s.threads[i].assignment == s.executions[f].assignment;
      }
      assert z.threads[i].assignment == z.executions[f].assignment;
    }
  }

  lemma AdmitKeepsSound(c: Config, s: State, a: nat, host: nat, harness: nat, view: View)
    requires WellFormed(c) && Sound(c, s) && Admit(c, s, a, host, harness, view).Commit?
    ensures Sound(c, Admit(c, s, a, host, harness, view).state)
  {
    AdmitShape(c, s, a, host, harness, view);
    AdmissionHome(c, s, a, host, harness, view);
    hide Admit; hide Placement; hide Reservation;
    var pick := Placement(c, s, a, host, view);
    var w := if pick.Existing? then pick.place else |s.places|;
    var z := Admit(c, s, a, host, harness, view).state;
    var reserved := Reservation(c, s, a, host, harness);
    var kept := RetainedOn(s, a, host, |s.threads|);
    assert ContextsOk(z) by {
      if kept.Some? { ContextsResumed(s, z, kept.value); } else { ContextsCreated(s, z, a); }
    }
    hide Admits; hide RefsOk; hide SessionsOk; hide ContextsOk; hide ClaimsOk;
    AdmitsRefs(c, s, z, a, host, harness, w, reserved);
    AdmitsSessions(c, s, z, a, host, harness, w, reserved);
    AdmitsClaims(c, s, z, a, host, harness, w, reserved);
  }

  // ---- The admitted weight fits every budget it draws on ----

  lemma {:induction false} NarrowBounds(c: Config, s: State, limits: seq<nat>, count: int)
    ensures NarrowBy(c, s, limits, count) <= count
    ensures forall i | 0 <= i < |limits| :: Ceiling(c, s, limits[i]).Some? ==>
              NarrowBy(c, s, limits, count) <= Ceiling(c, s, limits[i]).value - Held(s, limits[i]) - 1
  {
    if |limits| > 0 {
      var rest := limits[..|limits| - 1];
      NarrowBounds(c, s, rest, count);
      forall i | 0 <= i < |limits| && Ceiling(c, s, limits[i]).Some?
        ensures NarrowBy(c, s, limits, count) <= Ceiling(c, s, limits[i]).value - Held(s, limits[i]) - 1
      {
        if i < |limits| - 1 { assert rest[i] == limits[i]; }
      }
    }
  }

  // A positive child reservation leaves room in its category, its pool (after
  // the maintenance reserve) and every finite limit of the pool.
  lemma ReservationBounds(c: Config, s: State, a: nat, host: nat, harness: nat)
    requires a < |s.assignments| && (host, harness) in c.pools && Reservation(c, s, a, host, harness) > 0
    ensures s.assignments[a].run < |c.runs| && c.runs[s.assignments[a].run].mode.Objective?
    ensures var spec := c.runs[s.assignments[a].run];
            var n := 1 + Reservation(c, s, a, host, harness);
            && s.assignments[a].category < |spec.policies|
            && CategoryWeight(c, s, s.assignments[a].run, s.assignments[a].category) + n
               <= spec.policies[s.assignments[a].category].slots
            && PoolWeight(c, s, host, harness) + n
               <= Max(1, c.pools[(host, harness)].slots - (if s.assignments[a].role.Worker? then Reserve(spec.policies) else 0))
            && (forall i | 0 <= i < |c.pools[(host, harness)].limits| ::
                  var l := c.pools[(host, harness)].limits[i];
                  Ceiling(c, s, l).Some? ==> Held(s, l) + n <= Ceiling(c, s, l).value)
  {
    hide CategoryWeight; hide PoolWeight; hide Held; hide Ceiling; hide Reserve; hide NarrowBy;
    var pool := c.pools[(host, harness)];
    var item := s.assignments[a];
    var spec := c.runs[item.run];
    var reserve := if item.role.Worker? then Reserve(spec.policies) else 0;
    var count := Min(pool.childCap.value,
                     Min(spec.policies[item.category].slots - CategoryWeight(c, s, item.run, item.category) - 1,
                         Max(1, pool.slots - reserve) - PoolWeight(c, s, host, harness) - 1));
    NarrowBounds(c, s, pool.limits, count);
  }

  lemma OldBusy(c: Config, s: State, z: State, a: nat, host: nat, harness: nat, w: nat, reserved: nat, e: nat)
    requires RefsOk(c, s) && Admits(c, s, z, a, host, harness, w, reserved) && e < |s.executions|
    ensures Busy(c, z, e) == Busy(c, s, e)
  {
    assert z.executions[e] == s.executions[e];
  }

  // An admission adds at most its own weight to any pool, category or worker share.
  lemma WeightsGrow(c: Config, s: State, z: State, a: nat, host: nat, harness: nat, w: nat, reserved: nat)
    requires RefsOk(c, s) && Admits(c, s, z, a, host, harness, w, reserved)
    ensures forall h, k :: PoolWeight(c, z, h, k)
              <= PoolWeight(c, s, h, k) + (if h == host && k == harness then 1 + reserved else 0)
    ensures forall h, k :: WorkerWeight(c, z, h, k)
              <= WorkerWeight(c, s, h, k) + (if h == host && k == harness then 1 + reserved else 0)
  {
    hide Busy;
    var n := |s.executions|;
    forall h, k
      ensures PoolWeight(c, z, h, k) <= PoolWeight(c, s, h, k) + (if h == host && k == harness then 1 + reserved else 0)
      ensures WorkerWeight(c, z, h, k) <= WorkerWeight(c, s, h, k) + (if h == host && k == harness then 1 + reserved else 0)
    {
      forall e: nat | e < n
        ensures PoolShare(c, z, h, k, e) <= PoolShare(c, s, h, k, e)
        ensures WorkerShare(c, z, h, k, e) <= WorkerShare(c, s, h, k, e)
      {
        OldBusy(c, s, z, a, host, harness, w, reserved, e);
        assert z.executions[e] == s.executions[e];
        assert SameOrder(s.assignments[s.executions[e].assignment], z.assignments[s.executions[e].assignment]);
      }
      TotalMono((e: nat) => PoolShare(c, z, h, k, e), (e: nat) => PoolShare(c, s, h, k, e), n);
      TotalMono((e: nat) => WorkerShare(c, z, h, k, e), (e: nat) => WorkerShare(c, s, h, k, e), n);
    }
  }

  lemma CategoriesGrow(c: Config, s: State, z: State, a: nat, host: nat, harness: nat, w: nat, reserved: nat)
    requires RefsOk(c, s) && Admits(c, s, z, a, host, harness, w, reserved)
    ensures forall r, g :: CategoryWeight(c, z, r, g)
              <= CategoryWeight(c, s, r, g)
                 + (if r == s.assignments[a].run && g == s.assignments[a].category then 1 + reserved else 0)
  {
    hide Busy;
    var n := |s.executions|;
    forall r, g
      ensures CategoryWeight(c, z, r, g) <= CategoryWeight(c, s, r, g)
                + (if r == s.assignments[a].run && g == s.assignments[a].category then 1 + reserved else 0)
    {
      forall e: nat | e < n ensures CategoryShare(c, z, r, g, e) <= CategoryShare(c, s, r, g, e) {
        OldBusy(c, s, z, a, host, harness, w, reserved, e);
        assert z.executions[e] == s.executions[e];
        assert SameOrder(s.assignments[s.executions[e].assignment], z.assignments[s.executions[e].assignment]);
      }
      TotalMono((e: nat) => CategoryShare(c, z, r, g, e), (e: nat) => CategoryShare(c, s, r, g, e), n);
    }
  }

  lemma {:induction false} HeldGrowsBy(s: State, z: State, limits: seq<nat>, e: nat, units: nat, l: nat, j: nat)
    requires z.claims == s.claims + NewClaims(limits, e, units) && j <= |limits|
    requires forall i, i' | 0 <= i < i' < |limits| :: limits[i] != limits[i']
    ensures Total((k: nat) => ClaimShare(z, l, k), |s.claims| + j)
            == Held(s, l) + (if l in limits[..j] then units else 0)
  {
    var f := (k: nat) => ClaimShare(z, l, k);
    if j == 0 {
      forall k: nat | k < |s.claims| ensures ClaimShare(z, l, k) == ClaimShare(s, l, k) {
        assert z.claims[k] == s.claims[k];
      }
      TotalMono(f, (k: nat) => ClaimShare(s, l, k), |s.claims|);
      TotalMono((k: nat) => ClaimShare(s, l, k), f, |s.claims|);
    } else {
      HeldGrowsBy(s, z, limits, e, units, l, j - 1);
      assert z.claims[|s.claims| + (j - 1)] == Claim(limits[j - 1], e, units, false);
      assert limits[..j] == limits[..j - 1] + [limits[j - 1]];
    }
  }

  lemma HeldGrows(c: Config, s: State, z: State, a: nat, host: nat, harness: nat, w: nat, reserved: nat, l: nat)
    requires WellFormed(c) && Admits(c, s, z, a, host, harness, w, reserved)
    ensures Held(z, l) == Held(s, l) + (if l in c.pools[(host, harness)].limits then 1 + reserved else 0)
  {
    var limits := c.pools[(host, harness)].limits;
    HeldGrowsBy(s, z, limits, |s.executions|, 1 + reserved, l, |limits|);
    assert limits[..|limits|] == limits;
  }

  lemma AdmitFitsPools(c: Config, s: State, a: nat, host: nat, harness: nat, view: View)
    requires WellFormed(c) && Sound(c, s) && PoolsFit(c, s) && Admit(c, s, a, host, harness, view).Commit?
    ensures PoolsFit(c, Admit(c, s, a, host, harness, view).state)
  {
    hide Admit; hide Admits; hide PoolWeight; hide CategoryWeight; hide WorkerWeight; hide Placement; hide Reservation; hide Blocked;
    hide LimitsFree; hide Cool; hide SessionUnsettled; hide KeyLive; hide SessionsOk; hide ContextsOk; hide ClaimsOk;
    AdmitPlacement(c, s, a, host, harness, view);
    AdmitShape(c, s, a, host, harness, view);
    var pick := Placement(c, s, a, host, view);
    var w := if pick.Existing? then pick.place else |s.places|;
    WeightsGrow(c, s, Admit(c, s, a, host, harness, view).state, a, host, harness, w, Reservation(c, s, a, host, harness));
    if Reservation(c, s, a, host, harness) > 0 { ReservationBounds(c, s, a, host, harness); }
  }

  lemma AdmitFitsCategories(c: Config, s: State, a: nat, host: nat, harness: nat, view: View)
    requires WellFormed(c) && Sound(c, s) && CategoriesFit(c, s) && Admit(c, s, a, host, harness, view).Commit?
    ensures CategoriesFit(c, Admit(c, s, a, host, harness, view).state)
  {
    hide Admit; hide Admits; hide PoolWeight; hide CategoryWeight; hide WorkerWeight; hide Placement; hide Reservation;
    hide LimitsFree; hide Cool; hide SessionUnsettled; hide KeyLive; hide SessionsOk; hide ContextsOk; hide ClaimsOk;
    AdmitPlacement(c, s, a, host, harness, view);
    AdmitShape(c, s, a, host, harness, view);
    var pick := Placement(c, s, a, host, view);
    var w := if pick.Existing? then pick.place else |s.places|;
    CategoriesGrow(c, s, Admit(c, s, a, host, harness, view).state, a, host, harness, w, Reservation(c, s, a, host, harness));
    if Reservation(c, s, a, host, harness) > 0 { ReservationBounds(c, s, a, host, harness); }
  }

  /**
    Admitting an objective worker leaves the pool's worker weight within the
    slots that maintenance does not reserve (one slot always remains usable).
   */
  lemma WorkerAdmissionRespectsReserve(c: Config, s: State, a: nat, host: nat, harness: nat, view: View)
    requires WellFormed(c) && Sound(c, s) && Admit(c, s, a, host, harness, view).Commit?
    requires ModeOf(c, s, a).Objective? && a < |s.assignments| && s.assignments[a].role.Worker?
    ensures (host, harness) in c.pools && s.assignments[a].run < |c.runs|
    ensures WorkerWeight(c, Admit(c, s, a, host, harness, view).state, host, harness)
            <= Max(1, c.pools[(host, harness)].slots - Reserve(c.runs[s.assignments[a].run].policies))
  {
    hide Admit; hide Admits; hide PoolWeight; hide CategoryWeight; hide WorkerWeight; hide Placement; hide Reservation;
    hide LimitsFree; hide Cool; hide SessionUnsettled; hide KeyLive; hide ContextsOk; hide ClaimsOk; hide Reserve;
    AdmitPlacement(c, s, a, host, harness, view);
    AdmitShape(c, s, a, host, harness, view);
    var pick := Placement(c, s, a, host, view);
    var w := if pick.Existing? then pick.place else |s.places|;
    WeightsGrow(c, s, Admit(c, s, a, host, harness, view).state, a, host, harness, w, Reservation(c, s, a, host, harness));
    WorkersInPool(c, s, host, harness);
    assert Enrolled(c, s.assignments[a]);
    if Reservation(c, s, a, host, harness) > 0 { ReservationBounds(c, s, a, host, harness); }
  }

  lemma WorkersInPool(c: Config, s: State, host: nat, harness: nat)
    ensures WorkerWeight(c, s, host, harness) <= PoolWeight(c, s, host, harness)
  {
    TotalMono((e: nat) => WorkerShare(c, s, host, harness, e), (e: nat) => PoolShare(c, s, host, harness, e), |s.executions|);
  }

  lemma AdmitFitsLimits(c: Config, s: State, a: nat, host: nat, harness: nat, view: View)
    requires WellFormed(c) && Sound(c, s) && LimitsFit(c, s) && Admit(c, s, a, host, harness, view).Commit?
    ensures LimitsFit(c, Admit(c, s, a, host, harness, view).state)
  {
    hide Admit; hide Admits; hide PoolWeight; hide CategoryWeight; hide Held; hide Placement; hide Reservation; hide Blocked;
    hide Cool; hide SessionUnsettled; hide KeyLive; hide SessionsOk; hide ContextsOk; hide ClaimsOk;
    AdmitPlacement(c, s, a, host, harness, view);
    AdmitShape(c, s, a, host, harness, view);
    var pick := Placement(c, s, a, host, view);
    var w := if pick.Existing? then pick.place else |s.places|;
    var z := Admit(c, s, a, host, harness, view).state;
    var n := Reservation(c, s, a, host, harness);
    if n > 0 { ReservationBounds(c, s, a, host, harness); }
    forall l: nat | l < |c.limits| && c.limits[l].maximum.Some? ensures Held(z, l) <= c.limits[l].maximum.value {
      HeldGrows(c, s, z, a, host, harness, w, n, l);
      var limits := c.pools[(host, harness)].limits;
      if l in limits {
        var i :| 0 <= i < |limits| && limits[i] == l;
        assert LimitFree(c, s, limits[i]);
      }
    }
  }

  lemma AdmitExclusive(c: Config, s: State, a: nat, host: nat, harness: nat, view: View)
    requires WellFormed(c) && Sound(c, s) && PlacesExclusive(c, s) && Admit(c, s, a, host, harness, view).Commit?
    ensures PlacesExclusive(c, Admit(c, s, a, host, harness, view).state)
  {
    hide Admit; hide Busy; hide Placement; hide Reservation; hide Admissible; hide SessionsOk; hide ContextsOk; hide ClaimsOk;
    AdmitPlacement(c, s, a, host, harness, view);
    AdmitShape(c, s, a, host, harness, view);
    var pick := Placement(c, s, a, host, view);
    var w := if pick.Existing? then pick.place else |s.places|;
    var z := Admit(c, s, a, host, harness, view).state;
    forall e: nat | e < |s.executions|
      ensures Busy(c, z, e) == Busy(c, s, e) && z.executions[e] == s.executions[e]
      ensures s.executions[e].workspace == w ==> !Busy(c, s, e)
    {
      OldBusy(c, s, z, a, host, harness, w, Reservation(c, s, a, host, harness), e);
    }
  }

  lemma AdmitFences(c: Config, s: State, a: nat, host: nat, harness: nat, view: View)
    requires WellFormed(c) && Sound(c, s) && Fenced(c, s) && Admit(c, s, a, host, harness, view).Commit?
    ensures Fenced(c, Admit(c, s, a, host, harness, view).state)
  {
    hide Admit; hide Placement; hide Reservation; hide Admissible; hide SessionsOk; hide ContextsOk; hide ClaimsOk;
    AdmitShape(c, s, a, host, harness, view);
    var z := Admit(c, s, a, host, harness, view).state;
    forall e: nat | e < |s.executions|
      ensures z.executions[e] == s.executions[e]
      ensures ModeOf(c, z, s.executions[e].assignment) == ModeOf(c, s, s.executions[e].assignment)
    {
      assert SameOrder(s.assignments[s.executions[e].assignment], z.assignments[s.executions[e].assignment]);
    }
    if ModeOf(c, s, a).Objective? { ObjectiveReadmission(c, s, a, host, harness, view); }
  }

  lemma AdmitKeepsFits(c: Config, s: State, a: nat, host: nat, harness: nat, view: View)
    requires WellFormed(c) && Sound(c, s) && Fits(c, s) && Admit(c, s, a, host, harness, view).Commit?
    ensures Fits(c, Admit(c, s, a, host, harness, view).state)
  {
    hide Sound; hide Admit; hide Fenced; hide PlacesExclusive; hide PoolsFit; hide CategoriesFit; hide LimitsFit;
    AdmitFences(c, s, a, host, harness, view);
    AdmitExclusive(c, s, a, host, harness, view);
    AdmitFitsPools(c, s, a, host, harness, view);
    AdmitFitsCategories(c, s, a, host, harness, view);
    AdmitFitsLimits(c, s, a, host, harness, view);
  }
}
