/**
  The budgets in plain terms: what any set of busy executions, held claims or
  started sessions adds up to, how many children an admission may reserve, and
  when a session is queued (queue_policies.py `blocker`, `native_capacity`;
  objectives.py `queue_session`).
 */
module Weights {
  import opened Wrappers
  import opened Records
  import opened Sums
  import opened Sequences
  import opened Admission
  import opened Protocol
  import opened Structure
  import opened Fencing
  import opened Safety
  import opened Admissions

  // ---- What the budgets bound ----

  // One unit for the session and one for each child it reserved.
  function Units(s: State, e: nat): nat { if e < |s.executions| then 1 + s.executions[e].native else 0 }

  function ClaimUnits(s: State, k: nat): nat { if k < |s.claims| then s.claims[k].units else 0 }

  /** In every reachable state, whichever executions of a pool may be running take no more units than its slots. */
  lemma PoolsAreNotExceeded(c: Config, start: State, events: seq<Event>, host: nat, harness: nat, list: seq<nat>)
    requires WellFormed(c) && Initial(c, start) && (host, harness) in c.pools && Distinct(list)
    requires var s := After(c, start, events);
             forall i | 0 <= i < |list| :: && list[i] < |s.executions| && Busy(c, s, list[i])
                                           && s.executions[list[i]].host == host && s.executions[list[i]].harness == harness
    ensures ListSum((e: nat) => Units(After(c, start, events), e), list) <= c.pools[(host, harness)].slots
  {
    hide After; hide Busy; hide Initial; hide Distinct;
    var s := After(c, start, events);
    BudgetsHold(c, start, events);
    DistinctSum((e: nat) => PoolShare(c, s, host, harness, e), list, |s.executions|);
    ListSumSame((e: nat) => Units(s, e), (e: nat) => PoolShare(c, s, host, harness, e), list);
  }

  /** The same for the sessions of one queue category of an objective. */
  lemma CategoriesAreNotExceeded(c: Config, start: State, events: seq<Event>, r: nat, g: nat, list: seq<nat>)
    requires WellFormed(c) && Initial(c, start) && r < |c.runs| && c.runs[r].mode.Objective? && g < |c.runs[r].policies| && Distinct(list)
    requires var s := After(c, start, events);
             forall i | 0 <= i < |list| ::
               && list[i] < |s.executions| && Busy(c, s, list[i]) && s.executions[list[i]].assignment < |s.assignments|
               && s.assignments[s.executions[list[i]].assignment].run == r && s.assignments[s.executions[list[i]].assignment].category == g
    ensures ListSum((e: nat) => Units(After(c, start, events), e), list) <= c.runs[r].policies[g].slots
  {
    hide After; hide Busy; hide Initial; hide Distinct;
    var s := After(c, start, events);
    BudgetsHold(c, start, events);
    DistinctSum((e: nat) => CategoryShare(c, s, r, g, e), list, |s.executions|);
    ListSumSame((e: nat) => Units(s, e), (e: nat) => CategoryShare(c, s, r, g, e), list);
  }

  /** The units of any unreleased claims on a finite shared limit stay within its maximum. */
  lemma LimitsAreNotExceeded(c: Config, start: State, events: seq<Event>, l: nat, list: seq<nat>)
    requires WellFormed(c) && Initial(c, start) && l < |c.limits| && c.limits[l].maximum.Some? && Distinct(list)
    requires var s := After(c, start, events);
             forall i | 0 <= i < |list| :: list[i] < |s.claims| && s.claims[list[i]].limit == l && !s.claims[list[i]].released
    ensures ListSum((k: nat) => ClaimUnits(After(c, start, events), k), list) <= c.limits[l].maximum.value
  {
    hide After; hide Initial; hide Distinct;
    var s := After(c, start, events);
    BudgetsHold(c, start, events);
    DistinctSum((k: nat) => ClaimShare(s, l, k), list, |s.claims|);
    ListSumSame((k: nat) => ClaimUnits(s, k), (k: nat) => ClaimShare(s, l, k), list);
  }

  /** What one row adds to each weight: nothing unless it may be running, or holds units, or waits, or started, where the weight counts. */
  lemma SharesAre(c: Config, s: State, host: nat, harness: nat, r: nat, g: nat, l: nat, i: nat)
    requires RefsOk(c, s)
    ensures i < |s.executions| ==>
              var x := s.executions[i]; var item := s.assignments[x.assignment]; var units := if Busy(c, s, i) then 1 + x.native else 0;
              && PoolShare(c, s, host, harness, i) == (if x.host == host && x.harness == harness then units else 0)
              && WorkerShare(c, s, host, harness, i) == (if x.host == host && x.harness == harness && item.role == Worker then units else 0)
              && CategoryShare(c, s, r, g, i) == (if item.run == r && item.category == g then units else 0)
    ensures i < |s.claims| ==> ClaimShare(s, l, i) == if s.claims[i].limit == l && !s.claims[i].released then s.claims[i].units else 0
    ensures i < |s.assignments| ==>
              var a := s.assignments[i];
              && QueuedShare(s, r, g, i) == (if a.run == r && a.category == g && a.status == Pending then 1 else 0)
              && StartedShare(s, r, g, i) == (if a.run == r && a.category == g && a.startedAt != None then 1 else 0)
  {
    hide Busy;
  }

  // ---- Children ----

  /** The maintenance reservation is the largest that a maintainer's category asks for. */
  lemma {:induction false} ReserveIsLargest(policies: seq<Policy>)
    ensures forall i | 0 <= i < |policies| && policies[i].role.Maintainer? :: policies[i].reserved <= Reserve(policies)
    ensures Reserve(policies) == 0 || exists i | 0 <= i < |policies| :: policies[i].role.Maintainer? && policies[i].reserved == Reserve(policies)
  {
    if |policies| > 0 {
      ReserveIsLargest(policies[1..]);
      forall i | 0 <= i < |policies| && policies[i].role.Maintainer? ensures policies[i].reserved <= Reserve(policies) {
        if i > 0 { assert policies[1..][i - 1] == policies[i]; }
      }
      if Reserve(policies) != 0 && Reserve(policies) != policies[0].reserved {
        var i :| 0 <= i < |policies[1..]| && policies[1..][i].role.Maintainer? && policies[1..][i].reserved == Reserve(policies[1..]);
        assert policies[i + 1] == policies[1..][i];
      }
    }
  }

  // A session with n children still fits under a shared limit; a failing
  // account admits one unit in all.
  ghost predicate LimitTakes(c: Config, s: State, l: nat, n: nat) {
    l < |s.limits| && l < |c.limits| ==>
      && (s.limits[l].failures > 0 ==> Held(s, l) + 1 + n <= 1)
      && (s.limits[l].failures == 0 && c.limits[l].maximum.Some? ==> Held(s, l) + 1 + n <= c.limits[l].maximum.value)
  }

  lemma {:induction false} NarrowIs(c: Config, s: State, limits: seq<nat>, count: int, n: nat)
    ensures n <= NarrowBy(c, s, limits, count) <==> n <= count && forall i | 0 <= i < |limits| :: LimitTakes(c, s, limits[i], n)
  {
    hide Held;
    if |limits| > 0 {
      var m := |limits| - 1;
      NarrowIs(c, s, limits[..m], count, n);
      assert forall i | 0 <= i < m :: limits[..m][i] == limits[i];
      assert n <= NarrowBy(c, s, limits, count) <==> n <= NarrowBy(c, s, limits[..m], count) && LimitTakes(c, s, limits[m], n);
    }
  }

  // The whole session with n children fits its category, its pool beside the
  // maintenance reservation, and every shared limit.
  ghost predicate ChildrenFit(c: Config, s: State, a: nat, host: nat, harness: nat, n: nat)
    requires a < |s.assignments| && (host, harness) in c.pools && s.assignments[a].run < |c.runs|
  {
    var item := s.assignments[a]; var pool := c.pools[(host, harness)]; var policies := c.runs[item.run].policies;
    var free := pool.slots - (if item.role.Worker? then Reserve(policies) else 0);
    && item.category < |policies|
    && CategoryWeight(c, s, item.run, item.category) + 1 + n <= policies[item.category].slots
    && PoolWeight(c, s, host, harness) + 1 + n <= (if free > 1 then free else 1)
    && (forall i | 0 <= i < |pool.limits| :: LimitTakes(c, s, pool.limits[i], n))
  }

  /**
    An objective session reserves the most children that its pool's cap allows
    and that fit beside everything that may be running: none if it plans, and
    exactly as many as fit otherwise.
   */
  lemma ReservesWhatFits(c: Config, s: State, a: nat, host: nat, harness: nat, n: nat)
    requires a < |s.assignments| && (host, harness) in c.pools && s.assignments[a].run < |c.runs|
    requires c.runs[s.assignments[a].run].mode.Objective? && c.pools[(host, harness)].childCap.Some?
    ensures n <= Reservation(c, s, a, host, harness) <==>
              n == 0 || (!s.assignments[a].plans && n <= c.pools[(host, harness)].childCap.value && ChildrenFit(c, s, a, host, harness, n))
  {
    hide CategoryWeight; hide PoolWeight; hide Reserve; hide NarrowBy; hide LimitTakes;
    var pool := c.pools[(host, harness)];
    var item := s.assignments[a];
    var policies := c.runs[item.run].policies;
    if item.category < |policies| && !item.plans {
      var reserve := if item.role.Worker? then Reserve(policies) else 0;
      var count := Min(pool.childCap.value,
                       Min(policies[item.category].slots - CategoryWeight(c, s, item.run, item.category) - 1,
                           Max(1, pool.slots - reserve) - PoolWeight(c, s, host, harness) - 1));
      NarrowIs(c, s, pool.limits, count, n);
    }
  }

  /** Without a cap delegation is unlimited and reserves nothing; a legacy session has the plain cap and reserves nothing. */
  lemma UncappedReservesNothing(c: Config, s: State, a: nat, host: nat, harness: nat)
    requires a < |s.assignments| && (host, harness) in c.pools && s.assignments[a].run < |c.runs|
    ensures c.pools[(host, harness)].childCap.None? ==> NativeCapacity(c, s, a, host, harness) == None && Reservation(c, s, a, host, harness) == 0
    ensures c.runs[s.assignments[a].run].mode.Legacy? ==>
              NativeCapacity(c, s, a, host, harness) == c.pools[(host, harness)].childCap && Reservation(c, s, a, host, harness) == 0
    ensures c.runs[s.assignments[a].run].mode.Objective? && c.pools[(host, harness)].childCap.Some? ==>
              NativeCapacity(c, s, a, host, harness) == Some(Reservation(c, s, a, host, harness))
  {
    hide CategoryWeight; hide PoolWeight; hide Reserve; hide NarrowBy;
  }

  // ---- Session budgets ----

  ghost predicate InBudget(c: Config, s: State) {
    forall r: nat, g: nat | r < |c.runs| && c.runs[r].mode.Objective? && g < |c.runs[r].policies| && c.runs[r].policies[g].maxSessions.Some? ::
      Started(s, r, g) <= c.runs[r].policies[g].maxSessions.value
  }

  lemma StartedSame(s: State, z: State, r: nat, g: nat)
    requires |s.assignments| <= |z.assignments|
    requires forall a | 0 <= a < |s.assignments| ::
               SameOrder(s.assignments[a], z.assignments[a]) && z.assignments[a].startedAt == s.assignments[a].startedAt
    requires forall a | |s.assignments| <= a < |z.assignments| :: z.assignments[a].startedAt.None?
    ensures Started(z, r, g) == Started(s, r, g)
  {
    SharesSame(s, z, r, g, |s.assignments|);
    SharesNone(z, r, g, |s.assignments|, |z.assignments|);
  }

  lemma {:induction false} SharesSame(s: State, z: State, r: nat, g: nat, n: nat)
    requires n <= |s.assignments| <= |z.assignments|
    requires forall a | 0 <= a < n ::
               SameOrder(s.assignments[a], z.assignments[a]) && z.assignments[a].startedAt == s.assignments[a].startedAt
    ensures Total((a: nat) => StartedShare(z, r, g, a), n) == Total((a: nat) => StartedShare(s, r, g, a), n)
  {
    if n > 0 { SharesSame(s, z, r, g, n - 1); }
  }

  lemma {:induction false} SharesNone(z: State, r: nat, g: nat, m: nat, n: nat)
    requires m <= n <= |z.assignments| && forall a | m <= a < n :: z.assignments[a].startedAt.None?
    ensures Total((a: nat) => StartedShare(z, r, g, a), n) == Total((a: nat) => StartedShare(z, r, g, a), m)
  {
    if m < n { SharesNone(z, r, g, m, n - 1); }
  }

  // One session more has started, at most.
  lemma {:induction false} SharesGrow(s: State, z: State, r: nat, g: nat, a: nat, n: nat)
    requires n <= |s.assignments| <= |z.assignments|
    requires forall b | 0 <= b < n && b != a :: z.assignments[b] == s.assignments[b]
    requires a < n ==> SameOrder(s.assignments[a], z.assignments[a])
    ensures Total((b: nat) => StartedShare(z, r, g, b), n)
            <= Total((b: nat) => StartedShare(s, r, g, b), n)
               + (if a < n && s.assignments[a].run == r && s.assignments[a].category == g && s.assignments[a].startedAt.None? then 1 else 0)
  {
    if n > 0 { SharesGrow(s, z, r, g, a, n - 1); }
  }

  lemma AdmitBudget(c: Config, s: State, a: nat, host: nat, harness: nat, view: View)
    requires Admit(c, s, a, host, harness, view).Commit?
    ensures a < |s.assignments| && s.assignments[a].run < |c.runs|
    ensures var item := s.assignments[a]; var spec := c.runs[item.run];
            spec.mode.Objective? && item.startedAt.None? ==>
              && item.category < |spec.policies|
              && (spec.policies[item.category].maxSessions.Some? ==>
                    Started(s, item.run, item.category) < spec.policies[item.category].maxSessions.value)
  {
    hide Placement; hide Reservation; hide AdmitPlanner; hide RetainedOn; hide AdmittedRows;
    hide Cool; hide SessionUnsettled; hide KeyLive; hide PoolWeight; hide LimitsFree; hide CategoryWeight; hide WorkerWeight; hide Started;
  }

  lemma BudgetAdmit(c: Config, s: State, a: nat, host: nat, harness: nat, view: View)
    requires WellFormed(c) && Sound(c, s) && InBudget(c, s) && Admit(c, s, a, host, harness, view).Commit?
    ensures InBudget(c, Admit(c, s, a, host, harness, view).state)
  {
    hide WellFormed; hide Admit; hide Placement; hide Reservation; hide Sound;
    var z := Admit(c, s, a, host, harness, view).state;
    AdmitShape(c, s, a, host, harness, view);
    AdmitBudget(c, s, a, host, harness, view);
    forall r: nat, g: nat | r < |c.runs| && c.runs[r].mode.Objective? && g < |c.runs[r].policies| && c.runs[r].policies[g].maxSessions.Some?
      ensures Started(z, r, g) <= c.runs[r].policies[g].maxSessions.value
    {
      SharesGrow(s, z, r, g, a, |s.assignments|);
      SharesNone(z, r, g, |s.assignments|, |z.assignments|);
    }
  }

  lemma BudgetStep(c: Config, s: State, ev: Event)
    requires WellFormed(c) && Safe(c, s) && InBudget(c, s)
    ensures InBudget(c, Apply(c, s, ev))
  {
    hide Fits; hide Sound; hide WellFormed; hide Admit; hide Started;
    if ev.EvAdmit? {
      if Attempt(c, s, ev).Commit? { BudgetAdmit(c, s, ev.session, ev.host, ev.harness, ev.view); }
    } else {
      hide Attempt; hide Apply;
      StepEvolves(c, s, ev);
      forall r: nat, g: nat | r < |c.runs| && c.runs[r].mode.Objective? && g < |c.runs[r].policies| && c.runs[r].policies[g].maxSessions.Some?
        ensures Started(Apply(c, s, ev), r, g) <= c.runs[r].policies[g].maxSessions.value
      {
        StartedSame(s, Apply(c, s, ev), r, g);
      }
    }
  }

  lemma {:induction false} AlwaysInBudget(c: Config, start: State, events: seq<Event>)
    requires WellFormed(c) && Initial(c, start)
    ensures InBudget(c, After(c, start, events))
  {
    hide Safe; hide Apply;
    if events != [] {
      var before := events[..|events| - 1];
      AlwaysInBudget(c, start, before);
      AlwaysSafe(c, start, before);
      BudgetStep(c, After(c, start, before), events[|events| - 1]);
    } else {
      assert start.assignments == [];
    }
  }

  /** Over every run no category of an objective ever starts more sessions than its budget. */
  lemma SessionBudgetsHold(c: Config, start: State, events: seq<Event>, r: nat, g: nat, list: seq<nat>)
    requires WellFormed(c) && Initial(c, start) && r < |c.runs| && c.runs[r].mode.Objective? && g < |c.runs[r].policies|
    requires c.runs[r].policies[g].maxSessions.Some? && Distinct(list)
    requires var s := After(c, start, events);
             forall i | 0 <= i < |list| :: && list[i] < |s.assignments| && s.assignments[list[i]].run == r
                                           && s.assignments[list[i]].category == g && s.assignments[list[i]].startedAt.Some?
    ensures |list| <= c.runs[r].policies[g].maxSessions.value
  {
    hide After; hide Initial; hide Distinct;
    var s := After(c, start, events);
    AlwaysInBudget(c, start, events);
    DistinctSum((a: nat) => StartedShare(s, r, g, a), list, |s.assignments|);
    ListSumSame((a: nat) => 1, (a: nat) => StartedShare(s, r, g, a), list);
    OnesCount(list);
  }

  // ---- When a session is admitted ----

  // Its category has a slot and a session left, and a worker leaves the
  // maintenance reservation of the pool alone.
  ghost predicate RoomFor(c: Config, s: State, a: nat, host: nat, harness: nat)
    requires a < |s.assignments| && s.assignments[a].run < |c.runs| && (host, harness) in c.pools
  {
    var item := s.assignments[a]; var policies := c.runs[item.run].policies; var slots := c.pools[(host, harness)].slots;
    && item.category < |policies| && CategoryWeight(c, s, item.run, item.category) < policies[item.category].slots
    && (item.startedAt == None && policies[item.category].maxSessions.Some? ==>
          Started(s, item.run, item.category) < policies[item.category].maxSessions.value)
    && (slots > 0 && policies[item.category].role == Worker ==>
          WorkerWeight(c, s, host, harness) < 1 || WorkerWeight(c, s, host, harness) < slots - Reserve(policies))
  }

  // The account is closed and out of cooldown, and takes one unit more.
  ghost predicate AccountOpen(c: Config, s: State, l: nat) {
    && l < |s.limits| && !s.limits[l].open && (s.limits[l].cooldown.Some? ==> s.limits[l].cooldown.value <= s.now)
    && LimitTakes(c, s, l, 0)
  }

  /**
    A new session outside every recurrence, with a vacant directory of its
    project on the host, is admitted there exactly when it is due, eligible and
    ready, no better host is waited for, the pool has a slot, every linked limit
    takes one unit more, and an objective has room and tokens for it.
   */
  lemma NewSessionIsAdmitted(c: Config, s: State, a: nat, host: nat, harness: nat, view: View, w: nat)
    requires a < |s.assignments| && s.assignments[a].run < |c.runs| && (host, harness) in c.pools
    requires s.assignments[a].rule == NoRule && s.assignments[a].key in {NoKey, OtherKey} && RefsOk(c, s)
    requires forall t | 0 <= t < |s.threads| :: s.threads[t].assignment != a
    requires Vacant(c, s, c.runs[s.assignments[a].run].project, host, w) && !Spoken(s, w)
    ensures var pool := c.pools[(host, harness)];
            Admit(c, s, a, host, harness, view).Commit? <==>
              && Due(c, s, a, harness) && view.eligible && view.ready && !view.elsewhere
              && PoolWeight(c, s, host, harness) < pool.slots
              && (forall i | 0 <= i < |pool.limits| :: AccountOpen(c, s, pool.limits[i]))
              && (c.runs[s.assignments[a].run].mode == Objective ==> !view.overBudget && RoomFor(c, s, a, host, harness))
  {
    hide Placement; hide Vacant; hide Spoken; hide CategoryWeight; hide WorkerWeight; hide PoolWeight; hide Started; hide Reserve; hide Held;
    hide RetainedOn; hide AdmittedRows; hide Reservation; hide KeyLive; hide SessionUnsettled; hide HasRetained; hide Proposed; hide RefsOk;
    FreshPlacement(c, s, a, host, view);
    NoThread(s, a, host, |s.threads|);
    NothingRetained(c, s, a);
    FreeLimits(c, s, c.pools[(host, harness)].limits);
    hide LimitsFree; hide Cool; hide AccountOpen;
  }

  lemma NothingRetained(c: Config, s: State, a: nat)
    requires forall t | 0 <= t < |s.threads| :: s.threads[t].assignment != a
    ensures !HasRetained(s, a) && !SessionUnsettled(s, a)
  {
  }

  lemma FreeLimits(c: Config, s: State, limits: seq<nat>)
    ensures LimitsFree(c, s, limits) && Cool(s, limits) <==> forall i | 0 <= i < |limits| :: AccountOpen(c, s, limits[i])
  {
    hide Held;
    forall i | 0 <= i < |limits| ensures limits[i] < |s.limits| ==>
      (LimitFree(c, s, limits[i]) && (s.limits[limits[i]].cooldown.Some? ==> s.limits[limits[i]].cooldown.value <= s.now)
       <==> AccountOpen(c, s, limits[i]))
    {
    }
  }

  // ---- Queueing ----

  ghost predicate QueuedIn(s: State, r: nat, g: nat, a: nat) {
    a < |s.assignments| && s.assignments[a].run == r && s.assignments[a].category == g && s.assignments[a].status == Pending
  }

  /**
    A session is queued exactly in an active run that accepts work; an
    objective takes it only in a category of its role with room in the queue
    and outside every recurrence. The row starts pending, never started.
   */
  lemma QueueingRules(c: Config, s: State, q: Request)
    ensures Enqueue(c, s, q).Commit? <==>
              && q.run < |s.runs| && q.run < |c.runs| && s.runs[q.run].status == RunActive && s.runs[q.run].next == None
              && q.rule != PlannerRule
              && (c.runs[q.run].mode == Objective ==>
                    && q.category < |c.runs[q.run].policies| && c.runs[q.run].policies[q.category].role == q.role
                    && !q.supervises && q.rule == NoRule && Queued(s, q.run, q.category) < c.runs[q.run].policies[q.category].maxPending)
    ensures Enqueue(c, s, q).Commit? ==>
              var t := Enqueue(c, s, q).state; var n := |s.assignments|;
              && t == s.(assignments := t.assignments) && |t.assignments| == n + 1 && t.assignments[..n] == s.assignments
              && (var x := t.assignments[n];
                  && x.run == q.run && x.role == q.role && x.category == q.category && x.plans == q.plans && x.rule == q.rule
                  && x.supervises == q.supervises && x.pinned == q.pinned && x.notBefore == q.notBefore && x.expiresAt == q.expiresAt
                  && x.status == Pending && x.startedAt == None && x.finishedAt == None && x.retryAt == None && x.pause == None
                  && !x.checkpoint && x.attempts == 0 && (x.key != NoKey <==> q.keyed) && x.key != NextKey && x.key != ActiveKey)
  {
    hide Queued;
  }

  /** A category of an objective never holds more queued sessions than it may after a request joins it. */
  lemma QueueHasRoom(c: Config, s: State, q: Request, list: seq<nat>)
    requires Enqueue(c, s, q).Commit? && q.run < |c.runs| && c.runs[q.run].mode.Objective? && q.category < |c.runs[q.run].policies|
    requires Distinct(list) && forall i | 0 <= i < |list| :: QueuedIn(Enqueue(c, s, q).state, q.run, q.category, list[i])
    ensures |list| <= c.runs[q.run].policies[q.category].maxPending
  {
    hide Distinct;
    var t := Enqueue(c, s, q).state;
    QueueingRules(c, s, q);
    QueuedGrows(s, t, q.run, q.category);
    DistinctSum((a: nat) => QueuedShare(t, q.run, q.category, a), list, |t.assignments|);
    ListSumSame((a: nat) => 1, (a: nat) => QueuedShare(t, q.run, q.category, a), list);
    OnesCount(list);
  }

  lemma QueuedGrows(s: State, t: State, r: nat, g: nat)
    requires |t.assignments| == |s.assignments| + 1 && t.assignments[..|s.assignments|] == s.assignments
    ensures Queued(t, r, g) <= Queued(s, r, g) + 1
  {
    QueuedPrefix(s, t, r, g, |s.assignments|);
  }

  lemma {:induction false} QueuedPrefix(s: State, t: State, r: nat, g: nat, n: nat)
    requires n <= |s.assignments| <= |t.assignments| && t.assignments[..|s.assignments|] == s.assignments
    ensures Total((a: nat) => QueuedShare(t, r, g, a), n) == Total((a: nat) => QueuedShare(s, r, g, a), n)
  {
    if n > 0 {
      QueuedPrefix(s, t, r, g, n - 1);
      assert t.assignments[..|s.assignments|][n - 1] == s.assignments[n - 1];
    }
  }
}
