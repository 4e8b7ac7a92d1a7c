/**
  What an admission reads: which executions still hold capacity, the weighted
  queue budgets, shared limits and workspace placement
  (scheduler.py `execution_busy_condition`, `limits_available`,
  `available_workspace`; queue_policies.py `blocker`, `native_capacity`).
 */
module Admission {
  import opened Wrappers
  import opened Records
  import opened Sums

  // ---- Physical occupancy ----

  predicate HasUnsettled(s: State, e: nat) {
    exists q | 0 <= q < |s.turns| :: s.turns[q].execution == e && Unsettled(s.turns[q].status)
  }

  // A fenced execution whose stop nobody confirmed: an objective session keeps
  // its reservation, a legacy one loses it after the grace period.
  predicate StopUncertain(c: Config, s: State, e: nat)
    requires e < |s.executions|
  {
    var x := s.executions[e];
    && !Live(x.status)
    && !x.confirmed
    && (ModeOf(c, s, x.assignment).Objective?
        || (if x.finishedAt.Some? then x.finishedAt.value else x.startedAt) > s.now - GRACE)
  }

  predicate Busy(c: Config, s: State, e: nat)
    requires e < |s.executions|
  {
    Live(s.executions[e].status) || StopUncertain(c, s, e) || HasUnsettled(s, e)
  }

  predicate BusyPlace(c: Config, s: State, w: nat) {
    exists e | 0 <= e < |s.executions| :: s.executions[e].workspace == w && Busy(c, s, e)
  }

  // ---- Weights: one unit for the session and one for each reserved child ----

  function PoolShare(c: Config, s: State, host: nat, harness: nat, e: nat): nat {
    if e < |s.executions| && s.executions[e].host == host && s.executions[e].harness == harness && Busy(c, s, e)
    then 1 + s.executions[e].native else 0
  }

  function PoolWeight(c: Config, s: State, host: nat, harness: nat): nat {
    Total((e: nat) => PoolShare(c, s, host, harness, e), |s.executions|)
  }

  function CategoryShare(c: Config, s: State, run: nat, category: nat, e: nat): nat {
    if e < |s.executions| && s.executions[e].assignment < |s.assignments|
       && s.assignments[s.executions[e].assignment].run == run
       && s.assignments[s.executions[e].assignment].category == category && Busy(c, s, e)
    then 1 + s.executions[e].native else 0
  }

  function CategoryWeight(c: Config, s: State, run: nat, category: nat): nat {
    Total((e: nat) => CategoryShare(c, s, run, category, e), |s.executions|)
  }

  function WorkerShare(c: Config, s: State, host: nat, harness: nat, e: nat): nat {
    if e < |s.executions| && s.executions[e].assignment < |s.assignments|
       && s.assignments[s.executions[e].assignment].role.Worker?
    then PoolShare(c, s, host, harness, e) else 0
  }

  function WorkerWeight(c: Config, s: State, host: nat, harness: nat): nat {
    Total((e: nat) => WorkerShare(c, s, host, harness, e), |s.executions|)
  }

  function ClaimShare(s: State, limit: nat, k: nat): nat {
    if k < |s.claims| && s.claims[k].limit == limit && !s.claims[k].released then s.claims[k].units else 0
  }

  function Held(s: State, limit: nat): nat {
    Total((k: nat) => ClaimShare(s, limit, k), |s.claims|)
  }

  // ---- Shared limits ----

  // After a provider failure one real request serves as the recovery probe.
  function Ceiling(c: Config, s: State, limit: nat): Option<nat> {
    if limit >= |s.limits| || limit >= |c.limits| then None
    else if s.limits[limit].failures > 0 then Some(1)
    else c.limits[limit].maximum
  }

  predicate LimitFree(c: Config, s: State, limit: nat) {
    && limit < |s.limits|
    && !s.limits[limit].open
    && (Ceiling(c, s, limit).Some? ==> Held(s, limit) < Ceiling(c, s, limit).value)
  }

  predicate LimitsFree(c: Config, s: State, limits: seq<nat>) {
    forall i | 0 <= i < |limits| :: LimitFree(c, s, limits[i])
  }

  // `capacity` drops a pool whose account is open or cooling down.
  predicate Cool(s: State, limits: seq<nat>) {
    forall i | 0 <= i < |limits| :: limits[i] < |s.limits| ==>
      && !s.limits[limits[i]].open
      && (s.limits[limits[i]].cooldown.Some? ==> s.limits[limits[i]].cooldown.value <= s.now)
  }

  // ---- Category budgets ----

  function Reserve(policies: seq<Policy>): nat {
    if |policies| == 0 then 0
    else
      var rest := Reserve(policies[1..]);
      if policies[0].role.Maintainer? && policies[0].reserved > rest then policies[0].reserved else rest
  }

  function Max(a: int, b: int): int { if a < b then b else a }

  function Min(a: int, b: int): int { if a < b then a else b }

  function QueuedShare(s: State, run: nat, category: nat, a: nat): nat {
    if a < |s.assignments| && s.assignments[a].run == run && s.assignments[a].category == category
       && s.assignments[a].status.Pending? then 1 else 0
  }

  function Queued(s: State, run: nat, category: nat): nat {
    Total((a: nat) => QueuedShare(s, run, category, a), |s.assignments|)
  }

  function StartedShare(s: State, run: nat, category: nat, a: nat): nat {
    if a < |s.assignments| && s.assignments[a].run == run && s.assignments[a].category == category
       && s.assignments[a].startedAt.Some? then 1 else 0
  }

  function Started(s: State, run: nat, category: nat): nat {
    Total((a: nat) => StartedShare(s, run, category, a), |s.assignments|)
  }

  // An empty pause note is falsy, hence no pause.
  predicate PauseHolds(a: Assignment) { a.pause.Some? && a.pause.value != "" }

  // `blocker`; `overBudget` stands for the token ledger. A pool is given when
  // the maintenance reservation of that pool applies.
  predicate Blocked(c: Config, s: State, a: nat, pool: Option<(nat, nat)>, overBudget: bool)
    requires a < |s.assignments|
  {
    var item := s.assignments[a];
    PauseHolds(item) ||
    (ModeOf(c, s, a).Objective? &&
     var spec := c.runs[item.run];
     (item.category >= |spec.policies| ||
      var settings := spec.policies[item.category];
      (|| CategoryWeight(c, s, item.run, item.category) >= settings.slots
       || (item.startedAt.None? && settings.maxSessions.Some?
           && Started(s, item.run, item.category) >= settings.maxSessions.value)
       || overBudget
       || (pool.Some? && pool.value in c.pools && c.pools[pool.value].slots > 0 && settings.role.Worker?
           && WorkerWeight(c, s, pool.value.0, pool.value.1)
              >= Max(1, c.pools[pool.value].slots - Reserve(spec.policies))))))
  }

  // ---- Child reservations ----

  function NarrowBy(c: Config, s: State, limits: seq<nat>, count: int): int {
    if |limits| == 0 then count
    else
      var l := limits[|limits| - 1];
      var rest := NarrowBy(c, s, limits[..|limits| - 1], count);
      if Ceiling(c, s, l).Some? then Min(rest, Ceiling(c, s, l).value - Held(s, l) - 1) else rest
  }

  // `native_capacity`: None leaves delegation uncapped and reserves nothing.
  function NativeCapacity(c: Config, s: State, a: nat, host: nat, harness: nat): Option<nat>
    requires a < |s.assignments| && (host, harness) in c.pools
  {
    var pool := c.pools[(host, harness)];
    var item := s.assignments[a];
    if pool.childCap.None? then None
    else if ModeOf(c, s, a).Legacy? then pool.childCap
    else if item.category >= |c.runs[item.run].policies| then Some(0)
    else if item.plans then Some(0)
    else
      var spec := c.runs[item.run];
      var reserve := if item.role.Worker? then Reserve(spec.policies) else 0;
      var count := Min(pool.childCap.value,
                       Min(spec.policies[item.category].slots - CategoryWeight(c, s, item.run, item.category) - 1,
                           Max(1, pool.slots - reserve) - PoolWeight(c, s, host, harness) - 1));
      Some(Max(0, NarrowBy(c, s, pool.limits, count)))
  }

  // Only objective sessions reserve their child cap.
  function Reservation(c: Config, s: State, a: nat, host: nat, harness: nat): nat
    requires a < |s.assignments| && (host, harness) in c.pools
  {
    var capacity := NativeCapacity(c, s, a, host, harness);
    if ModeOf(c, s, a).Objective? && capacity.Some? then capacity.value else 0
  }

  // ---- Provider contexts ----

  // The newest primary thread of an assignment among the first n rows.
  function Latest(s: State, a: nat, n: nat): Option<nat>
    requires n <= |s.threads|
  {
    if n == 0 then None
    else if s.threads[n - 1].assignment == a then Some(n - 1)
    else Latest(s, a, n - 1)
  }

  predicate RetainedAt(s: State, a: nat, host: nat, t: nat) {
    && t < |s.threads| && s.threads[t].assignment == a && Retained(s.threads[t].status)
    && HostOf(s, s.threads[t].workspace) == Some(host)
  }

  function RetainedOn(s: State, a: nat, host: nat, n: nat): (r: Option<nat>)
    requires n <= |s.threads|
    ensures r.Some? ==> r.value < n && RetainedAt(s, a, host, r.value)
    ensures r.None? ==> forall t | 0 <= t < n :: !RetainedAt(s, a, host, t)
  {
    if n == 0 then None
    else if RetainedAt(s, a, host, n - 1) then Some(n - 1)
    else RetainedOn(s, a, host, n - 1)
  }

  predicate HasRetained(s: State, a: nat) {
    exists t | 0 <= t < |s.threads| :: s.threads[t].assignment == a && Retained(s.threads[t].status)
  }

  // Another host owns a native context, which cannot be cloned.
  predicate NativeForeign(s: State, a: nat, host: nat) {
    exists t | 0 <= t < |s.threads| ::
      && s.threads[t].assignment == a && Retained(s.threads[t].status)
      && HostOf(s, s.threads[t].workspace) != Some(host)
      && (s.threads[t].status.Available? || s.threads[t].native.Some?)
  }

  // ---- Workspace placement ----

  predicate RetainedPlace(s: State, w: nat) {
    exists t | 0 <= t < |s.threads| ::
      && s.threads[t].workspace == w && Retained(s.threads[t].status)
      && s.threads[t].assignment < |s.assignments| && Open(s.assignments[s.threads[t].assignment].status)
  }

  predicate FreePlace(c: Config, s: State, project: nat, host: nat, retainedToo: bool, w: nat)
    requires w < |s.places|
  {
    var p := s.places[w];
    && p.host == host && p.project == project && p.working && p.status.Ready? && !BusyPlace(c, s, w)
    && (retainedToo || !RetainedPlace(s, w))
  }

  function FirstFree(c: Config, s: State, project: nat, host: nat, retainedToo: bool, w: nat): (r: Option<nat>)
    requires w <= |s.places|
    ensures r.Some? ==> w <= r.value < |s.places| && FreePlace(c, s, project, host, retainedToo, r.value)
    ensures forall v | w <= v < (if r.Some? then r.value else |s.places|) :: !FreePlace(c, s, project, host, retainedToo, v)
    decreases |s.places| - w
  {
    if w == |s.places| then None
    else if FreePlace(c, s, project, host, retainedToo, w) then Some(w)
    else FirstFree(c, s, project, host, retainedToo, w + 1)
  }

  // A ready source in the same project and host to clone a fresh directory from.
  predicate Source(s: State, project: nat, host: nat, pin: Option<nat>, w: nat)
    requires w < |s.places|
  {
    var p := s.places[w];
    p.host == host && p.project == project && p.working && p.status.Ready? && (pin.Some? ==> p.repository == pin.value)
  }

  function FirstSource(s: State, project: nat, host: nat, pin: Option<nat>, w: nat): (r: Option<nat>)
    requires w <= |s.places|
    ensures r.Some? ==> w <= r.value < |s.places| && Source(s, project, host, pin, r.value)
    ensures forall v | w <= v < (if r.Some? then r.value else |s.places|) :: !Source(s, project, host, pin, v)
    decreases |s.places| - w
  {
    if w == |s.places| then None else if Source(s, project, host, pin, w) then Some(w) else FirstSource(s, project, host, pin, w + 1)
  }

  // `workspace_preparation`: the directory generated for this assignment on a
  // capable host, with another ready workspace to copy.
  predicate CanPrepare(s: State, a: nat, capable: bool, w: nat)
    requires w < |s.places|
  {
    && capable && s.places[w].status.Preparing? && s.places[w].origin == Some(a)
    && exists v | 0 <= v < |s.places| ::
         && v != w && s.places[v].status.Ready? && s.places[v].host == s.places[w].host
         && s.places[v].repository == s.places[w].repository && s.places[v].project == s.places[w].project
  }

  datatype Pick = NoPlace | Existing(place: nat) | Propose(source: nat)

  // Observations an admission takes from code outside this model.
  datatype View = View(eligible: bool, ready: bool, overBudget: bool, capable: bool, elsewhere: bool, pin: Option<nat>)

  function Placement(c: Config, s: State, a: nat, host: nat, view: View): (r: Pick)
    requires a < |s.assignments| && s.assignments[a].run < |c.runs|
    ensures r.Existing? ==> r.place < |s.places| && s.places[r.place].host == host && !BusyPlace(c, s, r.place)
    ensures r.Propose? ==> r.source < |s.places|
  {
    var project := c.runs[s.assignments[a].run].project;
    var latest := Latest(s, a, |s.threads|);
    if latest.Some? && latest.value < |s.threads| && !Retained(s.threads[latest.value].status) then NoPlace
    else
      var previous := RetainedOn(s, a, host, |s.threads|);
      if previous.Some? then
        var w := s.threads[previous.value].workspace;
        if w < |s.places| && s.places[w].project == project && !BusyPlace(c, s, w)
           && (s.places[w].status.Ready? || CanPrepare(s, a, view.capable, w))
        then Existing(w) else NoPlace
      else if NativeForeign(s, a, host) then NoPlace
      else
        var free := FirstFree(c, s, project, host, false, 0);
        var any := if free.Some? || view.capable then free else FirstFree(c, s, project, host, true, 0);
        if any.Some? then Existing(any.value)
        else if !view.capable then NoPlace
        else
          var source := FirstSource(s, project, host, view.pin, 0);
          if source.Some? then Propose(source.value) else NoPlace
  }

  // ---- The whole admission test of one candidate on one pool ----

  predicate DueBy(when: Option<int>, now: int) { when.Some? ==> when.value <= now }

  predicate Candidate(c: Config, s: State, a: nat) {
    && a < |s.assignments|
    && var item := s.assignments[a];
       && item.run < |s.runs| && item.run < |c.runs|
       && var run := s.runs[item.run];
          && (run.status.RunActive? || run.status.RunDraining?)
          && item.status.Pending?
          && (c.runs[item.run].mode.Legacy? || run.next.None? || run.next.value.owner == Some(a))
          && DueBy(item.notBefore, s.now) && DueBy(item.retryAt, s.now)
          && (item.expiresAt.Some? ==> item.expiresAt.value > s.now)
  }

  predicate SessionUnsettled(s: State, a: nat) {
    exists q | 0 <= q < |s.turns| ::
      && Unsettled(s.turns[q].status) && s.turns[q].thread < |s.threads|
      && s.threads[s.turns[q].thread].assignment == a
  }

  predicate KeyLive(s: State, run: nat, key: Key) {
    exists a | 0 <= a < |s.assignments| ::
      s.assignments[a].run == run && s.assignments[a].key == key && Open(s.assignments[a].status)
  }

  predicate Admissible(c: Config, s: State, a: nat, host: nat, harness: nat, view: View) {
    && Candidate(c, s, a)
    && view.eligible && view.ready
    && (host, harness) in c.pools
    && var item := s.assignments[a];
       var pool := c.pools[(host, harness)];
       && Cool(s, pool.limits)
       && !SessionUnsettled(s, a)
       && !Blocked(c, s, a, None, view.overBudget)
       && !(item.key.NextKey? && KeyLive(s, item.run, ActiveKey))
       && !Blocked(c, s, a, Some((host, harness)), view.overBudget)
       && (item.pinned.Some? ==> item.pinned.value == harness)
       && (var previous := RetainedOn(s, a, host, |s.threads|);
           && (previous.Some? ==> s.threads[previous.value].harness == harness)
           && (previous.None? ==> !view.elsewhere))
       && PoolWeight(c, s, host, harness) < pool.slots
       && LimitsFree(c, s, pool.limits)
       && !Placement(c, s, a, host, view).NoPlace?
  }
}
