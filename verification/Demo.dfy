/** A small installation: one host, one workspace, one objective with one worker slot. */
module Demo {
  import opened Wrappers
  import opened Records
  import opened Sums
  import opened Admission
  import opened Protocol

  function Setting(m: nat): Retry { Retry(m, 1, 1, 1) }

  function Shop(m: nat): Config {
    Config(map[(0, 0) := Pool(1, None, [])], [],
           [RunSpec(Objective, 0, [Policy(Worker, 1, 4, None, 0, Setting(m)), Policy(Maintainer, 1, 4, None, 0, Setting(m))],
                    Setting(m), [Formalization], true)],
           100, 1, 1, 1)
  }

  const BENCH := Place(0, 0, 0, true, Ready, None)
  const VIEW := View(true, true, false, false, false, None)

  function Objective1(status: RunStatus, planner: Planner): Run { Run(status, Formalization, [], None, planner) }

  const FRESH := Planner(true, NotPaused, 0, 0, None)

  function Opening(): State { State(0, [Objective1(RunActive, FRESH)], [], [], [], [], [], [], [BENCH]) }

  lemma ShopOpens(m: nat)
    ensures WellFormed(Shop(m)) && Initial(Shop(m), Opening())
  {
  }

  // ---- An idle installation ----

  // Every execution stopped for good, and nothing is on the wire.
  ghost predicate Stopped(s: State) {
    && s.turns == [] && s.limits == [] && s.claims == [] && s.places == [BENCH] && s.now == 0
    && forall e | 0 <= e < |s.executions| :: !Live(s.executions[e].status) && s.executions[e].confirmed
  }

  lemma NothingBusy(m: nat, s: State, e: nat)
    requires Stopped(s) && e < |s.executions|
    ensures !Busy(Shop(m), s, e)
  {
  }

  lemma NoWeight(m: nat, s: State)
    requires Stopped(s)
    ensures PoolWeight(Shop(m), s, 0, 0) == 0 && CategoryWeight(Shop(m), s, 0, 0) == 0 && WorkerWeight(Shop(m), s, 0, 0) == 0
    ensures !BusyPlace(Shop(m), s, 0)
  {
    hide Busy; hide Shop;
    forall e: nat | e < |s.executions| ensures !Busy(Shop(m), s, e) { NothingBusy(m, s, e); }
    TotalZero((e: nat) => PoolShare(Shop(m), s, 0, 0, e), |s.executions|);
    TotalZero((e: nat) => CategoryShare(Shop(m), s, 0, 0, e), |s.executions|);
    TotalZero((e: nat) => WorkerShare(Shop(m), s, 0, 0, e), |s.executions|);
  }

  // A session that waits for nothing.
  ghost predicate Due(s: State, a: nat) {
    && a < |s.assignments| && |s.runs| == 1 && s.runs[0].status.RunActive? && s.runs[0].next.None?
    && var item := s.assignments[a];
       && item.run == 0 && item.category == 0 && item.role.Worker? && item.status.Pending? && !PauseHolds(item)
       && item.notBefore.None? && item.retryAt.None? && item.expiresAt.None? && item.pinned.None?
       && (item.key.NextKey? ==> !KeyLive(s, 0, ActiveKey))
  }

  // It never had a context, and the bench is nobody's; or the only context is its own.
  ghost predicate Placeable(s: State, a: nat) {
    || s.threads == [Thread(a, 0, 0, None, Creating, None)]
    || forall t | 0 <= t < |s.threads| ::
         && s.threads[t].assignment != a && s.threads[t].assignment < |s.assignments|
         && !Open(s.assignments[s.threads[t].assignment].status)
  }

  lemma {:induction false} NoContext(s: State, a: nat, n: nat)
    requires n <= |s.threads| && forall t | 0 <= t < n :: s.threads[t].assignment != a
    ensures Latest(s, a, n).None? && RetainedOn(s, a, 0, n).None?
  {
    if n > 0 { NoContext(s, a, n - 1); }
  }

  lemma BenchPlace(m: nat, s: State, a: nat)
    requires Stopped(s) && Due(s, a) && Placeable(s, a)
    ensures Placement(Shop(m), s, a, 0, VIEW) == Existing(0)
    ensures RetainedOn(s, a, 0, |s.threads|) == (if s.threads == [Thread(a, 0, 0, None, Creating, None)] then Some(0) else None)
  {
    hide BusyPlace; hide Due;
    assert a < |s.assignments| && s.assignments[a].run == 0 by { DueRun(s, a); }
    NoWeight(m, s);
    if s.threads == [Thread(a, 0, 0, None, Creating, None)] {
      assert Latest(s, a, 1) == Some(0) && RetainedOn(s, a, 0, 1) == Some(0);
    } else {
      NoContext(s, a, |s.threads|);
      assert !NativeForeign(s, a, 0);
      assert FreePlace(Shop(m), s, 0, 0, false, 0);
    }
  }

  lemma DueRun(s: State, a: nat)
    requires Due(s, a)
    ensures a < |s.assignments| && s.assignments[a].run == 0
  {
  }

  lemma Unblocked(m: nat, s: State, a: nat)
    requires Stopped(s) && Due(s, a)
    ensures !Blocked(Shop(m), s, a, None, false) && !Blocked(Shop(m), s, a, Some((0, 0)), false)
  {
    hide PoolWeight; hide CategoryWeight; hide WorkerWeight; hide Started; hide KeyLive;
    NoWeight(m, s);
  }

  lemma DueAdmissible(m: nat, s: State, a: nat)
    requires Stopped(s) && Due(s, a) && Placeable(s, a)
    ensures Admissible(Shop(m), s, a, 0, 0, VIEW)
  {
    hide PoolWeight; hide CategoryWeight; hide WorkerWeight; hide Blocked; hide Placement; hide KeyLive; hide RetainedOn; hide Placeable;
    NoWeight(m, s);
    Unblocked(m, s, a);
    BenchPlace(m, s, a);
  }

  // ---- Admissions and settlements in this installation ----

  lemma {:induction false} NumberOf(s: State, a: nat, n: nat)
    requires n <= |s.executions| && forall e | 0 <= e < n :: s.executions[e].assignment == a
    ensures Total((e: nat) => NumberShare(s, a, e), n) == n
  {
    if n > 0 { NumberOf(s, a, n - 1); }
  }

  function NewExecution(a: nat, number: nat): Execution {
    Execution(a, number, 0, 0, 0, 0, ExecRunning, 100, 0, None, false)
  }

  lemma DueAdmitted(m: nat, s: State, a: nat, p: State)
    requires Stopped(s) && Due(s, a) && Placeable(s, a) && AdmitPlanner(Shop(m), s, a) == Commit(p)
    requires p == s.(assignments := p.assignments) && a < |p.assignments|
    ensures Apply(Shop(m), s, EvAdmit(a, 0, 0, VIEW)) == p.(
              executions := s.executions + [NewExecution(a, NextNumber(p, a))],
              assignments := p.assignments[a := AdmittedRow(p.assignments[a], 0)],
              threads := if s.threads == [Thread(a, 0, 0, None, Creating, None)] then s.threads
                         else s.threads + [Thread(a, 0, 0, None, Creating, None)])
    ensures Attempt(Shop(m), s, EvAdmit(a, 0, 0, VIEW)).Commit?
  {
    hide Admissible; hide Placement; hide RetainedOn; hide HasRetained; hide NextNumber; hide AdmitPlanner; hide KeyLive;
    DueAdmissible(m, s, a);
    BenchPlace(m, s, a);
    SameContexts(s, p, a, |s.threads|);
    NoRetained(s, a);
    assert NewClaims([], |s.executions|, 1) == [];
  }

  lemma {:induction false} SameContexts(s: State, p: State, a: nat, n: nat)
    requires p.threads == s.threads && p.places == s.places && n <= |s.threads|
    ensures RetainedOn(p, a, 0, n) == RetainedOn(s, a, 0, n)
  {
    if n > 0 { SameContexts(s, p, a, n - 1); }
  }

  lemma NoRetained(s: State, a: nat)
    requires Placeable(s, a)
    ensures s.threads == [Thread(a, 0, 0, None, Creating, None)] || !HasRetained(s, a)
  {
  }
}
