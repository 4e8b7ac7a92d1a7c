/**
  The rows of the control plane. Every table is a sequence whose index is the
  primary key: creating a row appends it, rows are never deleted. Columns that
  no modelled decision reads (notes, revisions, blobs) are omitted.
 */
module Records {
  import opened Wrappers

  datatype Mode = Legacy | Objective
  datatype Role = Worker | Maintainer
  datatype Phase = Preprocessing | Formalization | Postprocessing

  datatype RunStatus = RunActive | RunPaused | RunDraining | RunStopping | RunCompleted | RunCancelled
  datatype SessionStatus = Pending | Running | Stopping | Completed | Failed | Cancelled
  datatype ExecStatus =
    ExecStarting | ExecRunning | ExecStopping | ExecSucceeded | ExecFailed | ExecCancelled | ExecLost
  datatype ThreadStatus = Creating | Available | Unavailable | Closed
  datatype TurnStatus =
    TurnPending | TurnSubmitted | TurnRunning | TurnCompleted | TurnFailed | TurnInterrupted | TurnUncertain
  datatype PlaceStatus = Preparing | Ready | Broken | Retired

  // Which recurrence, if any, owns an assignment.
  datatype Rule = NoRule | PlannerRule | RootRule | OtherRule
  // The recurrence key, relative to the assignment's own run.
  datatype Key = NoKey | ActiveKey | NextKey | OtherKey
  datatype RulePause = NotPaused | Idle | ByOperator | ByCancellation

  // ---- Configuration, fixed during a run of steps ----

  datatype Retry = Retry(maxAttempts: nat, initialDelay: nat, maxDelay: nat, maxNoProgress: nat)
  datatype Policy = Policy(role: Role, slots: nat, maxPending: nat, maxSessions: Option<nat>,
                           reserved: nat, retry: Retry)
  // One harness on one host: its weight budget, child cap and shared limits.
  datatype Pool = Pool(slots: nat, childCap: Option<nat>, limits: seq<nat>)
  datatype LimitSpec = LimitSpec(account: bool, maximum: Option<nat>)
  // Queue categories are numbered: 0 is "work", 1 is "maintenance".
  datatype RunSpec = RunSpec(mode: Mode, project: nat, policies: seq<Policy>, retry: Retry,
                             phases: seq<Phase>, autoAdvance: bool)
  datatype Config = Config(pools: map<(nat, nat), Pool>, limits: seq<LimitSpec>, runs: seq<RunSpec>,
                           lease: nat, plannerInterval: nat, plannerMaxIdle: nat, plannerPasses: nat)

  const WORK: nat := 0
  const GRACE: int := 300

  ghost predicate WellFormed(c: Config) {
    && c.plannerPasses >= 1
    && (forall p | p in c.pools ::
          && c.pools[p].slots >= 1
          && (forall i | 0 <= i < |c.pools[p].limits| :: c.pools[p].limits[i] < |c.limits|)
          && (forall i, j | 0 <= i < j < |c.pools[p].limits| :: c.pools[p].limits[i] != c.pools[p].limits[j]))
    && (forall l | 0 <= l < |c.limits| :: c.limits[l].maximum.Some? ==> c.limits[l].maximum.value >= 1)
    && (forall r | 0 <= r < |c.runs| :: c.runs[r].mode.Objective? ==>
          && |c.runs[r].policies| >= 2
          && c.runs[r].policies[WORK].role.Worker?
          && |c.runs[r].phases| >= 1)
  }

  // ---- Tables ----

  datatype Planner = Planner(enabled: bool, pause: RulePause, passes: nat, frontier: nat, notBefore: Option<int>)
  // An accepted transition: the next phase (None completes the objective) and
  // the session that accepted it, if an agent did.
  datatype Accepted = Accepted(target: Option<Phase>, owner: Option<nat>)
  datatype Run = Run(status: RunStatus, phase: Phase, history: seq<Phase>, next: Option<Accepted>, planner: Planner)

  datatype Assignment = Assignment(
    run: nat, role: Role, category: nat, plans: bool, supervises: bool, rule: Rule, pinned: Option<nat>,
    status: SessionStatus, startedAt: Option<int>, finishedAt: Option<int>, notBefore: Option<int>,
    retryAt: Option<int>, expiresAt: Option<int>, pause: Option<string>, checkpoint: bool,
    attempts: nat, key: Key)

  datatype Execution = Execution(
    assignment: nat, number: nat, host: nat, harness: nat, workspace: nat, native: nat,
    status: ExecStatus, leaseUntil: int, startedAt: int, finishedAt: Option<int>, confirmed: bool)

  datatype Thread = Thread(assignment: nat, workspace: nat, harness: nat, native: Option<nat>,
                           status: ThreadStatus, predecessor: Option<nat>)
  datatype Turn = Turn(execution: nat, thread: nat, status: TurnStatus, started: bool, identified: bool)
  datatype Claim = Claim(limit: nat, execution: nat, units: nat, released: bool)
  datatype Limit = Limit(failures: nat, cooldown: Option<int>, open: bool)
  // `working` is the repository purpose "workspace"; `origin` the assignment a
  // directory was generated for.
  datatype Place = Place(host: nat, project: nat, repository: nat, working: bool, status: PlaceStatus, origin: Option<nat>)

  datatype State = State(
    now: int, runs: seq<Run>, assignments: seq<Assignment>, executions: seq<Execution>, threads: seq<Thread>,
    turns: seq<Turn>, claims: seq<Claim>, limits: seq<Limit>, places: seq<Place>)

  // ---- Status classes ----

  predicate Live(st: ExecStatus) { st.ExecStarting? || st.ExecRunning? || st.ExecStopping? }

  predicate Unsettled(st: TurnStatus) {
    st.TurnPending? || st.TurnSubmitted? || st.TurnRunning? || st.TurnUncertain?
  }

  predicate Retained(st: ThreadStatus) { st.Creating? || st.Available? }

  predicate Open(st: SessionStatus) { st.Pending? || st.Running? || st.Stopping? }

  predicate Settled(st: SessionStatus) { st.Completed? || st.Failed? || st.Cancelled? }

  function RunOf(s: State, a: nat): nat { if a < |s.assignments| then s.assignments[a].run else 0 }

  function ModeOf(c: Config, s: State, a: nat): Mode {
    if a < |s.assignments| && s.assignments[a].run < |c.runs| then c.runs[s.assignments[a].run].mode else Legacy
  }

  function HostOf(s: State, w: nat): Option<nat> {
    if w < |s.places| then Some(s.places[w].host) else None
  }
}
