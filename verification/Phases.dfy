/** The phase sequence of an objective, over every run of events. */
module Phases {
  import opened Wrappers
  import opened Records
  import opened Admission
  import opened Protocol
  import opened Structure
  import opened Fencing
  import opened Safety
  import opened Sessions
  import opened Ledger
  import opened Objectives
  import opened Planners
  import opened Idling

  // ---- The walk through the requested phases ----

  ghost predicate Prefix(p: seq<Phase>, q: seq<Phase>) { |p| <= |q| && q[..|p|] == p }

  // Until the last requested phase is accepted the history is a prefix of the
  // request; the current phase, or the pending one, is its next entry.
  ghost predicate Walks(phases: seq<Phase>, run: Run) {
    && (Prefix(run.history, phases) || Prefix(phases, run.history))
    && match run.next
       case None => |run.history| < |phases| ==> run.phase == phases[|run.history|]
       case Some(accepted) =>
         && |run.history| > 0 && accepted.target == NextKind(phases, |run.history| - 1)
         && (|run.history| <= |phases| ==> run.phase == phases[|run.history| - 1])
  }

  ghost predicate PhasesOk(c: Config, s: State) {
    |s.runs| == |c.runs| && forall r | 0 <= r < |s.runs| && c.runs[r].mode.Objective? :: Walks(c.runs[r].phases, s.runs[r])
  }

  lemma MoveWalks(c: Config, s: State, ev: Event, r: nat, x: Run, y: Run)
    requires r < |c.runs| && Walks(c.runs[r].phases, x) && RunMoves(c, s, ev, r, x, y)
    ensures Walks(c.runs[r].phases, y)
  {
    hide PassEnds; hide OthersOpen; hide RunOccupied; hide RunBusy; hide AfterPass;
    var phases := c.runs[r].phases;
    if ev.EvAcceptPhase? && AcceptedBy(c, s, r, ev.agent, x, y) && |x.history| < |phases| {
      assert phases[..|x.history| + 1] == y.history;
    }
  }

  lemma {:induction false} AlwaysWalks(c: Config, start: State, events: seq<Event>)
    requires WellFormed(c) && Initial(c, start)
    ensures PhasesOk(c, After(c, start, events))
  {
    hide Sound; hide Fits; hide Apply; hide Walks; hide RunMoves;
    if events == [] {
      LaunchWalks(c, start);
    } else {
      var s := After(c, start, events[..|events| - 1]);
      AlwaysWalks(c, start, events[..|events| - 1]);
      AlwaysSafe(c, start, events[..|events| - 1]);
      forall r: nat | r < |s.runs| && c.runs[r].mode.Objective?
        ensures |After(c, start, events).runs| == |s.runs| && Walks(c.runs[r].phases, After(c, start, events).runs[r])
      {
        RunStep(c, s, events[|events| - 1], r);
        MoveWalks(c, s, events[|events| - 1], r, s.runs[r], After(c, start, events).runs[r]);
      }
      if |s.runs| > 0 { RunStep(c, s, events[|events| - 1], 0); }
      AlwaysSafe(c, start, events);
      SoundRefs(c, After(c, start, events));
    }
  }

  lemma LaunchWalks(c: Config, start: State)
    requires WellFormed(c) && Initial(c, start)
    ensures PhasesOk(c, start)
  {
  }

  /**
    In every reachable state an unfinished objective has accepted a prefix of
    the requested phases, in order, and works on the next one; a pending
    transition names the entry after the accepted ones, or completion.
   */
  lemma PhasesInOrder(c: Config, start: State, events: seq<Event>, r: nat)
    requires WellFormed(c) && Initial(c, start) && r < |c.runs| && c.runs[r].mode.Objective?
    ensures r < |After(c, start, events).runs|
    ensures var run := After(c, start, events).runs[r]; var phases := c.runs[r].phases;
            && (|run.history| <= |phases| ==> run.history == phases[..|run.history|])
            && (run.next.None? && |run.history| < |phases| ==> run.phase == phases[|run.history|])
            && (run.next.Some? && |run.history| <= |phases| ==>
                  && |run.history| > 0 && run.phase == phases[|run.history| - 1]
                  && run.next.value.target == (if |run.history| < |phases| then Some(phases[|run.history|]) else None))
  {
    hide After; hide Initial;
    AlwaysWalks(c, start, events);
    assert Walks(c.runs[r].phases, After(c, start, events).runs[r]);
  }

  /** A phase changes only by advancing to the accepted one, with nothing open, busy or undelivered. */
  lemma PhaseChangesWhenSettled(c: Config, s: State, ev: Event, r: nat)
    requires WellFormed(c) && Sound(c, s) && r < |s.runs|
    ensures |Apply(c, s, ev).runs| == |s.runs|
    ensures var x, y := s.runs[r], Apply(c, s, ev).runs[r];
            y.phase != x.phase || (x.next.Some? && y.next != x.next) ==>
              && ev.EvReconcileRun? && ev.run == r && !ev.deliveries
              && x.next.Some? && y.next.None? && y.history == x.history
              && !RunOccupied(s, r) && !RunBusy(c, s, r)
              && (x.next.value.target.Some? ==> y.phase == x.next.value.target.value)
              && (x.next.value.target.None? ==> y.phase == x.phase && y.status.RunDraining?)
  {
    hide Sound; hide WellFormed; hide Apply; hide PassEnds; hide OthersOpen; hide RunOccupied; hide RunBusy; hide AfterPass;
    RunStep(c, s, ev, r);
  }

  // ---- Between acceptance and advance ----

  ghost predicate OnlyOwner(s: State, r: nat, owner: Option<nat>) {
    forall a | 0 <= a < |s.assignments| && s.assignments[a].run == r && Open(s.assignments[a].status) :: Some(a) == owner
  }

  ghost predicate Settling(c: Config, s: State) {
    forall r | 0 <= r < |s.runs| && r < |c.runs| && c.runs[r].mode.Objective? && s.runs[r].next.Some? ::
      OnlyOwner(s, r, s.runs[r].next.value.owner)
  }

  lemma OwnerAccepted(c: Config, s: State, ev: Event, r: nat)
    requires WellFormed(c) && Sound(c, s) && KeysOk(c, s) && r < |s.runs| && r < |c.runs| && c.runs[r].mode.Objective?
    requires ev.EvAcceptPhase? && ev.run == r && r < |Apply(c, s, ev).runs|
    requires AcceptedBy(c, s, r, ev.agent, s.runs[r], Apply(c, s, ev).runs[r])
    ensures OnlyOwner(Apply(c, s, ev), r, Apply(c, s, ev).runs[r].next.value.owner)
  {
    hide Sound; hide WellFormed; hide Apply; hide Attempt; hide Clash;
    var t := Apply(c, s, ev);
    AcceptGoes(c, s, ev, r);
    StepBlank(c, s, ev);
    forall a | 0 <= a < |t.assignments| && t.assignments[a].run == r && Open(t.assignments[a].status)
      ensures Some(a) == t.runs[r].next.value.owner
    {
      if a < |s.assignments| {
        StepOrder(c, s, ev, a);
        RowKeys(c, s, ev, a);
      }
    }
  }

  lemma OwnerRemains(c: Config, s: State, ev: Event, r: nat)
    requires WellFormed(c) && Sound(c, s) && r < |s.runs| && r < |c.runs| && c.runs[r].mode.Objective?
    requires r < |Apply(c, s, ev).runs| && s.runs[r].next.Some? && Apply(c, s, ev).runs[r].next == s.runs[r].next
    requires OnlyOwner(s, r, s.runs[r].next.value.owner)
    ensures OnlyOwner(Apply(c, s, ev), r, s.runs[r].next.value.owner)
  {
    hide Sound; hide WellFormed; hide Apply; hide Attempt;
    var t := Apply(c, s, ev);
    StepBlank(c, s, ev);
    forall a | 0 <= a < |t.assignments| && t.assignments[a].run == r && Open(t.assignments[a].status)
      ensures Some(a) == s.runs[r].next.value.owner
    {
      if a < |s.assignments| {
        StepOrder(c, s, ev, a);
        RowKeys(c, s, ev, a);
      }
    }
  }

  lemma SettlingStep(c: Config, s: State, ev: Event)
    requires WellFormed(c) && Sound(c, s) && KeysOk(c, s) && Settling(c, s)
    ensures Settling(c, Apply(c, s, ev))
  {
    hide Sound; hide WellFormed; hide Apply; hide Attempt; hide KeysOk; hide OnlyOwner; hide PassEnds; hide OthersOpen;
    hide RunOccupied; hide RunBusy; hide AfterPass;
    var t := Apply(c, s, ev);
    forall r | 0 <= r < |t.runs| && r < |c.runs| && c.runs[r].mode.Objective? && t.runs[r].next.Some?
      ensures OnlyOwner(t, r, t.runs[r].next.value.owner)
    {
      SoundRefs(c, s);
      RunStep(c, s, ev, r);
      if t.runs[r].next == s.runs[r].next { OwnerRemains(c, s, ev, r); } else { OwnerAccepted(c, s, ev, r); }
    }
  }

  lemma {:induction false} AlwaysSettling(c: Config, start: State, events: seq<Event>)
    requires WellFormed(c) && Initial(c, start)
    ensures Settling(c, After(c, start, events))
  {
    hide Sound; hide Fits; hide Apply; hide KeysOk; hide OnlyOwner;
    if events != [] {
      AlwaysSettling(c, start, events[..|events| - 1]);
      AlwaysSafe(c, start, events[..|events| - 1]);
      AlwaysKeyed(c, start, events[..|events| - 1]);
      SettlingStep(c, After(c, start, events[..|events| - 1]), events[|events| - 1]);
    }
  }

  /** Between acceptance and advance only the accepting session is open, and only it can be admitted. */
  lemma SettlingBelongsToOwner(c: Config, start: State, events: seq<Event>, r: nat, a: nat)
    requires WellFormed(c) && Initial(c, start) && r < |c.runs| && c.runs[r].mode.Objective?
    requires var s := After(c, start, events);
             r < |s.runs| && s.runs[r].next.Some? && a < |s.assignments| && s.assignments[a].run == r
             && (Open(s.assignments[a].status)
                 || exists host: nat, harness: nat, view: View :: Admit(c, s, a, host, harness, view).Commit?)
    ensures After(c, start, events).runs[r].next.value.owner == Some(a)
  {
    hide After; hide Initial; hide Admit; hide Sound; hide Fits;
    var s := After(c, start, events);
    AlwaysSettling(c, start, events);
    AlwaysSafe(c, start, events);
    if !Open(s.assignments[a].status) {
      var host: nat, harness: nat, view: View :| Admit(c, s, a, host, harness, view).Commit?;
      CandidateRun(c, s, EvAdmit(a, host, harness, view));
    }
  }
}
