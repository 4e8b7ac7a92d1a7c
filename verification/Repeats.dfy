/**
  Commands repeated without a key (client.py `request`): while a content is
  pending, repeating it resends the journaled row, so that a crash or a lost
  response does not let the command take effect twice.
 */
module Repeats {
  import opened Wrappers
  import opened Journal
  import opened Exchange

  // ---- One request ----

  ghost predicate InJournal(w: World, content: nat) { exists x | x in w.journal :: Waiting(x, content) }

  /**
    A keyless request for a content that is pending issues no row, and what it
    transmits, at most three times, is the oldest pending row's key and number.
   */
  lemma RepeatResends(u: Setup, w: World, a: Attempt, tries: nat, i: nat)
    requires Inv(u, w) && a.key.None? && OldestWaiting(w.journal, a.content, i)
    ensures var t := Apply(u, w, EvRequest(a, tries)); var x := w.journal[i];
            && t.issued == w.issued && t.effects == w.effects
            && (forall y | y in t.journal :: y in w.journal) && x in t.journal
            && (t.copies == w.copies
                || (tries <= 3 && t.copies == w.copies[Copy(x.id, x.gen, a.content, w.now) :=
                                                       w.copies[Copy(x.id, x.gen, a.content, w.now)] + tries]))
  {
    hide Begin; hide Covered; hide Backed; hide Spaced; hide Honest; hide EffectOk; hide CopyOk;
    KeylessResends(w.journal, a, |w.issued|, w.now, u.window, i);
    assert w.journal[i] in w.journal;
  }

  lemma OldestExists(j: seq<Row>, content: nat) returns (i: nat)
    requires exists x | x in j :: Waiting(x, content)
    ensures OldestWaiting(j, content, i)
  {
    hide Waiting;
    var r := SamePending(j, content);
    var x :| x in j && Waiting(x, content);
    var k :| 0 <= k < |j| && j[k] == x;
    assert r.Some?;
    i := r.value;
  }

  // ---- Continuations in which the content stays pending ----

  // Requests for this content carry no key.
  ghost predicate Keyless(events: seq<Event>, content: nat) {
    forall n | 0 <= n < |events| && events[n].EvRequest? && events[n].attempt.content == content :: events[n].attempt.key.None?
  }

  lemma IssueStep(u: Setup, w: World, ev: Event, content: nat)
    requires Inv(u, w) && InJournal(w, content)
    requires ev.EvRequest? && ev.attempt.content == content ==> ev.attempt.key.None?
    ensures var t := Apply(u, w, ev);
            && |w.issued| <= |t.issued| && t.issued[..|w.issued|] == w.issued
            && (forall g | |w.issued| <= g < |t.issued| :: t.issued[g].content != content)
  {
    hide Begin; hide Inv; hide InJournal; hide Settle; hide Defer; hide Resolve;
    if ev.EvRequest? && ev.attempt.content == content {
      assert InJournal(w, content);
      var i := OldestOf(w, content);
      RepeatResends(u, w, ev.attempt, ev.tries, i);
    } else if ev.EvDeliver? {
      DeliverIssues(u, w, ev.copy, ev.verdict);
    }
  }

  lemma DeliverIssues(u: Setup, w: World, c: Copy, verdict: Verdict)
    ensures Deliver(u, w, c, verdict).issued == w.issued
  {
  }

  lemma OldestOf(w: World, content: nat) returns (i: nat)
    requires InJournal(w, content)
    ensures OldestWaiting(w.journal, content, i)
  {
    i := OldestExists(w.journal, content);
  }

  // The content has a pending row in every state before the last.
  ghost predicate StaysPending(u: Setup, w: World, more: seq<Event>, content: nat) {
    forall n | 0 <= n < |more| :: InJournal(After(u, w, more[..n]), content)
  }

  /** While a content stays pending, keyless requests for it issue no further row. */
  lemma {:induction false} PendingContentIsNotIssuedAgain(u: Setup, w: World, more: seq<Event>, content: nat)
    requires WellTimed(u) && Inv(u, w) && Keyless(more, content) && StaysPending(u, w, more, content)
    ensures var t := After(u, w, more);
            && Inv(u, t) && |w.issued| <= |t.issued| && t.issued[..|w.issued|] == w.issued
            && (forall g | |w.issued| <= g < |t.issued| :: t.issued[g].content != content)
  {
    hide Apply; hide Inv; hide InJournal;
    if more != [] {
      var n := |more| - 1;
      var before := more[..n];
      assert forall k | 0 <= k < n :: before[..k] == more[..k];
      PendingContentIsNotIssuedAgain(u, w, before, content);
      var t := After(u, w, before);
      assert InJournal(t, content);
      IssueStep(u, t, more[n], content);
      StepKeeps(u, t, more[n]);
      var z := Apply(u, t, more[n]);
      forall g | |w.issued| <= g < |z.issued| ensures z.issued[g].content != content {
        if g < |t.issued| { assert z.issued[..|t.issued|][g] == t.issued[g]; }
      }
      assert z.issued[..|w.issued|] == z.issued[..|t.issued|][..|w.issued|];
    }
  }

  // ---- From the start ----

  ghost predicate EverIssued(w: World, content: nat) { exists g | 0 <= g < |w.issued| :: w.issued[g].content == content }

  // From its first row on, the content is pending.
  ghost predicate HeldPending(u: Setup, start: World, events: seq<Event>, content: nat) {
    forall n | 0 <= n <= |events| :: EverIssued(After(u, start, events[..n]), content) ==> InJournal(After(u, start, events[..n]), content)
  }

  ghost predicate OneRowOf(w: World, content: nat) {
    forall g, h | 0 <= g < |w.issued| && 0 <= h < |w.issued| && w.issued[g].content == w.issued[h].content == content :: g == h
  }

  lemma {:induction false} OneRowIssued(u: Setup, start: World, events: seq<Event>, content: nat)
    requires WellTimed(u) && Initial(start) && Keyless(events, content) && HeldPending(u, start, events, content)
    ensures OneRowOf(After(u, start, events), content)
  {
    hide Apply; hide Inv; hide InJournal;
    if events != [] {
      var n := |events| - 1;
      var before := events[..n];
      assert forall k | 0 <= k <= n :: before[..k] == events[..k];
      OneRowIssued(u, start, before, content);
      AlwaysInv(u, start, before);
      var t := After(u, start, before);
      assert before == events[..n];
      OneRowStep(u, t, events[n], content);
    }
  }

  lemma OneRowStep(u: Setup, w: World, ev: Event, content: nat)
    requires Inv(u, w) && OneRowOf(w, content) && (EverIssued(w, content) ==> InJournal(w, content))
    requires ev.EvRequest? && ev.attempt.content == content ==> ev.attempt.key.None?
    ensures OneRowOf(Apply(u, w, ev), content)
  {
    hide Inv; hide InJournal;
    var t := Apply(u, w, ev);
    if EverIssued(w, content) {
      hide Apply;
      IssueStep(u, w, ev, content);
      forall g | 0 <= g < |t.issued| && t.issued[g].content == content ensures g < |w.issued| && w.issued[g].content == content {
        assert t.issued[..|w.issued|][g] == t.issued[g];
      }
    } else {
      hide Begin; hide Settle; hide Defer; hide Resolve;
      forall g | 0 <= g < |w.issued| ensures w.issued[g].content != content { }
      if ev.EvDeliver? { DeliverIssues(u, w, ev.copy, ev.verdict); }
    }
  }

  /**
    Over every run whose requests for a content carry no key, and in which the
    content stays pending from its first row on, one row is issued for it and
    it takes effect at most once, however often the command is repeated.
   */
  lemma RepeatedCommandTakesEffectOnce(u: Setup, start: World, events: seq<Event>, content: nat, i: nat, j: nat)
    requires WellTimed(u) && Initial(start) && Keyless(events, content) && HeldPending(u, start, events, content)
    requires var w := After(u, start, events);
             i < |w.effects| && j < |w.effects| && w.effects[i].content == w.effects[j].content == content
    ensures OneRowOf(After(u, start, events), content) && i == j
  {
    hide After; hide Covered; hide Backed; hide Spaced; hide Honest; hide CopyOk; hide HeldPending; hide Keyless;
    OneRowIssued(u, start, events, content);
    AlwaysInv(u, start, events);
    var w := After(u, start, events);
    assert EffectOk(u, w, w.effects[i]) && EffectOk(u, w, w.effects[j]);
    AtMostOnce(u, start, events, i, j);
  }

  // ---- One pending row for each content ----

  ghost predicate OnePending(w: World) {
    forall x, y | x in w.journal && y in w.journal && x.status.Pending? && y.status.Pending? && x.content == y.content :: x.gen == y.gen
  }

  ghost predicate NoKey(ev: Event) { ev.EvRequest? ==> ev.attempt.key.None? }

  // The key that a lost or temporary answer makes pending again.
  ghost function PutBack(w: World, ev: Event): Option<nat> {
    match ev
    case EvUnanswered(id) => Some(id)
    case EvReceive(r) => if r in w.replies && r.answer.TryLater? then Some(r.id) else None
    case _ => None
  }

  // The key is settled although its content is pending under another one.
  ghost predicate Beside(w: World, id: nat) {
    exists x, y | x in w.journal && y in w.journal :: x.id == id && !x.status.Pending? && y.status.Pending? && x.content == y.content
  }

  ghost predicate Revives(w: World, ev: Event) {
    PutBack(w, ev).Some? && Beside(w, PutBack(w, ev).value)
  }

  // Every pending row continues a pending row.
  ghost predicate Quieter(w: World, t: World) {
    forall y | y in t.journal && y.status.Pending? :: exists x | x in w.journal :: SameIntent(x, y) && x.status.Pending?
  }

  lemma QuieterOne(w: World, t: World)
    requires OnePending(w) && Quieter(w, t)
    ensures OnePending(t)
  {
    forall x, y | x in t.journal && y in t.journal && x.status.Pending? && y.status.Pending? && x.content == y.content
      ensures x.gen == y.gen
    {
      var x' :| x' in w.journal && SameIntent(x', x) && x'.status.Pending?;
      var y' :| y' in w.journal && SameIntent(y', y) && y'.status.Pending?;
    }
  }

  lemma SubsetQuieter(w: World, t: World)
    requires forall y | y in t.journal :: y in w.journal
    ensures Quieter(w, t)
  {
    forall y | y in t.journal && y.status.Pending? ensures exists x | x in w.journal :: SameIntent(x, y) && x.status.Pending? {
      assert SameIntent(y, y);
    }
  }

  lemma PutRows(j: seq<Row>, id: nat, change: Row -> Row, y: Row)
    requires y in Put(j, id, change)
    ensures exists x | x in j :: y == if x.id == id then change(x) else x
  {
    var t := Put(j, id, change);
    var i :| 0 <= i < |t| && t[i] == y;
    assert j[i] in j;
  }

  lemma RowsPut(j: seq<Row>, id: nat, change: Row -> Row, x: Row)
    requires x in j
    ensures (if x.id == id then change(x) else x) in Put(j, id, change)
  {
    var i :| 0 <= i < |j| && j[i] == x;
    assert Put(j, id, change)[i] in Put(j, id, change);
  }

  lemma ResolveQuieter(w: World, id: nat)
    ensures Quieter(w, w.(journal := Resolve(w.journal, id)))
  {
    forall y | y in Resolve(w.journal, id) && y.status.Pending?
      ensures exists x | x in w.journal :: SameIntent(x, y) && x.status.Pending?
    {
      PutRows(w.journal, id, Resolution(), y);
      var x :| x in w.journal && y == if x.id == id then Resolution()(x) else x;
      assert SameIntent(x, y);
    }
  }

  lemma AnswerQuieter(w: World, id: nat, answer: Answer)
    requires !answer.TryLater?
    ensures Quieter(w, w.(journal := Settle(w.journal, id, answer, w.now)))
  {
    forall y | y in Settle(w.journal, id, answer, w.now) && y.status.Pending?
      ensures exists x | x in w.journal :: SameIntent(x, y) && x.status.Pending?
    {
      KeptHolds(Put(w.journal, id, Settlement(answer, w.now)), Stale(w.now), y);
      PutRows(w.journal, id, Settlement(answer, w.now), y);
      var x :| x in w.journal && y == if x.id == id then Settlement(answer, w.now)(x) else x;
      assert SameIntent(x, y);
    }
  }

  // ---- Rows put back ----

  // The journal after a deferral: the row is pending again, no other pending row changes.
  ghost predicate Postponed(w: World, t: World, id: nat) {
    && (forall y | y in t.journal && y.status.Pending? ::
          exists x | x in w.journal :: SameIntent(x, y) && (x.status.Pending? || x.id == id))
    && (forall x | x in w.journal && (x.status.Pending? || x.id == id) ::
          exists y | y in t.journal :: SameIntent(x, y) && y.status.Pending?)
  }

  lemma DeferPostpones(w: World, id: nat)
    ensures Postponed(w, w.(journal := Defer(w.journal, id, w.now)), id)
  {
    hide RetryDelay;
    var t := Defer(w.journal, id, w.now);
    forall y | y in t && y.status.Pending?
      ensures exists x | x in w.journal :: SameIntent(x, y) && (x.status.Pending? || x.id == id)
    {
      PutRows(w.journal, id, Deferral(w.now), y);
      var x :| x in w.journal && y == if x.id == id then Deferral(w.now)(x) else x;
      assert SameIntent(x, y);
    }
    forall x | x in w.journal && (x.status.Pending? || x.id == id)
      ensures exists y | y in t :: SameIntent(x, y) && y.status.Pending?
    {
      RowsPut(w.journal, id, Deferral(w.now), x);
      var y := if x.id == id then Deferral(w.now)(x) else x;
      assert y in t && SameIntent(x, y) && y.status.Pending?;
    }
  }

  lemma LaterPostpones(w: World, id: nat)
    ensures Postponed(w, w.(journal := Settle(w.journal, id, TryLater, w.now)), id)
  {
    hide RetryDelay;
    var put := Put(w.journal, id, Settlement(TryLater, w.now));
    var t := Settle(w.journal, id, TryLater, w.now);
    forall y | y in t && y.status.Pending?
      ensures exists x | x in w.journal :: SameIntent(x, y) && (x.status.Pending? || x.id == id)
    {
      KeptHolds(put, Stale(w.now), y);
      PutRows(w.journal, id, Settlement(TryLater, w.now), y);
      var x :| x in w.journal && y == if x.id == id then Settlement(TryLater, w.now)(x) else x;
      assert SameIntent(x, y);
    }
    forall x | x in w.journal && (x.status.Pending? || x.id == id)
      ensures exists y | y in t :: SameIntent(x, y) && y.status.Pending?
    {
      RowsPut(w.journal, id, Settlement(TryLater, w.now), x);
      var y := if x.id == id then Settlement(TryLater, w.now)(x) else x;
      KeptHolds(put, Stale(w.now), y);
      assert y in t && SameIntent(x, y) && y.status.Pending?;
    }
  }

  lemma Continued(w: World, t: World, id: nat, x: Row) returns (y: Row)
    requires Postponed(w, t, id) && x in w.journal && (x.status.Pending? || x.id == id)
    ensures y in t.journal && y.gen == x.gen && y.content == x.content && y.status.Pending?
  {
    y :| y in t.journal && SameIntent(x, y) && y.status.Pending?;
  }

  lemma Origin(w: World, t: World, id: nat, y: Row) returns (x: Row)
    requires Postponed(w, t, id) && y in t.journal && y.status.Pending?
    ensures x in w.journal && y.gen == x.gen && y.content == x.content && (x.status.Pending? || x.id == id)
  {
    x :| x in w.journal && SameIntent(x, y) && (x.status.Pending? || x.id == id);
  }

  lemma RowsDistinct(w: World, x: Row, y: Row)
    requires RowsOk(w) && x in w.journal && y in w.journal && (x.gen == y.gen || x.id == y.id)
    ensures x == y
  {
    hide UniqueIds;
    assert SameIntent(w.issued[x.gen], x) && SameIntent(w.issued[y.gen], y);
    OneRow(w.journal, x, y);
  }

  lemma PostponedTwo(w: World, t: World, id: nat)
    requires RowsOk(w) && Postponed(w, t, id) && Beside(w, id)
    ensures !OnePending(t)
  {
    hide RowsOk; hide Postponed;
    var x, y :| x in w.journal && y in w.journal && x.id == id && !x.status.Pending? && y.status.Pending? && x.content == y.content;
    var x' := Continued(w, t, id, x);
    var y' := Continued(w, t, id, y);
    if x.gen == y.gen { RowsDistinct(w, x, y); }
  }

  lemma PostponedOne(w: World, t: World, id: nat)
    requires RowsOk(w) && OnePending(w) && Postponed(w, t, id) && !Beside(w, id)
    ensures OnePending(t)
  {
    hide RowsOk; hide Postponed;
    forall x, y | x in t.journal && y in t.journal && x.status.Pending? && y.status.Pending? && x.content == y.content
      ensures x.gen == y.gen
    {
      var x' := Origin(w, t, id, x);
      var y' := Origin(w, t, id, y);
      if x'.id == id && y'.id == id { RowsDistinct(w, x', y'); }
    }
  }

  // ---- Each step ----

  lemma BegunRows(j: seq<Row>, a: Attempt, gen: nat, now: int, window: nat)
    requires Begin(j, a, gen, now, window).Sending?
    ensures forall y | y in Begin(j, a, gen, now, window).journal ::
              y in j || y == Row(KeyOf(j, a), gen, a.content, a.execution, Pending, now, 0, None)
  {
    hide Find; hide Kept; hide KeyOf;
    forall y ensures y in Kept(j, Evicted(a.evict)) ==> y in j { KeptHolds(j, Evicted(a.evict), y); }
  }

  lemma RequestOne(u: Setup, w: World, a: Attempt, tries: nat)
    requires Inv(u, w) && OnePending(w) && a.key.None?
    ensures OnePending(Apply(u, w, EvRequest(a, tries)))
  {
    hide Begin; hide Inv; hide KeyOf;
    var t := Apply(u, w, EvRequest(a, tries));
    if InJournal(w, a.content) {
      var i := OldestExists(w.journal, a.content);
      RepeatResends(u, w, a, tries, i);
      SubsetQuieter(w, t);
      QuieterOne(w, t);
    } else if t != w {
      BegunRows(w.journal, a, |w.issued|, w.now, u.window);
      forall x | x in w.journal ensures !Waiting(x, a.content) { }
    }
  }

  /** Without caller's keys, one pending row per content survives a step exactly unless it puts a settled row back beside a pending one. */
  lemma OnePendingStep(u: Setup, w: World, ev: Event)
    requires Inv(u, w) && OnePending(w) && NoKey(ev)
    ensures OnePending(Apply(u, w, ev)) <==> !Revives(w, ev)
  {
    hide Inv; hide OnePending; hide Begin; hide Settle; hide Defer; hide Resolve; hide Postponed; hide Quieter; hide RowsOk; hide Beside;
    assert RowsOk(w) by { InvRows(u, w); }
    match ev {
      case EvRequest(a, tries) => RequestOne(u, w, a, tries);
      case EvReceive(r) =>
        if r in w.replies {
          if r.answer.TryLater? {
            LaterPostpones(w, r.id);
            if Beside(w, r.id) { PostponedTwo(w, Apply(u, w, ev), r.id); } else { PostponedOne(w, Apply(u, w, ev), r.id); }
          } else {
            AnswerQuieter(w, r.id, r.answer);
            QuieterOne(w, Apply(u, w, ev));
          }
        }
      case EvUnanswered(id) =>
        DeferPostpones(w, id);
        if Beside(w, id) { PostponedTwo(w, Apply(u, w, ev), id); } else { PostponedOne(w, Apply(u, w, ev), id); }
      case EvResolve(id) =>
        ResolveQuieter(w, id);
        QuieterOne(w, Apply(u, w, ev));
      case EvDeliver(c, v) =>
        DeliverJournal(u, w, c, v);
        SameOne(w, Apply(u, w, ev));
      case _ => SameOne(w, Apply(u, w, ev));
    }
  }

  lemma InvRows(u: Setup, w: World)
    requires Inv(u, w)
    ensures RowsOk(w)
  {
  }

  lemma SameOne(w: World, t: World)
    requires t.journal == w.journal && OnePending(w)
    ensures OnePending(t)
  {
  }

  /**
    Over every run without caller's keys, each content has at most one pending
    row at all times if and only if no step puts a settled row back beside one.
   */
  lemma {:induction false} OnePendingPerContent(u: Setup, start: World, events: seq<Event>)
    requires WellTimed(u) && Initial(start) && forall n | 0 <= n < |events| :: NoKey(events[n])
    ensures (forall n | 0 <= n <= |events| :: OnePending(After(u, start, events[..n]))) <==>
            (forall n | 0 <= n < |events| :: !Revives(After(u, start, events[..n]), events[n]))
  {
    hide Apply; hide Inv; hide OnePending; hide Revives; hide NoKey;
    assert events[..|events|] == events;
    if events == [] {
      StartOne(start);
    } else {
      var m := |events| - 1;
      var before := events[..m];
      assert forall k | 0 <= k <= m :: before[..k] == events[..k];
      OnePendingPerContent(u, start, before);
      AlwaysInv(u, start, before);
      if forall n | 0 <= n < m :: !Revives(After(u, start, before[..n]), before[n]) {
        assert before[..m] == before;
        OnePendingStep(u, After(u, start, before), events[m]);
        forall n | 0 <= n < m && (forall k | 0 <= k < |events| :: !Revives(After(u, start, events[..k]), events[k]))
          ensures !Revives(After(u, start, before[..n]), before[n]) { }
      } else {
        var n :| 0 <= n < m && Revives(After(u, start, before[..n]), before[n]);
        assert Revives(After(u, start, events[..n]), events[n]);
        var k :| 0 <= k <= m && !OnePending(After(u, start, before[..k]));
        assert !OnePending(After(u, start, events[..k]));
      }
    }
  }

  lemma StartOne(start: World)
    requires Initial(start)
    ensures OnePending(start)
  {
  }

  // ---- A run with two pending rows for one content ----

  function Command(drawn: nat): Event { EvRequest(Attempt(None, drawn, 7, 0, false, {}, false), 1) }

  lemma FirstCommand(u: Setup, w: World)
    requires Initial(w)
    ensures Apply(u, w, Command(1)).journal == [Row(1, 0, 7, 0, Pending, w.now, 0, None)]
    ensures |Apply(u, w, Command(1)).issued| == 1 && Apply(u, w, Command(1)).now == w.now
  {
    assert Kept(w.journal, Evicted({})) == [];
  }

  lemma KeptOne(row: Row)
    ensures Kept([row], Evicted({})) == [row]
  {
    assert [row][..0] == [] && Kept([], Evicted({})) == [];
  }

  lemma SecondCommand(u: Setup, w: World)
    requires w.journal == [Row(1, 0, 7, 0, Resolved, w.now, 0, None)] && |w.issued| == 1
    ensures Apply(u, w, Command(2)).journal == w.journal + [Row(2, 1, 7, 0, Pending, w.now, 0, None)]
    ensures Apply(u, w, Command(2)).now == w.now
  {
    var j := w.journal;
    KeptOne(j[0]);
    assert j[..0] == [] && SamePending(j, 7).None? && Find(j, 2).None?;
  }

  /** An intent is closed, its command is repeated, and the late failure of its own transmission makes it pending beside the new one. */
  lemma ClosedIntentRevives(u: Setup, start: World)
    requires Initial(start)
    ensures !OnePending(After(u, start, [Command(1), EvResolve(1), Command(2), EvUnanswered(1)]))
  {
    hide Begin; hide After; hide Command; hide OnePending; hide RetryDelay;
    var one := Apply(u, start, Command(1));
    FirstCommand(u, start);
    var two := Apply(u, one, EvResolve(1));
    assert two.journal == [Row(1, 0, 7, 0, Resolved, start.now, 0, None)];
    var three := Apply(u, two, Command(2));
    SecondCommand(u, two);
    var four := Apply(u, three, EvUnanswered(1));
    TwoPending(four);
    AfterFour(u, start, Command(1), EvResolve(1), Command(2), EvUnanswered(1));
  }

  lemma TwoPending(w: World)
    requires |w.journal| == 2 && w.journal[0].status.Pending? && w.journal[1].status.Pending?
    requires w.journal[0].content == w.journal[1].content && w.journal[0].gen != w.journal[1].gen
    ensures !OnePending(w)
  {
    assert w.journal[0] in w.journal && w.journal[1] in w.journal;
  }
}
