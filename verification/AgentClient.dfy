/** The client object over its journal, and its recovery counter (client.py `AgentClient`). */
module AgentClient {
  import opened Wrappers
  import opened Journal

  // ---- The recovery counter ----

  datatype Recovery = Recovery(count: nat, execution: nat, oldest: nat)

  // `recovery_state`: one observation of the oldest unresolved intent.
  function Observed(j: seq<Row>, last: Option<Recovery>, execution: nat): Option<Recovery> {
    if Oldest(j).None? then None
    else
      var id := j[Oldest(j).value].id;
      if last.Some? && last.value.oldest == id
      then Some(Recovery(last.value.count + (if last.value.execution != execution then 1 else 0), execution, id))
      else Some(Recovery(1, execution, id))
  }

  // An execution looked at a journal.
  datatype Look = Look(journal: seq<Row>, execution: nat)

  function OldestId(l: Look): Option<nat> {
    if Oldest(l.journal).Some? then Some(l.journal[Oldest(l.journal).value].id) else None
  }

  function Recorded(looks: seq<Look>): Option<Recovery> {
    if |looks| == 0 then None
    else
      var n := |looks| - 1;
      Observed(looks[n].journal, Recorded(looks[..n]), looks[n].execution)
  }

  // How many of the looks k+1..n were by another execution than the look before.
  function Changes(looks: seq<Look>, k: nat, n: nat): nat
    requires k < n <= |looks|
  {
    if n == k + 1 then 0
    else Changes(looks, k, n - 1) + (if looks[n - 1].execution != looks[n - 2].execution then 1 else 0)
  }

  // The last stretch of looks that met the same oldest intent.
  ghost predicate Stretch(looks: seq<Look>, k: nat) {
    && k < |looks| && (forall i | k <= i < |looks| :: OldestId(looks[i]) == OldestId(looks[|looks| - 1]))
    && (k > 0 ==> OldestId(looks[k - 1]) != OldestId(looks[|looks| - 1]))
  }

  lemma RecordedOldest(looks: seq<Look>)
    requires |looks| > 0
    ensures Recorded(looks).Some? <==> OldestId(looks[|looks| - 1]).Some?
    ensures Recorded(looks).Some? ==> Some(Recorded(looks).value.oldest) == OldestId(looks[|looks| - 1])
    ensures Recorded(looks).Some? ==> Recorded(looks).value.execution == looks[|looks| - 1].execution
  {
  }

  lemma {:induction false} ChangesPrefix(looks: seq<Look>, m: nat, k: nat, n: nat)
    requires k < n <= m <= |looks|
    ensures Changes(looks[..m], k, n) == Changes(looks, k, n)
  {
    if n > k + 1 { ChangesPrefix(looks, m, k, n - 1); }
  }

  /**
    The counter is the number of successive executions that met the same
    oldest unresolved intent, whatever happened to newer ones in between.
   */
  lemma {:induction false} CounterCountsExecutions(looks: seq<Look>, k: nat)
    requires Stretch(looks, k) && OldestId(looks[|looks| - 1]).Some?
    ensures Recorded(looks).Some? && Recorded(looks).value.count == 1 + Changes(looks, k, |looks|)
  {
    hide Oldest;
    var n := |looks| - 1;
    var before := looks[..n];
    if k < n {
      assert before[n - 1] == looks[n - 1];
      forall i | k <= i < n ensures OldestId(before[i]) == OldestId(before[n - 1]) {
        assert OldestId(looks[i]) == OldestId(looks[n]) && OldestId(looks[n - 1]) == OldestId(looks[n]);
      }
      CounterCountsExecutions(before, k);
      RecordedOldest(before);
      ChangesPrefix(looks, n, k, n);
    } else if n > 0 {
      assert before[n - 1] == looks[n - 1];
      RecordedOldest(before);
    }
  }

  /** A newer intent never takes the oldest one's place. */
  lemma {:induction false} NewerIntentsWait(j: seq<Row>, more: seq<Row>)
    requires Oldest(j).Some?
    ensures Oldest(j + more) == Oldest(j)
    decreases |more|
  {
    if |more| > 0 {
      var n := |more| - 1;
      assert (j + more)[..|j + more| - 1] == j + more[..n];
      NewerIntentsWait(j, more[..n]);
    } else {
      assert j + more == j;
    }
  }

  // ---- The client ----

  datatype Outcome = NotSent(problem: Problem) | Unanswered(id: nat) | Answered(id: nat, answer: Answer)

  // What a request leaves in the journal; a missing response defers it.
  function Requested(j: seq<Row>, a: Attempt, gen: nat, now: int, window: nat, response: Option<Answer>): (seq<Row>, Outcome) {
    var begun := Begin(j, a, gen, now, window);
    if begun.Refused? then (j, NotSent(begun.problem))
    else if response.None? then (Defer(begun.journal, begun.id, now), Unanswered(begun.id))
    else (Settle(begun.journal, begun.id, response.value, now), Answered(begun.id, response.value))
  }

  ghost predicate Ends(response: Option<Answer>) { response.Some? && (response.value.Success? || response.value.NoEffect?) }

  lemma RequestedKeeps(j: seq<Row>, a: Attempt, gen: nat, now: int, window: nat, response: Option<Answer>)
    requires UniqueIds(j)
    ensures UniqueIds(Requested(j, a, gen, now, window, response).0)
    ensures forall x | x in j && Unresolved(x) && (x.id == KeyOf(j, a) ==> !Ends(response)) ::
              exists y | y in Requested(j, a, gen, now, window, response).0 :: SameIntent(x, y) && Unresolved(y)
  {
    hide Kept; hide KeyOf; hide Find;
    var begun := Begin(j, a, gen, now, window);
    var t := Requested(j, a, gen, now, window, response).0;
    if begun.Refused? {
      forall x | x in j && Unresolved(x) ensures exists y | y in t :: SameIntent(x, y) && Unresolved(y) { assert SameIntent(x, x); }
    } else {
      BeginKeeps(j, a, gen, now, window);
      if response.None? { DeferKeeps(begun.journal, begun.id, now); } else { SettleKeeps(begun.journal, begun.id, response.value, now); }
      forall x | x in j && Unresolved(x) && (x.id == KeyOf(j, a) ==> !Ends(response))
        ensures exists y | y in t :: SameIntent(x, y) && Unresolved(y)
      {
        BegunHas(j, a, gen, now, window, x);
        if response.None? { DeferredHas(begun.journal, begun.id, now, x); }
      }
    }
  }

  lemma BegunHas(j: seq<Row>, a: Attempt, gen: nat, now: int, window: nat, x: Row)
    requires Begin(j, a, gen, now, window).Sending? && x in j && Unresolved(x)
    ensures x in Begin(j, a, gen, now, window).journal && Begin(j, a, gen, now, window).id == KeyOf(j, a)
  {
    hide KeyOf; hide Find; hide Kept;
    KeptHolds(j, Evicted(a.evict), x);
  }

  lemma BegunIs(j: seq<Row>, a: Attempt, gen: nat, now: int, window: nat)
    requires Begin(j, a, gen, now, window).Sending?
    ensures var b := Begin(j, a, gen, now, window);
            b.id == KeyOf(j, a) && forall y | y in b.journal && y.id != b.id :: y in j
  {
    hide KeyOf; hide Find; hide Kept;
    forall y ensures y in Kept(j, Evicted(a.evict)) ==> y in j { KeptHolds(j, Evicted(a.evict), y); }
  }

  lemma DeferredHas(j: seq<Row>, id: nat, now: int, x: Row)
    requires x in j && Unresolved(x)
    ensures exists y | y in Defer(j, id, now) :: SameIntent(x, y) && Unresolved(y)
  {
    var i :| 0 <= i < |j| && j[i] == x;
    var y := Defer(j, id, now)[i];
    assert y in Defer(j, id, now) && SameIntent(x, y) && Unresolved(y);
  }

  // ---- Replay ----

  // Unresolved rows, oldest first.
  function Open(j: seq<Row>): (r: seq<Row>)
    ensures forall x :: x in r <==> x in j && Unresolved(x)
  {
    if |j| == 0 then []
    else
      var rest := Open(j[..|j| - 1]);
      assert j == j[..|j| - 1] + [j[|j| - 1]];
      if Unresolved(j[|j| - 1]) then rest + [j[|j| - 1]] else rest
  }

  predicate Waits(j: seq<Row>, id: nat) { exists i | 0 <= i < |j| :: j[i].id == id && Unresolved(j[i]) }

  // Reports that concern a row which is still unresolved.
  function StillWaiting(ids: seq<nat>, j: seq<Row>): (r: seq<nat>)
    ensures forall id :: id in r <==> id in ids && Waits(j, id)
  {
    if |ids| == 0 then []
    else
      var rest := StillWaiting(ids[..|ids| - 1], j);
      assert ids == ids[..|ids| - 1] + [ids[|ids| - 1]];
      if Waits(j, ids[|ids| - 1]) then rest + [ids[|ids| - 1]] else rest
  }

  // Each unresolved row that its own answer did not end is still unresolved.
  ghost predicate StillOpen(before: seq<Row>, after: seq<Row>, respond: nat -> Option<Answer>) {
    forall x | x in before && Unresolved(x) && (x.status.Pending? ==> !Ends(respond(x.id))) ::
      exists y | y in after :: SameIntent(x, y) && Unresolved(y)
  }

  lemma SelfOpen(j: seq<Row>, respond: nat -> Option<Answer>)
    ensures StillOpen(j, j, respond)
  {
    forall x | x in j && Unresolved(x) ensures exists y | y in j :: SameIntent(x, y) && Unresolved(y) { assert SameIntent(x, x); }
  }

  lemma ReplayKeeps(before: seq<Row>, j: seq<Row>, a: Attempt, gen: nat, now: int, window: nat, respond: nat -> Option<Answer>, item: Row)
    requires UniqueIds(before) && UniqueIds(j) && StillOpen(before, j, respond) && item in before && item.status.Pending?
    requires a.key == Some(item.id)
    ensures StillOpen(before, Requested(j, a, gen, now, window, respond(item.id)).0, respond)
  {
    hide Requested; hide UniqueIds;
    RequestedKeeps(j, a, gen, now, window, respond(item.id));
    forall x | x in before && Unresolved(x) && (x.status.Pending? ==> !Ends(respond(x.id)))
      ensures exists y | y in Requested(j, a, gen, now, window, respond(item.id)).0 :: SameIntent(x, y) && Unresolved(y)
    {
      var y :| y in j && SameIntent(x, y) && Unresolved(y);
      if y.id == item.id { OneRow(before, x, item); }
      var z :| z in Requested(j, a, gen, now, window, respond(item.id)).0 && SameIntent(y, z) && Unresolved(z);
      assert SameIntent(x, z);
    }
  }

  // Every row under the sent key has the status its response gives; a missing
  // or temporary answer schedules a retry within five minutes.
  ghost predicate Decided(j: seq<Row>, outcome: Outcome, now: int)
    requires !outcome.NotSent?
  {
    forall x | x in j && x.id == outcome.id ::
      if outcome.Answered? && outcome.answer.Success? then x.status.Completed?
      else if outcome.Answered? && outcome.answer.NoEffect? then x.status.Invalid?
      else if outcome.Answered? && outcome.answer.Refusal? then x.status.Rejected?
      else x.status.Pending? && x.attempts > 0 && x.retryAt.Some? && now < x.retryAt.value <= now + 300
  }

  lemma RequestedParts(j: seq<Row>, a: Attempt, gen: nat, now: int, window: nat, response: Option<Answer>)
    ensures var begun := Begin(j, a, gen, now, window);
            Requested(j, a, gen, now, window, response) ==
            if begun.Refused? then (j, NotSent(begun.problem))
            else if response.None? then (Defer(begun.journal, begun.id, now), Unanswered(begun.id))
            else (Settle(begun.journal, begun.id, response.value, now), Answered(begun.id, response.value))
  {
    hide Begin; hide Defer; hide Settle;
  }

  // The row that a request sends is in the journal it sends from.
  lemma BegunSends(j: seq<Row>, a: Attempt, gen: nat, now: int, window: nat) returns (x: Row)
    requires UniqueIds(j) && Begin(j, a, gen, now, window).Sending?
    ensures x in Begin(j, a, gen, now, window).journal && x.id == Begin(j, a, gen, now, window).id && x.content == a.content
    ensures UniqueIds(Begin(j, a, gen, now, window).journal)
  {
    hide Kept; hide KeyOf; hide Find;
    BeginKeeps(j, a, gen, now, window);
    var id, kept := KeyOf(j, a), Kept(j, Evicted(a.evict));
    if Find(kept, id).Some? {
      x := kept[Find(kept, id).value];
      KeptHolds(j, Evicted(a.evict), x);
      OneRow(j, x, j[Find(j, id).value]);
    } else {
      x := Row(id, gen, a.content, a.execution, Pending, now, 0, None);
    }
  }

  lemma DeferDecides(j: seq<Row>, id: nat, now: int)
    ensures Decided(Defer(j, id, now), Unanswered(id), now)
    ensures forall x | x in j && x.id != id :: x in Defer(j, id, now)
    ensures forall x | x in j && x.id == id :: Later(x, now) in Defer(j, id, now)
    ensures forall y | y in Defer(j, id, now) && y.id != id :: y in j
  {
    hide RetryDelay;
    var t := Defer(j, id, now);
    forall x | x in j ensures (if x.id == id then Later(x, now) else x) in t {
      var i :| 0 <= i < |j| && j[i] == x;
      assert t[i] in t;
    }
  }

  lemma SettleDecides(j: seq<Row>, id: nat, answer: Answer, now: int)
    ensures Decided(Settle(j, id, answer, now), Outcome.Answered(id, answer), now)
    ensures forall x | x in j && Unresolved(x) && x.id != id :: x in Settle(j, id, answer, now)
    ensures answer.TryLater? || answer.Refusal? ==>
              forall x | x in j && x.id == id :: Journal.Answered(x, answer, now) in Settle(j, id, answer, now)
    ensures forall y | y in Settle(j, id, answer, now) && y.id != id :: y in j
  {
    hide RetryDelay;
    var t := Put(j, id, Settlement(answer, now));
    forall x | x in Settle(j, id, answer, now) ensures x in t { KeptHolds(t, Stale(now), x); }
    forall x | x in j ensures (if x.id == id then Journal.Answered(x, answer, now) else x) in t {
      var i :| 0 <= i < |j| && j[i] == x;
      assert t[i] in t;
    }
    forall x | x in j && Unresolved(x) && x.id != id ensures x in Settle(j, id, answer, now) { KeptHolds(t, Stale(now), x); }
    if answer.TryLater? || answer.Refusal? {
      forall x | x in j && x.id == id ensures Journal.Answered(x, answer, now) in Settle(j, id, answer, now) {
        KeptHolds(t, Stale(now), Journal.Answered(x, answer, now));
      }
    }
  }

  lemma RequestedDecides(j: seq<Row>, a: Attempt, gen: nat, now: int, window: nat, response: Option<Answer>)
    requires UniqueIds(j)
    ensures var (t, outcome) := Requested(j, a, gen, now, window, response);
            && (outcome.NotSent? ==> t == j)
            && (!outcome.NotSent? ==>
                  && Decided(t, outcome, now)
                  && outcome.id == KeyOf(j, a)
                  && (forall x | x in j && Unresolved(x) && x.id != outcome.id :: x in t)
                  && (forall y | y in t && y.id != outcome.id :: y in j)
                  && (!Ends(response) ==> exists y | y in t :: y.id == outcome.id && y.content == a.content && Unresolved(y)))
  {
    hide Begin; hide Defer; hide Settle; hide Decided; hide KeyOf; hide Later; hide Journal.Answered;
    var begun := Begin(j, a, gen, now, window);
    if begun.Sending? {
      var x := BegunSends(j, a, gen, now, window);
      BegunIs(j, a, gen, now, window);
      forall y | y in j && Unresolved(y) ensures y in begun.journal { BegunHas(j, a, gen, now, window, y); }
      if response.None? {
        DeferDecides(begun.journal, begun.id, now);
        LaterOpen(x, now);
      } else {
        SettleDecides(begun.journal, begun.id, response.value, now);
        LaterOpen(x, now);
        AnsweredOpen(x, response.value, now);
      }
    }
  }

  lemma LaterOpen(x: Row, now: int)
    ensures Later(x, now).id == x.id && Later(x, now).content == x.content && Unresolved(Later(x, now))
  {
  }

  lemma AnsweredOpen(x: Row, answer: Answer, now: int)
    ensures var y := Journal.Answered(x, answer, now);
            y.id == x.id && y.content == x.content && (answer.TryLater? || answer.Refusal? ==> Unresolved(y))
  {
  }

  // One replay: by which execution, when, under which window and with which responses.
  datatype Pass = Pass(execution: nat, now: int, window: nat, respond: nat -> Option<Answer>)

  // A row that the replay may send: pending, inside the window, and due or left
  // by another execution.
  predicate Sendable(p: Pass, x: Row) {
    && x.status.Pending? && p.now - p.window <= x.createdAt
    && (x.execution != p.execution || x.retryAt.None? || x.retryAt.value <= p.now)
  }

  datatype Fate = Completes | Blocks | Defers

  // How a replay reports a row.
  function FateOf(p: Pass, x: Row): Fate {
    if x.status.Pending? && p.now - p.window <= x.createdAt && !Sendable(p, x) then Defers
    else if !Sendable(p, x) || p.respond(x.id).None? then Blocks
    else match p.respond(x.id).value
      case Success(_) => Completes
      case TryLater => Defers
      case _ => Blocks
  }

  ghost predicate Fated(p: Pass, items: seq<Row>, id: nat, fate: Fate) { exists x | x in items :: x.id == id && FateOf(p, x) == fate }

  ghost predicate Reports(p: Pass, items: seq<Row>, ids: seq<nat>, fate: Fate) { forall id :: id in ids <==> Fated(p, items, id, fate) }

  lemma ReportsMore(p: Pass, items: seq<Row>, x: Row, ids: seq<nat>, more: seq<nat>, fate: Fate)
    requires Reports(p, items, ids, fate) && more == if FateOf(p, x) == fate then ids + [x.id] else ids
    ensures Reports(p, items + [x], more, fate)
  {
    hide FateOf;
    forall id ensures id in more <==> Fated(p, items + [x], id, fate) {
      if Fated(p, items, id, fate) {
        var y :| y in items && y.id == id && FateOf(p, y) == fate;
        assert y in items + [x];
      }
      assert x in items + [x];
    }
  }

  lemma {:induction false} OpenUnique(j: seq<Row>)
    requires UniqueIds(j)
    ensures UniqueIds(Open(j))
  {
    if |j| > 0 {
      var n := |j| - 1;
      OpenUnique(j[..n]);
      var rest := Open(j[..n]);
      forall i | 0 <= i < |rest| ensures rest[i].id != j[n].id {
        assert rest[i] in rest;
        var k :| 0 <= k < n && j[k] == rest[i];
      }
    }
  }

  // What a request under a journaled row's own key does with it.
  lemma ReplaySends(p: Pass, j: seq<Row>, a: Attempt, gen: nat, x: Row)
    requires UniqueIds(j) && x in j && x.status.Pending? && a.key == Some(x.id) && a.content == x.content
    requires a.execution == p.execution && a.force == (x.execution != p.execution)
    ensures var o := Requested(j, a, gen, p.now, p.window, p.respond(x.id)).1;
            && (o.NotSent? <==> !Sendable(p, x))
            && (!o.NotSent? ==> o == if p.respond(x.id).None? then Unanswered(x.id) else Outcome.Answered(x.id, p.respond(x.id).value))
            && (o.NotSent? ==> o.problem == if x.createdAt < p.now - p.window then TooOld else Deferred)
  {
    hide Kept; hide Find; hide UniqueIds;
    Sent(j, a, gen, p.now, p.window, x);
    var at := Find(j, x.id);
    assert at.Some?;
    OneRow(j, x, j[at.value]);
  }

  // The report that each outcome calls for.
  lemma OutcomeFate(p: Pass, x: Row, o: Outcome)
    requires x.status.Pending? && (o.NotSent? <==> !Sendable(p, x))
    requires !o.NotSent? ==> o == if p.respond(x.id).None? then Unanswered(x.id) else Outcome.Answered(x.id, p.respond(x.id).value)
    requires o.NotSent? ==> o.problem == if x.createdAt < p.now - p.window then TooOld else Deferred
    ensures FateOf(p, x) == if o.Answered? && o.answer.Success? then Completes
                            else if (o.Answered? && o.answer.TryLater?) || o == NotSent(Deferred) then Defers else Blocks
  {
  }

  lemma RejectedFate(p: Pass, x: Row)
    requires x.status.Rejected?
    ensures FateOf(p, x) == Blocks
  {
  }

  function FirstOf<T>(s: seq<T>, limit: nat): seq<T> { if limit < |s| then s[..limit] else s }

  lemma TakenRows(j: seq<Row>, limit: nat, items: seq<Row>)
    requires UniqueIds(j) && items == FirstOf(Open(j), limit)
    ensures forall i | 0 <= i < |items| :: items[i] in j && Unresolved(items[i])
    ensures UniqueIds(items)
  {
    OpenUnique(j);
    var all := Open(j);
    forall i | 0 <= i < |FirstOf(all, limit)| ensures all[i] in j && Unresolved(all[i]) { assert all[i] in all; }
  }

  lemma NotYetTaken(items: seq<Row>, i: nat)
    requires UniqueIds(items) && i < |items|
    ensures items[i] !in items[..i]
  {
  }

  lemma ItemWaits(j: seq<Row>, x: Row)
    requires x in j && Unresolved(x)
    ensures Waits(j, x.id)
  {
  }

  lemma NothingFated(p: Pass)
    ensures forall fate :: Reports(p, [], [], fate)
  {
  }

  // A success closes its own intent, and no request opens another one's.
  lemma WaitsLess(met: seq<Row>, j: seq<Row>, o: Outcome, id: nat, now: int)
    requires o.NotSent? ==> j == met
    requires !o.NotSent? ==> Decided(j, o, now) && forall y | y in j && y.id != o.id :: y in met
    requires if !o.NotSent? && o.id == id then o.Answered? && o.answer.Success? else !Waits(met, id)
    ensures !Waits(j, id)
  {
    if !o.NotSent? {
      forall i | 0 <= i < |j| && j[i].id == id ensures !Unresolved(j[i]) {
        assert j[i] in j;
        if o.id != id {
          assert j[i] in met;
          var k :| 0 <= k < |met| && met[k] == j[i];
        }
      }
    }
  }

  // A keyless request met the pending row i of its content.
  ghost predicate Resends(j: seq<Row>, a: Attempt, gen: nat, now: int, window: nat, response: Option<Answer>, i: nat) {
    i < |j| &&
    var (t, o) := Requested(j, a, gen, now, window, response); var x := j[i];
    && (o.NotSent? <==> x.createdAt < now - window || (x.retryAt.Some? && x.retryAt.value > now && !a.force))
    && (!o.NotSent? ==> o.id == x.id && forall y | y in t :: exists z | z in j :: SameIntent(z, y))
  }

  lemma ResendsOldest(j: seq<Row>, a: Attempt, gen: nat, now: int, window: nat, response: Option<Answer>, i: nat)
    requires UniqueIds(j) && a.key.None? && OldestWaiting(j, a.content, i)
    ensures Resends(j, a, gen, now, window, response, i)
  {
    hide Begin; hide Defer; hide Settle; hide UniqueIds;
    KeylessResends(j, a, gen, now, window, i);
    var begun := Begin(j, a, gen, now, window);
    if begun.Sending? {
      var t := Requested(j, a, gen, now, window, response).0;
      if response.None? { DeferKeeps(begun.journal, begun.id, now); } else { SettleKeeps(begun.journal, begun.id, response.value, now); }
      forall y | y in t ensures exists z | z in j :: SameIntent(z, y) {
        var z :| z in begun.journal && SameIntent(z, y);
        assert z in j;
      }
    }
  }

  class AgentClient {
    const execution: nat
    const window: nat
    var journal: seq<Row>
    var recovery: Option<Recovery>
    var issued: nat

    ghost predicate Valid()
      reads this
    {
      UniqueIds(journal) && (recovery.Some? ==> recovery.value.count > 0)
    }

    constructor (execution: nat, window: nat)
      ensures Valid() && journal == [] && recovery.None? && issued == 0
      ensures this.execution == execution && this.window == window
    {
      this.execution, this.window := execution, window;
      journal, recovery, issued := [], None, 0;
    }

    /** Journals the intent before it is sent, and settles or defers it after. */
    method Request(key: Option<nat>, drawn: nat, content: nat, force: bool, evict: set<nat>, full: bool, now: int,
                   response: Option<Answer>) returns (outcome: Outcome)
      requires Valid()
      modifies this
      ensures Valid() && issued == old(issued) + 1 && recovery == old(recovery)
      ensures (journal, outcome) == Requested(old(journal), Attempt(key, drawn, content, execution, force, evict, full),
                                              old(issued), now, window, response)
      // A refusal leaves the journal alone. Otherwise the response decides the
      // intent that was sent, and no other unresolved intent is touched or lost.
      ensures outcome.NotSent? ==> journal == old(journal)
      ensures !outcome.NotSent? ==> Decided(journal, outcome, now)
      ensures !outcome.NotSent? ==>
                forall x | x in old(journal) && Unresolved(x) && x.id != outcome.id :: x in journal
      ensures !outcome.NotSent? && !Ends(response) ==>
                exists y | y in journal :: y.id == outcome.id && y.content == content && Unresolved(y)
      ensures !outcome.NotSent? ==> forall y | y in journal && y.id != outcome.id :: y in old(journal)
      // A caller's key is the one sent. Without one, the oldest pending row of
      // this content is resent and none added; a fresh key is used only if there is none.
      ensures key.Some? && !outcome.NotSent? ==> outcome.id == key.value
      ensures key.None? ==> forall i: nat | OldestWaiting(old(journal), content, i) ::
                var x := old(journal)[i];
                && (outcome.NotSent? <==> x.createdAt < now - window || (x.retryAt.Some? && x.retryAt.value > now && !force))
                && (!outcome.NotSent? ==> outcome.id == x.id && forall y | y in journal :: exists z | z in old(journal) :: SameIntent(z, y))
      ensures key.None? && !outcome.NotSent? && (forall x | x in old(journal) :: !Waiting(x, content)) ==> outcome.id == drawn
    {
      hide Requested; hide Begin; hide Defer; hide Settle; hide Decided; hide KeyOf; hide Waiting; hide OldestWaiting;
      var a := Attempt(key, drawn, content, execution, force, evict, full);
      RequestedKeeps(journal, a, issued, now, window, response);
      RequestedDecides(journal, a, issued, now, window, response);
      RequestedParts(journal, a, issued, now, window, response);
      KeyChoice(journal, a);
      if key.None? {
        forall i: nat | OldestWaiting(journal, content, i) ensures Resends(journal, a, issued, now, window, response, i) {
          ResendsOldest(journal, a, issued, now, window, response, i);
        }
      }
      var begun := Begin(journal, a, issued, now, window);
      issued := issued + 1;
      if begun.Refused? { return NotSent(begun.problem); }
      journal := begun.journal;
      if response.None? {
        journal := Defer(journal, begun.id, now);
        return Unanswered(begun.id);
      }
      journal := Settle(journal, begun.id, response.value, now);
      return Answered(begun.id, response.value);
    }

    /**
      Replays the oldest unresolved intents. Each is reported by its fate: sent
      and answered by success, to be tried later, or in need of attention.
      Rejected rows, rows past the window and rows of this execution that are
      not yet due are not sent. Every unresolved intent survives unresolved,
      unless its own replay was answered by a success or a known rejection
      without effect, and one that is not sent stays as it is.
     */
    method ReplayPending(limit: nat, evict: set<nat>, now: int, respond: nat -> Option<Answer>)
        returns (completed: seq<nat>, blocked: seq<nat>, deferred: seq<nat>, pending: nat)
      requires Valid()
      modifies this
      ensures Valid() && recovery == old(recovery)
      ensures StillOpen(old(journal), journal, respond)
      ensures var taken := FirstOf(Open(old(journal)), limit); var p := Pass(execution, now, window, respond);
              && (forall id :: id in completed <==> Fated(p, taken, id, Completes))
              && (forall id :: id in blocked <==> Fated(p, taken, id, Blocks) && Waits(journal, id))
              && (forall id :: id in deferred <==> Fated(p, taken, id, Defers) && Waits(journal, id))
              && (forall x | x in old(journal) && Unresolved(x) && !(x in taken && Sendable(p, x)) :: x in journal)
      ensures forall id | id in completed :: !Waits(journal, id)
      ensures pending == |Open(journal)|
    {
      hide Requested; hide UniqueIds; hide StillOpen; hide KeyOf; hide Fated; hide Sendable; hide FateOf; hide Waiting; hide OldestWaiting;
      hide Decided; hide Ends; hide Waits; hide Open;
      completed, blocked, deferred := [], [], [];
      ghost var before, p := journal, Pass(execution, now, window, respond);
      var items := FirstOf(Open(journal), limit);
      SelfOpen(journal, respond);
      TakenRows(journal, limit, items);
      NothingFated(p);
      for i := 0 to |items|
        invariant UniqueIds(journal) && recovery == old(recovery)
        invariant StillOpen(before, journal, respond)
        invariant Reports(p, items[..i], completed, Completes)
        invariant Reports(p, items[..i], blocked, Blocks)
        invariant Reports(p, items[..i], deferred, Defers)
        invariant forall x | x in before && Unresolved(x) && !(x in items[..i] && Sendable(p, x)) :: x in journal
        invariant forall id | id in completed :: !Waits(journal, id)
      {
        var item := items[i];
        assert items[..i + 1] == items[..i] + [item];
        NotYetTaken(items, i);
        assert item in before && Unresolved(item) && item !in items[..i];
        assert item in journal;
        ghost var fate := FateOf(p, item);
        ReportsMore(p, items[..i], item, completed, if fate == Completes then completed + [item.id] else completed, Completes);
        ReportsMore(p, items[..i], item, blocked, if fate == Blocks then blocked + [item.id] else blocked, Blocks);
        ReportsMore(p, items[..i], item, deferred, if fate == Defers then deferred + [item.id] else deferred, Defers);
        if item.status.Rejected? {
          RejectedFate(p, item);
          blocked := blocked + [item.id];
        } else {
          var resumed := item.execution != execution;
          ghost var met, a := journal, Attempt(Some(item.id), 0, item.content, execution, resumed, evict, false);
          ReplayKeeps(before, journal, a, issued, now, window, respond, item);
          ReplaySends(p, journal, a, issued, item);
          var outcome := Request(Some(item.id), 0, item.content, resumed, evict, false, now, respond(item.id));
          OutcomeFate(p, item, outcome);
          ItemWaits(met, item);
          forall id | id in completed ensures !Waits(journal, id) { WaitsLess(met, journal, outcome, id, now); }
          forall x | x in before && Unresolved(x) && !(x in items[..i + 1] && Sendable(p, x)) ensures x in journal {
            if x.id == item.id { OneRow(before, x, item); }
          }
          if outcome.Answered? && outcome.answer.Success? {
            WaitsLess(met, journal, outcome, item.id, now);
            completed := completed + [item.id];
          } else if (outcome.Answered? && outcome.answer.TryLater?) || outcome == NotSent(Deferred) {
            deferred := deferred + [item.id];
          } else {
            blocked := blocked + [item.id];
          }
        }
      }
      assert items[..|items|] == items;
      blocked := StillWaiting(blocked, journal);
      deferred := StillWaiting(deferred, journal);
      pending := |Open(journal)|;
    }

    /**
      Observes one recovery boundary: the count grows by one exactly when
      another execution meets the same oldest unresolved intent, and starts over
      at one with another intent.
     */
    method RecoveryState() returns (pending: nat, observations: nat)
      requires Valid()
      modifies this`recovery
      ensures Valid() && recovery == Observed(journal, old(recovery), execution)
      ensures pending == |Open(journal)| && observations == (if recovery.Some? then recovery.value.count else 0)
      ensures pending > 0 <==> observations > 0
      ensures recovery.Some? ==> Oldest(journal).Some? && recovery.value.oldest == journal[Oldest(journal).value].id
      ensures recovery.Some? ==>
                var same := old(recovery).Some? && old(recovery).value.oldest == recovery.value.oldest;
                observations == (if !same then 1
                                 else old(recovery).value.count + (if old(recovery).value.execution != execution then 1 else 0))
    {
      OpenOldest(journal);
      pending := |Open(journal)|;
      recovery := Observed(journal, recovery, execution);
      observations := if recovery.Some? then recovery.value.count else 0;
    }

    /** Closes an unresolved intent once its repair is recorded; no other row changes. */
    method ResolveIntent(id: nat) returns (ok: bool)
      requires Valid()
      modifies this`journal
      ensures Valid() && ok == (Waits(old(journal), id) || exists x | x in old(journal) :: x.id == id && x.status.Resolved?)
      ensures journal == if ok then Resolve(old(journal), id) else old(journal)
      ensures ok ==> !Waits(journal, id)
    {
      var at := Find(journal, id);
      if at.None? || !(Unresolved(journal[at.value]) || journal[at.value].status.Resolved?) {
        NotOpen(journal, id, at);
        return false;
      }
      ResolveKeeps(journal, id);
      assert journal[at.value] in journal;
      journal := Resolve(journal, id);
      return true;
    }
  }

  lemma OpenOldest(j: seq<Row>)
    ensures |Open(j)| > 0 <==> Oldest(j).Some?
  {
    if |Open(j)| > 0 { assert Open(j)[0] in Open(j); }
    if Oldest(j).Some? { assert j[Oldest(j).value] in Open(j); }
  }

  lemma NotOpen(j: seq<Row>, id: nat, at: Option<nat>)
    requires UniqueIds(j) && at == Find(j, id)
    requires at.None? || !(Unresolved(j[at.value]) || j[at.value].status.Resolved?)
    ensures !Waits(j, id) && forall x | x in j :: !(x.id == id && x.status.Resolved?)
  {
  }
}
