/**
  The agent's intent journal (client.py `AgentClient`): rows in order of
  creation, as one clock gives it. Request content stands for the fingerprint
  of method, path and body.
 */
module Journal {
  import opened Wrappers

  datatype Status = Pending | Completed | Rejected | Invalid | Resolved
  // `gen` numbers the rows ever inserted; a key may name several over time.
  datatype Row = Row(id: nat, gen: nat, content: nat, execution: nat, status: Status, createdAt: int,
                     attempts: nat, retryAt: Option<int>)

  // What a client makes of a response.
  datatype Answer = Success(value: nat) | NoEffect | TryLater | Refusal

  const WEEK: int := 7 * 86400

  predicate Unresolved(row: Row) { row.status.Pending? || row.status.Rejected? }

  // ---- Lookups ----

  function Find(j: seq<Row>, id: nat): (r: Option<nat>)
    ensures r.Some? ==> r.value < |j| && j[r.value].id == id
    ensures r.None? ==> forall i | 0 <= i < |j| :: j[i].id != id
  {
    if |j| == 0 then None
    else if j[|j| - 1].id == id then Some(|j| - 1)
    else Find(j[..|j| - 1], id)
  }

  predicate Waiting(row: Row, content: nat) { row.content == content && row.status.Pending? }

  // The oldest pending row with this content.
  function SamePending(j: seq<Row>, content: nat): (r: Option<nat>)
    ensures r.Some? ==> r.value < |j| && Waiting(j[r.value], content)
    ensures forall i | 0 <= i < (if r.Some? then r.value else |j|) :: !Waiting(j[i], content)
  {
    if |j| == 0 then None
    else if SamePending(j[..|j| - 1], content).Some? then SamePending(j[..|j| - 1], content)
    else if Waiting(j[|j| - 1], content) then Some(|j| - 1)
    else None
  }

  // The oldest unresolved row.
  function Oldest(j: seq<Row>): (r: Option<nat>)
    ensures r.Some? ==> r.value < |j| && Unresolved(j[r.value]) && forall i | 0 <= i < r.value :: !Unresolved(j[i])
    ensures r.None? ==> forall i | 0 <= i < |j| :: !Unresolved(j[i])
  {
    if |j| == 0 then None
    else if Oldest(j[..|j| - 1]).Some? then Oldest(j[..|j| - 1])
    else if Unresolved(j[|j| - 1]) then Some(|j| - 1)
    else None
  }

  // ---- Deletion ----

  // Rows that survive: unresolved ones always do.
  function Kept(j: seq<Row>, doomed: Row -> bool): seq<Row> {
    if |j| == 0 then []
    else
      var rest := Kept(j[..|j| - 1], doomed);
      if !Unresolved(j[|j| - 1]) && doomed(j[|j| - 1]) then rest else rest + [j[|j| - 1]]
  }

  lemma {:induction false} KeptHolds(j: seq<Row>, doomed: Row -> bool, row: Row)
    ensures row in Kept(j, doomed) <==> row in j && (Unresolved(row) || !doomed(row))
  {
    if |j| > 0 {
      KeptHolds(j[..|j| - 1], doomed, row);
      assert j == j[..|j| - 1] + [j[|j| - 1]];
    }
  }

  // ---- The first transaction of `request` ----

  datatype Problem = Conflict | TooOld | Deferred | Full
  datatype Begun = Refused(problem: Problem) | Sending(journal: seq<Row>, id: nat, gen: nat)

  // `key` is given by the caller, `drawn` as a random one otherwise; `gen` numbers a new
  // row; `evict` are the settled rows beyond the newest thousand; `full` says
  // that the unsettled bytes leave no room.
  datatype Attempt = Attempt(key: Option<nat>, drawn: nat, content: nat, execution: nat, force: bool, evict: set<nat>, full: bool)

  function Evicted(evict: set<nat>): Row -> bool { (row: Row) => row.gen in evict }

  function KeyOf(j: seq<Row>, a: Attempt): nat {
    if a.key.Some? then a.key.value
    else if SamePending(j, a.content).Some? then j[SamePending(j, a.content).value].id
    else a.drawn
  }

  function Begin(j: seq<Row>, a: Attempt, gen: nat, now: int, window: nat): Begun {
    var id := KeyOf(j, a);
    var at := Find(j, id);
    if at.Some? && j[at.value].content != a.content then Refused(Conflict)
    else if at.Some? && j[at.value].createdAt < now - window then Refused(TooOld)
    else if at.Some? && j[at.value].status.Pending? && j[at.value].retryAt.Some? && j[at.value].retryAt.value > now && !a.force
    then Refused(Deferred)
    else if at.None? && a.full then Refused(Full)
    else
      var kept := Kept(j, Evicted(a.evict));
      if Find(kept, id).Some? then Sending(kept, id, kept[Find(kept, id).value].gen)
      else Sending(kept + [Row(id, gen, a.content, a.execution, Pending, now, 0, None)], id, gen)
  }

  // ---- The second transaction ----

  function Power(n: nat): nat { if n == 0 then 1 else 2 * Power(n - 1) }

  function RetryDelay(attempts: nat): (d: nat)
    ensures 0 < d <= 300
  {
    var p := Power(if attempts < 8 then attempts else 8);
    PowerPositive(if attempts < 8 then attempts else 8);
    if p < 300 then p else 300
  }

  lemma {:induction false} PowerPositive(n: nat)
    ensures Power(n) > 0
  {
    if n > 0 { PowerPositive(n - 1); }
  }

  function Put(j: seq<Row>, id: nat, change: Row -> Row): seq<Row> {
    seq(|j|, (i: nat) requires i < |j| => if j[i].id == id then change(j[i]) else j[i])
  }

  function Later(row: Row, now: int): Row {
    row.(status := Pending, attempts := row.attempts + 1, retryAt := Some(now + RetryDelay(row.attempts + 1)))
  }

  function Deferral(now: int): Row -> Row { (row: Row) => Later(row, now) }

  // `_defer_intent`: a missing response is an uncertain write.
  function Defer(j: seq<Row>, id: nat, now: int): seq<Row> { Put(j, id, Deferral(now)) }

  function Answered(row: Row, answer: Answer, now: int): Row {
    match answer
    case Success(_) => row.(status := Completed, retryAt := None)
    case NoEffect => row.(status := Invalid, retryAt := None)
    case TryLater => Later(row, now)
    case Refusal => row.(status := Rejected, retryAt := None)
  }

  function Settlement(answer: Answer, now: int): Row -> Row { (row: Row) => Answered(row, answer, now) }

  function Stale(now: int): Row -> bool { (row: Row) => row.createdAt < now - WEEK }

  function Settle(j: seq<Row>, id: nat, answer: Answer, now: int): seq<Row> {
    Kept(Put(j, id, Settlement(answer, now)), Stale(now))
  }

  function Resolution(): Row -> Row { (row: Row) => if Unresolved(row) then row.(status := Resolved) else row }

  function Resolve(j: seq<Row>, id: nat): seq<Row> {
    Put(j, id, Resolution())
  }

  // ---- Rows keep their identity ----

  predicate SameIntent(x: Row, y: Row) {
    x.id == y.id && x.gen == y.gen && x.content == y.content && x.createdAt == y.createdAt && x.execution == y.execution
  }

  // Every row of `t` continues one of `s`.
  ghost predicate Descends(s: seq<Row>, t: seq<Row>) { forall y | y in t :: exists x | x in s :: SameIntent(x, y) }

  // An unresolved row of `s` is still there, in whatever status.
  ghost predicate Preserves(s: seq<Row>, t: seq<Row>) {
    forall x | x in s && Unresolved(x) :: exists y | y in t :: SameIntent(x, y)
  }

  ghost predicate UniqueIds(j: seq<Row>) { forall i, k | 0 <= i < k < |j| :: j[i].id != j[k].id }

  ghost predicate Same(change: Row -> Row) { forall row :: SameIntent(row, change(row)) }

  lemma PutKeeps(j: seq<Row>, id: nat, change: Row -> Row)
    requires Same(change)
    ensures Descends(j, Put(j, id, change)) && Preserves(j, Put(j, id, change))
    ensures UniqueIds(j) ==> UniqueIds(Put(j, id, change))
  {
    var t := Put(j, id, change);
    forall y | y in t ensures exists x | x in j :: SameIntent(x, y) {
      var i :| 0 <= i < |t| && t[i] == y;
      assert SameIntent(j[i], y) && j[i] in j;
    }
    forall x | x in j ensures exists y | y in t :: SameIntent(x, y) {
      var i :| 0 <= i < |j| && j[i] == x;
      assert SameIntent(x, t[i]) && t[i] in t;
    }
    forall i | 0 <= i < |j| ensures t[i].id == j[i].id { assert SameIntent(j[i], t[i]); }
  }

  lemma KeptKeeps(j: seq<Row>, doomed: Row -> bool)
    ensures Descends(j, Kept(j, doomed)) && Preserves(j, Kept(j, doomed))
    ensures UniqueIds(j) ==> UniqueIds(Kept(j, doomed))
  {
    forall y | y in Kept(j, doomed) ensures exists x | x in j :: SameIntent(x, y) {
      KeptHolds(j, doomed, y);
      assert SameIntent(y, y);
    }
    forall x | x in j && Unresolved(x) ensures exists y | y in Kept(j, doomed) :: SameIntent(x, y) {
      KeptHolds(j, doomed, x);
      assert SameIntent(x, x);
    }
    if UniqueIds(j) { KeptUnique(j, doomed); }
  }

  lemma {:induction false} KeptUnique(j: seq<Row>, doomed: Row -> bool)
    requires UniqueIds(j)
    ensures UniqueIds(Kept(j, doomed))
  {
    if |j| > 0 {
      var n := |j| - 1;
      KeptUnique(j[..n], doomed);
      var rest := Kept(j[..n], doomed);
      forall i | 0 <= i < |rest| ensures rest[i].id != j[n].id {
        KeptHolds(j[..n], doomed, rest[i]);
        assert rest[i] in rest;
        var k :| 0 <= k < n && j[k] == rest[i];
      }
    }
  }

  lemma OneRow(j: seq<Row>, x: Row, y: Row)
    requires UniqueIds(j) && x in j && y in j && x.id == y.id
    ensures x == y
  {
    var i :| 0 <= i < |j| && j[i] == x;
    var k :| 0 <= k < |j| && j[k] == y;
  }

  ghost predicate Admits(j: seq<Row>, a: Attempt, gen: nat, now: int, window: nat, t: seq<Row>, id: nat, g: nat) {
    || (&& Descends(j, t)
        && exists x | x in j :: x.id == id && x.gen == g && x.content == a.content && x.createdAt >= now - window)
    || (g == gen && exists k :: Descends(j, k) && t == k + [Row(id, gen, a.content, a.execution, Pending, now, 0, None)])
  }

  /** Starting a request loses no unresolved intent, and sends a row's own content inside its window. */
  lemma BeginKeeps(j: seq<Row>, a: Attempt, gen: nat, now: int, window: nat)
    requires UniqueIds(j) && Begin(j, a, gen, now, window).Sending?
    ensures var b := Begin(j, a, gen, now, window);
            Preserves(j, b.journal) && UniqueIds(b.journal) && Admits(j, a, gen, now, window, b.journal, b.id, b.gen)
  {
    hide Kept; hide KeyOf; hide Find; hide Descends; hide Preserves;
    var id, kept := KeyOf(j, a), Kept(j, Evicted(a.evict));
    KeptKeeps(j, Evicted(a.evict));
    if Find(kept, id).Some? {
      var x := kept[Find(kept, id).value];
      KeptHolds(j, Evicted(a.evict), x);
      OneRow(j, x, j[Find(j, id).value]);
    } else {
      PreservesMore(j, kept, Row(id, gen, a.content, a.execution, Pending, now, 0, None));
    }
  }

  lemma PreservesMore(j: seq<Row>, k: seq<Row>, row: Row)
    requires Preserves(j, k)
    ensures Preserves(j, k + [row])
  {
    forall x | x in j && Unresolved(x) ensures exists y | y in k + [row] :: SameIntent(x, y) {
      var y :| y in k && SameIntent(x, y);
      assert y in k + [row];
    }
  }

  /** No answer, deferral or repair loses an unresolved intent. */
  lemma SettleKeeps(j: seq<Row>, id: nat, answer: Answer, now: int)
    ensures Descends(j, Settle(j, id, answer, now)) && (UniqueIds(j) ==> UniqueIds(Settle(j, id, answer, now)))
    ensures forall x | x in j && Unresolved(x) && (x.id == id ==> answer.TryLater? || answer.Refusal?) ::
              exists y | y in Settle(j, id, answer, now) :: SameIntent(x, y) && Unresolved(y)
  {
    var t := Put(j, id, Settlement(answer, now));
    PutKeeps(j, id, Settlement(answer, now));
    KeptKeeps(t, Stale(now));
    forall y | y in Settle(j, id, answer, now) ensures exists x | x in j :: SameIntent(x, y) {
      var m :| m in t && SameIntent(m, y);
      var x :| x in j && SameIntent(x, m);
      assert SameIntent(x, y);
    }
    forall x | x in j && Unresolved(x) && (x.id == id ==> answer.TryLater? || answer.Refusal?)
      ensures exists y | y in Settle(j, id, answer, now) :: SameIntent(x, y) && Unresolved(y)
    {
      var i :| 0 <= i < |j| && j[i] == x;
      assert t[i] in t && SameIntent(x, t[i]) && Unresolved(t[i]);
      KeptHolds(t, Stale(now), t[i]);
    }
  }

  lemma DeferKeeps(j: seq<Row>, id: nat, now: int)
    ensures Descends(j, Defer(j, id, now)) && Preserves(j, Defer(j, id, now)) && (UniqueIds(j) ==> UniqueIds(Defer(j, id, now)))
  {
    PutKeeps(j, id, Deferral(now));
  }

  lemma ResolveKeeps(j: seq<Row>, id: nat)
    ensures Descends(j, Resolve(j, id)) && Preserves(j, Resolve(j, id)) && (UniqueIds(j) ==> UniqueIds(Resolve(j, id)))
  {
    PutKeeps(j, id, Resolution());
  }

  // ---- When a request is sent, and as what ----

  // The row at i is the oldest pending one with this content.
  ghost predicate OldestWaiting(j: seq<Row>, content: nat, i: nat) {
    i < |j| && Waiting(j[i], content) && forall k | 0 <= k < i :: !Waiting(j[k], content)
  }

  /**
    A request without a key, whose content is already pending, resends the
    oldest such row under its own key and adds none. It is refused exactly when
    that row left the replay window or is not yet due and not forced.
   */
  lemma KeylessResends(j: seq<Row>, a: Attempt, gen: nat, now: int, window: nat, i: nat)
    requires UniqueIds(j) && a.key.None? && OldestWaiting(j, a.content, i)
    ensures var b := Begin(j, a, gen, now, window); var x := j[i];
            && (b.Refused? <==> x.createdAt < now - window || (x.retryAt.Some? && x.retryAt.value > now && !a.force))
            && (b.Sending? ==> b.id == x.id && b.gen == x.gen && x in b.journal
                               && (forall y | y in b.journal :: y in j)
                               && (forall y | y in j && Unresolved(y) :: y in b.journal))
  {
    hide Find; hide Kept; hide UniqueIds;
    assert SamePending(j, a.content) == Some(i);
    Sent(j, a, gen, now, window, j[i]);
  }

  // The row a request names is resent, not added again.
  lemma Sent(j: seq<Row>, a: Attempt, gen: nat, now: int, window: nat, x: Row)
    requires UniqueIds(j) && x in j && x.id == KeyOf(j, a)
    ensures var b := Begin(j, a, gen, now, window);
            && (b.Refused? <==> || x.content != a.content || x.createdAt < now - window
                                || (x.status.Pending? && x.retryAt.Some? && x.retryAt.value > now && !a.force))
            && (b.Sending? && (Unresolved(x) || x.gen !in a.evict) ==>
                  && b.id == x.id && b.gen == x.gen && x in b.journal
                  && (forall y | y in b.journal :: y in j) && (forall y | y in j && Unresolved(y) :: y in b.journal))
  {
    hide Find; hide Kept; hide UniqueIds; hide KeyOf;
    var at := Find(j, x.id);
    assert at.Some?;
    OneRow(j, x, j[at.value]);
    var kept := Kept(j, Evicted(a.evict));
    KeptHolds(j, Evicted(a.evict), x);
    forall y ensures y in kept ==> y in j { KeptHolds(j, Evicted(a.evict), y); }
    forall y | y in j && Unresolved(y) ensures y in kept { KeptHolds(j, Evicted(a.evict), y); }
    var found := Find(kept, x.id);
    if found.Some? {
      assert kept[found.value] in kept;
      OneRow(j, x, kept[found.value]);
    }
  }

  /** A key the journal does not know is added as a new pending row, unless there is no room. */
  lemma NewKeyAdds(j: seq<Row>, a: Attempt, gen: nat, now: int, window: nat)
    requires forall x | x in j :: x.id != KeyOf(j, a)
    ensures var b := Begin(j, a, gen, now, window);
            && (b.Refused? <==> a.full)
            && (b.Sending? ==> && b.id == KeyOf(j, a) && b.gen == gen && |b.journal| > 0
                               && b.journal[|b.journal| - 1] == Row(b.id, gen, a.content, a.execution, Pending, now, 0, None)
                               && (forall y | y in b.journal[..|b.journal| - 1] :: y in j)
                               && (forall y | y in j && Unresolved(y) :: y in b.journal))
  {
    hide Find; hide Kept; hide KeyOf;
    var kept := Kept(j, Evicted(a.evict));
    forall y ensures y in kept ==> y in j { KeptHolds(j, Evicted(a.evict), y); }
    forall y | y in j && Unresolved(y) ensures y in kept { KeptHolds(j, Evicted(a.evict), y); }
  }

  /** The caller's key stands; without one, a fresh key is drawn only when the content is not pending. */
  lemma KeyChoice(j: seq<Row>, a: Attempt)
    ensures a.key.Some? ==> KeyOf(j, a) == a.key.value
    ensures a.key.None? && (forall x | x in j :: !Waiting(x, a.content)) ==> KeyOf(j, a) == a.drawn
    ensures forall i: nat | OldestWaiting(j, a.content, i) && a.key.None? :: KeyOf(j, a) == j[i].id
  {
    var r := SamePending(j, a.content);
    if r.Some? { assert j[r.value] in j; }
    forall i: nat | OldestWaiting(j, a.content, i) ensures r == Some(i) { assert Waiting(j[i], a.content); }
  }

  // ---- Retry dates and forgetting ----

  /** The delay doubles with each attempt, from two seconds to 256. */
  lemma {:induction false} DelaysDouble(attempts: nat)
    requires attempts > 0
    ensures RetryDelay(attempts) == if attempts == 1 then 2
                                    else if attempts <= 8 then 2 * RetryDelay(attempts - 1) else 256
  {
    hide Power;
    EarlyPowers();
  }

  lemma EarlyPowers()
    ensures Power(1) == 2 && Power(2) == 4 && Power(3) == 8 && Power(4) == 16
    ensures Power(5) == 32 && Power(6) == 64 && Power(7) == 128 && Power(8) == 256
  {
  }

  /** An answer keeps every other row, except settled ones created more than a week ago. */
  lemma SettleForgets(j: seq<Row>, id: nat, answer: Answer, now: int, x: Row)
    requires x in j && x.id != id
    ensures x in Settle(j, id, answer, now) <==> Unresolved(x) || now - 7 * 24 * 3600 <= x.createdAt
  {
    var t := Put(j, id, Settlement(answer, now));
    var i :| 0 <= i < |j| && j[i] == x;
    assert t[i] in t;
    KeptHolds(t, Stale(now), x);
  }
}
