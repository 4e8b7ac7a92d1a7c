/**
  The recovery follow-up walk: from the obligations that replaced an audited
  one, through their own replacements, to the sessions that now own the work
  (coordination_memory.py `follow_up_status`).
 */
module FollowUp {
  import opened Sequences
  import opened Paths

  datatype Status = Open | Handled | Superseded | OtherStatus
  datatype Obligation = Obligation(status: Status, assignment: nat, delegates: set<nat>, replacements: seq<nat>)
  type Table = map<nat, Obligation>

  datatype Issue = Cycle | Bound
  // `Missing` is the error raised for an identifier without a record.
  datatype Report = Missing(id: nat) | Report(owners: set<nat>, visited: set<nat>, issues: seq<Issue>)

  const LIMIT: nat := 64

  // ---- What the links mean ----

  predicate Replaced(o: Obligation) { o.status.Handled? || o.status.Superseded? }

  function Replacements(o: Obligation): set<nat> {
    if Replaced(o) then set i | i in o.replacements else {}
  }

  // The replacement links, as a graph over identifiers.
  function Links(db: Table): Graph { map id | id in db :: Replacements(db[id]) }

  function Owners(o: Obligation): set<nat> {
    if o.status.Open? then {o.assignment} else if Replaced(o) then o.delegates else {}
  }

  // An open obligation is owned by its session; a handled or superseded one by
  // the sessions it was delegated to, and followed by its replacements.
  lemma LinksMean(db: Table, id: nat, other: nat)
    requires id in db
    ensures other in Owners(db[id]) <==>
              || (db[id].status == Open && other == db[id].assignment)
              || (db[id].status in {Handled, Superseded} && other in db[id].delegates)
    ensures other in Next(Links(db), id) <==> db[id].status in {Handled, Superseded} && other in db[id].replacements
  {
  }

  ghost predicate Reached(db: Table, roots: seq<nat>, id: nat) {
    exists u :: u in roots && Reaches(Links(db), u, id)
  }

  ghost predicate Cyclic(db: Table, roots: seq<nat>) {
    exists id :: Reached(db, roots, id) && OnCycle(Links(db), id)
  }

  // Who owns the work of some obligations.
  ghost predicate OwnedBy(db: Table, ids: set<nat>, before: set<nat>, owners: set<nat>) {
    forall a :: a in owners <==> a in before || exists id :: id in ids && id in db && a in Owners(db[id])
  }

  // ---- The walk's bookkeeping ----

  // Ghost paths behind the ancestor sets: each entry's path is a prefix of the
  // ones above it, and `at` is the path the walk is on.
  ghost predicate Nested(stack: seq<(nat, set<nat>)>, paths: seq<seq<nat>>, at: seq<nat>) {
    && |paths| == |stack|
    && (forall i | 0 <= i < |stack| :: stack[i].1 == Elements(paths[i]) && paths[i] <= at)
    && (forall i, j | 0 <= i <= j < |stack| :: paths[i] <= paths[j])
  }

  // A successor of the k-th vertex of the path is finished, next on the path or pending.
  ghost predicate Handed(g: Graph, stack: seq<(nat, set<nat>)>, paths: seq<seq<nat>>, at: seq<nat>, order: seq<nat>, k: nat, w: nat) {
    || w in order
    || (k + 1 < |at| && at[k + 1] == w)
    || (k < |at| && exists i | 0 <= i < |stack| && i < |paths| :: stack[i].0 == w && paths[i] == at[..k + 1])
  }

  ghost predicate Tidy(g: Graph, stack: seq<(nat, set<nat>)>, paths: seq<seq<nat>>, at: seq<nat>, order: seq<nat>) {
    && Nested(stack, paths, at) && Topological(g, order)
    && forall k: nat, w | k < |at| && w in Next(g, at[k]) :: Handed(g, stack, paths, at, order, k, w)
  }

  // Leaving the last vertex of the path: it is finished once nothing pending starts from it.
  lemma Leave(g: Graph, stack: seq<(nat, set<nat>)>, paths: seq<seq<nat>>, at: seq<nat>, order: seq<nat>)
    requires Tidy(g, stack, paths, at, order) && |at| > 0 && (|paths| > 0 ==> |paths[|paths| - 1]| < |at|)
    ensures Tidy(g, stack, paths, at[..|at| - 1], order + [at[|at| - 1]])
  {
    var last, short, more := at[|at| - 1], at[..|at| - 1], order + [at[|at| - 1]];
    forall i | 0 <= i < |paths| ensures |paths[i]| < |at| && paths[i] <= short {
      assert paths[i] <= paths[|paths| - 1] && paths[i] <= at;
    }
    forall w | w in Next(g, last) ensures w in order {
      assert Handed(g, stack, paths, at, order, |at| - 1, w);
      assert at[..|at|] == at;
    }
    forall i | 0 <= i < |more| ensures forall w | w in Next(g, more[i]) :: w in more[..i] {
      if i < |order| { assert more[..i] == order[..i]; } else { assert more[..i] == order; }
    }
    forall k: nat, w | k < |short| && w in Next(g, short[k]) ensures Handed(g, stack, paths, short, more, k, w) {
      assert Handed(g, stack, paths, at, order, k, w) && short[..k + 1] == at[..k + 1];
      if w !in order && at[k + 1] == w && k + 1 == |short| { assert more[|order|] == w; }
    }
  }

  // Back to the path of the top entry, finishing everything beyond it.
  lemma {:induction false} Retreat(g: Graph, stack: seq<(nat, set<nat>)>, paths: seq<seq<nat>>, at: seq<nat>, order: seq<nat>)
      returns (back: seq<nat>, done: seq<nat>)
    requires Tidy(g, stack, paths, at, order)
    ensures Tidy(g, stack, paths, back, done)
    ensures if |paths| == 0 then back == [] else back == paths[|paths| - 1]
    ensures Elements(back) + Elements(done) == Elements(at) + Elements(order)
    decreases |at|
  {
    var floor := if |paths| == 0 then 0 else |paths[|paths| - 1]|;
    if |at| == floor {
      back, done := at, order;
    } else {
      Leave(g, stack, paths, at, order);
      assert at == at[..|at| - 1] + [at[|at| - 1]];
      assert Elements(at[..|at| - 1]) + Elements(order + [at[|at| - 1]]) == Elements(at) + Elements(order);
      back, done := Retreat(g, stack, paths, at[..|at| - 1], order + [at[|at| - 1]]);
    }
  }

  // A popped entry that was already finished.
  lemma Skip(g: Graph, stack: seq<(nat, set<nat>)>, paths: seq<seq<nat>>, at: seq<nat>, order: seq<nat>)
    requires |stack| > 0 && Tidy(g, stack, paths, at, order) && at == paths[|paths| - 1] && stack[|stack| - 1].0 in order
    ensures Tidy(g, stack[..|stack| - 1], paths[..|paths| - 1], at, order)
  {
    var n := |stack| - 1;
    forall k: nat, w | k < |at| && w in Next(g, at[k]) ensures Handed(g, stack[..n], paths[..n], at, order, k, w) {
      assert Handed(g, stack, paths, at, order, k, w);
      if w !in order && !(k + 1 < |at| && at[k + 1] == w) {
        var i :| 0 <= i < |stack| && i < |paths| && stack[i].0 == w && paths[i] == at[..k + 1];
        assert stack[..n][i].0 == w && paths[..n][i] == at[..k + 1];
      }
    }
  }

  function Entries(ids: seq<nat>, ancestors: set<nat>): seq<(nat, set<nat>)> {
    seq(|ids|, (i: nat) requires i < |ids| => (ids[i], ancestors))
  }

  // A popped entry that is visited now: its replacements wait on its path.
  lemma Enter(g: Graph, stack: seq<(nat, set<nat>)>, paths: seq<seq<nat>>, at: seq<nat>, order: seq<nat>, children: seq<nat>)
    requires |stack| > 0 && Tidy(g, stack, paths, at, order) && at == paths[|paths| - 1]
    requires var id := stack[|stack| - 1].0; Next(g, id) == Elements(children)
    ensures var id, n := stack[|stack| - 1].0, |stack| - 1;
            Tidy(g, stack[..n] + Entries(children, stack[n].1 + {id}), paths[..n] + seq(|children|, _ => at + [id]), at + [id], order)
  {
    var id, n := stack[|stack| - 1].0, |stack| - 1;
    var long := at + [id];
    var stack', paths' := stack[..n] + Entries(children, stack[n].1 + {id}), paths[..n] + seq(|children|, _ => long);
    assert Elements(long) == stack[n].1 + {id};
    forall k: nat, w | k < |long| && w in Next(g, long[k]) ensures Handed(g, stack', paths', long, order, k, w) {
      if k == |at| {
        var i :| 0 <= i < |children| && children[i] == w;
        assert stack'[n + i].0 == w && paths'[n + i] == long && long[..k + 1] == long;
      } else {
        assert Handed(g, stack, paths, at, order, k, w) && long[..k + 1] == at[..k + 1];
        if w !in order && !(k + 1 < |at| && at[k + 1] == w) {
          var i :| 0 <= i < |stack| && i < |paths| && stack[i].0 == w && paths[i] == at[..k + 1];
          if i < n { assert stack'[i].0 == w && paths'[i] == long[..k + 1]; }
        }
      }
    }
  }

  // ---- Reached identifiers ----

  // Every identifier a record or the caller names.
  ghost function Named(db: Table, roots: seq<nat>): set<nat> {
    Elements(roots) + set id, v | id in db && v in Replacements(db[id]) :: v
  }

  ghost function ReachedSet(db: Table, roots: seq<nat>): set<nat> {
    set id | id in Named(db, roots) && Reached(db, roots, id)
  }

  lemma ReachedExactly(db: Table, roots: seq<nat>, id: nat)
    ensures id in ReachedSet(db, roots) <==> Reached(db, roots, id)
  {
    if Reached(db, roots, id) {
      var u :| u in roots && Reaches(Links(db), u, id);
      var p :| Joins(Links(db), p, u, id);
      if |p| > 1 {
        assert p[|p| - 2 + 1] in Next(Links(db), p[|p| - 2]);
        assert id in Replacements(db[p[|p| - 2]]);
      }
    }
  }

  // Each pending identifier is reached, and each of its ancestors lies above it.
  ghost predicate Grounded(db: Table, roots: seq<nat>, entry: (nat, set<nat>)) {
    && Reached(db, roots, entry.0)
    && forall a | a in entry.1 :: exists w :: w in Next(Links(db), a) && Reaches(Links(db), w, entry.0)
  }

  lemma RootsGrounded(db: Table, roots: seq<nat>)
    ensures forall i | 0 <= i < |roots| :: Grounded(db, roots, Entries(roots, {})[i])
  {
    forall i | 0 <= i < |roots| ensures Grounded(db, roots, Entries(roots, {})[i]) {
      ReachesSelf(Links(db), roots[i]);
    }
  }

  lemma ChildGrounded(db: Table, roots: seq<nat>, entry: (nat, set<nat>), child: nat)
    requires Grounded(db, roots, entry) && child in Next(Links(db), entry.0)
    ensures Grounded(db, roots, (child, entry.1 + {entry.0}))
  {
    var g := Links(db);
    var u :| u in roots && Reaches(g, u, entry.0);
    ReachesStep(g, u, entry.0, child);
    forall a | a in entry.1 + {entry.0} ensures exists w :: w in Next(g, a) && Reaches(g, w, child) {
      if a == entry.0 { ReachesSelf(g, child); }
      else {
        var w :| w in Next(g, a) && Reaches(g, w, entry.0);
        ReachesStep(g, w, entry.0, child);
      }
    }
  }

  // Whatever a visited obligation leads to is visited or pending.
  ghost predicate Covered(db: Table, roots: seq<nat>, visited: set<nat>, stack: seq<(nat, set<nat>)>) {
    && (forall u | u in roots :: u in visited || Waiting(stack, u))
    && (forall v, w | v in visited && w in Next(Links(db), v) :: w in visited || Waiting(stack, w))
  }

  ghost predicate Waiting(stack: seq<(nat, set<nat>)>, id: nat) {
    exists i | 0 <= i < |stack| :: stack[i].0 == id
  }

  lemma PopCovered(db: Table, roots: seq<nat>, visited: set<nat>, stack: seq<(nat, set<nat>)>)
    requires |stack| > 0 && Covered(db, roots, visited, stack) && stack[|stack| - 1].0 in visited
    ensures Covered(db, roots, visited, stack[..|stack| - 1])
  {
    forall w | Waiting(stack, w) && w !in visited ensures Waiting(stack[..|stack| - 1], w) {
      var i :| 0 <= i < |stack| && stack[i].0 == w;
      assert stack[..|stack| - 1][i].0 == w;
    }
  }

  lemma VisitCovered(db: Table, roots: seq<nat>, visited: set<nat>, stack: seq<(nat, set<nat>)>, children: seq<nat>, up: set<nat>)
    requires |stack| > 0 && Covered(db, roots, visited, stack)
    requires var id := stack[|stack| - 1].0; Next(Links(db), id) == Elements(children)
    ensures Covered(db, roots, visited + {stack[|stack| - 1].0}, stack[..|stack| - 1] + Entries(children, up))
  {
    var id, rest := stack[|stack| - 1].0, stack[..|stack| - 1];
    var after := rest + Entries(children, up);
    forall w | Waiting(stack, w) && w != id ensures Waiting(after, w) {
      var i :| 0 <= i < |stack| && stack[i].0 == w;
      assert after[i].0 == w;
    }
    forall w | w in Elements(children) ensures Waiting(after, w) {
      var i :| 0 <= i < |children| && children[i] == w;
      assert after[|rest| + i].0 == w;
    }
  }

  lemma EmptyCover(db: Table, roots: seq<nat>, visited: set<nat>)
    requires Covered(db, roots, visited, [])
    ensures (forall u | u in roots :: u in visited) && (forall v | v in visited :: Next(Links(db), v) <= visited)
  {
  }

  // With nothing pending, the visited obligations are the reached ones.
  lemma CoveredReached(db: Table, roots: seq<nat>, visited: set<nat>)
    requires Covered(db, roots, visited, [])
    requires forall v | v in visited :: Reached(db, roots, v)
    ensures visited == ReachedSet(db, roots)
  {
    hide ReachedSet; hide Reaches; hide Links; hide Next;
    EmptyCover(db, roots, visited);
    forall v: nat ensures v in visited <==> v in ReachedSet(db, roots) {
      ReachedExactly(db, roots, v);
      if Reached(db, roots, v) {
        var u :| u in roots && Reaches(Links(db), u, v);
        ClosedReaches(Links(db), visited, u, v);
      }
    }
  }

  lemma OrderedAcyclic(db: Table, roots: seq<nat>, visited: set<nat>, paths: seq<seq<nat>>, at: seq<nat>, order: seq<nat>)
    requires Traced(Links(db), [], paths, at, order, visited) && visited == ReachedSet(db, roots)
    ensures !Cyclic(db, roots)
  {
    forall id | Reached(db, roots, id) ensures !OnCycle(Links(db), id) {
      ReachedExactly(db, roots, id);
      OrderAcyclic(Links(db), order, id);
    }
  }

  // ---- The walk ----

  ghost predicate Answers(db: Table, roots: seq<nat>, promised: set<nat>, report: Report) {
    var reached := ReachedSet(db, roots);
    match report
    case Missing(id) => id in reached && id !in db
    case Report(owners, visited, issues) =>
      && (Cycle in issues ==> Cyclic(db, roots))
      && (Bound in issues <==> |reached| > LIMIT)
      && visited <= reached && OwnedBy(db, visited, promised, owners) && (|reached| > LIMIT ==> |visited| == LIMIT)
      && (|reached| <= LIMIT ==>
            && visited == reached && reached <= db.Keys && OwnedBy(db, reached, promised, owners)
            && (Cycle in issues <==> Cyclic(db, roots)))
  }

  // What holds of the visited and pending obligations whether or not a cycle was met.
  ghost predicate Sane(db: Table, roots: seq<nat>, stack: seq<(nat, set<nat>)>, visited: set<nat>) {
    && Covered(db, roots, visited, stack)
    && visited <= db.Keys && (forall v | v in visited :: Reached(db, roots, v))
    && (forall i | 0 <= i < |stack| :: Grounded(db, roots, stack[i]) && stack[i].1 <= visited)
  }

  lemma StartSane(db: Table, roots: seq<nat>)
    ensures Sane(db, roots, Entries(roots, {}), {})
    ensures Tidy(Links(db), Entries(roots, {}), seq(|roots|, _ => []), [], [])
  {
    RootsGrounded(db, roots);
    forall u | u in roots ensures Waiting(Entries(roots, {}), u) {
      var i :| 0 <= i < |roots| && roots[i] == u;
      assert Entries(roots, {})[i].0 == u;
    }
  }

  lemma PopSane(db: Table, roots: seq<nat>, stack: seq<(nat, set<nat>)>, visited: set<nat>)
    requires |stack| > 0 && Sane(db, roots, stack, visited) && stack[|stack| - 1].0 in visited
    ensures Sane(db, roots, stack[..|stack| - 1], visited)
  {
    PopCovered(db, roots, visited, stack);
  }

  lemma VisitSane(db: Table, roots: seq<nat>, stack: seq<(nat, set<nat>)>, visited: set<nat>, children: seq<nat>)
    requires |stack| > 0 && Sane(db, roots, stack, visited) && stack[|stack| - 1].0 in db
    requires Elements(children) == Replacements(db[stack[|stack| - 1].0])
    ensures var top := stack[|stack| - 1];
            Sane(db, roots, stack[..|stack| - 1] + Entries(children, top.1 + {top.0}), visited + {top.0})
  {
    hide Grounded; hide Covered;
    var top, rest := stack[|stack| - 1], stack[..|stack| - 1];
    var up := top.1 + {top.0};
    VisitCovered(db, roots, visited, stack, children, up);
    var after := rest + Entries(children, up);
    forall i | 0 <= i < |after| ensures Grounded(db, roots, after[i]) && after[i].1 <= visited + {top.0} {
      if i < |rest| { assert after[i] == stack[i]; }
      else {
        assert after[i].0 in Elements(children);
        ChildGrounded(db, roots, top, after[i].0);
      }
    }
    TopReached(db, roots, top);
  }

  lemma TopReached(db: Table, roots: seq<nat>, top: (nat, set<nat>))
    requires Grounded(db, roots, top)
    ensures Reached(db, roots, top.0) && top.0 in ReachedSet(db, roots)
  {
    ReachedExactly(db, roots, top.0);
  }

  // An identifier among its own ancestors lies on a cycle.
  lemma MetCycle(db: Table, roots: seq<nat>, top: (nat, set<nat>))
    requires Grounded(db, roots, top) && top.0 in top.1
    ensures Cyclic(db, roots)
  {
    assert OnCycle(Links(db), top.0);
  }

  lemma TooMany(db: Table, roots: seq<nat>, visited: set<nat>, top: (nat, set<nat>))
    requires Grounded(db, roots, top) && top.0 !in visited && |visited| >= LIMIT
    requires forall v | v in visited :: Reached(db, roots, v)
    ensures |ReachedSet(db, roots)| > LIMIT && visited <= ReachedSet(db, roots)
  {
    TopReached(db, roots, top);
    var all := visited + {top.0};
    assert |all| == |visited| + 1;
    forall v | v in all ensures v in ReachedSet(db, roots) { ReachedExactly(db, roots, v); }
    Larger(all, ReachedSet(db, roots));
  }

  lemma Larger(a: set<nat>, b: set<nat>)
    requires a <= b
    ensures |a| <= |b|
  {
    assert b == a + (b - a);
  }

  lemma OwnersGrow(db: Table, visited: set<nat>, before: set<nat>, owners: set<nat>, id: nat)
    requires OwnedBy(db, visited, before, owners) && id in db
    ensures OwnedBy(db, visited + {id}, before, owners + Owners(db[id]))
  {
    forall a ensures a in owners + Owners(db[id]) <==>
                     a in before || exists v :: v in visited + {id} && v in db && a in Owners(db[v])
    {
      if a in Owners(db[id]) { assert id in visited + {id}; }
    }
  }

  // No cycle met so far: the path, and what is finished behind it.
  ghost predicate Traced(g: Graph, stack: seq<(nat, set<nat>)>, paths: seq<seq<nat>>, at: seq<nat>, order: seq<nat>, visited: set<nat>) {
    && Tidy(g, stack, paths, at, order) && Elements(at) + Elements(order) == visited
    && at == (if |paths| == 0 then [] else paths[|paths| - 1])
  }

  lemma SkipTraced(g: Graph, stack: seq<(nat, set<nat>)>, paths: seq<seq<nat>>, at: seq<nat>, order: seq<nat>, visited: set<nat>)
      returns (at': seq<nat>, order': seq<nat>)
    requires |stack| > 0 && Traced(g, stack, paths, at, order, visited)
    requires stack[|stack| - 1].0 in visited && stack[|stack| - 1].0 !in stack[|stack| - 1].1
    ensures |paths| == |stack| && Traced(g, stack[..|stack| - 1], paths[..|stack| - 1], at', order', visited)
  {
    hide Handed; hide Topological;
    Skip(g, stack, paths, at, order);
    at', order' := Retreat(g, stack[..|stack| - 1], paths[..|stack| - 1], at, order);
  }

  lemma OnTop(g: Graph, stack: seq<(nat, set<nat>)>, paths: seq<seq<nat>>, at: seq<nat>, order: seq<nat>, visited: set<nat>)
    requires |stack| > 0 && Traced(g, stack, paths, at, order, visited)
    ensures |paths| == |stack| && at == paths[|paths| - 1] && Elements(at) == stack[|stack| - 1].1
  {
    hide Handed; hide Topological;
  }

  lemma VisitTraced(g: Graph, stack: seq<(nat, set<nat>)>, paths: seq<seq<nat>>, at: seq<nat>, order: seq<nat>, visited: set<nat>,
                    children: seq<nat>)
      returns (paths': seq<seq<nat>>, at': seq<nat>, order': seq<nat>)
    requires |stack| > 0 && Traced(g, stack, paths, at, order, visited)
    requires Next(g, stack[|stack| - 1].0) == Elements(children)
    ensures var top := stack[|stack| - 1];
            Traced(g, stack[..|stack| - 1] + Entries(children, top.1 + {top.0}), paths', at', order', visited + {top.0})
  {
    hide Handed; hide Topological; hide Tidy; hide Next;
    var top, n := stack[|stack| - 1], |stack| - 1;
    OnTop(g, stack, paths, at, order, visited);
    Enter(g, stack, paths, at, order, children);
    assert Elements(at + [top.0]) == Elements(at) + {top.0};
    paths' := paths[..n] + seq(|children|, _ => at + [top.0]);
    at', order' := Retreat(g, stack[..n] + Entries(children, top.1 + {top.0}), paths', at + [top.0], order);
  }

  /**
    The walk terminates. It fails only on a reached identifier that has no
    record; otherwise it reports the bound exactly when more than 64
    obligations are reached, and when it does not, it has visited exactly the
    reached ones, collected exactly their owners, and reported a cycle exactly
    when their replacement links contain one.
   */
  method Walk(db: Table, roots: seq<nat>, promised: set<nat>) returns (report: Report)
    ensures Answers(db, roots, promised, report)
  {
    hide Traced; hide Sane; hide Grounded; hide OwnedBy; hide Cyclic; hide ReachedSet; hide Topological;
    var pending, visited, owners, issues := Entries(roots, {}), {}, promised, [];
    ghost var g := Links(db);
    ghost var paths, at, order := seq(|roots|, _ => []), [], [];
    StartSane(db, roots);
    StartOwned(db, promised);
    StartTraced(db, roots);
    while |pending| > 0
      invariant Sane(db, roots, pending, visited) && |visited| <= LIMIT
      invariant OwnedBy(db, visited, promised, owners)
      invariant Bound !in issues && (Cycle in issues ==> Cyclic(db, roots))
      invariant Cycle !in issues ==> Traced(g, pending, paths, at, order, visited)
      decreases LIMIT - |visited|, |pending|
    {
      var top, n := pending[|pending| - 1], |pending| - 1;
      var (identifier, ancestors) := top;
      TopFacts(db, roots, pending, visited);
      if identifier in ancestors {
        MetCycle(db, roots, top);
        PopSane(db, roots, pending, visited);
        pending := pending[..n];
        issues := issues + [Cycle];
        continue;
      }
      if identifier in visited {
        PopSane(db, roots, pending, visited);
        if Cycle !in issues {
          at, order := SkipTraced(g, pending, paths, at, order, visited);
          paths := paths[..n];
        }
        pending := pending[..n];
        continue;
      }
      if |visited| >= LIMIT {
        TooMany(db, roots, visited, top);
        return Report(owners, visited, issues + [Bound]);
      }
      if identifier !in db {
        TopReached(db, roots, top);
        return Missing(identifier);
      }
      var obligation := db[identifier];
      var children := if Replaced(obligation) then obligation.replacements else [];
      assert Elements(children) == Replacements(obligation) == Next(g, identifier);
      VisitSane(db, roots, pending, visited, children);
      OwnersGrow(db, visited, promised, owners, identifier);
      if Cycle !in issues {
        paths, at, order := VisitTraced(g, pending, paths, at, order, visited, children);
      }
      visited := visited + {identifier};
      owners := owners + Owners(obligation);
      pending := pending[..n] + Entries(children, ancestors + {identifier});
    }
    Finish(db, roots, visited);
    if Cycle !in issues { OrderedAcyclic(db, roots, visited, paths, at, order); }
    report := Report(owners, visited, issues);
  }

  lemma StartOwned(db: Table, promised: set<nat>)
    ensures OwnedBy(db, {}, promised, promised)
  {
  }

  lemma TopFacts(db: Table, roots: seq<nat>, stack: seq<(nat, set<nat>)>, visited: set<nat>)
    requires |stack| > 0 && Sane(db, roots, stack, visited)
    ensures Grounded(db, roots, stack[|stack| - 1]) && stack[|stack| - 1].1 <= visited
    ensures visited <= db.Keys && (forall v | v in visited :: Reached(db, roots, v))
  {
  }

  lemma StartTraced(db: Table, roots: seq<nat>)
    ensures Traced(Links(db), Entries(roots, {}), seq(|roots|, _ => []), [], [], {})
  {
    StartSane(db, roots);
  }

  lemma Finish(db: Table, roots: seq<nat>, visited: set<nat>)
    requires Sane(db, roots, [], visited)
    ensures visited == ReachedSet(db, roots) && visited <= db.Keys
  {
    CoveredReached(db, roots, visited);
  }
}
