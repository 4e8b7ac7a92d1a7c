/**
  The dashboard's dependency graph: collect what the shown nodes depend on,
  contract hidden definitions away and detect cycles
  (frontend/src/formalizationGraph.ts `buildFormalizationGraph`).
  Node keys are the identifiers themselves, numbered.
 */
module FormalizationGraph {
  import opened Wrappers
  import opened Sequences

  datatype Node = Node(id: nat, archived: bool, definition: bool, children: seq<nat>)
  // `whole` is an objective or project scope, which lists every node.
  datatype Query = Query(nodes: seq<Node>, whole: bool, focus: Option<nat>, showDefinitions: bool, showArchived: bool)

  // ---- Reading the nodes ----

  // The first node with an identifier wins.
  function Lookup(nodes: seq<Node>, id: nat): Option<Node> {
    if |nodes| == 0 then None
    else if nodes[0].id == id then Some(nodes[0])
    else Lookup(nodes[1..], id)
  }

  lemma {:induction false} LookupLast(nodes: seq<Node>, node: Node, id: nat)
    ensures Lookup(nodes + [node], id) ==
            if Lookup(nodes, id).Some? then Lookup(nodes, id) else if node.id == id then Some(node) else None
  {
    if |nodes| > 0 {
      assert (nodes + [node])[1..] == nodes[1..] + [node];
      LookupLast(nodes[1..], node, id);
    } else {
      assert (nodes + [node])[1..] == [];
    }
  }

  ghost predicate Indexed(nodes: seq<Node>, all: map<nat, Node>) {
    forall id :: Lookup(nodes, id) == if id in all then Some(all[id]) else None
  }

  method IndexNodes(nodes: seq<Node>) returns (all: map<nat, Node>, keys: seq<nat>)
    ensures Indexed(nodes, all)
    ensures Distinct(keys) && Elements(keys) == all.Keys
  {
    all, keys := map[], [];
    for i := 0 to |nodes|
      invariant Indexed(nodes[..i], all)
      invariant Distinct(keys) && Elements(keys) == all.Keys
    {
      assert nodes[..i + 1] == nodes[..i] + [nodes[i]];
      forall id { LookupLast(nodes[..i], nodes[i], id); }
      if nodes[i].id !in all {
        DistinctPush(keys, nodes[i].id);
        all, keys := all[nodes[i].id := nodes[i]], keys + [nodes[i].id];
      }
    }
    assert nodes[..|nodes|] == nodes;
  }

  // Children without repetition, in order of first mention.
  function Unique(s: seq<nat>): (u: seq<nat>)
    ensures Distinct(u) && Elements(u) == Elements(s)
  {
    if |s| == 0 then []
    else
      var u := Unique(s[..|s| - 1]);
      assert s == s[..|s| - 1] + [s[|s| - 1]] && Elements(u + [s[|s| - 1]]) == Elements(u) + {s[|s| - 1]};
      if s[|s| - 1] in u then u else u + [s[|s| - 1]]
  }

  // ---- What the graph is ----

  predicate Kept(q: Query, id: nat) {
    var node := Lookup(q.nodes, id);
    node.None? || q.showArchived || !node.value.archived || q.focus == Some(id)
  }

  // The dependencies drawn from a node: its children but archived ones.
  function Targets(q: Query, id: nat): set<nat> {
    var node := Lookup(q.nodes, id);
    if node.None? then {} else set child | child in node.value.children && Kept(q, child)
  }

  ghost predicate Starts(q: Query, id: nat) {
    && Kept(q, id) && Lookup(q.nodes, id).Some?
    && (q.whole || q.focus.None? || q.focus == Some(id))
  }

  // The node that answers for an identifier is the first one listed with it.
  ghost predicate First(nodes: seq<Node>, id: nat, i: nat) {
    i < |nodes| && nodes[i].id == id && forall k | 0 <= k < i :: nodes[k].id != id
  }

  lemma {:induction false} LookupFirst(nodes: seq<Node>, id: nat)
    ensures Lookup(nodes, id).None? <==> forall i | 0 <= i < |nodes| :: nodes[i].id != id
    ensures forall i: nat | First(nodes, id, i) :: Lookup(nodes, id) == Some(nodes[i])
  {
    if |nodes| > 0 {
      LookupFirst(nodes[1..], id);
      assert forall i | 0 < i < |nodes| :: nodes[1..][i - 1] == nodes[i];
      forall i: nat | First(nodes, id, i) ensures Lookup(nodes, id) == Some(nodes[i]) {
        if i > 0 { assert First(nodes[1..], id, i - 1); }
      }
    }
  }

  /**
    A dependency is drawn from a node to each child it lists, except to a child
    that is archived, unless archived nodes are shown or it is in focus; an
    identifier without a node has none.
   */
  lemma DependenciesAre(q: Query, id: nat, child: nat)
    ensures (forall k | 0 <= k < |q.nodes| :: q.nodes[k].id != id) ==> child !in Targets(q, id)
    ensures forall i: nat | First(q.nodes, id, i) ::
              child in Targets(q, id) <==>
                && child in q.nodes[i].children
                && (q.showArchived || q.focus == Some(child) || forall j: nat | First(q.nodes, child, j) :: !q.nodes[j].archived)
  {
    hide Lookup; hide First;
    LookupFirst(q.nodes, id);
    LookupFirst(q.nodes, child);
    if Lookup(q.nodes, child).Some? {
      var j := FirstIndex(q.nodes, child);
      assert Lookup(q.nodes, child) == Some(q.nodes[j]);
    }
  }

  lemma {:induction false} FirstIndex(nodes: seq<Node>, id: nat) returns (j: nat)
    requires Lookup(nodes, id).Some?
    ensures First(nodes, id, j)
  {
    if nodes[0].id == id {
      j := 0;
    } else {
      var k := FirstIndex(nodes[1..], id);
      j := k + 1;
      assert forall i | 0 < i < |nodes| :: nodes[1..][i - 1] == nodes[i];
    }
  }

  /** Collection starts from every listed node that is shown, or from the one in focus. */
  lemma StartsAre(q: Query, id: nat)
    ensures Starts(q, id) <==>
              && (q.whole || q.focus == None || q.focus == Some(id))
              && exists i: nat :: First(q.nodes, id, i) && (q.showArchived || q.focus == Some(id) || !q.nodes[i].archived)
  {
    hide Lookup; hide First;
    LookupFirst(q.nodes, id);
    if Lookup(q.nodes, id).Some? {
      var j := FirstIndex(q.nodes, id);
      assert Lookup(q.nodes, id) == Some(q.nodes[j]);
    }
  }

  // A collected identifier: reached from a shown start through dependencies.
  ghost predicate Step(q: Query, p: seq<nat>) {
    |p| > 0 && forall i | 0 <= i < |p| - 1 :: p[i + 1] in Targets(q, p[i])
  }

  ghost predicate Collected(q: Query, id: nat) {
    exists p :: Step(q, p) && Starts(q, p[0]) && p[|p| - 1] == id
  }

  lemma CollectedStart(q: Query, id: nat)
    requires Starts(q, id)
    ensures Collected(q, id)
  {
    assert Step(q, [id]) && [id][0] == id && [id][|[id]| - 1] == id;
  }

  lemma CollectedNext(q: Query, id: nat, child: nat)
    requires Collected(q, id) && child in Targets(q, id)
    ensures Collected(q, child)
  {
    var p :| Step(q, p) && Starts(q, p[0]) && p[|p| - 1] == id;
    var r := p + [child];
    forall i | 0 <= i < |r| - 1 ensures r[i + 1] in Targets(q, r[i]) {
      if i < |p| - 1 { assert r[i + 1] == p[i + 1]; }
    }
    assert Step(q, r) && r[0] == p[0] && r[|r| - 1] == child;
  }

  // A set with every start, closed under dependencies, holds all that is collected.
  lemma {:induction false} ClosedCollects(q: Query, inside: set<nat>, p: seq<nat>)
    requires Step(q, p) && p[0] in inside
    requires forall id | id in inside :: Targets(q, id) <= inside
    ensures p[|p| - 1] in inside
    decreases |p|
  {
    if |p| > 1 {
      assert p[1] in Targets(q, p[0]);
      assert Step(q, p[1..]) by {
        forall i | 0 <= i < |p[1..]| - 1 ensures p[1..][i + 1] in Targets(q, p[1..][i]) { assert p[i + 2] in Targets(q, p[i + 1]); }
      }
      ClosedCollects(q, inside, p[1..]);
    }
  }

  // ---- Breadth-first collection ----

  // Every identifier the nodes mention.
  ghost function Names(q: Query): set<nat> {
    (set i | 0 <= i < |q.nodes| :: q.nodes[i].id) + (set i, c | 0 <= i < |q.nodes| && c in q.nodes[i].children :: c)
  }

  lemma {:induction false} LookupNamed(nodes: seq<Node>, id: nat)
    requires Lookup(nodes, id).Some?
    ensures Lookup(nodes, id).value in nodes && Lookup(nodes, id).value.id == id
  {
    if nodes[0].id != id { LookupNamed(nodes[1..], id); }
  }

  lemma TargetsNamed(q: Query, id: nat)
    ensures Lookup(q.nodes, id).Some? ==> id in Names(q)
    ensures Targets(q, id) <= Names(q)
  {
    if Lookup(q.nodes, id).Some? { LookupNamed(q.nodes, id); }
  }

  method Attached(q: Query, all: map<nat, Node>, id: nat) returns (targets: seq<nat>)
    requires Indexed(q.nodes, all) && id in all
    ensures Distinct(targets) && Elements(targets) == Targets(q, id)
  {
    targets := [];
    var children := Unique(all[id].children);
    for i := 0 to |children|
      invariant Distinct(targets) && Elements(targets) == set c | c in children[..i] && Kept(q, c)
    {
      var child := children[i];
      assert children[..i + 1] == children[..i] + [child];
      if !(child in all && !q.showArchived && all[child].archived && q.focus != Some(child)) {
        assert child !in Elements(targets);
        DistinctPush(targets, child);
        assert Elements(targets + [child]) == Elements(targets) + {child};
        targets := targets + [child];
      }
    }
    assert children[..|children|] == children;
    assert Elements(children) == Elements(all[id].children);
    assert forall c :: c in children <==> c in Elements(children);
    assert forall c :: c in all[id].children <==> c in Elements(all[id].children);
  }

  // What the queue and the drawn dependencies hold after each visit.
  ghost predicate Gathered(q: Query, pending: seq<nat>, visited: set<nat>, deps: map<nat, seq<nat>>) {
    && (forall id | id in pending :: id in Names(q) && (Kept(q, id) ==> Collected(q, id)))
    && (forall id :: Starts(q, id) ==> id in pending)
    && (forall id :: id in deps <==> id in visited && Kept(q, id))
    && visited <= Elements(pending)
    && (forall id | id in deps :: Distinct(deps[id]) && Elements(deps[id]) == Targets(q, id) && Targets(q, id) <= Elements(pending))
  }

  lemma StartGathered(q: Query, keys: seq<nat>, pending: seq<nat>)
    requires forall id :: id in keys <==> Lookup(q.nodes, id).Some?
    requires pending == if q.whole || q.focus.None? then keys else if q.focus.value in keys then [q.focus.value] else []
    ensures Gathered(q, pending, {}, map[])
  {
    forall id | id in pending ensures id in Names(q) && (Kept(q, id) ==> Collected(q, id)) {
      TargetsNamed(q, id);
      if Kept(q, id) { CollectedStart(q, id); }
    }
  }

  lemma VisitGathered(q: Query, pending: seq<nat>, visited: set<nat>, deps: map<nat, seq<nat>>, id: nat, targets: seq<nat>)
    requires Gathered(q, pending, visited, deps) && id in pending && Kept(q, id)
    requires Distinct(targets) && Elements(targets) == Targets(q, id)
    ensures Gathered(q, pending + targets, visited + {id}, deps[id := targets])
  {
    hide Names; hide Collected; hide Starts; hide Targets; hide Kept; hide Distinct;
    TargetsNamed(q, id);
    forall c | c in targets ensures c in Names(q) && (Kept(q, c) ==> Collected(q, c)) {
      assert c in Elements(targets);
      CollectedNext(q, id, c);
    }
    forall k | k in deps[id := targets] ensures Targets(q, k) <= Elements(pending + targets) {
      if k == id { assert Elements(targets) <= Elements(pending + targets); }
      else { assert Targets(q, k) <= Elements(pending); }
    }
  }

  lemma TargetsKept(q: Query, id: nat, child: nat)
    requires child in Targets(q, id)
    ensures Kept(q, child)
  {
  }

  lemma StartKept(q: Query, id: nat)
    requires Starts(q, id)
    ensures Kept(q, id)
  {
  }

  lemma AllGathered(q: Query, pending: seq<nat>, visited: set<nat>, deps: map<nat, seq<nat>>)
    requires Gathered(q, pending, visited, deps) && Elements(pending) <= visited
    ensures forall id :: id in deps <==> Collected(q, id)
  {
    hide Names; hide Kept; hide Targets; hide Distinct; hide Starts;
    forall id | Collected(q, id) ensures id in deps {
      var p :| Step(q, p) && Starts(q, p[0]) && p[|p| - 1] == id;
      StartKept(q, p[0]);
      assert p[0] in pending;
      forall k | k in deps.Keys ensures Targets(q, k) <= deps.Keys {
        forall c | c in Targets(q, k) ensures c in deps { TargetsKept(q, k, c); assert c in Elements(pending); }
      }
      ClosedCollects(q, deps.Keys, p);
    }
  }

  ghost predicate Scanned(q: Query, pending: seq<nat>, cursor: nat, visited: set<nat>, vertices: seq<nat>, deps: map<nat, seq<nat>>) {
    && cursor <= |pending| && Gathered(q, pending, visited, deps) && visited == Elements(pending[..cursor])
    && Distinct(vertices) && Elements(vertices) == deps.Keys
  }

  lemma ScanSeen(q: Query, pending: seq<nat>, cursor: nat, visited: set<nat>, vertices: seq<nat>, deps: map<nat, seq<nat>>)
    requires cursor < |pending| && Scanned(q, pending, cursor, visited, vertices, deps)
    requires pending[cursor] in visited || !Kept(q, pending[cursor])
    ensures Scanned(q, pending, cursor + 1, visited + {pending[cursor]}, vertices, deps)
  {
    hide Kept; hide Gathered; hide Distinct;
    ElementsNext(pending, cursor);
    if pending[cursor] in visited { assert visited + {pending[cursor]} == visited; }
    else { HideGathered(q, pending, visited, deps, pending[cursor]); }
  }

  lemma ScanVisit(q: Query, pending: seq<nat>, cursor: nat, visited: set<nat>, vertices: seq<nat>, deps: map<nat, seq<nat>>,
                  targets: seq<nat>)
    requires cursor < |pending| && Scanned(q, pending, cursor, visited, vertices, deps)
    requires pending[cursor] !in visited && Kept(q, pending[cursor])
    requires Distinct(targets) && Elements(targets) == Targets(q, pending[cursor])
    ensures Scanned(q, pending + targets, cursor + 1, visited + {pending[cursor]}, vertices + [pending[cursor]],
                    deps[pending[cursor] := targets])
  {
    hide Kept; hide Gathered; hide Distinct; hide Targets;
    var id := pending[cursor];
    ElementsNext(pending, cursor);
    Fresh(q, pending, visited, deps, id);
    VisitGathered(q, pending, visited, deps, id, targets);
    assert (pending + targets)[..cursor + 1] == pending[..cursor + 1];
    assert id !in Elements(vertices);
    DistinctPush(vertices, id);
    assert Elements(vertices + [id]) == Elements(vertices) + {id};
  }

  lemma ScanShrinks(q: Query, pending: seq<nat>, cursor: nat, visited: set<nat>, vertices: seq<nat>, deps: map<nat, seq<nat>>)
    requires cursor < |pending| && Scanned(q, pending, cursor, visited, vertices, deps) && pending[cursor] !in visited
    ensures |Names(q) - (visited + {pending[cursor]})| < |Names(q) - visited|
  {
    Fresh(q, pending, visited, deps, pending[cursor]);
  }

  lemma ScanStart(q: Query, pending: seq<nat>)
    requires Gathered(q, pending, {}, map[])
    ensures Scanned(q, pending, 0, {}, [], map[])
  {
  }

  // Exactly what the starts reach, each vertex with its drawn dependencies.
  ghost predicate Gathers(q: Query, vertices: seq<nat>, deps: map<nat, seq<nat>>) {
    && Distinct(vertices) && Elements(vertices) == deps.Keys
    && (forall id: nat :: id in deps <==> Collected(q, id))
    && (forall id | id in deps :: Distinct(deps[id]) && Elements(deps[id]) == Targets(q, id))
  }

  lemma ScanEnd(q: Query, pending: seq<nat>, visited: set<nat>, vertices: seq<nat>, deps: map<nat, seq<nat>>)
    requires Scanned(q, pending, |pending|, visited, vertices, deps)
    ensures Gathers(q, vertices, deps)
  {
    hide Gathered; hide Distinct; hide Targets; hide Collected;
    assert pending[..|pending|] == pending;
    AllGathered(q, pending, visited, deps);
    DrawnTargets(q, pending, visited, deps);
  }

  lemma Shown(q: Query, all: map<nat, Node>, id: nat)
    requires Indexed(q.nodes, all)
    ensures Kept(q, id) <==> !(id in all && !q.showArchived && all[id].archived && q.focus != Some(id))
  {
  }

  method Begin(q: Query) returns (all: map<nat, Node>, pending: seq<nat>)
    ensures Indexed(q.nodes, all) && Scanned(q, pending, 0, {}, [], map[])
  {
    hide Gathered; hide Scanned;
    var keys;
    all, keys := IndexNodes(q.nodes);
    pending := if q.whole || q.focus.None? then keys else if q.focus.value in all then [q.focus.value] else [];
    assert forall id :: id in keys <==> id in Elements(keys);
    StartGathered(q, keys, pending);
    ScanStart(q, pending);
  }

  /** The collected vertices are exactly the identifiers reached from the shown starts, each with its drawn dependencies. */
  method Collect(q: Query) returns (vertices: seq<nat>, deps: map<nat, seq<nat>>)
    ensures Gathers(q, vertices, deps)
  {
    hide Scanned; hide Gathers; hide Targets; hide Names; hide Kept; hide Indexed; hide Distinct;
    var all, pending := Begin(q);
    vertices, deps := [], map[];
    var visited: set<nat>, cursor := {}, 0;
    while cursor < |pending|
      invariant 0 <= cursor <= |pending| && Scanned(q, pending, cursor, visited, vertices, deps)
      decreases |Names(q) - visited|, |pending| - cursor
    {
      var id := pending[cursor];
      var shown := !(id in all && !q.showArchived && all[id].archived && q.focus != Some(id));
      Shown(q, all, id);
      if id in visited || !shown {
        ScanSeen(q, pending, cursor, visited, vertices, deps);
        if id in visited { assert visited + {id} == visited; } else { ScanShrinks(q, pending, cursor, visited, vertices, deps); }
        visited, cursor := visited + {id}, cursor + 1;
        continue;
      }
      var targets := [];
      if id in all { targets := Attached(q, all, id); } else { Unknown(q, all, id); }
      ScanVisit(q, pending, cursor, visited, vertices, deps, targets);
      ScanShrinks(q, pending, cursor, visited, vertices, deps);
      visited, vertices, deps, pending, cursor := visited + {id}, vertices + [id], deps[id := targets], pending + targets, cursor + 1;
    }
    ScanEnd(q, pending, visited, vertices, deps);
  }

  lemma Unknown(q: Query, all: map<nat, Node>, id: nat)
    requires Indexed(q.nodes, all) && id !in all
    ensures Targets(q, id) == {} && Elements([]) == {} && Distinct<nat>([])
  {
  }

  lemma Fresh(q: Query, pending: seq<nat>, visited: set<nat>, deps: map<nat, seq<nat>>, id: nat)
    requires Gathered(q, pending, visited, deps) && id in pending && id !in visited
    ensures id !in deps && |Names(q) - (visited + {id})| < |Names(q) - visited|
  {
    assert Names(q) - visited == (Names(q) - (visited + {id})) + {id};
  }

  lemma HideGathered(q: Query, pending: seq<nat>, visited: set<nat>, deps: map<nat, seq<nat>>, id: nat)
    requires Gathered(q, pending, visited, deps) && id in pending && !Kept(q, id)
    ensures Gathered(q, pending, visited + {id}, deps)
  {
  }

  lemma DrawnTargets(q: Query, pending: seq<nat>, visited: set<nat>, deps: map<nat, seq<nat>>)
    requires Gathered(q, pending, visited, deps)
    ensures forall id | id in deps :: Distinct(deps[id]) && Elements(deps[id]) == Targets(q, id)
  {
  }
}
