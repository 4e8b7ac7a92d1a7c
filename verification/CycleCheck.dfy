/** Kahn's peeling of vertices without remaining predecessors (formalizationGraph.ts). */
module CycleCheck {
  import opened Sequences
  import opened Paths
  import opened Contraction

  // Predecessors of v among the vertices not yet peeled.
  ghost function Preds(g: Graph, done: set<nat>, v: nat): set<nat> {
    set u | u in g && u !in done && v in g[u]
  }

  ghost predicate Complete(g: Graph) { forall v | v in g :: g[v] <= g.Keys }

  // ---- Counting in-degrees ----

  // Targets counted so far: all of `some`, and the first n of `last`.
  ghost predicate Counted(g: Graph, degree: map<nat, nat>, some: set<nat>) {
    degree.Keys == g.Keys && forall v | v in g :: degree[v] == |Preds(g, g.Keys - some, v)|
  }

  ghost predicate Counting(g: Graph, degree: map<nat, nat>, some: set<nat>, u: nat, part: seq<nat>) {
    && degree.Keys == g.Keys
    && forall v | v in g :: degree[v] == |Preds(g, g.Keys - some, v)| + (if v in part then 1 else 0)
  }

  lemma PredsGain(g: Graph, some: set<nat>, u: nat, v: nat)
    requires u in g && u !in some
    ensures |Preds(g, g.Keys - (some + {u}), v)| == |Preds(g, g.Keys - some, v)| + (if v in g[u] then 1 else 0)
  {
    var before, after := Preds(g, g.Keys - some, v), Preds(g, g.Keys - (some + {u}), v);
    if v in g[u] { assert after == before + {u}; } else { assert after == before; }
  }

  method InDegrees(vertices: seq<nat>, deps: map<nat, seq<nat>>) returns (degree: map<nat, nat>)
    requires Distinct(vertices) && Elements(vertices) == deps.Keys && Complete(GraphOf(deps))
    requires forall v | v in deps :: Distinct(deps[v])
    ensures Counted(GraphOf(deps), degree, deps.Keys)
  {
    hide Preds; hide Elements;
    ghost var g := GraphOf(deps);
    degree := map v | v in deps :: 0;
    StartCounted(g, degree);
    for i := 0 to |vertices|
      invariant Counted(g, degree, Elements(vertices[..i]))
    {
      Vertex(vertices, deps, i);
      var u, targets := vertices[i], deps[vertices[i]];
      ghost var some := Elements(vertices[..i]);
      for j := 0 to |targets|
        invariant Counting(g, degree, some, u, targets[..j])
      {
        assert targets[..j + 1] == targets[..j] + [targets[j]];
        Target(deps, u, j);
        degree := degree[targets[j] := degree[targets[j]] + 1];
      }
      assert targets[..|targets|] == targets;
      forall v | v in g ensures |Preds(g, g.Keys - (some + {u}), v)| == |Preds(g, g.Keys - some, v)| + (if v in targets then 1 else 0) {
        PredsGain(g, some, u, v);
        InTargets(deps, u, v);
      }
    }
    assert vertices[..|vertices|] == vertices;
  }

  lemma StartCounted(g: Graph, degree: map<nat, nat>)
    requires degree.Keys == g.Keys && forall v | v in degree :: degree[v] == 0
    ensures Counted(g, degree, Elements([]))
  {
    forall v | v in g ensures |Preds(g, g.Keys - Elements([]), v)| == 0 { assert Preds(g, g.Keys - Elements([]), v) == {}; }
  }

  lemma Vertex(vertices: seq<nat>, deps: map<nat, seq<nat>>, i: nat)
    requires Distinct(vertices) && Elements(vertices) == deps.Keys && i < |vertices|
    ensures vertices[i] in deps && vertices[i] !in Elements(vertices[..i])
    ensures Elements(vertices[..i + 1]) == Elements(vertices[..i]) + {vertices[i]}
  {
    assert vertices[i] in Elements(vertices);
    ElementsNext(vertices, i);
  }

  lemma Target(deps: map<nat, seq<nat>>, u: nat, j: nat)
    requires u in deps && Complete(GraphOf(deps)) && j < |deps[u]| && Distinct(deps[u])
    ensures deps[u][j] in deps && deps[u][j] !in deps[u][..j] && deps[u][j] in Next(GraphOf(deps), u)
  {
    assert deps[u][j] in GraphOf(deps)[u];
  }

  lemma InTargets(deps: map<nat, seq<nat>>, u: nat, v: nat)
    requires u in deps
    ensures v in deps[u] <==> v in GraphOf(deps)[u]
  {
  }

  // ---- Peeling ----

  // `roots[..cursor]` is peeled; a vertex is listed once nothing unpeeled leads to it.
  ghost predicate Peeled(g: Graph, roots: seq<nat>, cursor: nat, degree: map<nat, nat>) {
    && cursor <= |roots| && Distinct(roots) && Elements(roots) <= g.Keys
    && degree.Keys == g.Keys
    && (forall v | v in g :: degree[v] == |Preds(g, Elements(roots[..cursor]), v)|)
    && (forall v | v in g :: v in roots <==> degree[v] == 0)
    && Ranked(g, roots)
  }

  // Every predecessor of a listed vertex is listed before it.
  ghost predicate Ranked(g: Graph, roots: seq<nat>) {
    forall i, u | 0 <= i < |roots| && u in g && roots[i] in g[u] :: u in roots[..i]
  }

  lemma PredsLose(g: Graph, done: set<nat>, u: nat, v: nat)
    requires u in g && u !in done
    ensures |Preds(g, done + {u}, v)| == |Preds(g, done, v)| - (if v in g[u] then 1 else 0)
  {
    var before, after := Preds(g, done, v), Preds(g, done + {u}, v);
    if v in g[u] { assert before == after + {u}; } else { assert before == after; }
  }

  // While root u's targets are decremented: the first of them are done.
  ghost predicate Peeling(g: Graph, roots: seq<nat>, cursor: nat, degree: map<nat, nat>, part: seq<nat>) {
    && cursor < |roots| && Distinct(roots) && Elements(roots) <= g.Keys
    && degree.Keys == g.Keys
    && (forall v | v in g ::
          degree[v] == (if v in part then |Preds(g, Elements(roots[..cursor + 1]), v)| else |Preds(g, Elements(roots[..cursor]), v)|))
    && (forall v | v in g :: v in roots <==> degree[v] == 0)
    && Ranked(g, roots)
  }

  lemma PeelTarget(g: Graph, roots: seq<nat>, cursor: nat, degree: map<nat, nat>, part: seq<nat>, v: nat)
    requires Peeling(g, roots, cursor, degree, part) && v in Next(g, roots[cursor]) && v in g && v !in part
    ensures degree[v] > 0
    ensures var left := degree[v] - 1;
            var roots' := if left == 0 then roots + [v] else roots;
            Peeling(g, roots', cursor, degree[v := left], part + [v])
  {
    hide Preds;
    var u := roots[cursor];
    assert u in Elements(roots);
    Root(roots, cursor);
    PredsLose(g, Elements(roots[..cursor]), u, v);
    NonEmpty(g, Elements(roots[..cursor]), u, v);
    if degree[v] == 1 {
      var more := roots + [v];
      DistinctPush(roots, v);
      assert Elements(more) == Elements(roots) + {v};
      assert more[..cursor] == roots[..cursor] && more[..cursor + 1] == roots[..cursor + 1];
      forall i, w | 0 <= i < |more| && w in g && more[i] in g[w] ensures w in more[..i] {
        if i < |roots| { assert more[..i] == roots[..i] && roots[i] in g[w]; }
        else {
          Empty(g, Elements(roots[..cursor + 1]), w, v);
          assert more[..i] == roots;
        }
      }
    }
  }

  lemma NonEmpty(g: Graph, done: set<nat>, u: nat, v: nat)
    requires u in g && u !in done && v in g[u]
    ensures |Preds(g, done, v)| > 0
  {
    assert u in Preds(g, done, v);
  }

  lemma Empty(g: Graph, done: set<nat>, w: nat, v: nat)
    requires |Preds(g, done, v)| == 0 && w in g && v in g[w]
    ensures w in done
  {
    var preds := Preds(g, done, v);
    assert preds == {} && w !in preds;
  }

  lemma Root(roots: seq<nat>, cursor: nat)
    requires Distinct(roots) && cursor < |roots|
    ensures Elements(roots[..cursor + 1]) == Elements(roots[..cursor]) + {roots[cursor]}
    ensures roots[cursor] !in Elements(roots[..cursor])
  {
    ElementsNext(roots, cursor);
  }

  lemma PeelDone(deps: map<nat, seq<nat>>, roots: seq<nat>, cursor: nat, degree: map<nat, nat>)
    requires cursor < |roots| && roots[cursor] in deps && Peeling(GraphOf(deps), roots, cursor, degree, deps[roots[cursor]])
    ensures Peeled(GraphOf(deps), roots, cursor + 1, degree)
  {
    hide Preds;
    var g := GraphOf(deps);
    Root(roots, cursor);
    forall v | v in g ensures degree[v] == |Preds(g, Elements(roots[..cursor + 1]), v)| {
      InTargets(deps, roots[cursor], v);
      PredsLose(g, Elements(roots[..cursor]), roots[cursor], v);
    }
  }

  // ---- What the count tells ----

  lemma {:induction false} Pigeonhole(p: seq<nat>, s: set<nat>)
    requires |p| > |s| && forall i | 0 <= i < |p| :: p[i] in s
    ensures exists i, j :: 0 <= i < j < |p| && p[i] == p[j]
    decreases |p|
  {
    var x, rest := p[0], p[1..];
    if x in rest {
      var j :| 0 <= j < |rest| && rest[j] == x;
      assert p[0] == p[j + 1];
    } else {
      forall i | 0 <= i < |rest| ensures rest[i] in s - {x} { assert rest[i] == p[i + 1]; }
      Pigeonhole(rest, s - {x});
      var i, j :| 0 <= i < j < |rest| && rest[i] == rest[j];
      assert p[i + 1] == p[j + 1];
    }
  }

  ghost predicate Fed(g: Graph, s: set<nat>, v: nat) { exists u :: u in s && v in Next(g, u) }

  // Vertices that all have a predecessor among themselves carry arbitrarily long paths.
  lemma {:induction false} BackwardPath(g: Graph, s: set<nat>, n: nat) returns (p: seq<nat>)
    requires s != {} && forall v | v in s :: Fed(g, s, v)
    ensures |p| == n + 1 && Path(g, p) && forall i | 0 <= i < |p| :: p[i] in s
  {
    hide Fed; hide Path; hide Next;
    if n == 0 {
      var v :| v in s;
      p := [v];
      SinglePath(g, v);
    } else {
      var q := BackwardPath(g, s, n - 1);
      var u := Feeder(g, s, q[0]);
      p := [u] + q;
      ConsPath(g, u, q);
    }
  }

  lemma SinglePath(g: Graph, v: nat)
    ensures Path(g, [v])
  {
  }

  lemma Feeder(g: Graph, s: set<nat>, v: nat) returns (u: nat)
    requires Fed(g, s, v)
    ensures u in s && v in Next(g, u)
  {
    u :| u in s && v in Next(g, u);
  }

  lemma ConsPath(g: Graph, u: nat, q: seq<nat>)
    requires Path(g, q) && q[0] in Next(g, u)
    ensures Path(g, [u] + q)
  {
    var p := [u] + q;
    forall i | 0 <= i < |p| - 1 ensures p[i + 1] in Next(g, p[i]) {
      if i > 0 { assert p[i] == q[i - 1] && p[i + 1] == q[i - 1 + 1]; }
    }
  }

  lemma StuckCycle(g: Graph, s: set<nat>)
    requires s != {} && forall v | v in s :: Fed(g, s, v)
    ensures exists v :: v in s && OnCycle(g, v)
  {
    hide Fed; hide Path; hide Next; hide Reaches;
    var p := BackwardPath(g, s, |s|);
    Pigeonhole(p, s);
    var i, j :| 0 <= i < j < |p| && p[i] == p[j];
    LoopCycle(g, p, i, j);
  }

  lemma LoopCycle(g: Graph, p: seq<nat>, i: nat, j: nat)
    requires Path(g, p) && i < j < |p| && p[i] == p[j]
    ensures OnCycle(g, p[i])
  {
    hide Path; hide Next; hide Reaches;
    TailPath(g, p, j);
    TailPath(g, p[..j + 1], i);
    PathLeads(g, p[..j + 1][i..]);
  }

  function Reversed(s: seq<nat>): seq<nat> { seq(|s|, (i: nat) requires i < |s| => s[|s| - 1 - i]) }

  lemma RankedTopological(g: Graph, roots: seq<nat>)
    requires Complete(g) && Ranked(g, roots) && Elements(roots) == g.Keys && Distinct(roots)
    ensures Topological(g, Reversed(roots))
  {
    var order := Reversed(roots);
    forall i, w | 0 <= i < |order| && w in Next(g, order[i]) ensures w in order[..i] {
      assert w in Elements(roots);
      var j :| 0 <= j < |roots| && roots[j] == w;
      assert order[i] in roots[..j];
      Mirrored(roots, i, j);
    }
  }

  lemma Mirrored(roots: seq<nat>, i: nat, j: nat)
    requires i < |roots| && j < |roots| && Distinct(roots) && Reversed(roots)[i] in roots[..j]
    ensures roots[j] in Reversed(roots)[..i]
  {
    var k :| 0 <= k < j && roots[k] == Reversed(roots)[i];
    assert k == |roots| - 1 - i;
    assert Reversed(roots)[..i][|roots| - 1 - j] == roots[j];
  }

  lemma RankedAcyclic(g: Graph, roots: seq<nat>)
    requires Complete(g) && Ranked(g, roots) && Elements(roots) == g.Keys && Distinct(roots)
    ensures forall v | v in g :: !OnCycle(g, v)
  {
    hide Topological; hide OnCycle; hide Ranked; hide Complete; hide Distinct;
    RankedTopological(g, roots);
    forall v | v in g ensures !OnCycle(g, v) {
      assert v in Elements(roots);
      var j :| 0 <= j < |roots| && roots[j] == v;
      assert Reversed(roots)[|roots| - 1 - j] == v;
      OrderAcyclic(g, Reversed(roots), v);
    }
  }

  lemma LeftFed(g: Graph, roots: seq<nat>, v: nat)
    requires v in g && |Preds(g, Elements(roots), v)| > 0
    ensures Fed(g, g.Keys - Elements(roots), v)
  {
    var u :| u in Preds(g, Elements(roots), v);
    assert u in g.Keys - Elements(roots) && v in Next(g, u);
  }

  lemma PeeledVerdict(g: Graph, roots: seq<nat>, degree: map<nat, nat>)
    requires Complete(g) && Peeled(g, roots, |roots|, degree)
    ensures |roots| != |g.Keys| <==> exists v :: v in g && OnCycle(g, v)
  {
    hide Preds; hide OnCycle; hide Ranked; hide Complete; hide Fed;
    assert roots[..|roots|] == roots;
    DistinctSize(roots);
    if Elements(roots) == g.Keys {
      RankedAcyclic(g, roots);
    } else {
      var s := g.Keys - Elements(roots);
      assert |s| == |g.Keys| - |roots|;
      forall v | v in s ensures Fed(g, s, v) {
        assert v !in roots;
        LeftFed(g, roots, v);
      }
      StuckCycle(g, s);
    }
  }

  // ---- The check ----

  method FreeVertices(vertices: seq<nat>, degree: map<nat, nat>) returns (roots: seq<nat>)
    requires Distinct(vertices) && Elements(vertices) == degree.Keys
    ensures Distinct(roots) && forall v :: v in roots <==> v in degree && degree[v] == 0
  {
    roots := [];
    for i := 0 to |vertices|
      invariant Distinct(roots) && forall v :: v in roots <==> v in vertices[..i] && v in degree && degree[v] == 0
    {
      assert vertices[i] in Elements(vertices) && vertices[..i + 1] == vertices[..i] + [vertices[i]];
      if degree[vertices[i]] == 0 { roots := roots + [vertices[i]]; }
    }
    assert vertices[..|vertices|] == vertices;
    forall v | v in degree ensures v in vertices { assert v in Elements(vertices); }
  }

  lemma StartPeeled(g: Graph, roots: seq<nat>, degree: map<nat, nat>)
    requires Complete(g) && Counted(g, degree, g.Keys) && Distinct(roots)
    requires forall v :: v in roots <==> v in degree && degree[v] == 0
    ensures Peeled(g, roots, 0, degree)
  {
    assert g.Keys - g.Keys == {} && Elements(roots[..0]) == {};
    forall i, u | 0 <= i < |roots| && u in g ensures roots[i] !in g[u] {
      assert roots[i] in roots;
      var preds := Preds(g, {}, roots[i]);
      assert preds == {} && u !in preds;
    }
  }

  lemma PeelStart(deps: map<nat, seq<nat>>, roots: seq<nat>, cursor: nat, degree: map<nat, nat>)
    requires Peeled(GraphOf(deps), roots, cursor, degree) && cursor < |roots|
    ensures roots[cursor] in deps && Peeling(GraphOf(deps), roots, cursor, degree, [])
    ensures |roots| <= |deps.Keys|
  {
    assert roots[cursor] in Elements(roots);
    DistinctSize(roots);
    assert deps.Keys == Elements(roots) + (deps.Keys - Elements(roots));
  }

  /** `hasCycle` holds exactly when the collected dependency graph has a directed cycle. */
  method HasCycle(vertices: seq<nat>, deps: map<nat, seq<nat>>) returns (cyclic: bool)
    requires Distinct(vertices) && Elements(vertices) == deps.Keys && Complete(GraphOf(deps))
    requires forall v | v in deps :: Distinct(deps[v])
    ensures cyclic <==> exists v :: v in deps && OnCycle(GraphOf(deps), v)
  {
    hide Peeled; hide Peeling; hide Counted; hide Complete; hide OnCycle; hide Elements;
    ghost var g := GraphOf(deps);
    var degree := InDegrees(vertices, deps);
    assert g.Keys == deps.Keys;
    assert degree.Keys == deps.Keys by { Keyed(g, degree); }
    var roots := FreeVertices(vertices, degree);
    StartPeeled(g, roots, degree);
    var cursor := 0;
    while cursor < |roots|
      invariant 0 <= cursor <= |roots| && Peeled(g, roots, cursor, degree)
      decreases |deps.Keys| - cursor
    {
      PeelStart(deps, roots, cursor, degree);
      var targets := deps[roots[cursor]];
      for j := 0 to |targets|
        invariant cursor < |roots| && roots[cursor] in deps && deps[roots[cursor]] == targets
        invariant Peeling(g, roots, cursor, degree, targets[..j])
      {
        assert targets[..j + 1] == targets[..j] + [targets[j]];
        Target(deps, roots[cursor], j);
        PeelTarget(g, roots, cursor, degree, targets[..j], targets[j]);
        PeelKeys(g, roots, cursor, degree, targets[..j]);
        var remaining := degree[targets[j]] - 1;
        degree := degree[targets[j] := remaining];
        if remaining == 0 { roots := roots + [targets[j]]; }
      }
      assert targets[..|targets|] == targets;
      PeelDone(deps, roots, cursor, degree);
      cursor := cursor + 1;
    }
    PeeledVerdict(g, roots, degree);
    Size(vertices, deps);
    cyclic := |roots| != |vertices|;
  }

  lemma Keyed(g: Graph, degree: map<nat, nat>)
    requires Counted(g, degree, g.Keys)
    ensures degree.Keys == g.Keys
  {
  }

  lemma PeelKeys(g: Graph, roots: seq<nat>, cursor: nat, degree: map<nat, nat>, part: seq<nat>)
    requires Peeling(g, roots, cursor, degree, part)
    ensures degree.Keys == g.Keys
  {
  }

  lemma Size(vertices: seq<nat>, deps: map<nat, seq<nat>>)
    requires Distinct(vertices) && Elements(vertices) == deps.Keys
    ensures |vertices| == |deps.Keys|
  {
    DistinctSize(vertices);
  }
}
