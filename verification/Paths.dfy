/** Paths, reachability and cycles of finite directed graphs. */
module Paths {
  // A vertex without an entry has no successors.
  type Graph = map<nat, set<nat>>

  function Next(g: Graph, v: nat): set<nat> { if v in g then g[v] else {} }

  ghost predicate Path(g: Graph, p: seq<nat>) {
    |p| > 0 && forall i | 0 <= i < |p| - 1 :: p[i + 1] in Next(g, p[i])
  }

  ghost predicate Joins(g: Graph, p: seq<nat>, u: nat, v: nat) { Path(g, p) && p[0] == u && p[|p| - 1] == v }

  ghost predicate Reaches(g: Graph, u: nat, v: nat) { exists p :: Joins(g, p, u, v) }

  // A closed walk of at least one edge through v.
  ghost predicate OnCycle(g: Graph, v: nat) { exists w :: w in Next(g, v) && Reaches(g, w, v) }

  lemma ReachesSelf(g: Graph, u: nat)
    ensures Reaches(g, u, u)
  {
    assert Joins(g, [u], u, u);
  }

  lemma ReachesTrans(g: Graph, u: nat, v: nat, w: nat)
    requires Reaches(g, u, v) && Reaches(g, v, w)
    ensures Reaches(g, u, w)
  {
    var p :| Joins(g, p, u, v);
    var q :| Joins(g, q, v, w);
    var r := p + q[1..];
    forall i | 0 <= i < |r| - 1 ensures r[i + 1] in Next(g, r[i]) {
      if i < |p| - 1 { assert r[i + 1] == p[i + 1]; }
      else { assert r[i] == q[i - |p| + 1] && r[i + 1] == q[i - |p| + 2]; }
    }
    assert Joins(g, r, u, w);
  }

  lemma ReachesStep(g: Graph, u: nat, v: nat, w: nat)
    requires Reaches(g, u, v) && w in Next(g, v)
    ensures Reaches(g, u, w)
  {
    assert Joins(g, [v, w], v, w);
    ReachesTrans(g, u, v, w);
  }

  // A set closed under successors contains all that it reaches.
  lemma {:induction false} ClosedPath(g: Graph, inside: set<nat>, p: seq<nat>)
    requires Path(g, p) && p[0] in inside
    requires forall v | v in inside :: Next(g, v) <= inside
    ensures forall i | 0 <= i < |p| :: p[i] in inside
    decreases |p|
  {
    if |p| > 1 {
      assert p[1] in Next(g, p[0]);
      assert Path(g, p[1..]) by {
        forall i | 0 <= i < |p[1..]| - 1 ensures p[1..][i + 1] in Next(g, p[1..][i]) { assert p[i + 2] in Next(g, p[i + 1]); }
      }
      ClosedPath(g, inside, p[1..]);
      forall i | 0 <= i < |p| ensures p[i] in inside { if i > 0 { assert p[i] == p[1..][i - 1]; } }
    }
  }

  lemma ClosedReaches(g: Graph, inside: set<nat>, u: nat, v: nat)
    requires u in inside && Reaches(g, u, v)
    requires forall w | w in inside :: Next(g, w) <= inside
    ensures v in inside
  {
    var p :| Joins(g, p, u, v);
    ClosedPath(g, inside, p);
  }

  // ---- Topological orders ----

  // Every successor of a listed vertex is listed before it.
  ghost predicate Topological(g: Graph, order: seq<nat>) {
    forall i | 0 <= i < |order| :: forall w | w in Next(g, order[i]) :: w in order[..i]
  }

  lemma {:induction false} OrderedPath(g: Graph, order: seq<nat>, p: seq<nat>, i: nat)
    requires Topological(g, order) && Path(g, p) && i < |order| && order[i] == p[0]
    ensures p[|p| - 1] in order[..i + 1]
    ensures |p| > 1 ==> p[|p| - 1] in order[..i]
    decreases |p|
  {
    if |p| > 1 {
      assert p[1] in Next(g, p[0]);
      var j :| 0 <= j < i && order[j] == p[1];
      assert Path(g, p[1..]) by {
        forall k | 0 <= k < |p[1..]| - 1 ensures p[1..][k + 1] in Next(g, p[1..][k]) { assert p[k + 2] in Next(g, p[k + 1]); }
      }
      OrderedPath(g, order, p[1..], j);
      assert p[|p| - 1] == p[1..][|p[1..]| - 1];
      assert order[..j + 1] <= order[..i];
    }
  }

  // A vertex of a topological order lies on no cycle.
  lemma OrderAcyclic(g: Graph, order: seq<nat>, v: nat)
    requires Topological(g, order) && v in order
    ensures !OnCycle(g, v)
  {
    if OnCycle(g, v) {
      var i := FirstAt(order, v);
      var w :| w in Next(g, v) && Reaches(g, w, v);
      var p :| Joins(g, p, w, v);
      var j :| 0 <= j < i && order[j] == w;
      OrderedPath(g, order, p, j);
    }
  }

  ghost function FirstAt(order: seq<nat>, v: nat): (i: nat)
    requires v in order
    ensures i < |order| && order[i] == v && v !in order[..i]
  {
    if order[0] == v then 0 else 1 + FirstAt(order[1..], v)
  }
}
