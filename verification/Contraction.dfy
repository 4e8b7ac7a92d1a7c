/** Bypassing hidden definitions without losing the claims beyond them (formalizationGraph.ts). */
module Contraction {
  import opened Sequences
  import opened Paths

  function GraphOf(deps: map<nat, seq<nat>>): Graph { map v | v in deps :: Elements(deps[v]) }

  // ---- Paths through hidden vertices ----

  ghost predicate Covert(g: Graph, visible: set<nat>, p: seq<nat>, u: nat, v: nat) {
    Joins(g, p, u, v) && |p| >= 2 && forall i | 0 < i < |p| - 1 :: p[i] !in visible
  }

  // v is reached from u through hidden vertices only.
  ghost predicate Behind(g: Graph, visible: set<nat>, u: nat, v: nat) { exists p :: Covert(g, visible, p, u, v) }

  ghost predicate Bridges(g: Graph, visible: set<nat>, u: nat, v: nat) { v in visible && Behind(g, visible, u, v) }

  lemma BehindNext(g: Graph, visible: set<nat>, u: nat, v: nat)
    requires v in Next(g, u)
    ensures Behind(g, visible, u, v)
  {
    assert Covert(g, visible, [u, v], u, v);
  }

  lemma BehindStep(g: Graph, visible: set<nat>, u: nat, v: nat, w: nat)
    requires Behind(g, visible, u, v) && v !in visible && w in Next(g, v)
    ensures Behind(g, visible, u, w)
  {
    var p :| Covert(g, visible, p, u, v);
    var r := p + [w];
    forall i | 0 <= i < |r| - 1 ensures r[i + 1] in Next(g, r[i]) {
      if i < |p| - 1 { assert r[i + 1] == p[i + 1]; }
    }
    assert Covert(g, visible, r, u, w);
  }

  // A set with u's successors, closed at hidden vertices, holds all that is behind u.
  lemma {:induction false} ClosedBehind(g: Graph, visible: set<nat>, inside: set<nat>, p: seq<nat>, u: nat, i: nat)
    requires 1 <= i < |p| && Covert(g, visible, p, u, p[|p| - 1])
    requires Next(g, u) <= inside && forall v | v in inside && v !in visible :: Next(g, v) <= inside
    ensures p[i] in inside
  {
    if i == 1 {
      assert p[0 + 1] in Next(g, p[0]);
    } else {
      ClosedBehind(g, visible, inside, p, u, i - 1);
      assert p[i - 1 + 1] in Next(g, p[i - 1]);
    }
  }

  // ---- One vertex ----

  ghost predicate Swept(deps: map<nat, seq<nat>>, visible: set<nat>, key: nat, next: seq<nat>, cursor: nat, seen: set<nat>) {
    && cursor <= |next| && seen == Elements(next[..cursor])
    && (forall v | v in next :: v in deps && Behind(GraphOf(deps), visible, key, v))
    && Next(GraphOf(deps), key) <= Elements(next)
    && (forall v | v in seen && v !in visible :: Next(GraphOf(deps), v) <= Elements(next))
  }

  lemma SweepStart(deps: map<nat, seq<nat>>, visible: set<nat>, key: nat)
    requires key in deps && Elements(deps[key]) <= deps.Keys
    ensures Swept(deps, visible, key, deps[key], 0, {})
  {
    forall v | v in deps[key] ensures v in deps && Behind(GraphOf(deps), visible, key, v) {
      assert v in Elements(deps[key]);
      BehindNext(GraphOf(deps), visible, key, v);
    }
  }

  lemma SweepStep(deps: map<nat, seq<nat>>, visible: set<nat>, key: nat, next: seq<nat>, cursor: nat, seen: set<nat>, more: seq<nat>)
    requires Swept(deps, visible, key, next, cursor, seen) && cursor < |next|
    requires forall v | v in deps :: Elements(deps[v]) <= deps.Keys
    requires more == if next[cursor] in seen || next[cursor] in visible then [] else deps[next[cursor]]
    ensures Swept(deps, visible, key, next + more, cursor + 1, seen + {next[cursor]})
  {
    hide Behind;
    var g, v := GraphOf(deps), next[cursor];
    ElementsNext(next, cursor);
    assert (next + more)[..cursor + 1] == next[..cursor + 1];
    assert Elements(next + more) == Elements(next) + Elements(more);
    forall w | w in more ensures w in deps && Behind(g, visible, key, w) {
      assert w in Elements(deps[v]);
      BehindStep(g, visible, key, v, w);
    }
  }

  lemma SweepEnd(deps: map<nat, seq<nat>>, visible: set<nat>, key: nat, next: seq<nat>, seen: set<nat>, v: nat)
    requires Swept(deps, visible, key, next, |next|, seen)
    ensures v in seen <==> Behind(GraphOf(deps), visible, key, v)
  {
    assert next[..|next|] == next;
    if Behind(GraphOf(deps), visible, key, v) {
      var p :| Covert(GraphOf(deps), visible, p, key, v);
      ClosedBehind(GraphOf(deps), visible, Elements(next), p, key, |p| - 1);
    }
  }

  // The number of vertices not yet seen bounds the sweep.
  lemma SweepShrinks(deps: map<nat, seq<nat>>, seen: set<nat>, v: nat)
    requires v in deps && v !in seen
    ensures |deps.Keys - (seen + {v})| < |deps.Keys - seen|
  {
    assert deps.Keys - seen == (deps.Keys - (seen + {v})) + {v};
  }

  method Sweep(deps: map<nat, seq<nat>>, visible: set<nat>, key: nat) returns (targets: seq<nat>)
    requires key in deps && forall v | v in deps :: Elements(deps[v]) <= deps.Keys
    ensures Distinct(targets) && forall v :: v in targets <==> Bridges(GraphOf(deps), visible, key, v)
  {
    hide Swept; hide Behind;
    var next, seen: set<nat>, cursor := deps[key], {}, 0;
    targets := [];
    SweepStart(deps, visible, key);
    while cursor < |next|
      invariant 0 <= cursor <= |next| && Swept(deps, visible, key, next, cursor, seen)
      invariant Distinct(targets) && forall v :: v in targets <==> v in seen && v in visible
      decreases |deps.Keys - seen|, |next| - cursor
    {
      var target := next[cursor];
      SweepKnown(deps, visible, key, next, cursor, seen);
      var more := [];
      if target !in seen {
        SweepShrinks(deps, seen, target);
        if target in visible { targets := targets + [target]; } else { more := deps[target]; }
      } else {
        assert seen + {target} == seen;
      }
      SweepStep(deps, visible, key, next, cursor, seen, more);
      next, seen, cursor := next + more, seen + {target}, cursor + 1;
    }
    forall v ensures v in targets <==> Bridges(GraphOf(deps), visible, key, v) { SweepEnd(deps, visible, key, next, seen, v); }
  }

  lemma SweepKnown(deps: map<nat, seq<nat>>, visible: set<nat>, key: nat, next: seq<nat>, cursor: nat, seen: set<nat>)
    requires Swept(deps, visible, key, next, cursor, seen) && cursor < |next|
    ensures next[cursor] in deps
  {
  }

  // ---- All visible vertices ----

  lemma Unseen(edges: seq<(nat, nat)>, key: nat, targets: seq<nat>)
    requires Distinct(edges) && Distinct(targets)
    requires forall i | 0 <= i < |edges| :: edges[i].0 != key
    ensures Distinct(edges + Pairs(key, targets))
  {
  }

  function Pairs(key: nat, targets: seq<nat>): seq<(nat, nat)> {
    seq(|targets|, (i: nat) requires i < |targets| => (key, targets[i]))
  }

  lemma PairsAre(key: nat, targets: seq<nat>, u: nat, v: nat)
    ensures (u, v) in Pairs(key, targets) <==> u == key && v in targets
  {
    if u == key && v in targets {
      var i :| 0 <= i < |targets| && targets[i] == v;
      assert Pairs(key, targets)[i] == (u, v);
    }
  }

  /** An edge (u, v) is drawn, once, exactly when v is visible and reached from u through hidden vertices only. */
  method Contract(deps: map<nat, seq<nat>>, keys: seq<nat>) returns (edges: seq<(nat, nat)>)
    requires Distinct(keys) && Elements(keys) <= deps.Keys
    requires forall v | v in deps :: Elements(deps[v]) <= deps.Keys
    ensures Distinct(edges)
    ensures forall u: nat, v: nat :: (u, v) in edges <==> u in keys && Bridges(GraphOf(deps), Elements(keys), u, v)
  {
    hide Bridges; hide Elements;
    edges := [];
    for i := 0 to |keys|
      invariant Distinct(edges)
      invariant forall u: nat, v: nat :: (u, v) in edges <==> u in keys[..i] && Bridges(GraphOf(deps), Elements(keys), u, v)
    {
      KeyIn(deps, keys, i);
      var targets := Sweep(deps, Elements(keys), keys[i]);
      forall j | 0 <= j < |edges| ensures edges[j].0 != keys[i] { assert (edges[j].0, edges[j].1) in edges; }
      Unseen(edges, keys[i], targets);
      assert keys[..i + 1] == keys[..i] + [keys[i]];
      forall u: nat, v: nat ensures (u, v) in edges + Pairs(keys[i], targets) <==>
                          u in keys[..i + 1] && Bridges(GraphOf(deps), Elements(keys), u, v)
      {
        PairsAre(keys[i], targets, u, v);
      }
      edges := edges + Pairs(keys[i], targets);
    }
    assert keys[..|keys|] == keys;
  }

  lemma KeyIn(deps: map<nat, seq<nat>>, keys: seq<nat>, i: nat)
    requires Elements(keys) <= deps.Keys && i < |keys|
    ensures keys[i] in deps
  {
    assert keys[i] in Elements(keys);
  }

  // ---- Contraction preserves meaning ----

  // A path of at least one edge.
  ghost predicate Leads(g: Graph, u: nat, v: nat) { exists w :: w in Next(g, u) && Reaches(g, w, v) }

  ghost predicate Contracts(g: Graph, visible: set<nat>, h: Graph) {
    forall u, v :: u in visible ==> (v in Next(h, u) <==> Bridges(g, visible, u, v))
  }

  lemma TailPath(g: Graph, p: seq<nat>, k: nat)
    requires Path(g, p) && k < |p|
    ensures Path(g, p[k..]) && Path(g, p[..k + 1])
  {
    forall i | 0 <= i < |p[k..]| - 1 ensures p[k..][i + 1] in Next(g, p[k..][i]) { assert p[k + i + 1] in Next(g, p[k + i]); }
    var head := p[..k + 1];
    forall i | 0 <= i < |head| - 1 ensures head[i + 1] in Next(g, head[i]) { assert p[i + 1] in Next(g, p[i]); }
  }

  lemma PathLeads(g: Graph, p: seq<nat>)
    requires Path(g, p) && |p| >= 2
    ensures Leads(g, p[0], p[|p| - 1])
  {
    TailPath(g, p, 1);
    assert p[0 + 1] in Next(g, p[0]);
    assert Joins(g, p[1..], p[1], p[|p| - 1]);
  }

  lemma LeadsPath(g: Graph, u: nat, v: nat) returns (p: seq<nat>)
    requires Leads(g, u, v)
    ensures Joins(g, p, u, v) && |p| >= 2
  {
    var w :| w in Next(g, u) && Reaches(g, w, v);
    var q :| Joins(g, q, w, v);
    p := [u] + q;
    forall i | 0 <= i < |p| - 1 ensures p[i + 1] in Next(g, p[i]) {
      if i > 0 { assert p[i] == q[i - 1] && p[i + 1] == q[i - 1 + 1]; }
    }
  }

  // The first visible vertex after the start of a path is bridged from it.
  lemma {:induction false} FirstVisible(g: Graph, visible: set<nat>, p: seq<nat>, k: nat) returns (n: nat)
    requires Path(g, p) && 1 <= k < |p| && p[|p| - 1] in visible
    requires forall i | 0 < i < k :: p[i] !in visible
    ensures k <= n < |p| && Bridges(g, visible, p[0], p[n])
    decreases |p| - k
  {
    if p[k] in visible {
      TailPath(g, p, k);
      assert Covert(g, visible, p[..k + 1], p[0], p[k]);
      n := k;
    } else {
      n := FirstVisible(g, visible, p, k + 1);
    }
  }

  lemma {:induction false} ContractPath(g: Graph, visible: set<nat>, h: Graph, p: seq<nat>)
    requires Contracts(g, visible, h) && Path(g, p) && |p| >= 2 && p[0] in visible && p[|p| - 1] in visible
    ensures Leads(h, p[0], p[|p| - 1])
    decreases |p|
  {
    var n := FirstVisible(g, visible, p, 1);
    assert p[n] in Next(h, p[0]);
    if n == |p| - 1 {
      ReachesSelf(h, p[n]);
    } else {
      TailPath(g, p, n);
      ContractPath(g, visible, h, p[n..]);
      var w :| w in Next(h, p[n]) && Reaches(h, w, p[|p| - 1]);
      assert Joins(h, [p[n], w], p[n], w);
      ReachesTrans(h, p[n], w, p[|p| - 1]);
    }
  }

  lemma {:induction false} ExpandPath(g: Graph, visible: set<nat>, h: Graph, p: seq<nat>)
    requires Contracts(g, visible, h) && Path(h, p) && |p| >= 2 && p[0] in visible
    ensures Leads(g, p[0], p[|p| - 1])
    decreases |p|
  {
    assert p[0 + 1] in Next(h, p[0]);
    assert Bridges(g, visible, p[0], p[1]);
    var q :| Covert(g, visible, q, p[0], p[1]);
    PathLeads(g, q);
    if |p| > 2 {
      TailPath(h, p, 1);
      ExpandPath(g, visible, h, p[1..]);
      LeadsTrans(g, p[0], p[1], p[|p| - 1]);
    }
  }

  lemma LeadsTrans(g: Graph, u: nat, v: nat, w: nat)
    requires Leads(g, u, v) && Leads(g, v, w)
    ensures Leads(g, u, w)
  {
    var x :| x in Next(g, u) && Reaches(g, x, v);
    var y :| y in Next(g, v) && Reaches(g, y, w);
    ReachesStep(g, x, v, y);
    ReachesTrans(g, x, y, w);
  }

  /** Between visible vertices the contracted graph has the same reachability as the full one, and the same cycles. */
  lemma ContractionPreservesReachability(g: Graph, visible: set<nat>, h: Graph, u: nat, v: nat)
    requires Contracts(g, visible, h) && u in visible && v in visible
    ensures Leads(g, u, v) <==> Leads(h, u, v)
    ensures Reaches(g, u, v) <==> Reaches(h, u, v)
    ensures OnCycle(g, u) <==> OnCycle(h, u)
  {
    hide Contracts;
    BothLead(g, visible, h, u, v);
    BothLead(g, visible, h, u, u);
    ReachesLeads(g, u, v);
    ReachesLeads(h, u, v);
  }

  lemma BothLead(g: Graph, visible: set<nat>, h: Graph, u: nat, v: nat)
    requires Contracts(g, visible, h) && u in visible && v in visible
    ensures Leads(g, u, v) <==> Leads(h, u, v)
  {
    hide Contracts;
    if Leads(g, u, v) {
      var p := LeadsPath(g, u, v);
      ContractPath(g, visible, h, p);
    }
    if Leads(h, u, v) {
      var p := LeadsPath(h, u, v);
      ExpandPath(g, visible, h, p);
    }
  }

  lemma ReachesLeads(g: Graph, u: nat, v: nat)
    ensures Reaches(g, u, v) <==> u == v || Leads(g, u, v)
  {
    if u == v { ReachesSelf(g, u); }
    if Leads(g, u, v) {
      var p := LeadsPath(g, u, v);
    }
    if Reaches(g, u, v) && u != v {
      var p :| Joins(g, p, u, v);
      PathLeads(g, p);
    }
  }
}
