/** The whole of `buildFormalizationGraph`: collect, contract, check for cycles. */
module Dashboard {
  import opened Wrappers
  import opened Sequences
  import opened Paths
  import opened FormalizationGraph
  import opened Contraction
  import opened CycleCheck

  datatype Model = Model(vertices: seq<nat>, edges: seq<(nat, nat)>, hasCycle: bool, hiddenCount: nat)

  predicate Visible(q: Query, id: nat) {
    var node := Lookup(q.nodes, id);
    q.focus == Some(id) || q.showDefinitions || node.None? || !node.value.definition
  }

  /** Hidden are the definitions, unless they are shown or in focus; an identifier without a node is shown. */
  lemma HiddenAre(q: Query, id: nat)
    ensures (forall k | 0 <= k < |q.nodes| :: q.nodes[k].id != id) ==> Visible(q, id)
    ensures forall i: nat | First(q.nodes, id, i) ::
              !Visible(q, id) <==> q.nodes[i].definition && !q.showDefinitions && q.focus != Some(id)
  {
    hide Lookup; hide First;
    LookupFirst(q.nodes, id);
  }

  // The full dependency graph of a query.
  ghost predicate Draws(q: Query, g: Graph) {
    (forall id: nat :: id in g <==> Collected(q, id)) && (forall id | id in g :: g[id] == Targets(q, id))
  }

  // Every drawn dependency is itself collected.
  lemma DrawnClosed(q: Query, g: Graph)
    requires Draws(q, g)
    ensures Complete(g)
  {
    hide Targets; hide Collected;
    forall v, w | v in g && w in g[v] ensures w in g { CollectedNext(q, v, w); }
  }

  // The model says of a full graph what it shows.
  ghost predicate Shows(q: Query, g: Graph, m: Model) {
    && Distinct(m.vertices) && (forall id: nat :: id in m.vertices <==> id in g && Visible(q, id))
    && Distinct(m.edges)
    && (forall u: nat, v: nat :: (u, v) in m.edges <==> u in m.vertices && Bridges(g, Elements(m.vertices), u, v))
    && (m.hasCycle <==> exists v :: v in g && OnCycle(g, v))
    && m.hiddenCount == |g.Keys - Elements(m.vertices)|
  }

  method ShownVertices(q: Query, vertices: seq<nat>) returns (shown: seq<nat>)
    requires Distinct(vertices)
    ensures Distinct(shown) && forall id: nat :: id in shown <==> id in vertices && Visible(q, id)
  {
    shown := [];
    for i := 0 to |vertices|
      invariant Distinct(shown) && forall id: nat :: id in shown <==> id in vertices[..i] && Visible(q, id)
    {
      assert vertices[..i + 1] == vertices[..i] + [vertices[i]];
      if Visible(q, vertices[i]) { shown := shown + [vertices[i]]; }
    }
    assert vertices[..|vertices|] == vertices;
  }

  lemma Hidden(vertices: seq<nat>, shown: seq<nat>)
    requires Distinct(vertices) && Distinct(shown) && forall id: nat :: id in shown ==> id in vertices
    ensures |shown| <= |vertices| && |vertices| - |shown| == |Elements(vertices) - Elements(shown)|
    ensures Elements(shown) <= Elements(vertices)
  {
    DistinctSize(vertices);
    DistinctSize(shown);
    assert Elements(vertices) == Elements(shown) + (Elements(vertices) - Elements(shown));
  }

  lemma CollectedGraph(q: Query, vertices: seq<nat>, deps: map<nat, seq<nat>>)
    requires Gathers(q, vertices, deps)
    ensures Draws(q, GraphOf(deps)) && Complete(GraphOf(deps))
    ensures Distinct(vertices) && Elements(vertices) == deps.Keys
    ensures forall v | v in deps :: Distinct(deps[v]) && Elements(deps[v]) <= deps.Keys
  {
    hide Targets; hide Collected; hide Distinct;
    var g := GraphOf(deps);
    assert forall id | id in g :: g[id] == Elements(deps[id]);
    DrawnClosed(q, g);
  }

  lemma SameGraph(q: Query, g: Graph, h: Graph)
    requires Draws(q, g) && Draws(q, h)
    ensures g == h
  {
    hide Targets; hide Collected;
    assert g.Keys == h.Keys;
  }

  method Present(q: Query, vertices: seq<nat>, deps: map<nat, seq<nat>>) returns (m: Model)
    requires Distinct(vertices) && Elements(vertices) == deps.Keys && Complete(GraphOf(deps))
    requires forall v | v in deps :: Distinct(deps[v]) && Elements(deps[v]) <= deps.Keys
    ensures Shows(q, GraphOf(deps), m)
  {
    hide Bridges; hide OnCycle; hide Complete; hide Distinct; hide Visible; hide Elements;
    var shown := ShownVertices(q, vertices);
    InVertices(vertices, deps);
    Hidden(vertices, shown);
    var edges := Contract(deps, shown);
    var cyclic := HasCycle(vertices, deps);
    m := Model(shown, edges, cyclic, |vertices| - |shown|);
    assert GraphOf(deps).Keys == deps.Keys;
  }

  /** The model shows the full dependency graph of the query. */
  method Build(q: Query) returns (m: Model)
    ensures exists g :: Draws(q, g) && Shows(q, g, m)
    ensures forall g :: Draws(q, g) ==> Shows(q, g, m)
  {
    hide Gathers; hide Draws; hide Shows; hide Complete; hide Distinct; hide Elements;
    var vertices, deps := Collect(q);
    CollectedGraph(q, vertices, deps);
    m := Present(q, vertices, deps);
    forall g | Draws(q, g) ensures Shows(q, g, m) { SameGraph(q, g, GraphOf(deps)); }
  }

  lemma InVertices(vertices: seq<nat>, deps: map<nat, seq<nat>>)
    requires Elements(vertices) == deps.Keys
    ensures forall id: nat :: id in vertices <==> id in deps
  {
    assert forall id: nat :: id in vertices <==> id in Elements(vertices);
  }

  // The drawn edges as a graph.
  ghost function Drawing(m: Model): Graph {
    map u: nat | u in Elements(m.vertices) :: set v: nat | v in Elements(m.vertices) && (u, v) in m.edges
  }

  /** Hiding definitions preserves meaning: between shown vertices, dependency and circularity are those of the full graph. */
  lemma HidingPreservesMeaning(q: Query, g: Graph, m: Model, u: nat, v: nat)
    requires Shows(q, g, m) && u in m.vertices && v in m.vertices
    ensures Reaches(g, u, v) <==> Reaches(Drawing(m), u, v)
    ensures OnCycle(g, u) <==> OnCycle(Drawing(m), u)
  {
    hide Reaches; hide OnCycle; hide Behind; hide Distinct; hide Visible;
    DrawingContracts(q, g, m);
    ContractionPreservesReachability(g, Elements(m.vertices), Drawing(m), u, v);
  }

  lemma DrawingContracts(q: Query, g: Graph, m: Model)
    requires Shows(q, g, m)
    ensures Contracts(g, Elements(m.vertices), Drawing(m))
  {
    hide OnCycle; hide Behind; hide Distinct; hide Visible;
  }
}
