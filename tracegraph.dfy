/**
 * The graph helpers of tracegraph.py: adding a probe's paths to a graph, merging graphs whose
 * edges carry probe sets, and dumping a graph to the node-link form the viewer loads.
 *
 * A graph is a map from nodes to their attributes and a map from node pairs to their attributes.
 * Pairs are ordered: (u, v) and (v, u) are distinct keys here.
 */
module TraceGraph {
  import opened Wrappers

  /** A hop of an AS path: an AS number, or a string name (an IXP). */
  datatype Hop = Asn(asn: int) | Name(name: string)

  type Pair = (Hop, Hop)

  /** The value of an edge's `probe` attribute: a set while the graph is being built, a list once it is written out. */
  datatype Probes = ProbeSet(members: set<ProbeId>) | ProbeList(items: seq<ProbeId>)

  /** The probes an attribute value holds, as a set (a helper of the merge and the write-out). */
  function Elements(p: Probes): (r: set<ProbeId>)
    ensures forall pb :: pb in r <==> (if p.ProbeSet? then pb in p.members else pb in p.items)
  {
    match p
    case ProbeSet(s) => s
    case ProbeList(l) => set pb | pb in l
  }

  type NodeAttrs = map<string, int>
  type EdgeAttrs = map<string, Probes>

  const PROBE := "probe"

  /** The content of a graph. */
  datatype GraphValue = GraphValue(multigraph: bool, nodes: map<Hop, NodeAttrs>, edges: map<Pair, EdgeAttrs>)

  /** Every edge joins two nodes of the graph, as networkx keeps it. */
  predicate Closed(g: GraphValue) {
    forall e :: e in g.edges ==> e.0 in g.nodes && e.1 in g.nodes
  }

  /** Every edge has a `probe` attribute that is a set, which `path_to_graph` adds to. */
  predicate SetTagged(g: GraphValue) {
    forall e :: e in g.edges ==> PROBE in g.edges[e] && g.edges[e][PROBE].ProbeSet?
  }

  /** `add_node(n, d)`: a new node gets `d`, an existing node's attributes are updated with `d`. */
  function AddNodeSpec(g: GraphValue, n: Hop, d: NodeAttrs): GraphValue {
    g.(nodes := g.nodes[n := if n in g.nodes then g.nodes[n] + d else d])
  }

  /** A node that is not there yet is added with no attributes. */
  function WithNode(nodes: map<Hop, NodeAttrs>, n: Hop): (r: map<Hop, NodeAttrs>)
    ensures forall m :: m in r <==> m in nodes || m == n
    ensures forall m :: m in nodes ==> r[m] == nodes[m]
    ensures n !in nodes ==> r[n] == map[]
  {
    if n in nodes then nodes else nodes[n := map[]]
  }

  /** `add_edge(u, v, d)`: missing endpoints are added, and the edge's attributes (empty if new) are updated with `d`. */
  function AddEdgeSpec(g: GraphValue, u: Hop, v: Hop, d: EdgeAttrs): GraphValue {
    g.(nodes := WithNode(WithNode(g.nodes, u), v),
       edges := g.edges[(u, v) := (if (u, v) in g.edges then g.edges[(u, v)] else map[]) + d])
  }

  /** A graph object of networkx, reduced to its node and edge attribute maps. */
  class Graph {
    const multigraph: bool
    var nodes: map<Hop, NodeAttrs>
    var edges: map<Pair, EdgeAttrs>

    function Value(): GraphValue
      reads this
    {
      GraphValue(multigraph, nodes, edges)
    }

    ghost predicate Valid()
      reads this
    {
      Closed(Value())
    }

    /** An empty graph, `nx.Graph()` or `nx.MultiGraph()`. */
    constructor (multigraph: bool)
      ensures Valid() && Value() == GraphValue(multigraph, map[], map[])
    {
      this.multigraph := multigraph;
      nodes, edges := map[], map[];
    }

    method AddNode(n: Hop, d: NodeAttrs)
      requires Valid()
      modifies this
      ensures Valid() && Value() == AddNodeSpec(old(Value()), n, d)
    {
      nodes := nodes[n := if n in nodes then nodes[n] + d else d];
    }

    method AddEdge(u: Hop, v: Hop, d: EdgeAttrs)
      requires Valid()
      modifies this
      ensures Valid() && Value() == AddEdgeSpec(old(Value()), u, v, d)
    {
      if u !in nodes {
        nodes := nodes[u := map[]];
      }
      if v !in nodes {
        nodes := nodes[v := map[]];
      }
      edges := edges[(u, v) := (if (u, v) in edges then edges[(u, v)] else map[]) + d];
    }

    /**
     * `path_to_graph(paths, probe, g)`: for every consecutive pair of every path, create the edge
     * with an empty probe set if it is missing, then add `probe` to its set.
     */
    method PathToGraph(paths: seq<seq<Hop>>, probe: ProbeId)
      requires Valid() && SetTagged(Value())
      modifies this
      ensures Valid() && SetTagged(Value())
      ensures Value() == AddPaths(old(Value()), paths, probe)
    {
      var k := 0;
      while k < |paths|
        invariant 0 <= k <= |paths|
        invariant Valid() && SetTagged(Value())
        invariant Value() == AddPaths(old(Value()), paths[..k], probe)
      {
        assert paths[..k + 1][..k] == paths[..k];
        AddPathTo(paths[k], probe);
        k := k + 1;
      }
      assert paths[..k] == paths;
    }

    /** One pair of `path_to_graph`: create the edge with an empty probe set if it is missing, then add `probe`. */
    method AddPairTo(u: Hop, v: Hop, probe: ProbeId)
      requires Valid() && SetTagged(Value())
      modifies this
      ensures Valid() && SetTagged(Value())
      ensures Value() == AddPair(old(Value()), u, v, probe)
    {
      var e := (u, v);
      if e !in edges {
        AddEdge(u, v, map[PROBE := ProbeSet({})]);
      }
      edges := edges[e := edges[e][PROBE := ProbeSet(edges[e][PROBE].members + {probe})]];
    }

    /** The inner loop of `path_to_graph`: the pairs of one path, in order. */
    method AddPathTo(p: seq<Hop>, probe: ProbeId)
      requires Valid() && SetTagged(Value())
      modifies this
      ensures Valid() && SetTagged(Value())
      ensures Value() == AddPath(old(Value()), p, probe)
    {
      var i := 0;
      while i + 1 < |p|
        invariant 0 <= i && (|p| == 0 || i < |p|)
        invariant Valid() && SetTagged(Value())
        invariant |p| == 0 ==> Value() == old(Value())
        invariant |p| > 0 ==> Value() == AddPath(old(Value()), p[..i + 1], probe)
      {
        AddPathSnoc(old(Value()), p, i, probe);
        AddPairTo(p[i], p[i + 1], probe);
        i := i + 1;
      }
      assert |p| == 0 || p[..i + 1] == p;
    }
  }

  /** One pair of `path_to_graph`. */
  function AddPair(g: GraphValue, u: Hop, v: Hop, probe: ProbeId): (r: GraphValue)
    requires SetTagged(g)
    ensures SetTagged(r) && (Closed(g) ==> Closed(r)) && r.multigraph == g.multigraph
  {
    var g1 := if (u, v) in g.edges then g else AddEdgeSpec(g, u, v, map[PROBE := ProbeSet({})]);
    g1.(edges := g1.edges[(u, v) := g1.edges[(u, v)][PROBE := ProbeSet(g1.edges[(u, v)][PROBE].members + {probe})]])
  }

  /** The pairs of one path, in order. */
  function AddPath(g: GraphValue, p: seq<Hop>, probe: ProbeId): (r: GraphValue)
    requires SetTagged(g)
    ensures SetTagged(r) && (Closed(g) ==> Closed(r)) && r.multigraph == g.multigraph
  {
    if |p| <= 1 then g else AddPair(AddPath(g, p[..|p| - 1], probe), p[|p| - 2], p[|p| - 1], probe)
  }

  /** The paths, in order. */
  function AddPaths(g: GraphValue, paths: seq<seq<Hop>>, probe: ProbeId): (r: GraphValue)
    requires SetTagged(g)
    ensures SetTagged(r) && (Closed(g) ==> Closed(r)) && r.multigraph == g.multigraph
  {
    if |paths| == 0 then g else AddPath(AddPaths(g, paths[..|paths| - 1], probe), paths[|paths| - 1], probe)
  }

  /** Extending a path by one hop adds that one last pair. */
  lemma AddPathSnoc(g: GraphValue, p: seq<Hop>, i: nat, probe: ProbeId)
    requires SetTagged(g) && i + 1 < |p|
    ensures AddPath(g, p[..i + 2], probe) == AddPair(AddPath(g, p[..i + 1], probe), p[i], p[i + 1], probe)
  {
    assert p[..i + 2][..i + 1] == p[..i + 1];
  }

  // ---------------------------------------------------------------------------------------------
  // What path_to_graph adds

  /** The pair of hops `i` and `i + 1`. */
  function PairAt(p: seq<Hop>, i: nat): Pair
    requires i + 1 < |p|
  {
    (p[i], p[i + 1])
  }

  /** The consecutive pairs of a path, `zip(p[:-1], p[1:])`. */
  function PairsOf(p: seq<Hop>): set<Pair> {
    set i: nat | i + 1 < |p| :: PairAt(p, i)
  }

  /** The hops of a path that has at least one pair. */
  function HopsOf(p: seq<Hop>): set<Hop> {
    if |p| <= 1 then {} else set i | 0 <= i < |p| :: p[i]
  }

  function AllPairs(paths: seq<seq<Hop>>): set<Pair> {
    if |paths| == 0 then {} else AllPairs(paths[..|paths| - 1]) + PairsOf(paths[|paths| - 1])
  }

  function AllHops(paths: seq<seq<Hop>>): set<Hop> {
    if |paths| == 0 then {} else AllHops(paths[..|paths| - 1]) + HopsOf(paths[|paths| - 1])
  }

  /** The probes on edge `e`, none if it is not an edge. */
  function Members(g: GraphValue, e: Pair): set<ProbeId>
    requires SetTagged(g)
  {
    if e in g.edges then g.edges[e][PROBE].members else {}
  }

  /** `r` is `g` with the nodes `hops` added, without attributes; the other nodes are unchanged. */
  ghost predicate NodesAdded(g: GraphValue, r: GraphValue, hops: set<Hop>) {
    && (forall n :: n in r.nodes <==> n in g.nodes || n in hops)
    && (forall n :: n in g.nodes ==> r.nodes[n] == g.nodes[n])
    && (forall n :: n in r.nodes && n !in g.nodes ==> r.nodes[n] == map[])
  }

  /**
   * `r` is `g` with the edges `pairs` added and `probe` added to the probe set of each of them;
   * nothing else changes, and a new edge carries only its probe set.
   */
  ghost predicate EdgesAdded(g: GraphValue, r: GraphValue, probe: ProbeId, pairs: set<Pair>)
    requires SetTagged(g) && SetTagged(r)
  {
    && (forall e :: e in r.edges <==> e in g.edges || e in pairs)
    && (forall e :: e in r.edges ==> Members(r, e) == Members(g, e) + (if e in pairs then {probe} else {}))
    && (forall e :: e in g.edges ==> r.edges[e] - {PROBE} == g.edges[e] - {PROBE})
    && (forall e :: e in r.edges && e !in g.edges ==> r.edges[e].Keys == {PROBE})
  }

  /** What `path_to_graph` does to `g`, given the pairs and hops of its paths. */
  ghost predicate Adds(g: GraphValue, r: GraphValue, probe: ProbeId, pairs: set<Pair>, hops: set<Hop>)
    requires SetTagged(g) && SetTagged(r)
  {
    r.multigraph == g.multigraph && NodesAdded(g, r, hops) && EdgesAdded(g, r, probe, pairs)
  }

  lemma NodesAddedCompose(g: GraphValue, m: GraphValue, r: GraphValue, h1: set<Hop>, h2: set<Hop>)
    requires NodesAdded(g, m, h1) && NodesAdded(m, r, h2)
    ensures NodesAdded(g, r, h1 + h2)
  {
  }

  lemma EdgesAddedCompose(g: GraphValue, m: GraphValue, r: GraphValue, probe: ProbeId, p1: set<Pair>, p2: set<Pair>)
    requires SetTagged(g) && SetTagged(m) && SetTagged(r)
    requires EdgesAdded(g, m, probe, p1) && EdgesAdded(m, r, probe, p2)
    ensures EdgesAdded(g, r, probe, p1 + p2)
  {
    forall e | e in r.edges
      ensures Members(r, e) == Members(g, e) + (if e in p1 + p2 then {probe} else {})
    {
      MembersCompose(g, m, r, probe, p1, p2, e);
    }
    forall e | e in g.edges ensures r.edges[e] - {PROBE} == g.edges[e] - {PROBE} {
      assert e in m.edges;
    }
    forall e | e in r.edges && e !in g.edges ensures r.edges[e].Keys == {PROBE} {
      NewEdgeCompose(g, m, r, probe, p1, p2, e);
    }
  }

  lemma MembersCompose(g: GraphValue, m: GraphValue, r: GraphValue, probe: ProbeId, p1: set<Pair>, p2: set<Pair>, e: Pair)
    requires SetTagged(g) && SetTagged(m) && SetTagged(r)
    requires EdgesAdded(g, m, probe, p1) && EdgesAdded(m, r, probe, p2) && e in r.edges
    ensures Members(r, e) == Members(g, e) + (if e in p1 + p2 then {probe} else {})
  {
    assert Members(r, e) == Members(m, e) + (if e in p2 then {probe} else {});
    if e in m.edges {
      assert Members(m, e) == Members(g, e) + (if e in p1 then {probe} else {});
    } else {
      assert e !in g.edges && e !in p1;
    }
  }

  lemma NewEdgeCompose(g: GraphValue, m: GraphValue, r: GraphValue, probe: ProbeId, p1: set<Pair>, p2: set<Pair>, e: Pair)
    requires SetTagged(g) && SetTagged(m) && SetTagged(r)
    requires EdgesAdded(g, m, probe, p1) && EdgesAdded(m, r, probe, p2) && e in r.edges && e !in g.edges
    ensures r.edges[e].Keys == {PROBE}
  {
    if e in m.edges {
      var before, after := m.edges[e], r.edges[e];
      assert after - {PROBE} == before - {PROBE};
      assert before.Keys == {PROBE};
      assert (before - {PROBE}).Keys == before.Keys - {PROBE} == {};
      assert after.Keys - {PROBE} == (after - {PROBE}).Keys == {};
      assert PROBE in after;
    }
  }

  lemma AddsCompose(g: GraphValue, m: GraphValue, r: GraphValue, probe: ProbeId,
                    p1: set<Pair>, h1: set<Hop>, p2: set<Pair>, h2: set<Hop>)
    requires SetTagged(g) && SetTagged(m) && SetTagged(r)
    requires Adds(g, m, probe, p1, h1) && Adds(m, r, probe, p2, h2)
    ensures Adds(g, r, probe, p1 + p2, h1 + h2)
  {
    NodesAddedCompose(g, m, r, h1, h2);
    EdgesAddedCompose(g, m, r, probe, p1, p2);
  }

  lemma AddPairEffect(g: GraphValue, u: Hop, v: Hop, probe: ProbeId)
    requires SetTagged(g) && Closed(g)
    ensures Adds(g, AddPair(g, u, v, probe), probe, {(u, v)}, {u, v})
  {
    AddPairNodes(g, u, v, probe);
    AddPairEdges(g, u, v, probe);
  }

  lemma AddPairNodes(g: GraphValue, u: Hop, v: Hop, probe: ProbeId)
    requires SetTagged(g) && Closed(g)
    ensures NodesAdded(g, AddPair(g, u, v, probe), {u, v})
  {
    var r := AddPair(g, u, v, probe);
    if (u, v) in g.edges {
      assert r.nodes == g.nodes;
      assert u in g.nodes && v in g.nodes;
    } else {
      assert r.nodes == WithNode(WithNode(g.nodes, u), v);
    }
  }

  lemma AddPairEdges(g: GraphValue, u: Hop, v: Hop, probe: ProbeId)
    requires SetTagged(g)
    ensures EdgesAdded(g, AddPair(g, u, v, probe), probe, {(u, v)})
  {
    var r := AddPair(g, u, v, probe);
    var e := (u, v);
    if e in g.edges {
      var d := g.edges[e];
      var d' := d[PROBE := ProbeSet(d[PROBE].members + {probe})];
      assert r.edges == g.edges[e := d'];
      assert d' - {PROBE} == d - {PROBE};
      EdgeUpdated(g, r, probe, e, d');
    } else {
      var g1 := AddEdgeSpec(g, u, v, map[PROBE := ProbeSet({})]);
      var m0 := g1.edges[e];
      assert m0 == map[PROBE := ProbeSet({})];
      var d' := map[PROBE := ProbeSet({probe})];
      assert m0[PROBE].members + {probe} == {probe};
      assert m0[PROBE := ProbeSet({probe})] == d';
      assert r.edges == g.edges[e := d'];
      assert d'.Keys == {PROBE};
      EdgeUpdated(g, r, probe, e, d');
    }
  }

  /** Setting the attributes of one edge to `d`, which adds `probe` to its set, adds that one edge. */
  lemma EdgeUpdated(g: GraphValue, r: GraphValue, probe: ProbeId, e: Pair, d: EdgeAttrs)
    requires SetTagged(g) && SetTagged(r) && r.edges == g.edges[e := d]
    requires Members(r, e) == Members(g, e) + {probe}
    requires e in g.edges ==> d - {PROBE} == g.edges[e] - {PROBE}
    requires e !in g.edges ==> d.Keys == {PROBE}
    ensures EdgesAdded(g, r, probe, {e})
  {
  }

  lemma PairsSnoc(p: seq<Hop>)
    requires |p| >= 2
    ensures PairsOf(p) == PairsOf(p[..|p| - 1]) + {(p[|p| - 2], p[|p| - 1])}
    ensures HopsOf(p) == HopsOf(p[..|p| - 1]) + {p[|p| - 2], p[|p| - 1]}
  {
    var init := p[..|p| - 1];
    forall e | e in PairsOf(p) ensures e in PairsOf(init) + {(p[|p| - 2], p[|p| - 1])} {
      var i: nat :| i + 1 < |p| && e == PairAt(p, i);
      if i < |p| - 2 {
        assert e == PairAt(init, i);
      }
    }
    forall e | e in PairsOf(init) ensures e in PairsOf(p) {
      var i: nat :| i + 1 < |init| && e == PairAt(init, i);
      assert e == PairAt(p, i);
    }
    assert PairAt(p, |p| - 2) in PairsOf(p);
    forall h | h in HopsOf(p) ensures h in HopsOf(init) + {p[|p| - 2], p[|p| - 1]} {
      var i :| 0 <= i < |p| && h == p[i];
      if i < |p| - 2 {
        assert h == init[i] && init[0] == p[0];
      }
    }
    forall h | h in HopsOf(init) ensures h in HopsOf(p) {
      var i :| 0 <= i < |init| && h == init[i];
      assert h == p[i];
    }
    assert p[|p| - 2] in HopsOf(p) && p[|p| - 1] in HopsOf(p);
  }

  lemma {:induction false} AddPathEffect(g: GraphValue, p: seq<Hop>, probe: ProbeId)
    requires SetTagged(g) && Closed(g)
    ensures Adds(g, AddPath(g, p, probe), probe, PairsOf(p), HopsOf(p))
  {
    if |p| <= 1 {
      assert PairsOf(p) == {};
      forall e | e in g.edges ensures g.edges[e] - {PROBE} == g.edges[e] - {PROBE} {
      }
    } else {
      var init := p[..|p| - 1];
      AddPathEffect(g, init, probe);
      var m := AddPath(g, init, probe);
      AddPairEffect(m, p[|p| - 2], p[|p| - 1], probe);
      AddsCompose(g, m, AddPath(g, p, probe), probe, PairsOf(init), HopsOf(init), {(p[|p| - 2], p[|p| - 1])}, {p[|p| - 2], p[|p| - 1]});
      PairsSnoc(p);
    }
  }

  /** `path_to_graph` adds exactly the consecutive pairs and their hops, and `probe` to each of those edges. */
  lemma {:induction false} AddPathsEffect(g: GraphValue, paths: seq<seq<Hop>>, probe: ProbeId)
    requires SetTagged(g) && Closed(g)
    ensures Adds(g, AddPaths(g, paths, probe), probe, AllPairs(paths), AllHops(paths))
  {
    if |paths| == 0 {
      forall e | e in g.edges ensures g.edges[e] - {PROBE} == g.edges[e] - {PROBE} {
      }
    } else {
      var init := paths[..|paths| - 1];
      AddPathsEffect(g, init, probe);
      var m := AddPaths(g, init, probe);
      AddPathEffect(m, paths[|paths| - 1], probe);
      AddsCompose(g, m, AddPaths(g, paths, probe), probe, AllPairs(init), AllHops(init),
                  PairsOf(paths[|paths| - 1]), HopsOf(paths[|paths| - 1]));
    }
  }

  lemma {:induction false} AllPairsMembers(paths: seq<seq<Hop>>, k: nat, i: nat)
    requires k < |paths| && i + 1 < |paths[k]|
    ensures (paths[k][i], paths[k][i + 1]) in AllPairs(paths)
  {
    var n := |paths| - 1;
    if k < n {
      assert paths[..n][k] == paths[k];
      AllPairsMembers(paths[..n], k, i);
    } else {
      assert PairAt(paths[n], i) in PairsOf(paths[n]);
    }
  }

  /** After `path_to_graph`, every consecutive pair of every path is an edge whose probe set holds `probe`. */
  lemma PathPairsCarryProbe(g: GraphValue, paths: seq<seq<Hop>>, probe: ProbeId, k: nat, i: nat)
    requires SetTagged(g) && Closed(g) && k < |paths| && i + 1 < |paths[k]|
    ensures var r := AddPaths(g, paths, probe);
            (paths[k][i], paths[k][i + 1]) in r.edges && probe in r.edges[(paths[k][i], paths[k][i + 1])][PROBE].members
  {
    AddPathsEffect(g, paths, probe);
    AllPairsMembers(paths, k, i);
  }

  /** Paths of at most one hop leave the graph as it was. */
  lemma {:induction false} ShortPathsAddNothing(g: GraphValue, paths: seq<seq<Hop>>, probe: ProbeId)
    requires SetTagged(g)
    requires forall k :: 0 <= k < |paths| ==> |paths[k]| <= 1
    ensures AddPaths(g, paths, probe) == g
  {
    if |paths| > 0 {
      ShortPathsAddNothing(g, paths[..|paths| - 1], probe);
    }
  }

  // ---------------------------------------------------------------------------------------------
  // compose_modify and compose_all_modify

  datatype GraphError = MultigraphUnsupported | EmptyGraphList | AttributeNamesNotUnique

  function Restrict<K, V>(m: map<K, V>, keys: set<K>): (r: map<K, V>)
    ensures r.Keys == m.Keys * keys && forall k :: k in r ==> r[k] == m[k]
  {
    map k | k in m.Keys * keys :: m[k]
  }

  /** The members of attribute `k` of `d`, none if `d` does not have it. */
  function AttrProbes(d: EdgeAttrs, k: string): set<ProbeId> {
    if k in d then Elements(d[k]) else {}
  }

  /** `dd[k].update(v)` over both attribute maps of a shared edge: every attribute becomes the set union. */
  function UnionAttrs(a: EdgeAttrs, b: EdgeAttrs): (r: EdgeAttrs)
    ensures r.Keys == a.Keys + b.Keys
    ensures forall k :: k in r ==> r[k].ProbeSet? && r[k].members == AttrProbes(a, k) + AttrProbes(b, k)
  {
    map k | k in a.Keys + b.Keys :: ProbeSet(AttrProbes(a, k) + AttrProbes(b, k))
  }

  /** `add_node` of every node of `gn`, then of every node of `hn`. */
  function MergeNodes(gn: map<Hop, NodeAttrs>, hn: map<Hop, NodeAttrs>): map<Hop, NodeAttrs> {
    map n | n in gn.Keys + hn.Keys :: if n in gn && n in hn then gn[n] + hn[n] else if n in gn then gn[n] else hn[n]
  }

  /** The edges of `he`, then those of `ge`, an edge already present taking the union of both attribute maps. */
  function MergeEdges(he: map<Pair, EdgeAttrs>, ge: map<Pair, EdgeAttrs>): map<Pair, EdgeAttrs> {
    map e | e in he.Keys + ge.Keys :: if e in he && e in ge then UnionAttrs(he[e], ge[e]) else if e in he then he[e] else ge[e]
  }

  /** The value `compose_modify(G, H)` returns. */
  function Compose(g: GraphValue, h: GraphValue): (r: Result<GraphValue, GraphError>)
    ensures r.Ok? <==> !g.multigraph && !h.multigraph
    ensures r.Ok? ==> !r.value.multigraph
  {
    if !(g.multigraph == h.multigraph && h.multigraph == false) then Err(MultigraphUnsupported)
    else Ok(GraphValue(false, MergeNodes(g.nodes, h.nodes), MergeEdges(h.edges, g.edges)))
  }

  /** The probes that attribute `k` of edge `e` holds in `g`. */
  function ProbesOn(g: GraphValue, e: Pair, k: string): set<ProbeId> {
    if e in g.edges then AttrProbes(g.edges[e], k) else {}
  }

  /** The merged graph has the nodes of both; a node of both has the first graph's attributes updated with the second's. */
  lemma ComposeNodes(g: GraphValue, h: GraphValue)
    requires Compose(g, h).Ok?
    ensures var r := Compose(g, h).value;
            && r.nodes.Keys == g.nodes.Keys + h.nodes.Keys
            && (forall n :: n in g.nodes && n in h.nodes ==> r.nodes[n] == g.nodes[n] + h.nodes[n])
            && (forall n :: n in g.nodes && n !in h.nodes ==> r.nodes[n] == g.nodes[n])
            && (forall n :: n !in g.nodes && n in h.nodes ==> r.nodes[n] == h.nodes[n])
  {
  }

  /**
   * The merged graph has the edges of both; every attribute of an edge holds the union of what it
   * holds in the two graphs, and an edge of only one graph keeps that graph's attributes.
   */
  lemma ComposeEdges(g: GraphValue, h: GraphValue, e: Pair, k: string)
    requires Compose(g, h).Ok?
    ensures var r := Compose(g, h).value;
            && (e in r.edges <==> e in g.edges || e in h.edges)
            && ProbesOn(r, e, k) == ProbesOn(g, e, k) + ProbesOn(h, e, k)
            && (e in g.edges && e !in h.edges ==> r.edges[e] == g.edges[e])
            && (e !in g.edges && e in h.edges ==> r.edges[e] == h.edges[e])
  {
    var r := Compose(g, h).value;
    if e in g.edges && e in h.edges {
      assert r.edges[e] == UnionAttrs(h.edges[e], g.edges[e]);
      if k in r.edges[e] {
        assert Elements(r.edges[e][k]) == AttrProbes(h.edges[e], k) + AttrProbes(g.edges[e], k);
      }
    }
  }

  lemma ComposeClosed(g: GraphValue, h: GraphValue)
    requires Compose(g, h).Ok? && Closed(g) && Closed(h)
    ensures Closed(Compose(g, h).value)
  {
  }

  /** The loop body for one edge of `compose_modify`: union with the edge already in `R`, or take `d`. */
  method MergeEdgeInto(R: Graph, e: Pair, d: EdgeAttrs)
    requires R.Valid() && e.0 in R.nodes && e.1 in R.nodes
    modifies R
    ensures R.Valid() && R.nodes == old(R.nodes)
    ensures R.edges == old(R.edges)[e := if e in old(R.edges) then UnionAttrs(old(R.edges)[e], d) else d]
  {
    var dd;
    if e in R.edges {
      dd := UnionAttrs(R.edges[e], d);
    } else {
      dd := d;
    }
    ghost var before := R.edges;
    R.AddEdge(e.0, e.1, dd);
    if e in before {
      assert before[e] + dd == dd;
    } else {
      assert map[] + dd == dd;
    }
  }

  lemma MergeNodesStep(a: map<Hop, NodeAttrs>, src: map<Hop, NodeAttrs>, done: set<Hop>, n: Hop)
    requires n in src
    ensures MergeNodes(a, Restrict(src, done + {n})) ==
              MergeNodes(a, Restrict(src, done))[n := if n in a then a[n] + src[n] else src[n]]
  {
  }

  lemma MergeEdgesStep(a: map<Pair, EdgeAttrs>, src: map<Pair, EdgeAttrs>, done: set<Pair>, e: Pair)
    requires e in src && e !in done
    ensures var m := MergeEdges(a, Restrict(src, done));
            MergeEdges(a, Restrict(src, done + {e})) == m[e := if e in m then UnionAttrs(m[e], src[e]) else src[e]]
  {
  }

  /** The `add_node` loop over the nodes of one graph. */
  method AddNodesOf(R: Graph, src: map<Hop, NodeAttrs>)
    requires R.Valid()
    modifies R
    ensures R.Valid() && R.edges == old(R.edges)
    ensures R.nodes == MergeNodes(old(R.nodes), src)
  {
    ghost var start, edges0 := R.nodes, R.edges;
    ghost var done: set<Hop> := {};
    var todo := src.Keys;
    while todo != {}
      invariant done !! todo && done + todo == src.Keys
      invariant R.Valid() && R.edges == edges0
      invariant R.nodes == MergeNodes(start, Restrict(src, done))
      decreases todo
    {
      var n :| n in todo;
      MergeNodesStep(start, src, done, n);
      R.AddNode(n, src[n]);
      done, todo := done + {n}, todo - {n};
    }
    assert Restrict(src, done) == src;
  }

  /** The `add_edge` loop over the edges of one graph. */
  method AddEdgesOf(R: Graph, src: map<Pair, EdgeAttrs>)
    requires R.Valid() && forall e :: e in src ==> e.0 in R.nodes && e.1 in R.nodes
    modifies R
    ensures R.Valid() && R.nodes == old(R.nodes)
    ensures R.edges == MergeEdges(old(R.edges), src)
  {
    ghost var start, nodes0 := R.edges, R.nodes;
    ghost var done: set<Pair> := {};
    var todo := src.Keys;
    while todo != {}
      invariant done !! todo && done + todo == src.Keys
      invariant R.Valid() && R.nodes == nodes0
      invariant R.edges == MergeEdges(start, Restrict(src, done))
      decreases todo
    {
      var e :| e in todo;
      MergeEdgesStep(start, src, done, e);
      MergeEdgeInto(R, e, src[e]);
      done, todo := done + {e}, todo - {e};
    }
    assert Restrict(src, done) == src;
  }

  /** `compose_modify(G, H)`: a new graph with the nodes of G then H, and the edges of H then G. */
  method ComposeModify(G: Graph, H: Graph) returns (r: Result<Graph, GraphError>)
    requires G.Valid() && H.Valid()
    ensures r.Err? <==> G.multigraph || H.multigraph
    ensures r.Ok? ==> r.value.Valid() && r.value.Value() == Compose(G.Value(), H.Value()).value
  {
    if !(G.multigraph == H.multigraph && H.multigraph == false) {
      return Err(MultigraphUnsupported);
    }
    var R := new Graph(false);
    AddNodesOf(R, G.nodes);
    MergeIntoEmpty(G.nodes, H.edges);
    AddNodesOf(R, H.nodes);
    ghost var nodes := R.nodes;
    assert nodes == MergeNodes(G.nodes, H.nodes);
    EndpointsMerged(G.Value(), H.Value());
    AddEdgesOf(R, H.edges);
    AddEdgesOf(R, G.edges);
    r := Ok(R);
  }

  lemma MergeIntoEmpty(n: map<Hop, NodeAttrs>, e: map<Pair, EdgeAttrs>)
    ensures MergeNodes(map[], n) == n && MergeEdges(map[], e) == e
  {
  }

  lemma EndpointsMerged(g: GraphValue, h: GraphValue)
    requires Closed(g) && Closed(h)
    ensures forall e :: e in h.edges || e in g.edges ==> e.0 in MergeNodes(g.nodes, h.nodes) && e.1 in MergeNodes(g.nodes, h.nodes)
  {
  }

  /** The value `compose_all_modify` returns: a left fold of `compose_modify`, failing on an empty list. */
  function ComposeAllSpec(vs: seq<GraphValue>): Result<GraphValue, GraphError> {
    if |vs| == 0 then Err(EmptyGraphList)
    else if |vs| == 1 then Ok(vs[0])
    else match ComposeAllSpec(vs[..|vs| - 1])
      case Err(err) => Err(err)
      case Ok(c) => Compose(c, vs[|vs| - 1])
  }

  /** The union, over the graphs, of what attribute `k` of edge `e` holds. */
  function ProbesAcross(vs: seq<GraphValue>, e: Pair, k: string): set<ProbeId> {
    if |vs| == 0 then {} else ProbesAcross(vs[..|vs| - 1], e, k) + ProbesOn(vs[|vs| - 1], e, k)
  }

  /** Some graph has edge `e`. */
  ghost predicate SomeHasEdge(vs: seq<GraphValue>, e: Pair) {
    exists i :: 0 <= i < |vs| && e in vs[i].edges
  }

  /** Some graph has node `n`. */
  ghost predicate SomeHasNode(vs: seq<GraphValue>, n: Hop) {
    exists i :: 0 <= i < |vs| && n in vs[i].nodes
  }

  /** Merging fails exactly on an empty list, or on two or more graphs one of which is a multigraph. */
  lemma {:induction false} ComposeAllFails(vs: seq<GraphValue>)
    ensures ComposeAllSpec(vs).Err? <==> |vs| == 0 || (|vs| >= 2 && exists i :: 0 <= i < |vs| && vs[i].multigraph)
    ensures |vs| >= 2 && ComposeAllSpec(vs).Ok? ==> !ComposeAllSpec(vs).value.multigraph
  {
    if |vs| >= 2 {
      var init := vs[..|vs| - 1];
      ComposeAllFails(init);
      if |vs| == 2 {
        assert init == [vs[0]];
      } else if exists i :: 0 <= i < |init| && init[i].multigraph {
        var i :| 0 <= i < |init| && init[i].multigraph;
        assert vs[i] == init[i];
      } else if exists i :: 0 <= i < |vs| && vs[i].multigraph {
        var i :| 0 <= i < |vs| && vs[i].multigraph;
        if i < |init| {
          assert init[i] == vs[i];
        }
      }
    }
  }

  lemma SomeHasSnoc(vs: seq<GraphValue>, e: Pair, n: Hop)
    requires |vs| > 0
    ensures SomeHasEdge(vs, e) <==> SomeHasEdge(vs[..|vs| - 1], e) || e in vs[|vs| - 1].edges
    ensures SomeHasNode(vs, n) <==> SomeHasNode(vs[..|vs| - 1], n) || n in vs[|vs| - 1].nodes
  {
    var init := vs[..|vs| - 1];
    if SomeHasEdge(vs, e) {
      var i :| 0 <= i < |vs| && e in vs[i].edges;
      if i < |init| {
        assert init[i] == vs[i];
      }
    }
    if SomeHasEdge(init, e) {
      var i :| 0 <= i < |init| && e in init[i].edges;
      assert init[i] == vs[i];
    }
    if SomeHasNode(vs, n) {
      var i :| 0 <= i < |vs| && n in vs[i].nodes;
      if i < |init| {
        assert init[i] == vs[i];
      }
    }
    if SomeHasNode(init, n) {
      var i :| 0 <= i < |init| && n in init[i].nodes;
      assert init[i] == vs[i];
    }
  }

  /**
   * The merged topology has the nodes and edges of every graph, and each attribute of an edge
   * (its probes) holds the union of what every graph records for it.
   */
  lemma {:induction false} ComposeAllUnion(vs: seq<GraphValue>, e: Pair, n: Hop, k: string)
    requires ComposeAllSpec(vs).Ok?
    ensures var r := ComposeAllSpec(vs).value;
            && (e in r.edges <==> SomeHasEdge(vs, e))
            && (n in r.nodes <==> SomeHasNode(vs, n))
            && ProbesOn(r, e, k) == ProbesAcross(vs, e, k)
  {
    SomeHasSnoc(vs, e, n);
    var init := vs[..|vs| - 1];
    if |vs| == 1 {
      assert init == [];
    } else {
      ComposeAllUnion(init, e, n, k);
      var c := ComposeAllSpec(init).value;
      ComposeEdges(c, vs[|vs| - 1], e, k);
      ComposeNodes(c, vs[|vs| - 1]);
    }
  }

  /** The graphs' contents. */
  ghost function Values(graphs: seq<Graph>): (vs: seq<GraphValue>)
    reads set i | 0 <= i < |graphs| :: graphs[i]
    ensures |vs| == |graphs| && forall i :: 0 <= i < |graphs| ==> vs[i] == graphs[i].Value()
  {
    seq(|graphs|, i reads graphs requires 0 <= i < |graphs| => graphs[i].Value())
  }

  /** `compose_all_modify(graphs)`: fold `compose_modify` over the list; a one-element list gives back its graph. */
  method ComposeAll(graphs: seq<Graph>) returns (r: Result<Graph, GraphError>)
    requires forall i :: 0 <= i < |graphs| ==> graphs[i].Valid()
    ensures r.Err? <==> ComposeAllSpec(Values(graphs)).Err?
    ensures r.Ok? ==> r.value.Valid() && r.value.Value() == ComposeAllSpec(Values(graphs)).value
    ensures |graphs| == 1 ==> r == Ok(graphs[0])
  {
    if |graphs| == 0 {
      return Err(EmptyGraphList);
    }
    ghost var vs := Values(graphs);
    var C := graphs[0];
    assert vs[..1] == [vs[0]];
    var i := 1;
    while i < |graphs|
      invariant 1 <= i <= |graphs| && C.Valid()
      invariant Values(graphs) == vs
      invariant ComposeAllSpec(vs[..i]) == Ok(C.Value())
      invariant |graphs| == 1 ==> C == graphs[0]
    {
      ComposeAllStep(vs, i, C.Value());
      var c := ComposeModify(C, graphs[i]);
      if c.Err? {
        ComposeAllPrefixFails(vs, i + 1);
        return Err(c.error);
      }
      C := c.value;
      i := i + 1;
    }
    assert vs[..i] == vs;
    r := Ok(C);
  }

  /** One more step of the fold: the prefix of length `i + 1` merges the prefix of length `i` with graph `i`. */
  lemma ComposeAllStep(vs: seq<GraphValue>, i: nat, c: GraphValue)
    requires 1 <= i < |vs| && ComposeAllSpec(vs[..i]) == Ok(c)
    ensures ComposeAllSpec(vs[..i + 1]) == Compose(c, vs[i])
  {
    assert vs[..i + 1][..i] == vs[..i];
  }

  /** Once a prefix fails to merge, the whole list does. */
  lemma {:induction false} ComposeAllPrefixFails(vs: seq<GraphValue>, n: nat)
    requires 0 < n <= |vs| && ComposeAllSpec(vs[..n]).Err?
    ensures ComposeAllSpec(vs).Err?
    decreases |vs| - n
  {
    if n < |vs| {
      assert vs[..n + 1][..n] == vs[..n];
      ComposeAllPrefixFails(vs, n + 1);
    } else {
      assert vs[..n] == vs;
    }
  }

  // ---------------------------------------------------------------------------------------------
  // node_link_data_modify

  /** A value of the dumped dictionaries. */
  datatype Value = Int(i: int) | HopValue(hop: Hop) | ProbesValue(probes: Probes)

  /** The attribute names used in the dump. */
  datatype AttrNames = AttrNames(id: string, source: string, target: string, key: string, name: string)

  /** `_attrs`, the defaults. */
  const DEFAULT_ATTRS := AttrNames("id", "source", "target", "key", "name")

  /** The dumped graph. */
  datatype NodeLinkOut = NodeLinkOut(directed: bool, multigraph: bool, nodes: seq<map<string, Value>>, links: seq<map<string, Value>>)

  /** `order` lists each element of `keys` exactly once, as iterating a networkx graph does. */
  ghost predicate Enumerates<T(!new)>(order: seq<T>, keys: set<T>) {
    && (forall i, j :: 0 <= i < j < |order| ==> order[i] != order[j])
    && (forall x :: x in order <==> x in keys)
  }

  /** `mapping[x]` for `mapping = dict(zip(order, count()))`: the position of `x`. */
  function Position<T(==)>(order: seq<T>, x: T): (i: nat)
    requires x in order
    ensures i < |order| && order[i] == x
  {
    if order[0] == x then 0 else 1 + Position(order[1..], x)
  }

  /** `len(set([source, target, key])) < 3`, where the key is None (so distinct from every name) unless the graph is a multigraph. */
  predicate NamesClash(names: AttrNames, multigraph: bool) {
    names.source == names.target || (multigraph && (names.key == names.source || names.key == names.target))
  }

  function IntAttrs(d: NodeAttrs): map<string, Value> {
    map k | k in d :: Int(d[k])
  }

  function ProbeAttrs(d: EdgeAttrs): map<string, Value> {
    map k | k in d :: ProbesValue(d[k])
  }

  /**
   * `rec` is the dump of node `n` with attributes `d` at position `i`: `name` holds the node, `id`
   * holds `i` unless it is also the name attribute, and every other attribute is the node's own.
   */
  ghost predicate NodeDumped(rec: map<string, Value>, names: AttrNames, i: nat, n: Hop, d: NodeAttrs) {
    && names.name in rec && rec[names.name] == HopValue(n)
    && (names.id != names.name ==> names.id in rec && rec[names.id] == Int(i))
    && forall k :: k != names.id && k != names.name ==> (k in rec <==> k in d) && (k in rec ==> rec[k] == Int(d[k]))
  }

  /**
   * `rec` is the dump of edge `e` with attributes `d`: `source` and `target` hold positions of the
   * endpoints in `nodeOrder`, whose dumped nodes are named by those endpoints, and every other
   * attribute is the edge's own.
   */
  ghost predicate LinkDumped(rec: map<string, Value>, names: AttrNames, nodes: seq<map<string, Value>>, nodeOrder: seq<Hop>, e: Pair, d: EdgeAttrs) {
    && (exists s :: 0 <= s < |nodeOrder| && s < |nodes| && nodeOrder[s] == e.0 && names.source in rec && rec[names.source] == Int(s)
                     && names.name in nodes[s] && nodes[s][names.name] == HopValue(e.0))
    && (exists t :: 0 <= t < |nodeOrder| && t < |nodes| && nodeOrder[t] == e.1 && names.target in rec && rec[names.target] == Int(t)
                     && names.name in nodes[t] && nodes[t][names.name] == HopValue(e.1))
    && forall k :: k != names.source && k != names.target ==> (k in rec <==> k in d) && (k in rec ==> rec[k] == ProbesValue(d[k]))
  }

  /** The node record: its attributes, then the id, then the name (the later ones win). */
  function NodeRecord(d: NodeAttrs, names: AttrNames, i: nat, n: Hop): (rec: map<string, Value>)
    ensures NodeDumped(rec, names, i, n, d)
  {
    IntAttrs(d)[names.id := Int(i)][names.name := HopValue(n)]
  }

  /** The link record: its attributes, then the source position, then the target position. */
  function LinkRecord(d: EdgeAttrs, names: AttrNames, s: nat, t: nat): (rec: map<string, Value>)
    ensures names.target in rec && rec[names.target] == Int(t)
    ensures names.source != names.target ==> names.source in rec && rec[names.source] == Int(s)
    ensures forall k :: k != names.source && k != names.target ==> (k in rec <==> k in d) && (k in rec ==> rec[k] == ProbesValue(d[k]))
  {
    ProbeAttrs(d)[names.source := Int(s)][names.target := Int(t)]
  }

  /** `data['nodes']`: one record per node, in the graph's order. */
  function NodeRecords(g: GraphValue, names: AttrNames, nodeOrder: seq<Hop>): (nodes: seq<map<string, Value>>)
    requires forall i :: 0 <= i < |nodeOrder| ==> nodeOrder[i] in g.nodes
    ensures |nodes| == |nodeOrder|
    ensures forall i :: 0 <= i < |nodeOrder| ==> NodeDumped(nodes[i], names, i, nodeOrder[i], g.nodes[nodeOrder[i]])
  {
    seq(|nodeOrder|, i requires 0 <= i < |nodeOrder| => NodeRecord(g.nodes[nodeOrder[i]], names, i, nodeOrder[i]))
  }

  /** `data['links']`: one record per edge, in the graph's order, its endpoints replaced by their positions. */
  function LinkRecords(g: GraphValue, names: AttrNames, nodeOrder: seq<Hop>, edgeOrder: seq<Pair>): (links: seq<map<string, Value>>)
    requires forall j :: 0 <= j < |edgeOrder| ==> edgeOrder[j] in g.edges && edgeOrder[j].0 in nodeOrder && edgeOrder[j].1 in nodeOrder
    ensures |links| == |edgeOrder|
    ensures forall j :: 0 <= j < |edgeOrder| ==>
              links[j] == LinkRecord(g.edges[edgeOrder[j]], names, Position(nodeOrder, edgeOrder[j].0), Position(nodeOrder, edgeOrder[j].1))
  {
    seq(|edgeOrder|, j requires 0 <= j < |edgeOrder| =>
      LinkRecord(g.edges[edgeOrder[j]], names, Position(nodeOrder, edgeOrder[j].0), Position(nodeOrder, edgeOrder[j].1)))
  }

  /** With distinct source and target names, every link record names positions of its endpoints. */
  lemma LinksDumped(g: GraphValue, names: AttrNames, nodeOrder: seq<Hop>, edgeOrder: seq<Pair>)
    requires forall i :: 0 <= i < |nodeOrder| ==> nodeOrder[i] in g.nodes
    requires forall j :: 0 <= j < |edgeOrder| ==> edgeOrder[j] in g.edges && edgeOrder[j].0 in nodeOrder && edgeOrder[j].1 in nodeOrder
    requires names.source != names.target
    ensures var nodes, links := NodeRecords(g, names, nodeOrder), LinkRecords(g, names, nodeOrder, edgeOrder);
            forall j :: 0 <= j < |edgeOrder| ==> LinkDumped(links[j], names, nodes, nodeOrder, edgeOrder[j], g.edges[edgeOrder[j]])
  {
    var nodes, links := NodeRecords(g, names, nodeOrder), LinkRecords(g, names, nodeOrder, edgeOrder);
    forall j | 0 <= j < |edgeOrder|
      ensures LinkDumped(links[j], names, nodes, nodeOrder, edgeOrder[j], g.edges[edgeOrder[j]])
    {
      var e := edgeOrder[j];
      var s, t := Position(nodeOrder, e.0), Position(nodeOrder, e.1);
      assert NodeDumped(nodes[s], names, s, nodeOrder[s], g.nodes[nodeOrder[s]]);
      assert NodeDumped(nodes[t], names, t, nodeOrder[t], g.nodes[nodeOrder[t]]);
    }
  }

  /**
   * `node_link_data_modify(G, attrs)`, with `nodeOrder` and `edgeOrder` the orders in which the
   * graph yields its nodes and edges. The node at position i has id i and its node as name, and
   * each link's source and target are the positions of its endpoints, so they index `nodes`.
   */
  function NodeLinkData(g: GraphValue, names: AttrNames, nodeOrder: seq<Hop>, edgeOrder: seq<Pair>): (r: Result<NodeLinkOut, GraphError>)
    requires Closed(g) && Enumerates(nodeOrder, g.nodes.Keys) && Enumerates(edgeOrder, g.edges.Keys)
    ensures r.Err? <==> NamesClash(names, g.multigraph)
    ensures r.Err? ==> r.error == AttributeNamesNotUnique
    ensures r.Ok? ==>
              && !r.value.directed && r.value.multigraph == g.multigraph
              && |r.value.nodes| == |nodeOrder| && |r.value.links| == |edgeOrder|
    ensures r.Ok? && |r.value.nodes| == |nodeOrder| ==> forall i :: 0 <= i < |nodeOrder| ==>
              nodeOrder[i] in g.nodes && NodeDumped(r.value.nodes[i], names, i, nodeOrder[i], g.nodes[nodeOrder[i]])
    ensures r.Ok? && |r.value.links| == |edgeOrder| ==> forall j :: 0 <= j < |edgeOrder| ==>
              edgeOrder[j] in g.edges && LinkDumped(r.value.links[j], names, r.value.nodes, nodeOrder, edgeOrder[j], g.edges[edgeOrder[j]])
  {
    if NamesClash(names, g.multigraph) then Err(AttributeNamesNotUnique)
    else
      assert forall i :: 0 <= i < |nodeOrder| ==> nodeOrder[i] in g.nodes;
      assert forall j :: 0 <= j < |edgeOrder| ==> edgeOrder[j] in g.edges && edgeOrder[j].0 in nodeOrder && edgeOrder[j].1 in nodeOrder;
      LinksDumped(g, names, nodeOrder, edgeOrder);
      Ok(NodeLinkOut(false, g.multigraph, NodeRecords(g, names, nodeOrder), LinkRecords(g, names, nodeOrder, edgeOrder)))
  }
}
