/**
 * The per-file worker of as_graph.py: from the AS paths of each probe, keep the paths that reach
 * the target AS with the junk hops removed, add them to a graph, and classify every node as a
 * source, an IXP, the destination or other.
 */
module AsGraph {
  import opened Wrappers
  import opened TraceGraph

  /** Hop names that do not stand for a network and are dropped from paths. */
  const RM_HOP: seq<string> := ["", "Invalid IP address", "this", "private", "CGN", "host", "linklocal",
                                "TEST-NET-1", "TEST-NET-2", "TEST-NET-3", "benchmark", "6to4",
                                "multicast", "future", "broadcast"]

  /** The destination AS all measurements aim at. */
  const TARGET := Asn(226)

  /** Only this many paths per probe are looked at. */
  const MAX_PATHS := 300

  const TERMINATION := "termination"

  /** One probe of the traceroute file: its id and its AS paths. */
  datatype ProbeRecord = ProbeRecord(pb: ProbeId, asnPath: seq<seq<Hop>>)

  /** `j in RM_HOP`; an AS number is never in the list of names. */
  predicate Junk(h: Hop) {
    h.Name? && h.name in RM_HOP
  }

  /** The path with every junk hop dropped, in order. */
  function CleanPath(p: seq<Hop>): (r: seq<Hop>)
    ensures forall h :: h in r <==> h in p && !Junk(h)
  {
    if |p| == 0 then []
    else CleanPath(p[..|p| - 1]) + (if Junk(p[|p| - 1]) then [] else [p[|p| - 1]])
  }

  /** The paths of one probe that are worked on: the cleaned first MAX_PATHS paths that contain TARGET. */
  function KeptPaths(paths: seq<seq<Hop>>): seq<seq<Hop>> {
    Kept(if |paths| <= MAX_PATHS then paths else paths[..MAX_PATHS])
  }

  function Kept(paths: seq<seq<Hop>>): seq<seq<Hop>> {
    if |paths| == 0 then []
    else Kept(paths[..|paths| - 1]) + (if TARGET in paths[|paths| - 1] then [CleanPath(paths[|paths| - 1])] else [])
  }

  /** How many of `paths` contain TARGET. */
  function Reaching(paths: seq<seq<Hop>>): nat {
    if |paths| == 0 then 0 else Reaching(paths[..|paths| - 1]) + (if TARGET in paths[|paths| - 1] then 1 else 0)
  }

  /**
   * Every kept path is the cleaned form of a path that contains TARGET, and every such path is
   * kept; so a kept path has no junk hop and still contains TARGET, which is never junk.
   */
  lemma {:induction false} KeptPathsAre(paths: seq<seq<Hop>>)
    ensures |Kept(paths)| == Reaching(paths) <= |paths|
    ensures forall q :: q in Kept(paths) <==> exists i :: 0 <= i < |paths| && TARGET in paths[i] && q == CleanPath(paths[i])
    ensures forall q :: q in Kept(paths) ==> TARGET in q && forall h :: h in q ==> !Junk(h)
  {
    if |paths| > 0 {
      var n := |paths| - 1;
      KeptPathsAre(paths[..n]);
      forall q | q in Kept(paths) ensures exists i :: 0 <= i < |paths| && TARGET in paths[i] && q == CleanPath(paths[i]) {
        if q in Kept(paths[..n]) {
          var i :| 0 <= i < n && TARGET in paths[..n][i] && q == CleanPath(paths[..n][i]);
          assert paths[..n][i] == paths[i];
        } else {
          assert TARGET in paths[n] && q == CleanPath(paths[n]);
        }
      }
      forall i | 0 <= i < |paths| && TARGET in paths[i] ensures CleanPath(paths[i]) in Kept(paths) {
        if i < n {
          assert paths[..n][i] == paths[i];
        }
      }
    }
  }

  /** At most MAX_PATHS paths of a probe are kept. */
  lemma KeptPathsBounded(paths: seq<seq<Hop>>)
    ensures |KeptPaths(paths)| <= MAX_PATHS
  {
    KeptPathsAre(if |paths| <= MAX_PATHS then paths else paths[..MAX_PATHS]);
  }

  // ---------------------------------------------------------------------------------------------
  // The roles

  /** The first hop of a path is a source. */
  function PathSources(p: seq<Hop>): set<Hop> {
    if |p| == 0 then {} else {p[0]}
  }

  /** A later hop that is a name is an IXP. */
  function PathIxps(p: seq<Hop>): set<Hop> {
    set i | 1 <= i < |p| && p[i].Name? :: p[i]
  }

  function PathsSources(paths: seq<seq<Hop>>): set<Hop> {
    if |paths| == 0 then {} else PathsSources(paths[..|paths| - 1]) + PathSources(paths[|paths| - 1])
  }

  function PathsIxps(paths: seq<seq<Hop>>): set<Hop> {
    if |paths| == 0 then {} else PathsIxps(paths[..|paths| - 1]) + PathIxps(paths[|paths| - 1])
  }

  /** The `source` set after the probes `recs`. */
  function Sources(recs: seq<ProbeRecord>): set<Hop> {
    if |recs| == 0 then {} else Sources(recs[..|recs| - 1]) + PathsSources(KeptPaths(recs[|recs| - 1].asnPath))
  }

  /** The `ixp` set after the probes `recs`. */
  function Ixps(recs: seq<ProbeRecord>): set<Hop> {
    if |recs| == 0 then {} else Ixps(recs[..|recs| - 1]) + PathsIxps(KeptPaths(recs[|recs| - 1].asnPath))
  }

  /** The graph after the probes `recs`, before its attributes are rewritten. */
  function BuildGraph(recs: seq<ProbeRecord>): (g: GraphValue)
    ensures SetTagged(g) && Closed(g) && !g.multigraph
  {
    if |recs| == 0 then GraphValue(false, map[], map[])
    else
      var g0 := BuildGraph(recs[..|recs| - 1]);
      var last := recs[|recs| - 1];
      var paths := KeptPaths(last.asnPath);
      if |paths| > 0 then AddPaths(g0, paths, last.pb) else g0
  }

  /** The `termination` of a node: 1 for a source, else 2 for an IXP, else 3 for the destination, else 4. */
  function Termination(n: Hop, source: set<Hop>, ixp: set<Hop>, dest: set<Hop>): (t: int)
    ensures 1 <= t <= 4
    ensures t == 1 <==> n in source
    ensures t == 2 <==> n !in source && n in ixp
    ensures t == 3 <==> n !in source && n !in ixp && n in dest
  {
    if n in source then 1 else if n in ixp then 2 else if n in dest then 3 else 4
  }

  /** A probe with no kept path changes neither the graph nor the roles. */
  lemma NoKeptPathNoEffect(recs: seq<ProbeRecord>, rec: ProbeRecord)
    requires KeptPaths(rec.asnPath) == []
    ensures BuildGraph(recs + [rec]) == BuildGraph(recs)
    ensures Sources(recs + [rec]) == Sources(recs) && Ixps(recs + [rec]) == Ixps(recs)
  {
    assert (recs + [rec])[..|recs|] == recs;
  }

  /** No node of the built graph is a junk hop. */
  lemma {:induction false} BuiltNodesClean(recs: seq<ProbeRecord>, n: Hop)
    requires n in BuildGraph(recs).nodes
    ensures !Junk(n)
  {
    var init := recs[..|recs| - 1];
    var last := recs[|recs| - 1];
    var paths := KeptPaths(last.asnPath);
    var g0 := BuildGraph(init);
    if |paths| > 0 {
      AddPathsEffect(g0, paths, last.pb);
      if n !in g0.nodes {
        var ps := last.asnPath;
        KeptPathsAre(if |ps| <= MAX_PATHS then ps else ps[..MAX_PATHS]);
        HopsFromKept(paths, n);
      } else {
        BuiltNodesClean(init, n);
      }
    } else {
      BuiltNodesClean(init, n);
    }
  }

  lemma {:induction false} HopsFromKept(paths: seq<seq<Hop>>, n: Hop)
    requires n in AllHops(paths)
    requires forall q :: q in paths ==> forall h :: h in q ==> !Junk(h)
    ensures !Junk(n)
  {
    var init := paths[..|paths| - 1];
    if n in AllHops(init) {
      assert forall q :: q in init ==> q in paths;
      HopsFromKept(init, n);
    } else {
      var q := paths[|paths| - 1];
      var i :| 0 <= i < |q| && n == q[i];
      assert q in paths;
    }
  }

  // ---------------------------------------------------------------------------------------------
  // The worker

  predicate Distinct(l: seq<ProbeId>) {
    forall i, j :: 0 <= i < j < |l| ==> l[i] != l[j]
  }

  /** `list(s)`: the members of `s` once each, in some order. */
  method ListOf(s: set<ProbeId>) returns (l: seq<ProbeId>)
    ensures Distinct(l) && forall pb :: pb in l <==> pb in s
  {
    l := [];
    var rest := s;
    while rest != {}
      invariant rest <= s && Distinct(l)
      invariant forall pb :: pb in l <==> pb in s && pb !in rest
      decreases rest
    {
      if forall x :: x !in rest {
        assert false;
      }
      var pb :| pb in rest;
      l := l + [pb];
      rest := rest - {pb};
    }
  }

  /** The attributes `w` are `b` with the probe set rewritten as a list without duplicates. */
  ghost predicate ListedAttrs(b: EdgeAttrs, w: EdgeAttrs) {
    && PROBE in b && b[PROBE].ProbeSet?
    && PROBE in w && w[PROBE].ProbeList?
    && Distinct(w[PROBE].items)
    && Elements(w[PROBE]) == b[PROBE].members
    && w - {PROBE} == b - {PROBE}
  }

  /** `w` is `built` with the probe set of every edge rewritten as a list without duplicates. */
  ghost predicate Listed(built: GraphValue, w: GraphValue) {
    && w.edges.Keys == built.edges.Keys
    && forall e :: e in w.edges ==> ListedAttrs(built.edges[e], w.edges[e])
  }

  lemma PathRolesSnoc(p: seq<Hop>, idx: nat)
    requires idx < |p|
    ensures PathSources(p[..idx + 1]) == PathSources(p[..idx]) + (if idx == 0 then {p[idx]} else {})
    ensures PathIxps(p[..idx + 1]) == PathIxps(p[..idx]) + (if idx >= 1 && p[idx].Name? then {p[idx]} else {})
  {
    var a, b := p[..idx], p[..idx + 1];
    if idx > 0 {
      assert b[0] == a[0];
    }
    forall h | h in PathIxps(b) ensures h in PathIxps(a) + (if idx >= 1 && p[idx].Name? then {p[idx]} else {}) {
      var i :| 1 <= i < |b| && b[i].Name? && h == b[i];
      if i < idx {
        assert h == a[i];
      }
    }
    forall h | h in PathIxps(a) ensures h in PathIxps(b) {
      var i :| 1 <= i < |a| && a[i].Name? && h == a[i];
      assert h == b[i];
    }
    if idx >= 1 && p[idx].Name? {
      assert b[idx] == p[idx];
    }
  }

  /** The role loop over the hops of one path. */
  method PathRoles(p: seq<Hop>, source0: set<Hop>, ixp0: set<Hop>, dest0: set<Hop>)
    returns (source: set<Hop>, ixp: set<Hop>, dest: set<Hop>)
    ensures source == source0 + PathSources(p) && ixp == ixp0 + PathIxps(p) && dest == dest0
  {
    source, ixp, dest := source0, ixp0, dest0;
    var lastIdx := |p|;
    var idx := 0;
    while idx < |p|
      invariant 0 <= idx <= |p|
      invariant source == source0 + PathSources(p[..idx]) && ixp == ixp0 + PathIxps(p[..idx]) && dest == dest0
    {
      PathRolesSnoc(p, idx);
      var h := p[idx];
      if idx == 0 {
        source := source + {h};
      } else if idx == lastIdx {
        dest := dest + {h};
      } else if h.Name? {
        ixp := ixp + {h};
      }
      idx := idx + 1;
    }
    assert p[..idx] == p;
  }

  /** The role loop over the kept paths of one probe. */
  method PathsRoles(paths: seq<seq<Hop>>, source0: set<Hop>, ixp0: set<Hop>, dest0: set<Hop>)
    returns (source: set<Hop>, ixp: set<Hop>, dest: set<Hop>)
    ensures source == source0 + PathsSources(paths) && ixp == ixp0 + PathsIxps(paths) && dest == dest0
  {
    source, ixp, dest := source0, ixp0, dest0;
    var j := 0;
    while j < |paths|
      invariant 0 <= j <= |paths|
      invariant source == source0 + PathsSources(paths[..j]) && ixp == ixp0 + PathsIxps(paths[..j]) && dest == dest0
    {
      assert paths[..j + 1][..j] == paths[..j];
      source, ixp, dest := PathRoles(paths[j], source, ixp, dest);
      j := j + 1;
    }
    assert paths[..j] == paths;
  }

  /**
   * `worker` after the file is read: for each probe, collect the roles of its kept paths and add
   * the paths to the graph; then turn every probe set into a list and give every node its
   * `termination`. `dest` stays {TARGET}: the branch that would add to it never runs.
   */
  method Worker(recs: seq<ProbeRecord>) returns (g: Graph)
    ensures g.Valid() && !g.multigraph
    ensures Listed(BuildGraph(recs), g.Value())
    ensures g.nodes.Keys == BuildGraph(recs).nodes.Keys
    ensures forall n :: n in g.nodes ==>
              g.nodes[n] == BuildGraph(recs).nodes[n][TERMINATION := Termination(n, Sources(recs), Ixps(recs), {TARGET})]
  {
    g := new Graph(false);
    var source, dest, ixp: set<Hop> := {}, {TARGET}, {};
    var k := 0;
    while k < |recs|
      invariant 0 <= k <= |recs|
      invariant g.Valid() && g.Value() == BuildGraph(recs[..k])
      invariant source == Sources(recs[..k]) && ixp == Ixps(recs[..k]) && dest == {TARGET}
    {
      var rec := recs[k];
      var asPath := KeptPaths(rec.asnPath);
      assert recs[..k + 1][..k] == recs[..k];
      if |asPath| > 0 {
        source, ixp, dest := PathsRoles(asPath, source, ixp, dest);
        g.PathToGraph(asPath, rec.pb);
      }
      k := k + 1;
    }
    assert recs[..k] == recs;
    ghost var built := g.Value();
    ListProbes(g, built);
    Terminate(g, built, source, ixp, dest);
  }

  /** `g[e[0]][e[1]]['probe'] = list(...)` for every edge. */
  method ListProbes(g: Graph, ghost built: GraphValue)
    requires g.Valid() && SetTagged(built) && g.Value() == built
    modifies g
    ensures g.Valid() && g.nodes == built.nodes && g.multigraph == built.multigraph
    ensures Listed(built, g.Value())
  {
    var edges := ListEdges(g.edges);
    var w := GraphValue(built.multigraph, built.nodes, edges);
    ClosedSameKeys(built, w);
    g.edges := edges;
    assert g.Value() == w;
  }

  /** The loop of `ListProbes`: rewrite the probe set of every edge as a list without duplicates. */
  method ListEdges(edges0: map<Pair, EdgeAttrs>) returns (edges: map<Pair, EdgeAttrs>)
    requires forall e :: e in edges0 ==> PROBE in edges0[e] && edges0[e][PROBE].ProbeSet?
    ensures edges.Keys == edges0.Keys
    ensures forall e :: e in edges ==> ListedAttrs(edges0[e], edges[e])
  {
    edges := edges0;
    var todo := edges.Keys;
    while todo != {}
      invariant todo <= edges0.Keys && edges.Keys == edges0.Keys
      invariant forall e :: e in todo ==> edges[e] == edges0[e]
      invariant forall e :: e in edges && e !in todo ==> ListedAttrs(edges0[e], edges[e])
      decreases todo
    {
      var e :| e in todo;
      var d := edges[e];
      var l := ListOf(d[PROBE].members);
      ListedStep(d, l);
      edges := edges[e := d[PROBE := ProbeList(l)]];
      todo := todo - {e};
    }
    assert forall e :: e in edges ==> e !in todo;
  }

  /** Replacing the probe set by a list without duplicates of its members lists the attributes. */
  lemma ListedStep(d: EdgeAttrs, l: seq<ProbeId>)
    requires PROBE in d && d[PROBE].ProbeSet?
    requires Distinct(l) && forall pb :: pb in l <==> pb in d[PROBE].members
    ensures ListedAttrs(d, d[PROBE := ProbeList(l)])
  {
    assert forall pb :: pb in Elements(ProbeList(l)) <==> pb in d[PROBE].members;
  }

  /** Rewriting edge attributes keeps a graph closed. */
  lemma ClosedSameKeys(a: GraphValue, b: GraphValue)
    requires Closed(a) && a.nodes == b.nodes && a.edges.Keys == b.edges.Keys
    ensures Closed(b)
  {
    forall e | e in b.edges ensures e.0 in b.nodes && e.1 in b.nodes {
      assert e in a.edges.Keys;
    }
  }

  /** `g.node[n]['termination'] = ...` for every node, by the priority source > ixp > dest > other. */
  method Terminate(g: Graph, ghost built: GraphValue, source: set<Hop>, ixp: set<Hop>, dest: set<Hop>)
    requires g.Valid() && g.nodes == built.nodes
    modifies g
    ensures g.Valid() && g.edges == old(g.edges) && g.nodes.Keys == built.nodes.Keys
    ensures forall n :: n in g.nodes ==> g.nodes[n] == built.nodes[n][TERMINATION := Termination(n, source, ixp, dest)]
  {
    var todo := g.nodes.Keys;
    while todo != {}
      invariant todo <= built.nodes.Keys && g.nodes.Keys == built.nodes.Keys
      invariant g.Valid() && g.edges == old(g.edges)
      invariant forall n :: n in todo ==> g.nodes[n] == built.nodes[n]
      invariant forall n :: n in g.nodes && n !in todo ==> g.nodes[n] == built.nodes[n][TERMINATION := Termination(n, source, ixp, dest)]
      decreases todo
    {
      var n :| n in todo;
      var t;
      if n in source {
        t := 1;
      } else if n in ixp {
        t := 2;
      } else if n in dest {
        t := 3;
      } else {
        t := 4;
      }
      g.nodes := g.nodes[n := g.nodes[n][TERMINATION := t]];
      todo := todo - {n};
    }
  }
}
