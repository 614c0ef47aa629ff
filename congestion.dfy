/**
 * The aggregation core of congestion.py `main`: index the links by probe, add every in-window
 * change value of a probe to the bin of each link the probe crosses, and emit one series per
 * link sorted by epoch, normalised by the link's probe count.
 */
module Congestion {
  import opened Wrappers
  import opened Bins
  import opened TimeSeries

  /** Bin width, in seconds. */
  const BIN := 600
  /** Name of the change-detection method whose values are aggregated. */
  const CH_MTD := "cpt_poisson&MBIC"

  /** A JSON attribute value the aggregation passes through untouched, kept as its serialised text. */
  datatype Value = Value(json: string)

  /** The attribute dictionary of a graph, a node or a link. */
  type Attrs = map<string, Value>

  /** A topology node: its id and its attributes. */
  datatype NodeData = NodeData(id: int, attrs: Attrs)

  /** A topology link: its endpoints, the probes crossing it, and its attributes other than `probe`. */
  datatype Edge = Edge(source: int, target: int, probe: seq<ProbeId>, attrs: Attrs)

  /**
   * The loaded topology: whether it is directed and a multigraph, its graph attributes, and its
   * nodes and links in iteration order.
   */
  datatype Topology = Topology(directed: bool, multigraph: bool, graph: Attrs, nodes: seq<NodeData>, edges: seq<Edge>)

  /** A probe's record in a change-detection file: its `epoch` list and its CH_MTD list (an absent list is empty). */
  datatype Record = Record(epoch: seq<int>, values: seq<int>)

  /** One key of a change-detection file; `rec` is None when the record is null or empty. */
  datatype Entry = Entry(pb: ProbeId, rec: Option<Record>)

  /** One change value `v` that probe `pb` reported at time `t`. */
  datatype Change = Change(pb: ProbeId, t: int, v: int)

  /** The metadata recorded in the output graph. */
  datatype Meta = Meta(congestionBegin: int, congestionEnd: int, cptMethod: string, cptBinSize: int)

  /** The graph attributes that `main` sets. */
  const META_KEYS := {"congestion_begin", "congestion_end", "cpt_method", "cpt_bin_size"}

  /** The link attributes an output link states apart from the others. */
  const LINK_KEYS := {"probe", "congestion", "source", "target"}

  /** An output link: the input link with its congestion series, and its remaining attributes. */
  datatype OutLink = OutLink(source: int, target: int, probe: seq<ProbeId>, congestion: seq<Sample<real>>, attrs: Attrs)

  /**
   * The output document: the `congestion` flag, the `directed` and `multigraph` flags, the graph
   * attributes (the metadata `main` sets, and the rest), the nodes and the links.
   */
  datatype Output = Output(congestion: bool, directed: bool, multigraph: bool, graph: Meta, graphAttrs: Attrs,
                           nodes: seq<NodeData>, links: seq<OutLink>)

  /** The attributes of `a` whose keys are not in `keys`, each with its value. */
  function Without(a: Attrs, keys: set<string>): (r: Attrs)
    ensures forall k :: k in r <==> k in a && k !in keys
    ensures forall k :: k in r ==> r[k] == a[k]
  {
    a - keys
  }

  /** A node of the output: its attributes with `id` set to the node's id, which replaces any `id` attribute. */
  function NodeOut(n: NodeData): (r: NodeData)
    ensures r.id == n.id && "id" !in r.attrs
    ensures forall k :: k != "id" ==> (k in r.attrs <==> k in n.attrs)
    ensures forall k :: k in r.attrs ==> r.attrs[k] == n.attrs[k]
  {
    NodeData(n.id, Without(n.attrs, {"id"}))
  }

  /** The normalisation asserts that link `link` has a probe. */
  datatype AggError = EmptyProbeList(link: nat)

  /** Start of the bin that holds `t`. */
  function BinOf(t: int): (b: int)
    ensures Aligned(b, BIN) && b <= t < b + BIN
  {
    Snap(t, BIN)
  }

  // ---------------------------------------------------------------------------------------------
  // The probe-to-links index

  /** Occurrences of `pb` in `s`. */
  function Count(s: seq<ProbeId>, pb: ProbeId): nat {
    if |s| == 0 then 0 else Count(s[..|s| - 1], pb) + (if s[|s| - 1] == pb then 1 else 0)
  }

  lemma {:induction false} CountPositive(s: seq<ProbeId>, pb: ProbeId)
    ensures Count(s, pb) > 0 <==> pb in s
  {
    if |s| > 0 {
      CountPositive(s[..|s| - 1], pb);
      assert s == s[..|s| - 1] + [s[|s| - 1]];
    }
  }

  /** `n` copies of link index `l`. */
  function Repeat(l: nat, n: nat): seq<nat> {
    if n == 0 then [] else Repeat(l, n - 1) + [l]
  }

  lemma {:induction false} RepeatCounts(l: nat, n: nat)
    ensures multiset(Repeat(l, n)) == multiset{}[l := n]
  {
    if n > 0 {
      RepeatCounts(l, n - 1);
    }
  }

  /** The list `pb2links[pb]` holds once the index loop has run over `edges`: each link once per occurrence of `pb`. */
  function LinksOf(edges: seq<Edge>, pb: ProbeId): seq<nat> {
    if |edges| == 0 then []
    else LinksOf(edges[..|edges| - 1], pb) + Repeat(|edges| - 1, Count(edges[|edges| - 1].probe, pb))
  }

  /** A link appears in the list of `pb` as often as `pb` appears in its probe list, and no other index appears. */
  lemma {:induction false} LinksOfCounts(edges: seq<Edge>, pb: ProbeId, l: nat)
    ensures multiset(LinksOf(edges, pb))[l] == if l < |edges| then Count(edges[l].probe, pb) else 0
  {
    if |edges| > 0 {
      var n := |edges| - 1;
      LinksOfCounts(edges[..n], pb, l);
      RepeatCounts(n, Count(edges[n].probe, pb));
      var front, back := LinksOf(edges[..n], pb), Repeat(n, Count(edges[n].probe, pb));
      assert LinksOf(edges, pb) == front + back;
      assert multiset(front + back) == multiset(front) + multiset(back);
      if l < n {
        assert edges[..n][l] == edges[l];
      }
    }
  }

  /** So the list of `pb` names exactly the links whose probe list contains `pb`. */
  lemma LinksOfMembers(edges: seq<Edge>, pb: ProbeId, l: nat)
    ensures l in LinksOf(edges, pb) <==> l < |edges| && pb in edges[l].probe
  {
    LinksOfCounts(edges, pb, l);
    if l < |edges| {
      CountPositive(edges[l].probe, pb);
    }
  }

  /** `pb2links.get(pb, [])`. */
  function Get(pb2links: map<ProbeId, seq<nat>>, pb: ProbeId): seq<nat> {
    if pb in pb2links then pb2links[pb] else []
  }

  /** Every index the map holds is below `n`. */
  predicate Bounded(pb2links: map<ProbeId, seq<nat>>, n: nat) {
    forall pb, k :: pb in pb2links && 0 <= k < |pb2links[pb]| ==> pb2links[pb][k] < n
  }

  lemma CountSnoc(s: seq<ProbeId>, k: nat, pb: ProbeId)
    requires k < |s|
    ensures Count(s[..k + 1], pb) == Count(s[..k], pb) + (if s[k] == pb then 1 else 0)
  {
    assert s[..k + 1][..k] == s[..k];
  }

  lemma LinksOfSnoc(edges: seq<Edge>, l: nat, pb: ProbeId)
    requires l < |edges|
    ensures LinksOf(edges[..l + 1], pb) == LinksOf(edges[..l], pb) + Repeat(l, Count(edges[l].probe, pb))
  {
    assert edges[..l + 1][..l] == edges[..l];
  }

  /** All the accumulators are empty. */
  predicate AllEmpty(acc: seq<map<int, int>>) {
    forall l :: 0 <= l < |acc| ==> acc[l] == map[]
  }

  /** The index holds the lists for the first `l` links and the first `k` probes of link `l`. */
  ghost predicate Indexed(pb2links: map<ProbeId, seq<nat>>, edges: seq<Edge>, l: nat, k: nat)
    requires l <= |edges| && (l < |edges| ==> k <= |edges[l].probe|)
  {
    forall pb :: Get(pb2links, pb) == LinksOf(edges[..l], pb) + Repeat(l, if l < |edges| then Count(edges[l].probe[..k], pb) else 0)
  }

  /** No probe is mapped to an empty list. */
  predicate NoEmptyList(pb2links: map<ProbeId, seq<nat>>) {
    forall pb :: pb in pb2links ==> pb2links[pb] != []
  }

  lemma IndexProbe(pb2links: map<ProbeId, seq<nat>>, edges: seq<Edge>, l: nat, k: nat)
    requires l < |edges| && k < |edges[l].probe| && Indexed(pb2links, edges, l, k)
    ensures Indexed(pb2links[edges[l].probe[k] := Get(pb2links, edges[l].probe[k]) + [l]], edges, l, k + 1)
  {
    var p := edges[l].probe[k];
    var next := pb2links[p := Get(pb2links, p) + [l]];
    forall q ensures Get(next, q) == LinksOf(edges[..l], q) + Repeat(l, Count(edges[l].probe[..k + 1], q)) {
      CountSnoc(edges[l].probe, k, q);
      var before := Count(edges[l].probe[..k], q);
      assert Get(pb2links, q) == LinksOf(edges[..l], q) + Repeat(l, before);
      if q == p {
        assert Repeat(l, before + 1) == Repeat(l, before) + [l];
      }
    }
  }

  lemma IndexLink(pb2links: map<ProbeId, seq<nat>>, edges: seq<Edge>, l: nat)
    requires l < |edges| && Indexed(pb2links, edges, l, |edges[l].probe|)
    ensures Indexed(pb2links, edges, l + 1, 0)
  {
    assert edges[l].probe[..|edges[l].probe|] == edges[l].probe;
    forall q ensures Get(pb2links, q) == LinksOf(edges[..l + 1], q) {
      LinksOfSnoc(edges, l, q);
    }
  }

  /**
   * The index loop: give each link an empty accumulator and append the link to the list of every
   * probe it carries.
   */
  method BuildIndex(edges: seq<Edge>) returns (pb2links: map<ProbeId, seq<nat>>, acc: seq<map<int, int>>)
    ensures forall pb :: Get(pb2links, pb) == LinksOf(edges, pb)
    ensures NoEmptyList(pb2links)
    ensures |acc| == |edges| && AllEmpty(acc)
  {
    pb2links, acc := map[], [];
    var l := 0;
    while l < |edges|
      invariant 0 <= l <= |edges|
      invariant Indexed(pb2links, edges, l, 0)
      invariant NoEmptyList(pb2links)
      invariant |acc| == l && AllEmpty(acc)
    {
      acc := acc + [map[]];
      pb2links := IndexEdge(pb2links, edges, l);
      l := l + 1;
    }
    assert edges[..l] == edges;
  }

  /** The inner index loop: append link `l` to the list of every probe it carries. */
  method IndexEdge(pb2links0: map<ProbeId, seq<nat>>, edges: seq<Edge>, l: nat) returns (pb2links: map<ProbeId, seq<nat>>)
    requires l < |edges| && Indexed(pb2links0, edges, l, 0) && NoEmptyList(pb2links0)
    ensures Indexed(pb2links, edges, l + 1, 0) && NoEmptyList(pb2links)
  {
    pb2links := pb2links0;
    var probes := edges[l].probe;
    var k := 0;
    while k < |probes|
      invariant 0 <= k <= |probes|
      invariant Indexed(pb2links, edges, l, k)
      invariant NoEmptyList(pb2links)
    {
      var pb := probes[k];
      IndexProbe(pb2links, edges, l, k);
      pb2links := pb2links[pb := Get(pb2links, pb) + [l]];
      k := k + 1;
    }
    IndexLink(pb2links, edges, l);
  }

  lemma IndexBounded(edges: seq<Edge>, pb2links: map<ProbeId, seq<nat>>)
    requires forall pb :: Get(pb2links, pb) == LinksOf(edges, pb)
    ensures Bounded(pb2links, |edges|)
  {
    forall pb, k | pb in pb2links && 0 <= k < |pb2links[pb]| ensures pb2links[pb][k] < |edges| {
      assert Get(pb2links, pb) == LinksOf(edges, pb);
      LinksOfMembers(edges, pb, pb2links[pb][k]);
    }
  }

  // ---------------------------------------------------------------------------------------------
  // The change values of the input files

  /** The pairs `zip(epoch, values)` of one entry, truncated to the shorter list. */
  function EntryChanges(e: Entry): (cs: seq<Change>)
    ensures e.rec.None? ==> cs == []
    ensures e.rec.Some? ==> |cs| == (if |e.rec.value.epoch| < |e.rec.value.values| then |e.rec.value.epoch| else |e.rec.value.values|)
    ensures forall k :: 0 <= k < |cs| ==> cs[k] == Change(e.pb, e.rec.value.epoch[k], e.rec.value.values[k])
  {
    if e.rec.None? then []
    else
      var r := e.rec.value;
      var n := if |r.epoch| < |r.values| then |r.epoch| else |r.values|;
      seq(n, k requires 0 <= k < n => Change(e.pb, r.epoch[k], r.values[k]))
  }

  /** The change values of one file, entry by entry. */
  function FileChanges(f: seq<Entry>): seq<Change> {
    if |f| == 0 then [] else FileChanges(f[..|f| - 1]) + EntryChanges(f[|f| - 1])
  }

  /** The change values of all files, file by file. */
  function AllChanges(files: seq<seq<Entry>>): seq<Change> {
    if |files| == 0 then [] else AllChanges(files[..|files| - 1]) + FileChanges(files[|files| - 1])
  }

  // ---------------------------------------------------------------------------------------------
  // Accumulation

  /** `begin <= t <= stop`. */
  predicate InWindow(t: int, begin: int, stop: int) {
    begin <= t <= stop
  }

  /** A defaultdict(int) lookup. */
  function BinValue(m: map<int, int>, b: int): int {
    if b in m then m[b] else 0
  }

  /** Add `v` to bin `b` of the accumulator of every link of `links`, in turn. */
  function AddToLinks(acc: seq<map<int, int>>, links: seq<nat>, b: int, v: int): (r: seq<map<int, int>>)
    requires forall k :: 0 <= k < |links| ==> links[k] < |acc|
    ensures |r| == |acc|
  {
    if |links| == 0 then acc
    else
      var r := AddToLinks(acc, links[..|links| - 1], b, v);
      var l := links[|links| - 1];
      r[l := r[l][b := BinValue(r[l], b) + v]]
  }

  /** One change value: a change inside the window is added to its bin on every link of its probe. */
  function Apply(acc: seq<map<int, int>>, pb2links: map<ProbeId, seq<nat>>, c: Change, begin: int, stop: int): (r: seq<map<int, int>>)
    requires Bounded(pb2links, |acc|)
    ensures |r| == |acc|
  {
    if InWindow(c.t, begin, stop) then AddToLinks(acc, Get(pb2links, c.pb), BinOf(c.t), c.v) else acc
  }

  /** All change values, in order. */
  function ApplyAll(acc: seq<map<int, int>>, pb2links: map<ProbeId, seq<nat>>, cs: seq<Change>, begin: int, stop: int): (r: seq<map<int, int>>)
    requires Bounded(pb2links, |acc|)
    ensures |r| == |acc|
  {
    if |cs| == 0 then acc
    else Apply(ApplyAll(acc, pb2links, cs[..|cs| - 1], begin, stop), pb2links, cs[|cs| - 1], begin, stop)
  }

  /** Adding `v` to bin `b` of link `last` changes only that bin of that link. */
  lemma AddToBinEffect(r: seq<map<int, int>>, last: nat, b: int, v: int, l: nat, b': int)
    requires last < |r| && l < |r|
    ensures var r' := r[last := r[last][b := BinValue(r[last], b) + v]];
            && BinValue(r'[l], b') == BinValue(r[l], b') + (if b' == b && last == l then v else 0)
            && (b' in r'[l] <==> b' in r[l] || (b' == b && last == l))
  {
  }

  /** Adding along `links` changes only bin `b`, by `v` for each occurrence of a link in `links`. */
  lemma {:induction false} AddToLinksValue(acc: seq<map<int, int>>, links: seq<nat>, b: int, v: int, l: nat, b': int)
    requires forall k :: 0 <= k < |links| ==> links[k] < |acc|
    requires l < |acc|
    ensures BinValue(AddToLinks(acc, links, b, v)[l], b') ==
              BinValue(acc[l], b') + (if b' == b then v * multiset(links)[l] else 0)
  {
    if |links| > 0 {
      var init: seq<nat> := links[..|links| - 1];
      var last: nat := links[|links| - 1];
      var r := AddToLinks(acc, init, b, v);
      var c: nat := multiset(init)[l];
      assert links == init + [last];
      assert multiset(links)[l] == c + (if last == l then 1 else 0);
      assert AddToLinks(acc, links, b, v) == r[last := r[last][b := BinValue(r[last], b) + v]];
      AddToLinksValue(acc, init, b, v, l, b');
      AddToBinEffect(r, last, b, v, l, b');
      ScaleStep(v, c, multiset(links)[l], last == l);
    }
  }

  lemma ScaleStep(v: int, c: nat, m: nat, hit: bool)
    requires m == c + (if hit then 1 else 0)
    ensures v * m == v * c + (if hit then v else 0)
  {
  }

  /** Adding along `links` creates bin `b` on exactly the links of `links`, and no other bin. */
  lemma {:induction false} AddToLinksKeys(acc: seq<map<int, int>>, links: seq<nat>, b: int, v: int, l: nat, b': int)
    requires forall k :: 0 <= k < |links| ==> links[k] < |acc|
    requires l < |acc|
    ensures b' in AddToLinks(acc, links, b, v)[l] <==> b' in acc[l] || (b' == b && l in links)
  {
    if |links| > 0 {
      var init: seq<nat> := links[..|links| - 1];
      var last: nat := links[|links| - 1];
      var r := AddToLinks(acc, init, b, v);
      assert links == init + [last];
      assert AddToLinks(acc, links, b, v) == r[last := r[last][b := BinValue(r[last], b) + v]];
      AddToLinksKeys(acc, init, b, v, l, b');
      AddToBinEffect(r, last, b, v, l, b');
    }
  }

  /** The change `c` lands in bin `b` of link `l`: inside the window, in bin `b`, from a probe that crosses `l`. */
  predicate Lands(edges: seq<Edge>, c: Change, l: nat, b: int, begin: int, stop: int)
    requires l < |edges|
  {
    InWindow(c.t, begin, stop) && BinOf(c.t) == b && c.pb in edges[l].probe
  }

  /** Reference definition of a bin's sum: every landing value, weighted by how often its probe is listed on the link. */
  function BinTotal(edges: seq<Edge>, cs: seq<Change>, l: nat, b: int, begin: int, stop: int): int
    requires l < |edges|
  {
    if |cs| == 0 then 0
    else
      var c := cs[|cs| - 1];
      BinTotal(edges, cs[..|cs| - 1], l, b, begin, stop)
        + (if InWindow(c.t, begin, stop) && BinOf(c.t) == b then c.v * Count(edges[l].probe, c.pb) else 0)
  }

  /** Accumulating the changes adds the reference sum to every bin of every link. */
  lemma {:induction false} ApplyAllValue(edges: seq<Edge>, pb2links: map<ProbeId, seq<nat>>, acc: seq<map<int, int>>,
                                         cs: seq<Change>, begin: int, stop: int, l: nat, b: int)
    requires forall pb :: Get(pb2links, pb) == LinksOf(edges, pb)
    requires |acc| == |edges| && Bounded(pb2links, |acc|) && l < |edges|
    ensures BinValue(ApplyAll(acc, pb2links, cs, begin, stop)[l], b) == BinValue(acc[l], b) + BinTotal(edges, cs, l, b, begin, stop)
  {
    if |cs| > 0 {
      var n := |cs| - 1;
      var c := cs[n];
      ApplyAllValue(edges, pb2links, acc, cs[..n], begin, stop, l, b);
      if InWindow(c.t, begin, stop) {
        var before := ApplyAll(acc, pb2links, cs[..n], begin, stop);
        AddToLinksValue(before, Get(pb2links, c.pb), BinOf(c.t), c.v, l, b);
        LinksOfCounts(edges, c.pb, l);
      }
    }
  }

  lemma LandedSnoc(edges: seq<Edge>, cs: seq<Change>, l: nat, b: int, begin: int, stop: int)
    requires l < |edges| && |cs| > 0
    ensures Landed(edges, cs, l, b, begin, stop) <==>
              Landed(edges, cs[..|cs| - 1], l, b, begin, stop) || Lands(edges, cs[|cs| - 1], l, b, begin, stop)
  {
    var n := |cs| - 1;
    if Landed(edges, cs[..n], l, b, begin, stop) {
      var k :| 0 <= k < n && Lands(edges, cs[..n][k], l, b, begin, stop);
      assert cs[..n][k] == cs[k];
    }
    if Landed(edges, cs, l, b, begin, stop) {
      var k :| 0 <= k < |cs| && Lands(edges, cs[k], l, b, begin, stop);
      if k < n {
        assert cs[..n][k] == cs[k];
      }
    }
  }

  /** Accumulating the changes creates exactly the bins some change lands in. */
  lemma {:induction false} ApplyAllKeys(edges: seq<Edge>, pb2links: map<ProbeId, seq<nat>>, acc: seq<map<int, int>>,
                                        cs: seq<Change>, begin: int, stop: int, l: nat, b: int)
    requires forall pb :: Get(pb2links, pb) == LinksOf(edges, pb)
    requires |acc| == |edges| && Bounded(pb2links, |acc|) && l < |edges|
    ensures b in ApplyAll(acc, pb2links, cs, begin, stop)[l] <==> b in acc[l] || Landed(edges, cs, l, b, begin, stop)
  {
    if |cs| > 0 {
      var n := |cs| - 1;
      var c := cs[n];
      ApplyAllKeys(edges, pb2links, acc, cs[..n], begin, stop, l, b);
      var before := ApplyAll(acc, pb2links, cs[..n], begin, stop);
      var after := ApplyAll(acc, pb2links, cs, begin, stop);
      if InWindow(c.t, begin, stop) {
        AddToLinksKeys(before, Get(pb2links, c.pb), BinOf(c.t), c.v, l, b);
        LinksOfMembers(edges, c.pb, l);
        assert b in after[l] <==> b in before[l] || Lands(edges, c, l, b, begin, stop);
      } else {
        assert after == before && !Lands(edges, c, l, b, begin, stop);
      }
      LandedSnoc(edges, cs, l, b, begin, stop);
    }
  }

  /** Applying two runs of changes one after the other is applying their concatenation. */
  lemma {:induction false} ApplyAllAppend(acc: seq<map<int, int>>, pb2links: map<ProbeId, seq<nat>>, cs1: seq<Change>, cs2: seq<Change>,
                                          begin: int, stop: int)
    requires Bounded(pb2links, |acc|)
    ensures ApplyAll(ApplyAll(acc, pb2links, cs1, begin, stop), pb2links, cs2, begin, stop) == ApplyAll(acc, pb2links, cs1 + cs2, begin, stop)
  {
    if |cs2| == 0 {
      assert cs1 + cs2 == cs1;
    } else {
      var n := |cs2| - 1;
      ApplyAllAppend(acc, pb2links, cs1, cs2[..n], begin, stop);
      assert (cs1 + cs2)[..|cs1 + cs2| - 1] == cs1 + cs2[..n];
    }
  }

  /** The innermost loop: add `v` to bin `bin` of every link of `links`. */
  method AddChange(acc0: seq<map<int, int>>, links: seq<nat>, bin: int, v: int) returns (acc: seq<map<int, int>>)
    requires forall k :: 0 <= k < |links| ==> links[k] < |acc0|
    ensures acc == AddToLinks(acc0, links, bin, v)
  {
    acc := acc0;
    var n := 0;
    while n < |links|
      invariant 0 <= n <= |links| && |acc| == |acc0|
      invariant acc == AddToLinks(acc0, links[..n], bin, v)
    {
      assert links[..n + 1][..n] == links[..n];
      var l := links[n];
      acc := acc[l := acc[l][bin := BinValue(acc[l], bin) + v]];
      n := n + 1;
    }
    assert links[..n] == links;
  }

  /** The `zip(epoch, CH_MTD)` loop of one probe: every pair inside the window goes to its bin on the probe's links. */
  method AccumulateEntry(acc0: seq<map<int, int>>, pb2links: map<ProbeId, seq<nat>>, e: Entry, begin: int, stop: int)
    returns (acc: seq<map<int, int>>)
    requires Bounded(pb2links, |acc0|)
    ensures acc == ApplyAll(acc0, pb2links, EntryChanges(e), begin, stop)
  {
    acc := acc0;
    if e.rec.Some? {
      var epochs, values := e.rec.value.epoch, e.rec.value.values;
      var k := 0;
      while k < |epochs| && k < |values|
        invariant 0 <= k <= |epochs| && k <= |values| && |acc| == |acc0|
        invariant acc == ApplyAll(acc0, pb2links, EntryChanges(e)[..k], begin, stop)
      {
        var t, v := epochs[k], values[k];
        assert EntryChanges(e)[..k + 1][..k] == EntryChanges(e)[..k];
        if begin <= t <= stop {
          var bin := (t / BIN) * BIN;
          acc := AddChange(acc, Get(pb2links, e.pb), bin, v);
        }
        k := k + 1;
      }
      assert EntryChanges(e)[..k] == EntryChanges(e);
    }
  }

  /** The loop over the probes of one file. */
  method AccumulateFile(acc0: seq<map<int, int>>, pb2links: map<ProbeId, seq<nat>>, data: seq<Entry>, begin: int, stop: int)
    returns (acc: seq<map<int, int>>)
    requires Bounded(pb2links, |acc0|)
    ensures acc == ApplyAll(acc0, pb2links, FileChanges(data), begin, stop)
  {
    acc := acc0;
    var j := 0;
    while j < |data|
      invariant 0 <= j <= |data| && |acc| == |acc0|
      invariant acc == ApplyAll(acc0, pb2links, FileChanges(data[..j]), begin, stop)
    {
      acc := AccumulateEntry(acc, pb2links, data[j], begin, stop);
      ApplyAllAppend(acc0, pb2links, FileChanges(data[..j]), EntryChanges(data[j]), begin, stop);
      assert data[..j + 1][..j] == data[..j];
      j := j + 1;
    }
    assert data[..j] == data;
  }

  /** The file loop: every change of every file is applied to the accumulators, in order. */
  method Accumulate(files: seq<seq<Entry>>, pb2links: map<ProbeId, seq<nat>>, acc0: seq<map<int, int>>, begin: int, stop: int)
    returns (acc: seq<map<int, int>>)
    requires Bounded(pb2links, |acc0|)
    ensures acc == ApplyAll(acc0, pb2links, AllChanges(files), begin, stop)
  {
    acc := acc0;
    var i := 0;
    while i < |files|
      invariant 0 <= i <= |files| && |acc| == |acc0|
      invariant acc == ApplyAll(acc0, pb2links, AllChanges(files[..i]), begin, stop)
    {
      acc := AccumulateFile(acc, pb2links, files[i], begin, stop);
      ApplyAllAppend(acc0, pb2links, AllChanges(files[..i]), FileChanges(files[i]), begin, stop);
      assert files[..i + 1][..i] == files[..i];
      i := i + 1;
    }
    assert files[..i] == files;
  }

  // ---------------------------------------------------------------------------------------------
  // Output

  /** Strictly increasing. */
  predicate Increasing(s: seq<int>) {
    forall i, j :: 0 <= i < j < |s| ==> s[i] < s[j]
  }

  /** `m` is the least element of `keys`. */
  predicate IsLeast(m: int, keys: set<int>) {
    m in keys && forall x :: x in keys ==> m <= x
  }

  /** A non-empty set of integers has a least element. */
  lemma {:induction false} HasLeast(keys: set<int>)
    requires keys != {}
    ensures exists m :: IsLeast(m, keys)
  {
    if forall x :: x !in keys {
      assert false;
    }
    var y :| y in keys;
    if keys == {y} {
      assert IsLeast(y, keys);
    } else {
      var rest := keys - {y};
      HasLeast(rest);
      var m :| IsLeast(m, rest);
      var least := if y < m then y else m;
      assert IsLeast(least, keys) by {
        forall x | x in keys ensures least <= x {
          if x != y {
            assert x in rest;
          }
        }
      }
    }
  }

  /** Putting a value below all of an increasing list in front keeps it increasing. */
  lemma ConsIncreasing(m: int, rest: seq<int>)
    requires Increasing(rest) && forall k :: 0 <= k < |rest| ==> m < rest[k]
    ensures Increasing([m] + rest)
  {
    var s := [m] + rest;
    forall i, j | 0 <= i < j < |s| ensures s[i] < s[j] {
      assert s[j] == rest[j - 1];
      if i > 0 {
        assert s[i] == rest[i - 1];
      }
    }
  }

  /** The keys in ascending order, as `sorted(d.items(), key=...)` lists them. */
  function SortedKeys(keys: set<int>): (s: seq<int>)
    ensures Increasing(s)
    ensures forall x :: x in s <==> x in keys
    decreases |keys|
  {
    if keys == {} then []
    else
      HasLeast(keys);
      var m :| IsLeast(m, keys);
      var rest := SortedKeys(keys - {m});
      assert forall k :: 0 <= k < |rest| ==> m < rest[k] by {
        forall k | 0 <= k < |rest| ensures m < rest[k] {
          assert rest[k] in rest;
        }
      }
      ConsIncreasing(m, rest);
      [m] + rest
  }

  /** The emitted series of one link: one sample per bin, in epoch order, the bin sum divided by the probe count. */
  function Series(bins: map<int, int>, pbCount: nat): (s: seq<Sample<real>>)
    requires pbCount > 0
    ensures StrictlySorted(s)
    ensures forall i :: 0 <= i < |s| ==> s[i].epoch in bins && s[i].value == bins[s[i].epoch] as real / pbCount as real
    ensures forall b :: b in bins ==> exists i :: 0 <= i < |s| && s[i].epoch == b
  {
    var ks := SortedKeys(bins.Keys);
    var s := seq(|ks|, i requires 0 <= i < |ks| => Sample(ks[i], bins[ks[i]] as real / pbCount as real));
    forall b | b in bins ensures exists i :: 0 <= i < |s| && s[i].epoch == b {
      assert b in ks;
      var i :| 0 <= i < |ks| && ks[i] == b;
      assert s[i].epoch == b;
    }
    s
  }

  /** Some change of `cs` lands in bin `b` of link `l`. */
  ghost predicate Landed(edges: seq<Edge>, cs: seq<Change>, l: nat, b: int, begin: int, stop: int)
    requires l < |edges|
  {
    exists k :: 0 <= k < |cs| && Lands(edges, cs[k], l, b, begin, stop)
  }

  /** An emitted link series is right for link `l`: sorted, exactly the landed bins, each the reference sum over the probe count. */
  ghost predicate IsLinkSeries(edges: seq<Edge>, cs: seq<Change>, l: nat, begin: int, stop: int, s: seq<Sample<real>>)
    requires l < |edges| && |edges[l].probe| > 0
  {
    && StrictlySorted(s)
    && (forall i :: 0 <= i < |s| ==>
          && Landed(edges, cs, l, s[i].epoch, begin, stop)
          && s[i].value == BinTotal(edges, cs, l, s[i].epoch, begin, stop) as real / |edges[l].probe| as real)
    && (forall b :: Landed(edges, cs, l, b, begin, stop) ==> exists i :: 0 <= i < |s| && s[i].epoch == b)
  }

  /** Every landed bin is a multiple of BIN between the bin of `begin` and `stop`. */
  lemma LandedBinsInRange(edges: seq<Edge>, cs: seq<Change>, l: nat, b: int, begin: int, stop: int)
    requires l < |edges| && Landed(edges, cs, l, b, begin, stop)
    ensures Aligned(b, BIN) && BinOf(begin) <= b <= stop
  {
    var k :| 0 <= k < |cs| && Lands(edges, cs[k], l, b, begin, stop);
  }

  /** The series of link `l` after accumulation is the right one. */
  lemma LinkSeriesCorrect(edges: seq<Edge>, pb2links: map<ProbeId, seq<nat>>, acc0: seq<map<int, int>>,
                          cs: seq<Change>, begin: int, stop: int, l: nat)
    requires forall pb :: Get(pb2links, pb) == LinksOf(edges, pb)
    requires |acc0| == |edges| && AllEmpty(acc0) && Bounded(pb2links, |acc0|)
    requires l < |edges| && |edges[l].probe| > 0
    ensures IsLinkSeries(edges, cs, l, begin, stop, Series(ApplyAll(acc0, pb2links, cs, begin, stop)[l], |edges[l].probe|))
  {
    var bins := ApplyAll(acc0, pb2links, cs, begin, stop)[l];
    forall b ensures BinValue(bins, b) == BinTotal(edges, cs, l, b, begin, stop)
                  && (b in bins <==> Landed(edges, cs, l, b, begin, stop)) {
      ApplyAllValue(edges, pb2links, acc0, cs, begin, stop, l, b);
      ApplyAllKeys(edges, pb2links, acc0, cs, begin, stop, l, b);
    }
  }

  /** The output link built from the accumulated bins of link `l` is right. */
  lemma OutLinkCorrect(edges: seq<Edge>, pb2links: map<ProbeId, seq<nat>>, acc0: seq<map<int, int>>,
                       cs: seq<Change>, begin: int, stop: int, l: nat)
    requires forall pb :: Get(pb2links, pb) == LinksOf(edges, pb)
    requires |acc0| == |edges| && AllEmpty(acc0) && Bounded(pb2links, |acc0|)
    requires l < |edges| && |edges[l].probe| > 0
    ensures IsOutLink(edges, cs, l, begin, stop,
                      OutLink(edges[l].source, edges[l].target, edges[l].probe,
                              Series(ApplyAll(acc0, pb2links, cs, begin, stop)[l], |edges[l].probe|),
                              Without(edges[l].attrs, LINK_KEYS)))
  {
    LinkSeriesCorrect(edges, pb2links, acc0, cs, begin, stop, l);
  }

  /** Output link `o` is input link `l` with its right series. */
  ghost predicate IsOutLink(edges: seq<Edge>, cs: seq<Change>, l: nat, begin: int, stop: int, o: OutLink) {
    && l < |edges|
    && o.source == edges[l].source && o.target == edges[l].target && o.probe == edges[l].probe
    && o.attrs == Without(edges[l].attrs, LINK_KEYS)
    && |edges[l].probe| > 0
    && IsLinkSeries(edges, cs, l, begin, stop, o.congestion)
  }

  /**
   * `main` from line 86 on: record the metadata, build the index, accumulate every file, then
   * normalise each link's bins into a sorted series, failing on a link without probes.
   */
  method Aggregate(topo: Topology, files: seq<seq<Entry>>, begin: int, stop: int) returns (r: Result<Output, AggError>)
    ensures r.Err? <==> exists l :: 0 <= l < |topo.edges| && |topo.edges[l].probe| == 0
    ensures r.Err? ==> r.error.link < |topo.edges| && |topo.edges[r.error.link].probe| == 0
    ensures r.Ok? ==>
              && r.value.congestion
              && r.value.directed == topo.directed && r.value.multigraph == topo.multigraph
              && r.value.graph == Meta(begin, stop, CH_MTD, BIN)
              && r.value.graphAttrs == Without(topo.graph, META_KEYS)
              && |r.value.nodes| == |topo.nodes|
              && (forall i :: 0 <= i < |topo.nodes| ==> r.value.nodes[i] == NodeOut(topo.nodes[i]))
              && |r.value.links| == |topo.edges|
              && forall l :: 0 <= l < |topo.edges| ==> IsOutLink(topo.edges, AllChanges(files), l, begin, stop, r.value.links[l])
  {
    var meta := Meta(begin, stop, CH_MTD, BIN);
    var edges := topo.edges;
    var pb2links, acc0 := BuildIndex(edges);
    IndexBounded(edges, pb2links);
    var acc := Accumulate(files, pb2links, acc0, begin, stop);
    var links := Normalise(edges, pb2links, acc0, acc, AllChanges(files), begin, stop);
    match links
    case Err(e) => r := Err(e);
    case Ok(ls) =>
      var nodes := seq(|topo.nodes|, i requires 0 <= i < |topo.nodes| => NodeOut(topo.nodes[i]));
      r := Ok(Output(true, topo.directed, topo.multigraph, meta, Without(topo.graph, META_KEYS), nodes, ls));
  }

  /**
   * The normalisation loop: turn each link's bins into its sorted series over its probe count,
   * failing on the first link without probes.
   */
  method Normalise(edges: seq<Edge>, pb2links: map<ProbeId, seq<nat>>, acc0: seq<map<int, int>>, acc: seq<map<int, int>>,
                   ghost cs: seq<Change>, begin: int, stop: int) returns (r: Result<seq<OutLink>, AggError>)
    requires forall pb :: Get(pb2links, pb) == LinksOf(edges, pb)
    requires |acc0| == |edges| && AllEmpty(acc0) && Bounded(pb2links, |acc0|)
    requires acc == ApplyAll(acc0, pb2links, cs, begin, stop)
    ensures r.Err? <==> exists l :: 0 <= l < |edges| && |edges[l].probe| == 0
    ensures r.Err? ==> r.error.link < |edges| && |edges[r.error.link].probe| == 0
    ensures r.Ok? ==> |r.value| == |edges| && forall l :: 0 <= l < |edges| ==> IsOutLink(edges, cs, l, begin, stop, r.value[l])
  {
    var links: seq<OutLink> := [];
    var l := 0;
    while l < |edges|
      invariant 0 <= l <= |edges| && |links| == l
      invariant forall l' :: 0 <= l' < l ==> |edges[l'].probe| > 0
      invariant forall l' :: 0 <= l' < l ==> IsOutLink(edges, cs, l', begin, stop, links[l'])
    {
      if |edges[l].probe| == 0 {
        return Err(EmptyProbeList(l));
      }
      var o := NormaliseLink(edges, pb2links, acc0, acc, cs, begin, stop, l);
      links := links + [o];
      l := l + 1;
    }
    r := Ok(links);
  }

  /** One step of the normalisation loop: the output link of link `l`, which has probes. */
  method NormaliseLink(edges: seq<Edge>, pb2links: map<ProbeId, seq<nat>>, acc0: seq<map<int, int>>, acc: seq<map<int, int>>,
                       ghost cs: seq<Change>, begin: int, stop: int, l: nat) returns (o: OutLink)
    requires forall pb :: Get(pb2links, pb) == LinksOf(edges, pb)
    requires |acc0| == |edges| && AllEmpty(acc0) && Bounded(pb2links, |acc0|)
    requires acc == ApplyAll(acc0, pb2links, cs, begin, stop)
    requires l < |edges| && |edges[l].probe| > 0
    ensures IsOutLink(edges, cs, l, begin, stop, o)
  {
    var pbCount := |edges[l].probe|;
    o := OutLink(edges[l].source, edges[l].target, edges[l].probe, Series(acc[l], pbCount), Without(edges[l].attrs, LINK_KEYS));
    OutLinkCorrect(edges, pb2links, acc0, cs, begin, stop, l);
  }
}
