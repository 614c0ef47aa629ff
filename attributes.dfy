/**
 * The visual attribute resolvers of js_lib/vis.js: `nodeColor`, `nodeBorder`, `linkColor`,
 * `linkOpacity` and `linkWidth`. Each is a total case analysis over the element's show-path
 * flag, the graph kind, the inference-display toggle and the values looked up at the moment.
 */
module Attributes {
  import opened TimeSeries

  /**
   * A colour: a fixed code, or `Reds(l)`, the colour the red interpolating scale gives for
   * congestion level `l` (left uninterpreted).
   */
  datatype Color = Hex(code: string) | Reds(level: real)

  // the ordinal legend: 1 source, 2 ixp, 3 destination, 4 all others
  const SOURCE_COLOR := Hex("#bebada")
  const IXP_COLOR := Hex("#fdb462")
  const DEST_COLOR := Hex("#e41a1c")
  const OTHER_COLOR := Hex("#b3de69")
  // a node whose path is shown
  const PATH_NODE_COLOR := Hex("#4a1486")
  // a link on a shown path, in a plain topology graph
  const PATH_LINK_COLOR := Hex("#e34a31")
  const GRAY := Hex("#999")
  // inference display: inferred true / anything else
  const INFERRED_COLOR := Hex("#810f7c")
  const NOT_INFERRED_COLOR := Hex("#74c476")
  const WHITE := Hex("white")

  /** The ordinal colour scale over the legend domain 1..4. */
  function Legend(role: int): Color
    requires 1 <= role <= 4
  {
    if role == 1 then SOURCE_COLOR
    else if role == 2 then IXP_COLOR
    else if role == 3 then DEST_COLOR
    else OTHER_COLOR
  }

  /** The legend role a node's tags resolve to: destination (3) beats ixp (2) beats source (1) beats other (4). */
  function Role(tag: seq<int>): (r: int)
    ensures 1 <= r <= 4
    ensures r == 3 <==> 3 in tag
    ensures r == 2 <==> 3 !in tag && 2 in tag
    ensures r == 1 <==> 3 !in tag && 2 !in tag && 1 in tag
    ensures r == 4 <==> 3 !in tag && 2 !in tag && 1 !in tag
  {
    if 3 in tag then 3 else if 2 in tag then 2 else if 1 in tag then 1 else 4
  }

  /** Fill colour of a node: the path colour while its path is shown, otherwise its legend colour. */
  function NodeColor(tag: seq<int>, showPath: bool): (c: Color)
    ensures c == PATH_NODE_COLOR <==> showPath
    ensures !showPath ==> c == Legend(Role(tag))
  {
    if !showPath then Legend(Role(tag)) else PATH_NODE_COLOR
  }

  /** The level that counts as congested: a number above 0.1; `'NA'` counts as below. */
  predicate Congested(level: Lookup<real>) {
    level.Found? && level.value > 0.1
  }

  /** The inference colour shared by node borders and links: purple exactly for a true inference. */
  function InferenceColor(inference: Lookup<bool>): (c: Color)
    ensures c == INFERRED_COLOR <==> inference == Found(true)
    ensures c == INFERRED_COLOR || c == NOT_INFERRED_COLOR
  {
    if inference == Found(true) then INFERRED_COLOR else NOT_INFERRED_COLOR
  }

  /** Border of a node: the inference colour on a congestion graph in inference mode, white otherwise. */
  function NodeBorder(isCongestionGraph: bool, showInference: bool, inference: Lookup<bool>): (c: Color)
    ensures c == WHITE <==> !(isCongestionGraph && showInference)
    ensures isCongestionGraph && showInference ==> c == InferenceColor(inference)
  {
    if isCongestionGraph && showInference then InferenceColor(inference) else WHITE
  }

  /** Stroke colour of a link. */
  function LinkColor(isCongestionGraph: bool, showInference: bool, level: Lookup<real>,
                     inference: Lookup<bool>, showPath: bool): (c: Color)
    ensures isCongestionGraph && showInference ==> c == InferenceColor(inference)
    ensures isCongestionGraph && !showInference ==>
              (c.Reds? <==> Congested(level)) && (Congested(level) ==> c == Reds(level.value))
              && (!Congested(level) ==> c == GRAY)
    ensures !isCongestionGraph ==> (c == PATH_LINK_COLOR <==> showPath) && (!showPath ==> c == GRAY)
  {
    if isCongestionGraph then
      if showInference then InferenceColor(inference)
      else if Congested(level) then Reds(level.value)
      else GRAY
    else if showPath then PATH_LINK_COLOR
    else GRAY
  }

  /** Opacity of a link. */
  function LinkOpacity(showPath: bool, isCongestionGraph: bool, level: Lookup<real>, probeCount: nat): (o: real)
    ensures showPath ==> o == 0.9
    ensures !showPath && isCongestionGraph ==> (o == 0.6 <==> Congested(level)) && (o == 0.1 <==> !Congested(level))
    ensures !showPath && !isCongestionGraph ==> (o == 0.6 <==> probeCount > 30) && (o == 0.1 <==> probeCount <= 30)
  {
    if showPath then 0.9
    else if isCongestionGraph then (if Congested(level) then 0.6 else 0.1)
    else if probeCount > 30 then 0.6
    else 0.1
  }

  /** A stroke width `factor * sqrt(probeCount)`; the square root is kept symbolic. */
  datatype Width = Width(factor: nat, probeCount: nat)

  /** Stroke width of a link: six times the root of its probe count on a shown path, twice otherwise. */
  function LinkWidth(showPath: bool, probeCount: nat): (w: Width)
    ensures w.probeCount == probeCount
    ensures w.factor == 6 <==> showPath
    ensures w.factor == 2 <==> !showPath
  {
    Width(if showPath then 6 else 2, probeCount)
  }

  /** The legend colours and the path colour are pairwise distinct, so a node's role can be read off its fill. */
  lemma NodeColorDistinguishesRoles(t1: seq<int>, t2: seq<int>)
    ensures NodeColor(t1, false) == NodeColor(t2, false) <==> Role(t1) == Role(t2)
  {
  }

  /** A destination tag decides the fill colour, whatever else the tags hold. */
  lemma DestinationWins(tag: seq<int>, extra: seq<int>)
    requires 3 in tag
    ensures NodeColor(tag + extra, false) == NodeColor(extra + tag, false) == DEST_COLOR
  {
    assert 3 in tag + extra && 3 in extra + tag;
  }

  /** Only membership of 1, 2 and 3 in the tags matters for the fill colour. */
  lemma NodeColorOnlyReadsRoleTags(t1: seq<int>, t2: seq<int>, showPath: bool)
    requires forall k :: 1 <= k <= 3 ==> (k in t1 <==> k in t2)
    ensures NodeColor(t1, showPath) == NodeColor(t2, showPath)
  {
    assert 1 <= 1 <= 3 && 1 <= 2 <= 3 && 1 <= 3 <= 3;
  }

  /** In inference mode on a congestion graph a link takes its inference colour, like a node border, ignoring level and highlight. */
  lemma InferenceModeMatchesBorder(level: Lookup<real>, inference: Lookup<bool>, showPath: bool)
    ensures LinkColor(true, true, level, inference, showPath) == NodeBorder(true, true, inference)
  {
  }

  /** On a congestion graph the link colour ignores the show-path flag altogether. */
  lemma CongestionColorIgnoresPath(showInference: bool, level: Lookup<real>, inference: Lookup<bool>)
    ensures LinkColor(true, showInference, level, inference, true) == LinkColor(true, showInference, level, inference, false)
  {
  }

  /** A highlighted link is three times as wide as the same link unhighlighted. */
  lemma HighlightTriplesWidth(probeCount: nat)
    ensures LinkWidth(true, probeCount).factor == 3 * LinkWidth(false, probeCount).factor
    ensures LinkWidth(true, probeCount).probeCount == LinkWidth(false, probeCount).probeCount
  {
  }

  /** The opacity threshold on a plain graph is strict: 31 probes draw at 0.6, 30 at 0.1. */
  lemma PlainOpacityBoundary(level: Lookup<real>)
    ensures LinkOpacity(false, false, level, 31) == 0.6
    ensures LinkOpacity(false, false, level, 30) == 0.1
  {
  }
}
