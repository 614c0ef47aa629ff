/**
 * The view state of js_lib/vis.js: the page-wide globals (`moment`, `bin_size`, `begin`, `end`,
 * `is_congestion_graph`, `show_inference_result`), the loaded nodes and links, the `show-path`
 * class of every circle and line, and the date text field, together with the handlers that
 * change them (`init`, `update`, `navigator`, the keydown handler and `showPath`).
 */
module View {
  import opened Wrappers
  import opened TimeSeries
  import opened Attributes
  import opened Bins

  /** A loaded node: its role tags, the probes it hosts (when present) and its inference series. */
  datatype Node = Node(tag: seq<int>, hosting: Option<seq<ProbeId>>, inference: seq<Sample<bool>>)

  /** A loaded link: the probes crossing it and its congestion and inference series. */
  datatype Link = Link(probe: seq<ProbeId>, congestion: seq<Sample<real>>, inference: seq<Sample<bool>>)

  /** The `graph` metadata of a loaded file; each field may be absent. Times are unix seconds. */
  datatype GraphMeta = GraphMeta(cptBinSize: Option<int>, congestionBegin: Option<int>, congestionEnd: Option<int>)

  /** A parsed input file: the optional top-level `congestion` flag, the metadata, nodes and links. */
  datatype LoadedData = LoadedData(congestion: Option<bool>, graph: GraphMeta, nodes: seq<Node>, links: seq<Link>)

  const MINUTE_MS := 60000

  /**
   * What the date field reads back after `m` was written into it: the text shows minutes (UTC), so
   * parsing it again gives `m` floored to its minute.
   */
  function Reformat(m: int): (r: int)
    ensures Aligned(r, MINUTE_MS) && r <= m < r + MINUTE_MS
  {
    Snap(m, MINUTE_MS)
  }

  /** The instant `navigator` proposes: one bin after or before the moment. */
  function Step(moment: int, binSize: int, isForward: bool): (m: int)
    ensures m - moment == (if isForward then binSize * 1000 else -binSize * 1000)
  {
    if isForward then moment + binSize * 1000 else moment - binSize * 1000
  }

  /** The moment that `navigator` ends on: the proposal goes through the date field and is snapped again. */
  function Navigate(moment: int, binSize: int, isForward: bool): int
    requires binSize > 0
  {
    Snap(Reformat(Step(moment, binSize, isForward)), binSize * 1000)
  }

  /*
   * The globals `moment`, `bin_size`, `begin` and `end` start out `undefined`, and arithmetic on
   * `undefined` gives `NaN`, which every later operation propagates. Both are `None` below.
   */

  /** `Math.floor(m / (b * 1000)) * b * 1000` on values that may be undefined: the start of the bin holding `m`. */
  function SnapOpt(m: Option<int>, binSize: Option<int>): (r: Option<int>)
    requires binSize.Some? ==> binSize.value > 0
    ensures r.Some? <==> m.Some? && binSize.Some?
    ensures r.Some? ==> Aligned(r.value, binSize.value * 1000) && r.value <= m.value < r.value + binSize.value * 1000
  {
    if m.Some? && binSize.Some? then Some(Snap(m.value, binSize.value * 1000)) else None
  }

  /** What the date field parses to after `tformatter(m)` was written: `NaN` prints as text that does not parse. */
  function Written(m: Option<int>): (r: Option<int>)
    ensures r.Some? <==> m.Some?
    ensures r.Some? ==> Aligned(r.value, MINUTE_MS) && r.value <= m.value < r.value + MINUTE_MS
  {
    if m.Some? then Some(Reformat(m.value)) else None
  }

  /** `navigator`'s proposal on values that may be undefined. */
  function StepOpt(moment: Option<int>, binSize: Option<int>, isForward: bool): (m: Option<int>)
    ensures m.Some? <==> moment.Some? && binSize.Some?
    ensures m.Some? ==> m.value - moment.value == (if isForward then binSize.value * 1000 else -binSize.value * 1000)
  {
    if moment.Some? && binSize.Some? then Some(Step(moment.value, binSize.value, isForward)) else None
  }

  /** A moment aligned to a bin of whole minutes is also aligned to the minute. */
  lemma WholeMinuteBins(m: int, binSize: int)
    requires binSize > 0 && binSize % 60 == 0 && Aligned(m, binSize * 1000)
    ensures Aligned(m, MINUTE_MS)
  {
    SnapAligned(m, binSize * 1000);
    var q := m / (binSize * 1000);
    assert m == q * (binSize * 1000);
    var j := binSize / 60;
    assert binSize == j * 60;
    assert m == (q * j) * MINUTE_MS;
    MultipleIsAligned(q * j, MINUTE_MS);
  }

  /**
   * With bins of whole minutes, stepping from an aligned moment moves it by exactly one bin, and a
   * step forward followed by a step back restores it.
   */
  lemma NavigateRoundTrip(m: int, binSize: int)
    requires binSize > 0 && binSize % 60 == 0 && Aligned(m, binSize * 1000)
    ensures Navigate(m, binSize, true) == m + binSize * 1000
    ensures Navigate(m, binSize, false) == m - binSize * 1000
    ensures Navigate(Navigate(m, binSize, true), binSize, false) == m
  {
    var b := binSize * 1000;
    NeighbourAligned(m, b);
    var up, down := Step(m, binSize, true), Step(m, binSize, false);
    assert up == m + b && down == m - b;
    NavigateAligned(up, binSize);
    NavigateAligned(down, binSize);
    assert Navigate(m, binSize, true) == up;
    var back := Step(up, binSize, false);
    assert back == m;
    NavigateAligned(back, binSize);
  }

  /** The moments one bin before and after an aligned moment are aligned too. */
  lemma NeighbourAligned(m: int, b: int)
    requires b > 0 && Aligned(m, b)
    ensures Aligned(m + b, b) && Aligned(m - b, b)
  {
    var q := m / b;
    assert m == q * b;
    assert m + b == (q + 1) * b;
    assert m - b == (q - 1) * b;
    MultipleIsAligned(q + 1, b);
    MultipleIsAligned(q - 1, b);
  }

  /** An aligned proposal survives the date field and the re-snap when bins are whole minutes. */
  lemma NavigateAligned(x: int, binSize: int)
    requires binSize > 0 && binSize % 60 == 0 && Aligned(x, binSize * 1000)
    ensures Snap(Reformat(x), binSize * 1000) == x
  {
    WholeMinuteBins(x, binSize);
    SnapAligned(x, MINUTE_MS);
    SnapAligned(x, binSize * 1000);
  }

  /** With a half-minute bin the date field swallows a forward step: the moment stays where it was. */
  lemma SubMinuteBinStalls()
    ensures Navigate(60000, 30, true) == 60000
  {
  }

  /** Some probe in `hosting` crosses the link whose probe list is `probe`. */
  predicate SharesProbe(probe: seq<ProbeId>, hosting: seq<ProbeId>) {
    exists k :: 0 <= k < |hosting| && hosting[k] in probe
  }

  /** The resolved style of a line. */
  datatype LinkStyle = LinkStyle(stroke: Color, width: Width, opacity: real)

  /** The resolved style of a circle. */
  datatype NodeStyle = NodeStyle(fill: Color, stroke: Color)

  /** The keys the keydown handler reacts to. */
  const ENTER := 13
  const LEFT := 37
  const RIGHT := 39

  /** What the file input holds when `plot` runs: nothing, the file already opened, or another file. */
  datatype Selection = NoFile | OpenedFile | OtherFile

  class ViewState {
    var nodes: seq<Node>
    var links: seq<Link>
    var moment: Option<int>        // milliseconds; None while undefined or NaN
    var binSize: Option<int>       // seconds
    var begin: Option<int>         // milliseconds
    var end: Option<int>           // milliseconds
    var isCongestionGraph: bool
    var showInferenceResult: bool
    var datetime: Option<int>      // what parsing the date field gives, in milliseconds
    var nodeShowPath: seq<bool>    // the `show-path` class of each circle
    var lineShowPath: seq<bool>    // the `show-path` class of each line
    var notices: nat               // blocking alerts raised so far

    /** One flag per circle and per line, and a bin size, once defined, that is positive. */
    predicate Valid()
      reads this
    {
      && |nodeShowPath| == |nodes|
      && |lineShowPath| == |links|
      && (binSize.Some? ==> binSize.value > 0)
    }

    /** The page before any file is loaded, every global still undefined; `datetime0` is what the date field holds. */
    constructor (datetime0: Option<int>)
      ensures Valid() && datetime == datetime0
      ensures nodes == [] && links == [] && nodeShowPath == [] && lineShowPath == []
      ensures moment.None? && binSize.None? && begin.None? && end.None?
      ensures !isCongestionGraph && !showInferenceResult && notices == 0
    {
      nodes, links := [], [];
      moment, binSize, begin, end := None, None, None, None;
      isCongestionGraph, showInferenceResult := false, false;
      datetime := datetime0;
      nodeShowPath, lineShowPath := [], [];
      notices := 0;
    }

    /** A congestion file's bin size, when it has one, is positive. */
    predicate CanLoad(data: LoadedData) {
      data.congestion == Some(true) && data.graph.cptBinSize.Some? ==> data.graph.cptBinSize.value > 0
    }

    /** The user types into the date field; `parsed` is what the new text parses to, if anything. */
    method EditDatetime(parsed: Option<int>)
      modifies this`datetime
      ensures datetime == parsed
    {
      datetime := parsed;
    }

    /** `n` show-path flags, all cleared. */
    static function NoneShown(n: nat): (flags: seq<bool>)
      ensures |flags| == n && forall i :: 0 <= i < n ==> !flags[i]
    {
      seq(n, _ => false)
    }

    /** `init` (its state part): take the loaded file, reset the flags and set up the clock. */
    method Init(data: LoadedData)
      requires Valid() && CanLoad(data)
      modifies this
      ensures Valid()
      ensures nodes == data.nodes && links == data.links
      ensures nodeShowPath == NoneShown(|nodes|) && lineShowPath == NoneShown(|links|)
      ensures isCongestionGraph == (data.congestion == Some(true))
      ensures !showInferenceResult
      ensures binSize == (if isCongestionGraph && data.graph.cptBinSize.Some? then data.graph.cptBinSize else old(binSize))
      ensures begin == (if isCongestionGraph && data.graph.congestionBegin.Some? then Some(data.graph.congestionBegin.value * 1000) else old(begin))
      ensures end == (if isCongestionGraph && data.graph.congestionEnd.Some? then Some(data.graph.congestionEnd.value * 1000) else old(end))
      ensures isCongestionGraph && old(datetime).None? ==>
                && moment == InitialMoment(data.graph.congestionBegin, binSize)
                && datetime == Written(moment)
      ensures !(isCongestionGraph && old(datetime).None?) ==> moment == old(moment) && datetime == old(datetime)
      ensures notices == old(notices)
    {
      LoadElements(data);
      SetClock(data);
    }

    /** The element part of `init`: the nodes and links, their show-path flags cleared, and the graph kind. */
    method LoadElements(data: LoadedData)
      modifies this`nodes, this`links, this`nodeShowPath, this`lineShowPath, this`isCongestionGraph, this`showInferenceResult
      ensures nodes == data.nodes && links == data.links
      ensures nodeShowPath == NoneShown(|nodes|) && lineShowPath == NoneShown(|links|)
      ensures isCongestionGraph == (data.congestion == Some(true))
      ensures !showInferenceResult
    {
      nodes, links := data.nodes, data.links;
      nodeShowPath, lineShowPath := NoneShown(|data.nodes|), NoneShown(|data.links|);
      isCongestionGraph := data.congestion.Some? && data.congestion.value;
      showInferenceResult := false;
    }

    /**
     * The clock part of `init`: on a congestion graph, take the bin and window from the file where
     * present and, when the date field does not parse, start at the bin of `congestion_begin`.
     */
    method SetClock(data: LoadedData)
      requires CanLoad(data) && isCongestionGraph == (data.congestion == Some(true))
      requires binSize.Some? ==> binSize.value > 0
      modifies this`binSize, this`begin, this`end, this`moment, this`datetime
      ensures binSize.Some? ==> binSize.value > 0
      ensures binSize == (if isCongestionGraph && data.graph.cptBinSize.Some? then data.graph.cptBinSize else old(binSize))
      ensures begin == (if isCongestionGraph && data.graph.congestionBegin.Some? then Some(data.graph.congestionBegin.value * 1000) else old(begin))
      ensures end == (if isCongestionGraph && data.graph.congestionEnd.Some? then Some(data.graph.congestionEnd.value * 1000) else old(end))
      ensures isCongestionGraph && old(datetime).None? ==>
                && moment == InitialMoment(data.graph.congestionBegin, binSize)
                && datetime == Written(moment)
      ensures !(isCongestionGraph && old(datetime).None?) ==> moment == old(moment) && datetime == old(datetime)
    {
      if isCongestionGraph {
        var g := data.graph;
        binSize := if g.cptBinSize.Some? then g.cptBinSize else binSize;
        begin := if g.congestionBegin.Some? then Some(g.congestionBegin.value * 1000) else begin;
        end := if g.congestionEnd.Some? then Some(g.congestionEnd.value * 1000) else end;
        if datetime.None? {
          moment := InitialMoment(g.congestionBegin, binSize);
          datetime := Written(moment);
        }
      }
    }

    /**
     * `floor(congestion_begin / bin) * bin * 1000`: the start of the bin, in milliseconds, that
     * holds `begin` seconds; undefined when either is.
     */
    static function InitialMoment(cb: Option<int>, bs: Option<int>): (m: Option<int>)
      requires bs.Some? ==> bs.value > 0
      ensures m.Some? <==> cb.Some? && bs.Some?
      ensures m.Some? ==> Aligned(m.value, bs.value * 1000) && m.value <= cb.value * 1000 < m.value + bs.value * 1000
    {
      if cb.Some? && bs.Some? then Some(FloorToBin(cb.value, bs.value)) else None
    }

    /** The defined case of `InitialMoment`. */
    static function FloorToBin(cb: int, bs: int): (m: int)
      requires bs > 0
      ensures Aligned(m, bs * 1000)
      ensures m <= cb * 1000 < m + bs * 1000
    {
      var q := cb / bs;
      assert q * bs <= cb < q * bs + bs;
      assert q * bs * 1000 == q * (bs * 1000);
      MultipleIsAligned(q, bs * 1000);
      q * bs * 1000
    }

    /**
     * `update`: on a congestion graph, snap the instant in the date field (or `begin` when it does not
     * parse) to its bin and write the moment back; on any other graph only raise a notice.
     */
    method Update()
      requires Valid()
      modifies this`moment, this`datetime, this`notices
      ensures Valid()
      ensures isCongestionGraph ==>
                && moment == SnapOpt(if old(datetime).Some? then old(datetime) else begin, binSize)
                && datetime == Written(moment)
                && notices == old(notices)
      ensures !isCongestionGraph ==>
                moment == old(moment) && datetime == old(datetime) && notices == old(notices) + 1
    {
      if isCongestionGraph {
        var m := if datetime.Some? then datetime else begin;
        moment := if m.Some? && binSize.Some? then Some((m.value / (binSize.value * 1000)) * binSize.value * 1000) else None;
        datetime := Written(moment);
      } else {
        notices := notices + 1;
      }
    }

    /**
     * `navigator`: write the moment one bin ahead or behind into the date field, then `update`. From
     * an undefined moment the field gets text that does not parse, so `update` falls back on `begin`.
     */
    method Navigator(isForward: bool)
      requires Valid()
      modifies this`moment, this`datetime, this`notices
      ensures Valid()
      ensures isCongestionGraph && old(moment).Some? && binSize.Some? ==>
                moment == Some(Navigate(old(moment).value, binSize.value, isForward))
      ensures isCongestionGraph && !(old(moment).Some? && binSize.Some?) ==>
                moment == SnapOpt(begin, binSize)
      ensures isCongestionGraph ==> datetime == Written(moment) && notices == old(notices)
      ensures isCongestionGraph && old(moment).Some? && binSize.Some? && binSize.value % 60 == 0
              && Aligned(old(moment).value, binSize.value * 1000) ==>
                moment == Some(Step(old(moment).value, binSize.value, isForward))
      ensures !isCongestionGraph ==>
                && moment == old(moment)
                && datetime == Written(StepOpt(old(moment), binSize, isForward))
                && notices == old(notices) + 1
    {
      var m := if moment.Some? && binSize.Some? then Some(if isForward then moment.value + binSize.value * 1000 else moment.value - binSize.value * 1000) else None;
      datetime := Written(m);
      Update();
      if isCongestionGraph && old(moment).Some? && binSize.Some? && binSize.value % 60 == 0 && Aligned(old(moment).value, binSize.value * 1000) {
        NavigateRoundTrip(old(moment).value, binSize.value);
      }
    }

    /** Shift+Enter: flip the inference display, then `update`. */
    method ToggleInference()
      requires Valid()
      modifies this`showInferenceResult, this`moment, this`datetime, this`notices
      ensures Valid()
      ensures showInferenceResult == !old(showInferenceResult)
      ensures isCongestionGraph ==>
                && moment == SnapOpt(if old(datetime).Some? then old(datetime) else begin, binSize)
                && datetime == Written(moment)
                && notices == old(notices)
      ensures !isCongestionGraph ==>
                moment == old(moment) && datetime == old(datetime) && notices == old(notices) + 1
    {
      showInferenceResult := if showInferenceResult then false else true;
      Update();
    }

    /**
     * The keydown handler: with Shift, Enter flips the inference display and the arrows step in time.
     * A plain Enter runs `plot`: with the opened file still selected that is `update`; with another
     * file it asks for that file to be read and loaded (reported in `replot`); with none it does nothing.
     */
    method KeyDown(shiftKey: bool, keyCode: int, selected: Selection) returns (replot: bool)
      requires Valid()
      modifies this`showInferenceResult, this`moment, this`datetime, this`notices
      ensures Valid()
      ensures replot <==> !shiftKey && keyCode == ENTER && selected == OtherFile
      ensures showInferenceResult == (if shiftKey && keyCode == ENTER then !old(showInferenceResult) else old(showInferenceResult))
      ensures keyCode == ENTER && (shiftKey || selected == OpenedFile) ==>
                && (isCongestionGraph ==>
                      && moment == SnapOpt(if old(datetime).Some? then old(datetime) else begin, binSize)
                      && datetime == Written(moment)
                      && notices == old(notices))
                && (!isCongestionGraph ==>
                      moment == old(moment) && datetime == old(datetime) && notices == old(notices) + 1)
      ensures shiftKey && (keyCode == RIGHT || keyCode == LEFT) && isCongestionGraph && old(moment).Some? && binSize.Some? ==>
                moment == Some(Navigate(old(moment).value, binSize.value, keyCode == RIGHT))
      ensures shiftKey && (keyCode == RIGHT || keyCode == LEFT) && isCongestionGraph && !(old(moment).Some? && binSize.Some?) ==>
                moment == SnapOpt(begin, binSize)
      ensures shiftKey && (keyCode == RIGHT || keyCode == LEFT) && isCongestionGraph ==>
                datetime == Written(moment) && notices == old(notices)
      ensures shiftKey && (keyCode == RIGHT || keyCode == LEFT) && !isCongestionGraph ==>
                && moment == old(moment)
                && datetime == Written(StepOpt(old(moment), binSize, keyCode == RIGHT))
                && notices == old(notices) + 1
      ensures !(shiftKey && (keyCode == ENTER || keyCode == RIGHT || keyCode == LEFT)) && !(keyCode == ENTER && selected == OpenedFile) ==>
                moment == old(moment) && datetime == old(datetime) && notices == old(notices)
    {
      replot := false;
      if shiftKey {
        if keyCode == ENTER {
          ToggleInference();
        } else if keyCode == RIGHT {
          Navigator(true);
        } else if keyCode == LEFT {
          Navigator(false);
        }
      } else if keyCode == ENTER {
        if selected == OpenedFile {
          Update();
        } else if selected == OtherFile {
          replot := true;
        }
      }
    }

    /**
     * `showPath`, on a click on circle `i`: a node without `hosting` changes nothing; otherwise its
     * flag flips, and every line crossed by one of its hosted probes takes the node's new flag while
     * all other lines keep theirs.
     */
    method ShowPath(i: nat)
      requires Valid() && i < |nodes|
      modifies this`nodeShowPath, this`lineShowPath
      ensures Valid()
      ensures nodes[i].hosting.None? ==> nodeShowPath == old(nodeShowPath) && lineShowPath == old(lineShowPath)
      ensures nodes[i].hosting.Some? ==>
                && nodeShowPath == old(nodeShowPath)[i := !old(nodeShowPath)[i]]
                && |lineShowPath| == |links|
                && forall j :: 0 <= j < |links| ==>
                     lineShowPath[j] == if SharesProbe(links[j].probe, nodes[i].hosting.value)
                                        then nodeShowPath[i] else old(lineShowPath)[j]
    {
      if nodes[i].hosting.Some? {
        var pb := nodes[i].hosting.value;
        var on := !nodeShowPath[i];
        nodeShowPath := nodeShowPath[i := on];
        var j := 0;
        while j < |links|
          invariant 0 <= j <= |links| && |lineShowPath| == |links|
          invariant nodeShowPath == old(nodeShowPath)[i := on]
          invariant forall j' :: 0 <= j' < j ==>
                      lineShowPath[j'] == if SharesProbe(links[j'].probe, pb) then on else old(lineShowPath)[j']
          invariant forall j' :: j <= j' < |links| ==> lineShowPath[j'] == old(lineShowPath)[j']
        {
          var k := 0;
          while k < |pb|
            invariant 0 <= k <= |pb|
            invariant forall k' :: 0 <= k' < k ==> pb[k'] !in links[j].probe
          {
            if pb[k] in links[j].probe {
              lineShowPath := lineShowPath[j := on];
              break;
            }
            k := k + 1;
          }
          j := j + 1;
        }
      }
    }

    /**
     * The reference value of `series` at the moment: the exact-match sample on a congestion graph
     * with a defined moment, NA otherwise.
     */
    function AtMoment<V>(series: seq<Sample<V>>): Lookup<V>
      reads this
    {
      if isCongestionGraph && moment.Some? then ValueAt(series, moment.value) else NA
    }

    /**
     * `congestion`: the congestion level of a line at the moment, NA on a plain graph. With a `NaN`
     * moment every comparison of the search is false, so it narrows to nothing and gives NA.
     */
    method Congestion(series: seq<Sample<real>>) returns (level: Lookup<real>)
      ensures !(isCongestionGraph && moment.Some?) ==> level == NA
      ensures isCongestionGraph && moment.Some? ==> Answers(series, moment.value, level)
      ensures StrictlySorted(series) ==> level == AtMoment(series)
    {
      if isCongestionGraph && moment.Some? {
        level := DatetimeSearch(series, moment.value);
      } else {
        level := NA;
      }
    }

    /** `inference`: the inference result of a circle or line at the moment, NA on a plain graph. */
    method Inference(series: seq<Sample<bool>>) returns (res: Lookup<bool>)
      ensures !(isCongestionGraph && moment.Some?) ==> res == NA
      ensures isCongestionGraph && moment.Some? ==> Answers(series, moment.value, res)
      ensures StrictlySorted(series) ==> res == AtMoment(series)
    {
      if isCongestionGraph && moment.Some? {
        res := DatetimeSearch(series, moment.value);
      } else {
        res := NA;
      }
    }

    /** The style a line with sorted series gets in the current state. */
    function LinkStyleOf(j: nat): LinkStyle
      reads this
      requires Valid() && j < |links|
    {
      var l := links[j];
      var level := AtMoment(l.congestion);
      LinkStyle(LinkColor(isCongestionGraph, showInferenceResult, level, AtMoment(l.inference), lineShowPath[j]),
                LinkWidth(lineShowPath[j], |l.probe|),
                LinkOpacity(lineShowPath[j], isCongestionGraph, level, |l.probe|))
    }

    /** The style a circle with a sorted series gets in the current state. */
    function NodeStyleOf(i: nat): NodeStyle
      reads this
      requires Valid() && i < |nodes|
    {
      NodeStyle(NodeColor(nodes[i].tag, nodeShowPath[i]),
                NodeBorder(isCongestionGraph, showInferenceResult, AtMoment(nodes[i].inference)))
    }

    /** Resolve the attributes of line `j`: look up its level and inference, then apply the resolvers. */
    method ResolveLink(j: nat) returns (s: LinkStyle)
      requires Valid() && j < |links|
      ensures s.width == LinkWidth(lineShowPath[j], |links[j].probe|)
      ensures !isCongestionGraph ==> s == LinkStyleOf(j)
      ensures StrictlySorted(links[j].congestion) && StrictlySorted(links[j].inference) ==> s == LinkStyleOf(j)
      ensures isCongestionGraph && moment.Some? ==>
                exists level, res ::
                  && Answers(links[j].congestion, moment.value, level)
                  && Answers(links[j].inference, moment.value, res)
                  && s.stroke == LinkColor(isCongestionGraph, showInferenceResult, level, res, lineShowPath[j])
                  && s.opacity == LinkOpacity(lineShowPath[j], isCongestionGraph, level, |links[j].probe|)
    {
      var l := links[j];
      var level := Congestion(l.congestion);
      var res := Inference(l.inference);
      s := LinkStyle(LinkColor(isCongestionGraph, showInferenceResult, level, res, lineShowPath[j]),
                     LinkWidth(lineShowPath[j], |l.probe|),
                     LinkOpacity(lineShowPath[j], isCongestionGraph, level, |l.probe|));
    }

    /** Resolve the attributes of circle `i`. */
    method ResolveNode(i: nat) returns (s: NodeStyle)
      requires Valid() && i < |nodes|
      ensures s.fill == NodeColor(nodes[i].tag, nodeShowPath[i])
      ensures StrictlySorted(nodes[i].inference) ==> s == NodeStyleOf(i)
    {
      var res := Inference(nodes[i].inference);
      s := NodeStyle(NodeColor(nodes[i].tag, nodeShowPath[i]),
                     NodeBorder(isCongestionGraph, showInferenceResult, res));
    }
  }

  /**
   * Loading a congestion file with a 300 s bin that begins at 1000000 s puts the moment at
   * 999900000 ms, the start of the bin holding the begin time; a sample stamped 1000000 s is then
   * not found, because the lookup wants an exact match.
   */
  method LoadExample()
  {
    var v := new ViewState(None);
    var series := [Sample(1000000, 0.5)];
    var link := Link([1], series, []);
    var data := LoadedData(Some(true), GraphMeta(Some(300), Some(1000000), None), [], [link]);
    v.Init(data);
    BeginBin(v.moment);
    var level := v.Congestion(series);
    assert ValueAt(series, v.moment.value) == NA;
    assert level == NA;
    var style := v.ResolveLink(0);
    assert style.stroke == GRAY;
  }

  /**
   * Shift+Right on a plain graph before any congestion file is loaded steps an undefined moment:
   * the date field gets text that does not parse, so loading a congestion file afterwards starts
   * the clock at the bin of its `congestion_begin`.
   */
  method NavigateBeforeLoadExample()
  {
    var v := new ViewState(None);
    v.Init(LoadedData(None, GraphMeta(None, None, None), [], []));
    var replot := v.KeyDown(true, RIGHT, NoFile);
    assert !replot && v.datetime.None? && v.notices == 1;
    v.Init(LoadedData(Some(true), GraphMeta(Some(300), Some(1000000), None), [], []));
    BeginBin(v.moment);
    assert v.begin == Some(1000000000);
  }

  /** The one aligned moment within a 300 s bin below 1000000 s. */
  lemma BeginBin(m: Option<int>)
    requires m.Some? && Aligned(m.value, 300000) && m.value <= 1000000000 < m.value + 300000
    ensures m == Some(999900000)
  {
    var q := m.value / 300000;
    assert m.value == q * 300000;
  }
}
