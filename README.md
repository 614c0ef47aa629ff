# as_topo core, modelled in Dafny

as_topo builds AS-level topologies from traceroute AS paths and shows them in a browser. Over
time it also shows how congested each link is. This project models four parts of it:

- **Path worker** (`as_graph.py`, `worker`). It filters each probe's AS paths: keep at most 300,
  keep only those that reach AS 226, and remove junk hops. It then collects the source, IXP and
  destination sets, adds the paths to a graph (module `AsGraph`), turns each edge's probe set into
  a list, and gives every node a `termination` role in 1..4.
- **Graph helpers** (`tracegraph.py`). `path_to_graph` tags consecutive-hop edges with a probe.
  `compose_modify` and `compose_all_modify` merge graphs, taking the union of the edge attribute
  sets. `node_link_data_modify` numbers the nodes 0..n-1 and rewrites link endpoints to those
  numbers (module `TraceGraph`). A networkx graph is a `class Graph` with a node map and an edge map.
- **Congestion aggregation** (`congestion.py`, `main` lines 86-137). It builds the probe-to-link
  index, bins the change-detection values that fall inside [begin, stop] by 600 s, and adds each one
  to every link the probe crosses. It then writes one series per link, sorted by epoch and divided by
  the link's probe count, together with the metadata fields (module `Congestion`).
- **Viewer state** (`js_lib/vis.js`). The `moment` clock is set up by `init`, snapped by `update` and
  stepped by `navigator`. The keyboard handler toggles the inference display. `showPath` sets the
  highlight flags of circles and lines. `datetimeSearch` is the exact-match binary search over
  `{epoch, value}` samples (modules `View` and `TimeSeries`). The five style resolvers are pure case
  analyses (module `Attributes`).

Shared pieces:

- `Wrappers` holds `Option`, `Result` and the probe id type.
- `Bins` holds flooring to a bin (`Math.floor(m / b) * b` in JavaScript, `(t // b) * b` in Python).
  It is used by both the viewer and the aggregation.

The aggregation's output series are proved strictly sorted by epoch (`Congestion.Series`). That is
the precondition under which `TimeSeries.DatetimeSearch` is proved exact.

Where the comments or documentation of the system disagree with its code, the model follows the code:

- `datetimeSearch` wants an exact match. It does not return the latest sample at or before the
  moment.
- Loading a congestion file whose bin is 300 s and whose `congestion_begin` is 1000000 s puts the
  moment at 999900000 ms. This is the start of the bin that holds the begin time. A sample stamped
  1000000 s is then not found, and the link is drawn gray. The method `View.LoadExample` runs this
  file through `Init`, `Congestion` and `ResolveLink`. It has no contract and is not listed below.
- The globals `moment`, `bin_size`, `begin` and `end` start out undefined, and arithmetic on
  undefined gives `NaN`. Shift+Right on a plain graph before any congestion file is loaded writes
  such a step into the date field as text that does not parse. A congestion file loaded afterwards
  therefore starts its clock at the bin of its `congestion_begin`. The method
  `View.NavigateBeforeLoadExample` runs this sequence (with the lemma `View.BeginBin`).
- The `show-path` class is a plain boolean per circle and per line. One click can therefore clear a
  line that another highlighted node also covers.

## Model

| member | source | states |
|---|---|---|
| Bins.Snap | js_lib/vis.js:217 | the snapped value is a multiple of the bin, at most the input and less than one bin below it |
| Bins.SnapAligned | js_lib/vis.js:217 | snapping an aligned value leaves it unchanged |
| Bins.SnapIdempotent | congestion.py:115 | snapping twice is snapping once |
| Bins.MultipleIsAligned | js_lib/vis.js:96 | a multiple of the bin width is aligned to it |
| TimeSeries.ValueAtIsMatch | js_lib/vis.js:242-259 | the reference lookup is NA exactly when no sample is stamped at the instant; a found value belongs to a sample stamped there |
| TimeSeries.ValueAtSorted | js_lib/vis.js:244-258 | on a strictly sorted series the sample stamped at the instant is unique, and the reference lookup returns its value |
| TimeSeries.DatetimeSearch | js_lib/vis.js:242-259 | the search terminates; for any order of samples, a found value belongs to a sample whose epoch times 1000 is the instant; on a strictly sorted series it equals the reference lookup, so it finds every stored value; an empty series gives NA |
| Attributes.Role | js_lib/vis.js:24-28 | the legend role is in 1..4, with destination (3) over ixp (2) over source (1) over other (4), each as an if-and-only-if on the tags |
| Attributes.NodeColor | js_lib/vis.js:327-341 | a highlighted node is #4a1486, exactly then; otherwise the legend colour of its role |
| Attributes.InferenceColor | js_lib/vis.js:375-379 | #810f7c exactly for a true inference, #74c476 otherwise |
| Attributes.NodeBorder | js_lib/vis.js:401-413 | white exactly when the graph is not a congestion graph or inference mode is off; otherwise the inference colour |
| Attributes.LinkColor | js_lib/vis.js:369-399 | in inference mode on a congestion graph, the inference colour; else on a congestion graph, red of the level exactly when the level is above 0.1, and gray otherwise; on a plain graph, #e34a31 exactly when highlighted, and gray otherwise |
| Attributes.LinkOpacity | js_lib/vis.js:343-359 | 0.9 when highlighted; otherwise, on a congestion graph, 0.6 exactly when the level is above 0.1 (NA counts as below); on a plain graph, 0.6 exactly when there are more than 30 probes; 0.1 in every other case |
| Attributes.LinkWidth | js_lib/vis.js:361-367 | the factor on the root of the probe count is 6 exactly when highlighted and 2 exactly when not |
| Attributes.NodeColorDistinguishesRoles | js_lib/vis.js:26-28 | two unhighlighted nodes have the same fill exactly when their roles agree |
| Attributes.DestinationWins | js_lib/vis.js:329-330 | a destination tag makes the fill #e41a1c, whatever other tags come before or after it |
| Attributes.NodeColorOnlyReadsRoleTags | js_lib/vis.js:327-341 | tags other than 1, 2 and 3 do not change the fill |
| Attributes.InferenceModeMatchesBorder | js_lib/vis.js:372-379 | in inference mode on a congestion graph a line's colour is its border colour rule, whatever its level or highlight |
| Attributes.CongestionColorIgnoresPath | js_lib/vis.js:370-388 | on a congestion graph a line's colour does not depend on its highlight |
| Attributes.HighlightTriplesWidth | js_lib/vis.js:361-367 | a highlighted line is three times as wide as the same line unhighlighted |
| Attributes.PlainOpacityBoundary | js_lib/vis.js:356 | the probe threshold is strict: 31 probes give 0.6, 30 give 0.1 |
| View.Reformat | js_lib/vis.js:30-31 | writing an instant into the date field and parsing it back gives the start of its minute |
| View.Step | js_lib/vis.js:237 | the proposed instant is exactly one bin after, or one bin before, the moment |
| View.WholeMinuteBins | js_lib/vis.js:217-218 | a moment aligned to a bin of whole minutes is aligned to the minute, so the date field keeps it |
| View.NavigateRoundTrip | js_lib/vis.js:236-240 | with bins of whole minutes, from an aligned moment a forward step moves exactly one bin ahead, a backward step exactly one bin back, and forward then back restores the moment |
| View.NeighbourAligned | js_lib/vis.js:237 | one bin after or before an aligned value is aligned again |
| View.NavigateAligned | js_lib/vis.js:236-240 | with bins of whole minutes, writing an aligned instant into the date field and snapping it again gives back the instant |
| View.SubMinuteBinStalls | js_lib/vis.js:236-240 | with a 30 s bin a forward step from 60000 ms leaves the moment at 60000 ms |
| View.SnapOpt | js_lib/vis.js:217 | snapping a defined instant by a defined bin gives the start of its bin; an undefined operand gives an undefined result |
| View.Written | js_lib/vis.js:218 | the date field parses back to the minute of a defined moment, and does not parse after an undefined one was written |
| View.StepOpt | js_lib/vis.js:237 | the proposal is one bin after or before a defined moment, and undefined when the moment or the bin is |
| View.ViewState.constructor | js_lib/vis.js:33 | no data is loaded, no flags are set, the page is not a congestion graph, and `moment`, `bin_size`, `begin` and `end` are undefined |
| View.ViewState.EditDatetime | js_lib/vis.js:215 | the date field afterwards parses to the given value |
| View.ViewState.Init | js_lib/vis.js:72-101 | the flags of every circle and line are cleared; the page is a congestion graph exactly when the file says `congestion` is true; bin size, begin and end are taken from the file when present and kept otherwise; when the date field does not parse, the moment is the start of the bin that holds `congestion_begin` (undefined without a begin or a bin), and it is written back; inference mode is off |
| View.ViewState.NoneShown | js_lib/vis.js:127-162 | the lines and circles are created without the `show-path` class: one flag per element, all off |
| View.ViewState.LoadElements | js_lib/vis.js:70-101 | the nodes and links are those of the file with every flag cleared, the graph kind is read from `congestion` (absent means false), and inference mode is off |
| View.ViewState.SetClock | js_lib/vis.js:79-99 | on a congestion graph bin size, begin and end are taken from the file when present, and a defined bin stays positive; a date field that does not parse makes the moment the start of the bin holding `congestion_begin`, written back; otherwise moment and date field are unchanged |
| View.ViewState.InitialMoment | js_lib/vis.js:96 | the initial moment is defined exactly when `congestion_begin` and the bin are, and is then aligned, no later than the begin and less than one bin before it |
| View.ViewState.FloorToBin | js_lib/vis.js:96 | flooring `congestion_begin` to the bin, in milliseconds, gives an aligned value no later than the begin and less than one bin before it |
| View.ViewState.Update | js_lib/vis.js:213-234 | on a congestion graph the moment becomes the snap of the parsed date, or of `begin` when it does not parse (undefined when that or the bin is), and is written back; on any other graph nothing changes but one notice |
| View.ViewState.Navigator | js_lib/vis.js:236-240 | on a congestion graph the moment is the re-snapped step, and exactly one bin away when bins are whole minutes and the moment is aligned; from an undefined moment or bin it is the snap of `begin`; on any other graph the moment is unchanged, the date field shows the step (and does not parse when the step is undefined), and one notice is raised |
| View.ViewState.ToggleInference | js_lib/vis.js:421-424 | inference mode flips (so two presses restore it), then the moment is updated as by `update` |
| View.ViewState.KeyDown | js_lib/vis.js:417-437 | a file is read exactly on a plain Enter with another file selected; Shift+Enter flips inference mode and nothing else does; Shift+Enter, and a plain Enter with the opened file still selected, act as `update`; Shift+arrow acts as `navigator`: on a congestion graph the moment is the re-snapped step (the snap of `begin` from an undefined moment or bin), written back, with no notice, and on a plain graph one notice is raised; any other key changes neither the moment, the date field nor the notices |
| View.ViewState.ShowPath | js_lib/vis.js:271-309 | a node without `hosting` changes nothing; otherwise its flag flips, every line that shares a probe with `hosting` takes the new flag, and every other line keeps its own |
| View.ViewState.Congestion | js_lib/vis.js:311-317 | NA on a plain graph or with an undefined moment; otherwise an acceptable lookup of the moment, equal to the reference value on a sorted series |
| View.ViewState.Inference | js_lib/vis.js:319-325 | NA on a plain graph or with an undefined moment; otherwise an acceptable lookup of the moment, equal to the reference value on a sorted series |
| View.ViewState.ResolveLink | js_lib/vis.js:220-225 | a line's width follows its highlight and probe count; its style is the resolvers applied to the reference values at the moment on a plain graph or when its series are sorted; on a congestion graph with a defined moment, its stroke and opacity are the resolvers applied to acceptable lookups of its series, whatever their order |
| View.ViewState.ResolveNode | js_lib/vis.js:227-230 | a circle's fill follows its tags and highlight; with a sorted inference series its border is the resolver applied to the reference value |
| Congestion.BinOf | congestion.py:115 | the bin of a timestamp is a multiple of 600, at most the timestamp and less than 600 below it |
| Congestion.CountPositive | congestion.py:96 | a probe occurs in a list exactly when its count there is positive |
| Congestion.RepeatCounts | congestion.py:97 | appending a link once per occurrence adds that link exactly that many times |
| Congestion.LinksOfCounts | congestion.py:93-97 | in the reference index a link occurs exactly as often as the probe occurs in its probe list, and no other index occurs |
| Congestion.LinksOfMembers | congestion.py:93-97 | a link is listed for a probe exactly when the probe is on that link |
| Congestion.BuildIndex | congestion.py:91-97 | after the index loop, every probe's list is the reference index, no list is empty, and each link starts with an empty accumulator |
| Congestion.IndexEdge | congestion.py:96-97 | the inner loop appends the link once per occurrence of each of its probes, so the index covers one more link, and no list is empty |
| Congestion.IndexBounded | congestion.py:97 | every index in the probe-to-link map names an existing link |
| Congestion.EntryChanges | congestion.py:112-113 | a probe without a record gives no change; otherwise its epochs and values are paired position by position and cut to the shorter list |
| Congestion.AddToBinEffect | congestion.py:117 | adding to one bin of one link changes that bin by the value and creates it if missing, and touches nothing else |
| Congestion.AddToLinksValue | congestion.py:116-117 | adding to the links of a probe raises a link's bin by the value times the number of times that link is listed, and leaves every other bin as it was |
| Congestion.AddToLinksKeys | congestion.py:116-117 | adding to the links of a probe creates that bin on exactly the listed links, and no other bin |
| Congestion.ApplyAllValue | congestion.py:99-117 | after all changes, a link's bin holds its old value plus the sum of `v` times the multiplicity of the change's probe on the link, over changes inside [begin, stop] whose timestamp falls in that bin |
| Congestion.ApplyAllKeys | congestion.py:113-117 | a link has a bin after all changes exactly when it had it or some change of one of its probes landed there inside the window |
| Congestion.ApplyAllAppend | congestion.py:100-117 | processing files one after another is processing their changes together |
| Congestion.AddChange | congestion.py:116-117 | the loop adds the value to the given bin of each listed link, as the reference does |
| Congestion.AccumulateEntry | congestion.py:112-117 | the loop over one probe's samples gives the reference accumulation of its changes |
| Congestion.AccumulateFile | congestion.py:109-117 | the loop over a file's probes gives the reference accumulation of the file's changes |
| Congestion.Accumulate | congestion.py:99-117 | the loop over the files gives the reference accumulation of all changes |
| Congestion.HasLeast | congestion.py:126 | a non-empty set of bins has a least element |
| Congestion.SortedKeys | congestion.py:126 | the bins are listed strictly ascending, each exactly once |
| Congestion.Series | congestion.py:121-126 | a link's series is strictly sorted by epoch; each sample is one of its bins divided by its probe count; every bin appears |
| Congestion.LandedBinsInRange | congestion.py:114-115 | a bin that received a value is a multiple of 600 between the bin of `begin` and `stop` |
| Congestion.LinkSeriesCorrect | congestion.py:93-126 | a link's series holds exactly the bins that a change of one of its probes reached, each with its total divided by the probe count |
| Congestion.OutLinkCorrect | congestion.py:121-126 | the output link of a link with probes keeps its endpoints and probes and carries its correct series |
| Congestion.Without | congestion.py:134-137 | the remaining attributes are exactly those whose key is not replaced, each with its own value |
| Congestion.NodeOut | congestion.py:136 | an output node has the node's id as `id` and keeps every other attribute with its value |
| Congestion.Aggregate | congestion.py:86-137 | it fails exactly when some link has no probe, naming such a link; otherwise the output is marked as congestion, keeps the `directed` and `multigraph` flags, its metadata are begin, stop, the method name and 600 with every other graph attribute kept, each node keeps its id and attributes, and every link keeps its endpoints, probes and other attributes with its correct sorted series |
| Congestion.Normalise | congestion.py:121-126 | the normalisation loop fails exactly when some link has no probe, naming such a link; otherwise it gives one output link per link, each with its correct series |
| Congestion.NormaliseLink | congestion.py:122-124 | one step of that loop gives the correct output link of a link with probes |
| TraceGraph.Graph.constructor | tracegraph.py:81 | a new graph has no nodes and no edges |
| TraceGraph.Graph.AddNode | tracegraph.py:85 | the node's attributes are updated with the given ones, or set when it is new |
| TraceGraph.Graph.AddEdge | tracegraph.py:19 | missing endpoints are added, and the edge's attributes are updated with the given ones |
| TraceGraph.Graph.PathToGraph | tracegraph.py:8-20 | the graph becomes the reference fold over all consecutive hop pairs of all paths, each pair an edge whose probe set gains the probe |
| TraceGraph.Graph.AddPairTo | tracegraph.py:18-20 | one pair creates its edge with an empty probe set when missing, then adds the probe, as the reference step does |
| TraceGraph.Graph.AddPathTo | tracegraph.py:17-20 | the inner loop adds the consecutive pairs of one path, as the reference fold does |
| TraceGraph.AddPathSnoc | tracegraph.py:17 | a path one hop longer adds just its last pair more |
| TraceGraph.WithNode | tracegraph.py:19 | adding an endpoint keeps every node and its attributes, and a new endpoint has none |
| TraceGraph.EdgeUpdated | tracegraph.py:18-20 | rewriting one edge so that its probe set gains the probe, with its other attributes kept or none when new, adds just that edge |
| TraceGraph.AddPaths | tracegraph.py:16-20 | adding paths keeps every edge tagged with a probe set, keeps every edge's endpoints among the nodes, and keeps the multigraph flag |
| TraceGraph.AddPathsEffect | tracegraph.py:16-20 | the pairs of the paths are the only new edges, their hops the only new nodes; each such edge's probe set gains the probe; no other edge, node or attribute changes |
| TraceGraph.AllPairsMembers | tracegraph.py:17 | each consecutive hop pair of each path is one of the paths' pairs |
| TraceGraph.PathPairsCarryProbe | tracegraph.py:16-20 | after adding the paths, every consecutive hop pair is an edge whose probe set contains the probe |
| TraceGraph.ShortPathsAddNothing | tracegraph.py:17 | paths of at most one hop leave the graph unchanged |
| TraceGraph.UnionAttrs | tracegraph.py:90-94 | every attribute of either edge is present, and holds the union of the two values as a set |
| TraceGraph.Compose | tracegraph.py:78-79 | merging succeeds exactly when neither graph is a multigraph, and the result is not a multigraph |
| TraceGraph.ComposeNodes | tracegraph.py:83-85 | the merged nodes are those of both graphs; a node of both has the first graph's attributes updated by the second's; a node of one keeps its attributes |
| TraceGraph.ComposeEdges | tracegraph.py:87-97 | the merged edges are those of both graphs; each attribute of an edge holds the union of both graphs' values; an edge of only one graph keeps that graph's attributes |
| TraceGraph.ComposeClosed | tracegraph.py:83-97 | every merged edge has both endpoints among the merged nodes |
| TraceGraph.MergeEdgeInto | tracegraph.py:89-97 | a present edge takes the union of its attributes and the new ones; a new edge takes the new ones |
| TraceGraph.AddNodesOf | tracegraph.py:83-85 | the loop adds the nodes of one graph as the reference merge does |
| TraceGraph.AddEdgesOf | tracegraph.py:87-97 | the loop adds the edges of one graph as the reference merge does |
| TraceGraph.ComposeModify | tracegraph.py:66-99 | it fails exactly when either graph is a multigraph; otherwise it returns a new graph whose value is the reference merge |
| TraceGraph.MergeIntoEmpty | tracegraph.py:81-97 | merging into an empty graph copies the nodes and edges |
| TraceGraph.EndpointsMerged | tracegraph.py:83-97 | the endpoints of every edge of either graph are merged nodes |
| TraceGraph.ComposeAllFails | tracegraph.py:102-115 | merging a list fails exactly on an empty list, or on two or more graphs one of which is a multigraph; a merge of two or more is not a multigraph |
| TraceGraph.ComposeAllUnion | tracegraph.py:111-115 | the merged graph has exactly the edges and nodes that some graph has; each edge attribute holds the union over all graphs |
| TraceGraph.ComposeAllPrefixFails | tracegraph.py:113-114 | once merging a prefix fails, merging the whole list fails |
| TraceGraph.ComposeAll | tracegraph.py:102-115 | the loop fails exactly when the reference left fold fails, otherwise returns a graph with its value; a one-element list returns that very graph |
| TraceGraph.ComposeAllStep | tracegraph.py:113-114 | one more graph in the list is one more merge on the merge of the prefix |
| TraceGraph.NodeLinkData | tracegraph.py:23-63 | it fails exactly when source, target and key names are not pairwise distinct; otherwise the output is undirected and keeps the multigraph flag; node i has name its node and id i; each link's source and target are positions of its endpoints, whose names are those endpoints; all other attributes are kept |
| TraceGraph.NodeRecords | tracegraph.py:50 | node record i holds its node as name, i as id (unless id and name coincide), and exactly the other attributes of the node |
| TraceGraph.LinkRecords | tracegraph.py:58-61 | link record j is edge j's attributes with source and target set to the positions of its endpoints |
| TraceGraph.LinksDumped | tracegraph.py:45-61 | with distinct source and target names, every link record names positions of its endpoints whose node records are named by those endpoints, and keeps the edge's other attributes |
| AsGraph.CleanPath | as_graph.py:28 | the cleaned path holds exactly the hops of the path that are not junk |
| AsGraph.KeptPathsAre | as_graph.py:28 | there are as many kept paths as paths that contain AS 226; a path is kept exactly when it is the cleaned form of such a path; kept paths contain AS 226 and no junk hop |
| AsGraph.KeptPathsBounded | as_graph.py:28 | at most 300 paths of a probe are kept |
| AsGraph.BuildGraph | as_graph.py:22-39 | the graph built from the probes has probe sets on its edges, edges between its nodes, and is not a multigraph |
| AsGraph.Termination | as_graph.py:46-54 | the role is in 1..4: 1 exactly for a source, 2 exactly for a non-source IXP, 3 exactly for any other destination |
| AsGraph.NoKeptPathNoEffect | as_graph.py:29-39 | a probe with no kept path changes neither the graph nor the source and IXP sets |
| AsGraph.BuiltNodesClean | as_graph.py:28-39 | no node of the built graph is a junk hop |
| AsGraph.HopsFromKept | as_graph.py:39 | hops added from junk-free paths are not junk |
| AsGraph.ListOf | as_graph.py:44 | the list made from a probe set has no duplicate and holds exactly the set's probes |
| AsGraph.PathRolesSnoc | as_graph.py:32-38 | each later hop adds itself to the IXPs exactly when it is a name; only the first hop is a source |
| AsGraph.PathRoles | as_graph.py:30-38 | the loop adds the first hop to the sources and later name hops to the IXPs, and never changes the destinations |
| AsGraph.PathsRoles | as_graph.py:30-38 | the loop over the kept paths adds their sources and IXPs and never changes the destinations |
| AsGraph.ListProbes | as_graph.py:43-44 | the nodes are unchanged and every edge's probe set becomes a duplicate-free list of the same probes |
| AsGraph.ListEdges | as_graph.py:43-44 | the loop keeps the edges, and rewrites each probe set as a duplicate-free list of the same probes, keeping the other attributes |
| AsGraph.ListedStep | as_graph.py:44 | a duplicate-free list of a set's members holds the same probes |
| AsGraph.ClosedSameKeys | as_graph.py:43-44 | rewriting edge attributes keeps every edge's endpoints among the nodes |
| AsGraph.Terminate | as_graph.py:46-54 | the edges are unchanged and every node gains its `termination` by priority |
| AsGraph.Worker | as_graph.py:22-55 | the result is not a multigraph; its nodes are those of the built graph, each with `termination` set by priority from the sources, the IXPs and {226}; each edge holds its probes as a duplicate-free list |

## Left out

- The d3 and DOM glue of `js_lib/vis.js` is not modelled: the SVG, the force layout, dragging,
  tooltips, radius changes and attribute caching. The style of a line or circle is recomputed from
  the state (`View.ViewState.ResolveLink`, `View.ViewState.ResolveNode`), which matches the code
  because it recomputes the cached attributes whenever the moment changes.
- Reading files through `FileReader` in `plot` and the Blob download in `saveLink` are I/O.
  `plot` is modelled inside `View.ViewState.KeyDown`. What the file input holds is a `Selection`
  parameter, not the file object `opened_f`. With the opened file still selected, `plot` runs
  `update`. With another file selected, the read is reported as `replot`, and the parsed file is
  then loaded by `View.ViewState.Init`. The root `vis.js` is a
  DOM-only duplicate and is not part of this model.
- `d3.interpolateReds` is left uninterpreted as `Reds(level)`. `Math.sqrt` is kept as a symbolic width
  `factor * sqrt(count)`.
- The date text field is modelled as what it parses to: an optional millisecond instant. Writing
  a moment into it and reading it back floors the moment to its minute. The text the user types is
  a parameter of `View.ViewState.EditDatetime`.
- Alerts are counted in `notices`. They are not shown.
- View.ViewState.Congestion: a congestion graph whose link has no `congestion` array makes the code
  throw. The model treats a missing array as an empty series; the same holds for `inference`.
- View.ViewState.Init: a congestion file whose `cpt_bin_size` is zero or negative is excluded
  (`CanLoad`). The code then divides by zero, or floors towards the other side of the quotient.
  A missing bin or begin is modelled: undefined and `NaN` are both `None`, and every operation on
  them gives `None`.
- `round(float(c) / pb_count, 3)` in `congestion.py` is exact real division in the model, without
  the rounding to three decimals.
- Argument parsing, directory listing, reading and writing JSON, logging and timing are not
  modelled. `timetools.string_to_epoch` is not part of this model: begin and stop are parameters
  of `Congestion.Aggregate`.
- Probe ids are integers. In the data they are JSON string keys, used the same way on both sides.
- A change file that is not valid JSON makes `json.load` raise an error that `main` does not catch.
  Only `IOError` is caught (`congestion.py:104-107`), so the whole run aborts. A file that cannot be
  opened is logged, and it then adds nothing, like an empty file. The model takes the parsed files
  only. It does not model the abort; an unreadable file is passed as an empty one.
- `Congestion.Aggregate` keeps the edges as a list. The index `pb2links` stores positions in that
  list instead of node pairs.
- Congestion.Aggregate: a topology link without a `probe` attribute makes `congestion.py:96` (and
  `:123`) raise `KeyError`, which aborts the run. `Edge` always carries a probe list, so that error
  path is not modelled. An empty probe list is modelled: it is the `EmptyProbeList` error of the
  assert at `:124`.
- Congestion.Aggregate: the topology's links are given as `edges_iter` reports them, in its order
  and orientation. For an undirected topology that orientation can be the reverse of the input
  file's. Attribute values are uninterpreted JSON text, copied but never read. A multigraph
  topology, whose `topo[u][v]` holds parallel edges, is not modelled; only its flag is carried to
  the output.
- Graphs use ordered edge keys. The model finds an edge exactly when it is looked up in the order it
  was stored, and a reversed pair is a separate edge. networkx stores undirected edges and reports
  each one in the orientation its adjacency dictionaries give, which depends on insertion and hash
  order. Its membership tests can therefore miss an existing edge, even one first added in the same
  order. At `tracegraph.py:18` a miss makes `g.add_edge(e[0], e[1], probe=set([]))` empty the
  edge's probe set before the probe is added. At `tracegraph.py:89` a miss takes `dd = d`, and
  `R.add_edge(src, tgt, d)` overwrites the edge's attributes with those of `d`, so the union is
  lost. The model reproduces neither the reset nor the overwrite.
- networkx 1.x `add_node(n, d)` keeps a reference to the caller's attribute dictionary, so later
  updates are shared between graphs. The model copies values.
- In `TraceGraph`, graph-level attributes (`G.graph`) and the directed flag are not modelled. Every
  graph there is undirected.
- Multigraph edge keys and parallel edges are not modelled. A multigraph is only a flag, which
  decides the error paths of `compose_modify` and `node_link_data_modify`.
- The order in which networkx yields nodes and edges is a parameter of `TraceGraph.NodeLinkData`.
  Elsewhere the elements are picked in an unspecified order, and the resulting maps do not depend
  on that order.
- TraceGraph.Graph.PathToGraph requires every edge of the graph to carry a probe set. The code fails
  with an exception on an edge without one, and that error path is not modelled.
- `main` of `as_graph.py`, its process pool and its file reading are not modelled. `worker` is a
  function of the already-parsed traceroute records. A file that cannot be read, for which `worker`
  returns an empty graph, is outside the model.
- The probe attribute of an edge is a set or a list. It is not a general attribute value: every
  edge attribute in these files holds probe ids.
