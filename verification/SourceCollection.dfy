/** Collecting line ranges for the source packet: from graph nodes, their implementation companions, a snippet, and related
    hits; then building the packet. */
module SourceCollection {
  import opened Options
  import opened Ordering
  import opened SourceSlices
  import opened SourcePacket

  /** A possible companion file: the numbers of its lines that name the declaration. */
  datatype Companion = Companion(path: string, isFile: bool, hits: seq<U32>)

  /** What the graph knows of a node; the companions are those that its file's extension suggests, in order. */
  datatype Details = Details(path: Option<string>, startLine: Option<U32>, endLine: Option<U32>, name: string, companions: seq<Companion>)

  datatype Node = Node(id: string, details: Option<Details>)

  datatype Snippet = Snippet(path: string, line: U32, requestedContext: U32, name: string)

  datatype Hit = Hit(rawPath: Option<string>, path: string, line: Option<U32>, name: string)

  datatype Collected = Collected(slices: map<string, seq<Slice>>, related: set<string>, seen: set<string>, companions: bool)

  function AtLeast(a: U32, b: U32): U32 {
    if b > a then b else a
  }

  function AtMost(a: U32, b: U32): U32 {
    if a > b then b else a
  }

  function Pushed(slices: map<string, seq<Slice>>, path: string, more: seq<Slice>): map<string, seq<Slice>> {
    slices[path := (if path in slices then slices[path] else []) + more]
  }

  function NodeSlice(start: U32, d: Details, budget: Budget): Slice {
    Slice(start, AtMost(if d.endLine.None? then start else d.endLine.value, SaturatingAdd(start, budget.maxLinesPerSlice)), d.name)
  }

  function SnippetSlice(s: Snippet, budget: Budget): Slice {
    var context := AtLeast(s.requestedContext, 1);
    var start := AtLeast(SaturatingSub(s.line, context), 1);
    Slice(start, AtMost(SaturatingAdd(s.line, context), SaturatingAdd(start, budget.maxLinesPerSlice)), s.name)
  }

  function HitSlice(line: U32, name: string, budget: Budget): Slice {
    Slice(AtLeast(SaturatingSub(line, 3), 1), SaturatingAdd(line, AtMost(budget.maxLinesPerSlice, 18)), "related hit " + name)
  }

  function CompanionSlice(line: U32, name: string, budget: Budget): Slice {
    Slice(AtLeast(SaturatingSub(line, 3), 1), SaturatingAdd(line, AtMost(budget.maxLinesPerSlice, 24)), "companion implementation for " + name)
  }

  /** `companion_source_slices`: the first two matching lines. */
  function CompanionSlices(hits: seq<U32>, name: string, budget: Budget): seq<Slice> {
    if hits == [] then []
    else if |hits| == 1 then [CompanionSlice(hits[0], name, budget)]
    else [CompanionSlice(hits[0], name, budget), CompanionSlice(hits[1], name, budget)]
  }

  /** `collect_declaration_companion_source`: the first companion that says something ends the search. */
  function CompanionCollected(c: Collected, companions: seq<Companion>, name: string, budget: Budget): Collected {
    if companions == [] then c
    else
      var first := companions[0];
      var found := CompanionSlices(first.hits, name, budget);
      if !first.isFile then CompanionCollected(c, companions[1..], name, budget)
      else if first.path in c.slices || |c.slices| >= budget.maxFiles then c.(related := c.related + {first.path})
      else if found == [] then CompanionCollected(c, companions[1..], name, budget)
      else c.(related := c.related + {first.path}, slices := Pushed(c.slices, first.path, found), companions := true)
  }

  /** `collect_source_slice_for_node`. */
  function NodeCollected(c: Collected, node: Node, budget: Budget): Collected {
    if node.id in c.seen then c
    else
      var seen := c.(seen := c.seen + {node.id});
      if node.details.None? || node.details.value.path.None? || node.details.value.startLine.None? then seen
      else
        var d := node.details.value;
        var path := d.path.value;
        var pushed := seen.(related := c.related + {path}, slices := Pushed(c.slices, path, [NodeSlice(d.startLine.value, d, budget)]));
        CompanionCollected(pushed, d.companions, d.name, budget)
  }

  function SnippetCollected(c: Collected, s: Snippet, budget: Budget): Collected {
    c.(related := c.related + {s.path}, slices := Pushed(c.slices, s.path, [SnippetSlice(s, budget)]))
  }

  /** One turn of `collect_symbol_related_source`, and whether it goes on. */
  function HitCollected(c: Collected, hit: Hit, budget: Budget): (Collected, bool) {
    if hit.rawPath.None? || hit.line.None? then (c, true)
    else if |c.slices| >= budget.maxFiles && hit.rawPath.value !in c.slices && hit.path !in c.slices then
      (c.(related := c.related + {hit.path}), true)
    else
      var slices := Pushed(c.slices, hit.path, [HitSlice(hit.line.value, hit.name, budget)]);
      (c.(related := c.related + {hit.path}, slices := slices), |slices| < budget.maxFiles)
  }

  function HitsCollected(c: Collected, hits: seq<Hit>, budget: Budget): Collected
    decreases |hits|
  {
    if hits == [] then c
    else
      var (next, more) := HitCollected(c, hits[0], budget);
      if more then HitsCollected(next, hits[1..], budget) else next
  }

  function NodesCollected(c: Collected, nodes: seq<Node>, budget: Budget): Collected
    decreases |nodes|
  {
    if nodes == [] then c
    else NodesCollected(NodeCollected(c, nodes[0], budget), nodes[1..], budget)
  }

  // ---------------------------------------------------------------- what collection keeps

  /** Every collected file is a related file and, with `ranged`, every collected range ends where it begins or later. */
  ghost predicate Sound(c: Collected, ranged: bool) {
    && c.slices.Keys <= c.related
    && (ranged ==> forall path :: path in c.slices ==> WellFormed(c.slices[path]))
  }

  ghost predicate NodeWellFormed(node: Node) {
    node.details.Some? && node.details.value.startLine.Some? && node.details.value.endLine.Some? ==>
      node.details.value.startLine.value <= node.details.value.endLine.value
  }

  lemma PushedIsSound(c: Collected, ranged: bool, path: string, more: seq<Slice>)
    requires Sound(c, ranged) && (ranged ==> WellFormed(more))
    ensures Sound(c.(related := c.related + {path}, slices := Pushed(c.slices, path, more)), ranged)
  {
    var slices := Pushed(c.slices, path, more);
    forall p | p in slices && ranged
      ensures WellFormed(slices[p])
    {
      if p == path {
        assert path in c.slices ==> WellFormed(c.slices[path]);
      }
    }
  }

  lemma {:induction false} CompanionIsSound(c: Collected, ranged: bool, companions: seq<Companion>, name: string, budget: Budget)
    requires Sound(c, ranged) && budget.maxLinesPerSlice >= 1
    ensures Sound(CompanionCollected(c, companions, name, budget), ranged)
  {
    if companions != [] {
      var first := companions[0];
      PushedIsSound(c, ranged, first.path, CompanionSlices(first.hits, name, budget));
      CompanionIsSound(c, ranged, companions[1..], name, budget);
    }
  }

  lemma NodeIsSound(c: Collected, ranged: bool, node: Node, budget: Budget)
    requires Sound(c, ranged) && (ranged ==> NodeWellFormed(node)) && budget.maxLinesPerSlice >= 1
    ensures Sound(NodeCollected(c, node, budget), ranged)
  {
    if node.id !in c.seen && node.details.Some? && node.details.value.path.Some? && node.details.value.startLine.Some? {
      var d := node.details.value;
      var seen := c.(seen := c.seen + {node.id});
      var slice := NodeSlice(d.startLine.value, d, budget);
      PushedIsSound(seen, ranged, d.path.value, [slice]);
      CompanionIsSound(seen.(related := c.related + {d.path.value}, slices := Pushed(c.slices, d.path.value, [slice])), ranged, d.companions, d.name, budget);
    }
  }

  lemma {:induction false} NodesAreSound(c: Collected, ranged: bool, nodes: seq<Node>, budget: Budget)
    requires Sound(c, ranged) && budget.maxLinesPerSlice >= 1 && (ranged ==> forall i :: 0 <= i < |nodes| ==> NodeWellFormed(nodes[i]))
    ensures Sound(NodesCollected(c, nodes, budget), ranged)
    decreases |nodes|
  {
    if nodes != [] {
      NodeIsSound(c, ranged, nodes[0], budget);
      NodesAreSound(NodeCollected(c, nodes[0], budget), ranged, nodes[1..], budget);
    }
  }

  lemma SnippetIsSound(c: Collected, ranged: bool, s: Snippet, budget: Budget)
    requires Sound(c, ranged)
    ensures Sound(SnippetCollected(c, s, budget), ranged)
  {
    PushedIsSound(c, ranged, s.path, [SnippetSlice(s, budget)]);
  }

  lemma {:induction false} HitsAreSound(c: Collected, ranged: bool, hits: seq<Hit>, budget: Budget)
    requires Sound(c, ranged) && budget.maxLinesPerSlice >= 1
    ensures Sound(HitsCollected(c, hits, budget), ranged)
    decreases |hits|
  {
    if hits != [] {
      if hits[0].line.Some? {
        PushedIsSound(c, ranged, hits[0].path, [HitSlice(hits[0].line.value, hits[0].name, budget)]);
      }
      var (next, more) := HitCollected(c, hits[0], budget);
      HitsAreSound(next, ranged, hits[1..], budget);
    }
  }

  // ---------------------------------------------------------------- the collecting code

  class Collector {
    var slices: map<string, seq<Slice>>
    var related: set<string>
    var seen: set<string>
    var companions: bool

    function State(): Collected
      reads this
    {
      Collected(slices, related, seen, companions)
    }

    constructor ()
      ensures State() == Collected(map[], {}, {}, false)
    {
      slices, related, seen, companions := map[], {}, {}, false;
    }

    method Push(path: string, more: seq<Slice>)
      modifies this`slices
      ensures slices == Pushed(old(slices), path, more)
    {
      slices := slices[path := (if path in slices then slices[path] else []) + more];
    }

    method CollectCompanion(candidates: seq<Companion>, name: string, budget: Budget)
      modifies this`slices, this`related, this`companions
      ensures State() == CompanionCollected(old(State()), candidates, name, budget)
    {
      for i := 0 to |candidates|
        invariant State() == old(State())
        invariant CompanionCollected(State(), candidates, name, budget) == CompanionCollected(State(), candidates[i..], name, budget)
      {
        var candidate := candidates[i];
        assert candidates[i..][1..] == candidates[i + 1..];
        if !candidate.isFile { continue; }
        if candidate.path in slices || |slices| >= budget.maxFiles {
          related := related + {candidate.path};
          return;
        }
        var found := CompanionSlices(candidate.hits, name, budget);
        if found == [] { continue; }
        related := related + {candidate.path};
        Push(candidate.path, found);
        companions := true;
        return;
      }
    }

    method CollectNode(node: Node, budget: Budget)
      modifies this
      ensures State() == NodeCollected(old(State()), node, budget)
    {
      if node.id in seen { return; }
      seen := seen + {node.id};
      if node.details.None? || node.details.value.path.None? || node.details.value.startLine.None? { return; }
      var d := node.details.value;
      related := related + {d.path.value};
      Push(d.path.value, [NodeSlice(d.startLine.value, d, budget)]);
      CollectCompanion(d.companions, d.name, budget);
    }

    method CollectNodes(nodes: seq<Node>, budget: Budget)
      modifies this
      ensures State() == NodesCollected(old(State()), nodes, budget)
    {
      for i := 0 to |nodes|
        invariant NodesCollected(old(State()), nodes, budget) == NodesCollected(State(), nodes[i..], budget)
      {
        assert nodes[i..][1..] == nodes[i + 1..];
        CollectNode(nodes[i], budget);
      }
    }

    method CollectHits(hits: seq<Hit>, budget: Budget)
      modifies this
      ensures State() == HitsCollected(old(State()), hits, budget)
    {
      for i := 0 to |hits|
        invariant HitsCollected(old(State()), hits, budget) == HitsCollected(State(), hits[i..], budget)
      {
        var hit := hits[i];
        assert hits[i..][1..] == hits[i + 1..];
        if hit.rawPath.None? || hit.line.None? { continue; }
        if |slices| >= budget.maxFiles && hit.rawPath.value !in slices && hit.path !in slices {
          related := related + {hit.path};
          continue;
        }
        Push(hit.path, [HitSlice(hit.line.value, hit.name, budget)]);
        related := related + {hit.path};
        if |slices| >= budget.maxFiles { return; }
      }
    }

    /** All nodes, the snippet, the hits. */
    method CollectAll(nodes: seq<Node>, snippet: Option<Snippet>, hits: Option<seq<Hit>>, budget: Budget)
      requires State() == Collected(map[], {}, {}, false)
      modifies this
      ensures State() == AllCollected(nodes, snippet, hits, budget)
    {
      hide NodesCollected, HitsCollected;
      CollectNodes(if |nodes| > budget.maxNodesForSource then nodes[..budget.maxNodesForSource] else nodes, budget);
      if snippet.Some? {
        Push(snippet.value.path, [SnippetSlice(snippet.value, budget)]);
        related := related + {snippet.value.path};
      }
      if hits.Some? {
        CollectHits(if |hits.value| > 6 then hits.value[..6] else hits.value, budget);
      }
    }
  }

  // ---------------------------------------------------------------- the packet of what was collected

  ghost predicate Files(slices: map<string, seq<Slice>>, input: seq<FileSlices>) {
    && DistinctPaths(input) && PathsOf(input) == slices.Keys
    && Lists(slices, input)
    && forall i, j :: 0 <= i < j < |input| ==> StringLeq(input[i].path, input[j].path)
  }

  predicate ByPath(a: FileSlices, b: FileSlices) {
    StringLeq(a.path, b.path)
  }

  ghost predicate Lists(slices: map<string, seq<Slice>>, listed: seq<FileSlices>) {
    forall i :: 0 <= i < |listed| ==> listed[i].path in slices && listed[i].slices == slices[listed[i].path]
  }

  method ListFiles(slices: map<string, seq<Slice>>) returns (listed: seq<FileSlices>)
    ensures DistinctPaths(listed) && PathsOf(listed) == slices.Keys && Lists(slices, listed)
  {
    hide DistinctPaths, PathsOf;
    var left: set<string> := slices.Keys;
    listed := [];
    NothingListed();
    while left != {}
      invariant left <= slices.Keys && DistinctPaths(listed) && PathsOf(listed) == slices.Keys - left && Lists(slices, listed)
      decreases |left|
    {
      var path :| path in left;
      ListedMore(listed, FileSlices(path, slices[path]));
      listed := listed + [FileSlices(path, slices[path])];
      left := left - {path};
    }
  }

  /** The files of an ordered map, in the order of their paths. */
  method InPathOrder(slices: map<string, seq<Slice>>) returns (input: seq<FileSlices>)
    ensures Files(slices, input)
  {
    var listed := ListFiles(slices);
    input := Sort(ByPath, listed);
    PathsSorted(listed);
    Rearranged(slices, listed, input);
  }

  lemma NothingListed()
    ensures DistinctPaths([]) && PathsOf([]) == {}
  {
  }

  lemma ListedMore(listed: seq<FileSlices>, f: FileSlices)
    requires DistinctPaths(listed) && f.path !in PathsOf(listed)
    ensures DistinctPaths(listed + [f]) && PathsOf(listed + [f]) == PathsOf(listed) + {f.path}
  {
    var more := listed + [f];
    forall i | 0 <= i < |listed|
      ensures listed[i].path != f.path && listed[i].path in PathsOf(more)
    {
      assert listed[i].path in PathsOf(listed);
      assert more[i] == listed[i];
    }
    assert more[|listed|].path in PathsOf(more);
  }

  lemma PathsSorted(listed: seq<FileSlices>)
    ensures Sorted(ByPath, Sort(ByPath, listed))
  {
    StringOrder();
    SortSorts(ByPath, listed);
  }

  lemma Rearranged(slices: map<string, seq<Slice>>, listed: seq<FileSlices>, input: seq<FileSlices>)
    requires multiset(input) == multiset(listed) && DistinctPaths(listed) && PathsOf(listed) == slices.Keys
    requires Lists(slices, listed)
    ensures DistinctPaths(input) && PathsOf(input) == slices.Keys && Lists(slices, input)
  {
    forall i | 0 <= i < |input|
      ensures input[i] in listed
    {
      assert input[i] in multiset(listed);
    }
    forall i | 0 <= i < |listed|
      ensures listed[i] in input
    {
      assert listed[i] in multiset(input);
    }
    assert PathsOf(input) == PathsOf(listed);
    DistinctPathsCount(listed);
    SameLength(input, listed);
    FullCountMeansDistinct(input);
  }

  lemma FullCountMeansDistinct(input: seq<FileSlices>)
    requires |PathsOf(input)| == |input|
    ensures DistinctPaths(input)
  {
    forall i, j | 0 <= i < j < |input|
      ensures input[i].path != input[j].path
    {
      if input[i].path == input[j].path {
        var fewer := Without(input, j);
        PathsWithoutOne(input, i, j);
        PathsCountAtMost(fewer);
      }
    }
  }

  lemma PathsWithoutOne(input: seq<FileSlices>, i: nat, j: nat)
    requires i < j < |input| && input[i].path == input[j].path
    ensures PathsOf(input) == PathsOf(Without(input, j))
  {
    var fewer := Without(input, j);
    forall path | path in PathsOf(input)
      ensures path in PathsOf(fewer)
    {
      var k :| 0 <= k < |input| && input[k].path == path;
      var l := if k == j then i else if k < j then k else k - 1;
      assert fewer[l].path == path;
    }
  }

  lemma {:induction false} PathsCountAtMost(input: seq<FileSlices>)
    ensures |PathsOf(input)| <= |input|
  {
    if input != [] {
      var last := |input| - 1;
      PathsCountAtMost(input[..last]);
      assert PathsOf(input) == PathsOf(input[..last]) + {input[last].path};
    }
  }

  function AllCollected(nodes: seq<Node>, snippet: Option<Snippet>, hits: Option<seq<Hit>>, budget: Budget): Collected {
    var taken := if |nodes| > budget.maxNodesForSource then nodes[..budget.maxNodesForSource] else nodes;
    var c := NodesCollected(Collected(map[], {}, {}, false), taken, budget);
    var d := if snippet.None? then c else SnippetCollected(c, snippet.value, budget);
    if hits.None? then d else HitsCollected(d, if |hits.value| > 6 then hits.value[..6] else hits.value, budget)
  }

  lemma CollectedIsSound(nodes: seq<Node>, snippet: Option<Snippet>, hits: Option<seq<Hit>>, budget: Budget, ranged: bool)
    requires budget.maxLinesPerSlice >= 1 && (ranged ==> forall i :: 0 <= i < |nodes| ==> NodeWellFormed(nodes[i]))
    ensures Sound(AllCollected(nodes, snippet, hits, budget), ranged)
  {
    var taken := if |nodes| > budget.maxNodesForSource then nodes[..budget.maxNodesForSource] else nodes;
    NodesAreSound(Collected(map[], {}, {}, false), ranged, taken, budget);
    var c := NodesCollected(Collected(map[], {}, {}, false), taken, budget);
    if snippet.Some? { SnippetIsSound(c, ranged, snippet.value, budget); }
    var d := if snippet.None? then c else SnippetCollected(c, snippet.value, budget);
    if hits.Some? { HitsAreSound(d, ranged, if |hits.value| > 6 then hits.value[..6] else hits.value, budget); }
  }

  /** Only graph nodes can bring in a range that ends before it begins, and only if their own lines do. */
  lemma CollectedRangesAreWellFormed(nodes: seq<Node>, snippet: Option<Snippet>, hits: Option<seq<Hit>>, budget: Budget, path: string)
    requires budget.maxLinesPerSlice >= 1 && forall i :: 0 <= i < |nodes| ==> NodeWellFormed(nodes[i])
    requires path in AllCollected(nodes, snippet, hits, budget).slices
    ensures WellFormed(AllCollected(nodes, snippet, hits, budget).slices[path])
  {
    CollectedIsSound(nodes, snippet, hits, budget, true);
  }

  /** The packet shows everything that was collected. */
  ghost predicate ShowsEverything(p: Packet, c: Collected, tree: map<string, string>) {
    forall path :: path in c.slices ==>
      exists k :: 0 <= k < |p.files| && ShowsWholeFile(p.files[k], FileSlices(path, c.slices[path]), tree)
  }

  /** The packet's files are the first of these, each shown under what the files before it left of the budget. */
  ghost predicate ShowsInOrder(p: Packet, input: seq<FileSlices>, tree: map<string, string>, budget: Budget) {
    |p.files| <= |input| &&
    forall k :: 0 <= k < |p.files| ==> ShowsFile(p.files[k], input[k], tree, budget, TotalEmitted(p.files[..k]))
  }

  /** `build_explore_source_packet`. `hits` are collected for some profiles only. */
  method BuildExploreSourcePacket(tree: map<string, string>, indexedFiles: U32, nodes: seq<Node>, snippet: Option<Snippet>, hits: Option<seq<Hit>>)
    returns (p: Packet, related: set<string>)
    ensures var budget := BudgetFor(indexedFiles);
      var c := AllCollected(nodes, snippet, hits, budget);
      && related == c.related
      && |p.files| <= budget.maxFiles
      && (forall k :: 0 <= k < |p.files| ==> Emitted(p.files[k].slices) <= budget.maxCharsPerFile + 41)
      && TotalEmitted(p.files) <= budget.maxTotalChars + 41
      && (!p.truncated ==> ShowsEverything(p, c, tree))
      && exists input :: Files(c.slices, input) && ShowsInOrder(p, input, tree, budget)
  {
    hide BudgetFor, Sound, AllCollected, ShowsWholeFile, ShowsFile, DistinctPaths, PathsOf, Lists, Emitted, TotalEmitted, SomeTruncated, ShowsEverything;
    var budget := BudgetFor(indexedFiles);
    assert budget.maxLinesPerSlice >= 1 by { BudgetsHaveLines(indexedFiles); }
    CollectedIsSound(nodes, snippet, hits, budget, false);
    var collector := new Collector();
    collector.CollectAll(nodes, snippet, hits, budget);
    ghost var c := AllCollected(nodes, snippet, hits, budget);
    related := collector.related;
    var input := InPathOrder(collector.slices);
    p := BuildSourcePacket(tree, input, related, budget);
    KeysAreRelated(c);
    assert ShowsInOrder(p, input, tree, budget);
    if !p.truncated {
      EverythingIsShown(p, c, input, tree);
    }
  }

  lemma BudgetsHaveLines(indexedFiles: U32)
    ensures BudgetFor(indexedFiles).maxLinesPerSlice >= 1
  {
  }

  lemma KeysAreRelated(c: Collected)
    requires Sound(c, false)
    ensures c.slices.Keys <= c.related
  {
  }

  lemma EverythingIsShown(p: Packet, c: Collected, input: seq<FileSlices>, tree: map<string, string>)
    requires Files(c.slices, input) && |p.files| == |input|
    requires forall k :: 0 <= k < |input| ==> ShowsWholeFile(p.files[k], input[k], tree)
    ensures ShowsEverything(p, c, tree)
  {
    hide ShowsWholeFile;
    forall path | path in c.slices
      ensures exists k :: 0 <= k < |p.files| && ShowsWholeFile(p.files[k], FileSlices(path, c.slices[path]), tree)
    {
      assert path in PathsOf(input);
      var k :| 0 <= k < |input| && input[k].path == path;
      assert input[k] == FileSlices(path, c.slices[path]);
    }
  }
}
