/** What collection brings in, and that a packet which is not truncated shows it line by line. */
module SourceCoverage {
  import opened Options
  import opened Decimals
  import opened Ordering
  import opened TextLines
  import opened SourceSlices
  import opened SourcePacket
  import opened SourceCollection

  ghost predicate Has(c: Collected, path: string, s: Slice) {
    path in c.slices && s in c.slices[path]
  }

  /** Nothing that was collected is lost. */
  ghost predicate Grows(c: Collected, d: Collected) {
    && c.related <= d.related && c.seen <= d.seen
    && forall path :: path in c.slices ==> path in d.slices && c.slices[path] <= d.slices[path]
  }

  lemma StillHas(c: Collected, d: Collected, path: string, s: Slice)
    requires Grows(c, d) && Has(c, path, s)
    ensures Has(d, path, s)
  {
    var i :| 0 <= i < |c.slices[path]| && c.slices[path][i] == s;
    assert d.slices[path][i] == s;
  }

  lemma GrowsOn(c: Collected, d: Collected, e: Collected)
    requires Grows(c, d) && Grows(d, e)
    ensures Grows(c, e)
  {
  }

  lemma {:induction false} CompanionGrows(c: Collected, companions: seq<Companion>, name: string, budget: Budget)
    ensures Grows(c, CompanionCollected(c, companions, name, budget)) && CompanionCollected(c, companions, name, budget).seen == c.seen
  {
    if companions != [] {
      CompanionGrows(c, companions[1..], name, budget);
    }
  }

  // ---------------------------------------------------------------- nodes

  ghost predicate IsLocated(node: Node) {
    node.details.Some? && node.details.value.path.Some? && node.details.value.startLine.Some?
  }

  /** From the node's first line to its last, or as far as one range may go; under its name. */
  ghost predicate RangeOfNode(s: Slice, d: Details, budget: Budget)
    requires d.startLine.Some?
  {
    var first, last := d.startLine.value, if d.endLine.None? then d.startLine.value else d.endLine.value;
    && s.start == first && s.symbol == d.name && s.end <= last && s.end <= first + budget.maxLinesPerSlice
    && (s.end == last || s.end == first + budget.maxLinesPerSlice || s.end == U32_MAX)
  }

  lemma NodeGrows(c: Collected, node: Node, budget: Budget)
    ensures Grows(c, NodeCollected(c, node, budget)) && NodeCollected(c, node, budget).seen == c.seen + {node.id}
  {
    if node.id !in c.seen && IsLocated(node) {
      var d := node.details.value;
      var pushed := c.(seen := c.seen + {node.id}, related := c.related + {d.path.value},
                       slices := Pushed(c.slices, d.path.value, [NodeSlice(d.startLine.value, d, budget)]));
      CompanionGrows(pushed, d.companions, d.name, budget);
      GrowsOn(c, pushed, CompanionCollected(pushed, d.companions, d.name, budget));
    }
  }

  lemma NodeIsCollected(c: Collected, node: Node, budget: Budget)
    requires node.id !in c.seen && IsLocated(node)
    ensures var d, after := node.details.value, NodeCollected(c, node, budget);
      d.path.value in after.related && exists s :: Has(after, d.path.value, s) && RangeOfNode(s, d, budget)
  {
    var d := node.details.value;
    var path, s := d.path.value, NodeSlice(d.startLine.value, d, budget);
    var pushed := c.(seen := c.seen + {node.id}, related := c.related + {path}, slices := Pushed(c.slices, path, [s]));
    assert pushed.slices[path][|pushed.slices[path]| - 1] == s;
    assert Has(pushed, path, s) && RangeOfNode(s, d, budget);
    CompanionGrows(pushed, d.companions, d.name, budget);
    StillHas(pushed, CompanionCollected(pushed, d.companions, d.name, budget), path, s);
  }

  lemma {:induction false} NodesGrow(c: Collected, nodes: seq<Node>, budget: Budget)
    ensures Grows(c, NodesCollected(c, nodes, budget))
    decreases |nodes|
  {
    if nodes != [] {
      NodeGrows(c, nodes[0], budget);
      NodesGrow(NodeCollected(c, nodes[0], budget), nodes[1..], budget);
      GrowsOn(c, NodeCollected(c, nodes[0], budget), NodesCollected(c, nodes, budget));
    }
  }

  /** Every located node brings in its own lines, unless an earlier node has its id. */
  lemma {:induction false} NodesAreCollected(c: Collected, nodes: seq<Node>, i: nat, budget: Budget)
    requires i < |nodes| && IsLocated(nodes[i]) && nodes[i].id !in c.seen && forall j :: 0 <= j < i ==> nodes[j].id != nodes[i].id
    ensures var d, after := nodes[i].details.value, NodesCollected(c, nodes, budget);
      d.path.value in after.related && exists s :: Has(after, d.path.value, s) && RangeOfNode(s, d, budget)
    decreases i
  {
    var next := NodeCollected(c, nodes[0], budget);
    hide NodeCollected, RangeOfNode, Has, Grows;
    if i == 0 {
      NodeIsCollected(c, nodes[0], budget);
      NodesGrow(next, nodes[1..], budget);
      KeepsTheRange(next, NodesCollected(c, nodes, budget), nodes[0].details.value, budget);
    } else {
      NodeGrows(c, nodes[0], budget);
      assert nodes[1..][i - 1] == nodes[i];
      NodesAreCollected(next, nodes[1..], i - 1, budget);
    }
  }

  lemma KeepsTheRange(c: Collected, after: Collected, d: Details, budget: Budget)
    requires Grows(c, after) && d.path.Some? && d.startLine.Some?
    requires d.path.value in c.related && exists s :: Has(c, d.path.value, s) && RangeOfNode(s, d, budget)
    ensures d.path.value in after.related && exists s :: Has(after, d.path.value, s) && RangeOfNode(s, d, budget)
  {
    var s :| Has(c, d.path.value, s) && RangeOfNode(s, d, budget);
    StillHas(c, after, d.path.value, s);
  }

  // ---------------------------------------------------------------- companions

  /** The candidate ends the search: it is a file, and is collected already, or comes too late, or names the declaration. */
  ghost predicate Decides(c: Collected, candidate: Companion, budget: Budget) {
    candidate.isFile && (candidate.path in c.slices || |c.slices| >= budget.maxFiles || candidate.hits != [])
  }

  /** A range around a matching line: three lines before it and up to 24 behind it. */
  ghost predicate AroundHit(s: Slice, line: U32, behind: nat, symbol: string) {
    && s.symbol == symbol
    && (if line > 3 then s.start == line - 3 else s.start == 1)
    && (if line + behind <= U32_MAX then s.end == line + behind else s.end == U32_MAX)
  }

  function Fewer(a: nat, b: nat): nat {
    if a < b then a else b
  }

  /** The first candidate that ends the search decides: it is just noted, or brings in a range for each of its first two
      matching lines. If there is none, nothing changes. */
  lemma {:induction false} CompanionDecided(c: Collected, companions: seq<Companion>, name: string, budget: Budget)
    ensures (forall k :: 0 <= k < |companions| ==> !Decides(c, companions[k], budget)) ==> CompanionCollected(c, companions, name, budget) == c
    ensures forall k :: 0 <= k < |companions| && Decides(c, companions[k], budget) && (forall j :: 0 <= j < k ==> !Decides(c, companions[j], budget)) ==>
      DecidedBy(c, companions[k], CompanionCollected(c, companions, name, budget), name, budget)
  {
    hide DecidedBy;
    if companions != [] {
      if Decides(c, companions[0], budget) {
        FirstDecides(c, companions, name, budget);
      } else {
        assert CompanionCollected(c, companions, name, budget) == CompanionCollected(c, companions[1..], name, budget);
        CompanionDecided(c, companions[1..], name, budget);
        forall k | 0 <= k < |companions| && Decides(c, companions[k], budget) && forall j :: 0 <= j < k ==> !Decides(c, companions[j], budget)
          ensures DecidedBy(c, companions[k], CompanionCollected(c, companions, name, budget), name, budget)
        {
          assert companions[1..][k - 1] == companions[k];
          assert forall j :: 0 <= j < k - 1 ==> companions[1..][j] == companions[j + 1];
        }
      }
    }
  }

  ghost predicate DecidedBy(c: Collected, candidate: Companion, after: Collected, name: string, budget: Budget) {
    if candidate.path in c.slices || |c.slices| >= budget.maxFiles then after == c.(related := c.related + {candidate.path})
    else
      && after == c.(related := after.related, slices := after.slices, companions := true)
      && after.related == c.related + {candidate.path} && candidate.path in after.slices
      && after.slices == c.slices[candidate.path := after.slices[candidate.path]]
      && |after.slices[candidate.path]| == Fewer(2, |candidate.hits|)
      && forall i :: 0 <= i < |after.slices[candidate.path]| ==>
           AroundHit(after.slices[candidate.path][i], candidate.hits[i], Fewer(budget.maxLinesPerSlice, 24), "companion implementation for " + name)
  }

  lemma FirstDecides(c: Collected, companions: seq<Companion>, name: string, budget: Budget)
    requires companions != [] && Decides(c, companions[0], budget)
    ensures DecidedBy(c, companions[0], CompanionCollected(c, companions, name, budget), name, budget)
  {
    var first := companions[0];
    if first.path !in c.slices && |c.slices| < budget.maxFiles {
      var found := CompanionSlices(first.hits, name, budget);
      assert [] + found == found;
    }
  }

  // ---------------------------------------------------------------- snippet and hits

  /** The snippet's range holds its own line exactly if no more context was asked for in front of it than one range may have. */
  lemma SnippetShowsItsLineIff(c: Collected, s: Snippet, budget: Budget)
    requires s.line >= 1
    ensures var after := SnippetCollected(c, s, budget);
      && Grows(c, after) && s.path in after.related && Has(after, s.path, SnippetSlice(s, budget)) && SnippetSlice(s, budget).symbol == s.name
      && (SnippetSlice(s, budget).start <= s.line <= SnippetSlice(s, budget).end <==>
            Fewer(s.line - 1, if s.requestedContext == 0 then 1 else s.requestedContext) <= budget.maxLinesPerSlice)
  {
    var after := SnippetCollected(c, s, budget);
    assert after.slices[s.path][|after.slices[s.path]| - 1] == SnippetSlice(s, budget);
  }

  ghost predicate IsHit(hit: Hit) {
    hit.rawPath.Some? && hit.line.Some?
  }

  lemma HitGrows(c: Collected, hit: Hit, budget: Budget)
    ensures Grows(c, HitCollected(c, hit, budget).0)
  {
  }

  lemma {:induction false} HitsGrow(c: Collected, hits: seq<Hit>, budget: Budget)
    ensures Grows(c, HitsCollected(c, hits, budget)) && |c.slices| <= |HitsCollected(c, hits, budget).slices|
    decreases |hits|
  {
    if hits != [] {
      HitGrows(c, hits[0], budget);
      var (next, more) := HitCollected(c, hits[0], budget);
      PathsGrow(c, next);
      if more {
        HitsGrow(next, hits[1..], budget);
        GrowsOn(c, next, HitsCollected(c, hits, budget));
      }
    }
  }

  lemma PathsGrow(c: Collected, d: Collected)
    requires Grows(c, d)
    ensures |c.slices| <= |d.slices|
  {
    assert c.slices.Keys <= d.slices.Keys;
    SubsetCount(c.slices.Keys, d.slices.Keys);
    assert |c.slices| == |c.slices.Keys| && |d.slices| == |d.slices.Keys|;
  }

  ghost predicate Around(after: Collected, hit: Hit, budget: Budget)
    requires IsHit(hit)
  {
    hit.path in after.related &&
    exists s :: Has(after, hit.path, s) && AroundHit(s, hit.line.value, Fewer(budget.maxLinesPerSlice, 18), "related hit " + hit.name)
  }

  /** Every hit brings in the lines around its own, or the packet has as many files as it may have. */
  lemma {:induction false} HitsAreCollected(c: Collected, hits: seq<Hit>, i: nat, budget: Budget)
    requires i < |hits| && IsHit(hits[i])
    ensures var after := HitsCollected(c, hits, budget); Around(after, hits[i], budget) || |after.slices| >= budget.maxFiles
    decreases i
  {
    var (next, more) := HitCollected(c, hits[0], budget);
    HitGrows(c, hits[0], budget);
    if i == 0 {
      var after := HitsCollected(c, hits, budget);
      HitsGrow(next, hits[1..], budget);
      HitsGrow(c, hits, budget);
      if |c.slices| < budget.maxFiles || hits[0].rawPath.value in c.slices || hits[0].path in c.slices {
        var s := HitSlice(hits[0].line.value, hits[0].name, budget);
        assert next.slices[hits[0].path][|next.slices[hits[0].path]| - 1] == s;
        assert Has(next, hits[0].path, s);
        if more { StillHas(next, after, hits[0].path, s); }
        assert AroundHit(s, hits[0].line.value, Fewer(budget.maxLinesPerSlice, 18), "related hit " + hits[0].name);
      }
    } else if more {
      assert hits[1..][i - 1] == hits[i];
      HitsAreCollected(next, hits[1..], i - 1, budget);
    }
  }

  // ---------------------------------------------------------------- everything together

  function Taken<T>(items: seq<T>, limit: nat): seq<T> {
    if |items| > limit then items[..limit] else items
  }

  /** Of the nodes that are looked at, each brings in its own lines. */
  lemma EveryNodeIsCollected(nodes: seq<Node>, snippet: Option<Snippet>, hits: Option<seq<Hit>>, budget: Budget, i: nat)
    requires i < |nodes| && i < budget.maxNodesForSource && IsLocated(nodes[i]) && forall j :: 0 <= j < i ==> nodes[j].id != nodes[i].id
    ensures var d, c := nodes[i].details.value, AllCollected(nodes, snippet, hits, budget);
      d.path.value in c.related && exists s :: Has(c, d.path.value, s) && RangeOfNode(s, d, budget)
  {
    var nothing := Collected(map[], {}, {}, false);
    var taken := Taken(nodes, budget.maxNodesForSource);
    var c := NodesCollected(nothing, taken, budget);
    var d := if snippet.None? then c else SnippetCollected(c, snippet.value, budget);
    var e := AllCollected(nodes, snippet, hits, budget);
    assert taken[i] == nodes[i];
    NodesAreCollected(nothing, taken, i, budget);
    if hits.Some? { HitsGrow(d, Taken(hits.value, 6), budget); }
    SnippetGrows(c, snippet, budget);
    GrowsOn(c, d, e);
    KeepsTheRange(c, e, nodes[i].details.value, budget);
  }

  lemma SnippetGrows(c: Collected, snippet: Option<Snippet>, budget: Budget)
    ensures Grows(c, if snippet.None? then c else SnippetCollected(c, snippet.value, budget))
  {
  }

  /** And of the hits, each of the first six, as long as there is room for another file. */
  lemma EveryHitIsCollected(nodes: seq<Node>, snippet: Option<Snippet>, hits: seq<Hit>, budget: Budget, i: nat)
    requires i < |hits| && i < 6 && IsHit(hits[i])
    ensures var c := AllCollected(nodes, snippet, Some(hits), budget); Around(c, hits[i], budget) || |c.slices| >= budget.maxFiles
  {
    var c := NodesCollected(Collected(map[], {}, {}, false), Taken(nodes, budget.maxNodesForSource), budget);
    var d := if snippet.None? then c else SnippetCollected(c, snippet.value, budget);
    assert Taken(hits, 6)[i] == hits[i];
    HitsAreCollected(d, Taken(hits, 6), i, budget);
  }

  /** No other node or hit is looked at. */
  lemma OnlyTheFirstAreLookedAt(nodes: seq<Node>, snippet: Option<Snippet>, hits: seq<Hit>, budget: Budget, more: seq<Node>, others: seq<Hit>)
    requires |nodes| == budget.maxNodesForSource && |hits| == 6
    ensures AllCollected(nodes + more, snippet, Some(hits + others), budget) == AllCollected(nodes, snippet, Some(hits), budget)
  {
    assert (nodes + more)[..|nodes|] == nodes && (hits + others)[..6] == hits;
    assert others == [] ==> hits + others == hits;
    assert more == [] ==> nodes + more == nodes;
  }

  /** The packet shows this line of this file: behind its own number, among the rows of some range. */
  ghost predicate ShowsLine(p: Packet, path: string, text: string, line: nat) {
    exists k, i, rows, row ::
      && 0 <= k < |p.files| && 0 <= i < |p.files[k].slices| && p.files[k].path == path
      && ShowsRow(p.files[k].slices[i], text, line, rows, row)
  }

  ghost predicate ShowsRow(o: OutSlice, text: string, line: nat, rows: seq<string>, row: nat) {
    && o.source == Some(RunTogether(rows)) && row < |rows| && 1 <= line <= |Lines(text)|
    && IsRow(rows[row], line, Lines(text)[line - 1])
  }

  lemma RangeShowsLine(o: OutSlice, text: string, line: nat) returns (rows: seq<string>, row: nat)
    requires o.source == Some(Shown(text, o.start, o.end)) && 1 <= line <= |Lines(text)| && o.start <= line <= o.end
    ensures ShowsRow(o, text, line, rows, row)
  {
    hide Lines, IsRow, RunTogether, ShownUpTo;
    rows := ShownLines(Lines(text), |Lines(text)|, o.start, o.end);
    row := line - FirstLine(o.start);
  }

  /** A packet that is not truncated shows every line of every collected range. */
  lemma CollectedLinesAreShown(p: Packet, c: Collected, tree: map<string, string>, path: string, s: Slice, line: nat)
    requires ShowsEverything(p, c, tree) && Has(c, path, s) && WellFormed(c.slices[path])
    requires path in tree && s.start <= line <= s.end && 1 <= line <= |Lines(tree[path])|
    ensures ShowsLine(p, path, tree[path], line)
  {
    var slices := c.slices[path];
    var k :| 0 <= k < |p.files| && ShowsWholeFile(p.files[k], FileSlices(path, slices), tree);
    hide MergeOf, Sort, MergedAll, Lines, Shown, IsRow, RunTogether, ShowsEverything, ByStart;
    SortedSlices(slices);
    MergeIsRight(Sort(ByStart, slices));
    assert s in multiset(slices);
    var j := RangeOf(multiset(slices), RangesOf(slices), s);
    assert ShowsWholeRange(p.files[k].slices[j], RangesOf(slices), j, TextOf(tree, path));
    var rows, row := RangeShowsLine(p.files[k].slices[j], tree[path], line);
    assert ShowsRow(p.files[k].slices[j], tree[path], line, rows, row);
  }

  /** So a packet that is not truncated shows the line on which any of the nodes begins. */
  lemma NodesAreShown(p: Packet, tree: map<string, string>, nodes: seq<Node>, snippet: Option<Snippet>, hits: Option<seq<Hit>>, budget: Budget, i: nat)
    requires ShowsEverything(p, AllCollected(nodes, snippet, hits, budget), tree) && budget.maxLinesPerSlice >= 1
    requires i < |nodes| && i < budget.maxNodesForSource && IsLocated(nodes[i]) && forall j :: 0 <= j < i ==> nodes[j].id != nodes[i].id
    requires forall j :: 0 <= j < |nodes| ==> NodeWellFormed(nodes[j])
    requires var d := nodes[i].details.value; d.path.value in tree && 1 <= d.startLine.value <= |Lines(tree[d.path.value])|
    ensures var d := nodes[i].details.value; ShowsLine(p, d.path.value, tree[d.path.value], d.startLine.value)
  {
    hide AllCollected, ShowsEverything, ShowsLine, Lines;
    var d, c := nodes[i].details.value, AllCollected(nodes, snippet, hits, budget);
    EveryNodeIsCollected(nodes, snippet, hits, budget, i);
    var s :| Has(c, d.path.value, s) && RangeOfNode(s, d, budget);
    CollectedRangesAreWellFormed(nodes, snippet, hits, budget, d.path.value);
    assert NodeWellFormed(nodes[i]);
    CollectedLinesAreShown(p, c, tree, d.path.value, s, d.startLine.value);
  }
}
