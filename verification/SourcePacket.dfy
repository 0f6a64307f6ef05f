/** The source packet: numbered source of merged ranges, file by file, under a budget of characters. */
module SourcePacket {
  import opened Options
  import opened Decimals
  import opened Ordering
  import opened TextLines
  import opened SourceSlices

  datatype Budget = Budget(maxFiles: U32, maxNodesForSource: U32, maxLinesPerSlice: U32, maxCharsPerFile: U32, maxTotalChars: U32)

  /** `explore_budget`. */
  function BudgetFor(indexedFiles: U32): Budget {
    if indexedFiles <= 100 then Budget(6, 24, 28, 8000, 28000)
    else if indexedFiles <= 1000 then Budget(4, 18, 22, 6000, 18000)
    else Budget(3, 12, 16, 4000, 12000)
  }

  const NOTICE := "... source slice truncated by budget ...\n"

  function Padded(text: string, width: nat): string
    decreases width - |text|
  {
    if |text| >= width then text else Padded(" " + text, width)
  }

  function Rendered(number: nat, line: string): string {
    Padded(Decimal(number), 5) + ": " + line + "\n"
  }

  /** The lines of the range among the first `count` lines, numbered. */
  function ShownUpTo(lines: seq<string>, count: nat, start: U32, end: U32): string
    requires count <= |lines|
  {
    if count == 0 then ""
    else ShownUpTo(lines, count - 1, start, end) + if start <= count <= end then Rendered(count, lines[count - 1]) else ""
  }

  function Shown(text: string, start: U32, end: U32): string {
    ShownUpTo(Lines(text), |Lines(text)|, start, end)
  }

  lemma {:induction false} ShownGrows(lines: seq<string>, m: nat, n: nat, start: U32, end: U32)
    requires m <= n <= |lines|
    ensures |ShownUpTo(lines, m, start, end)| <= |ShownUpTo(lines, n, start, end)|
  {
    if m < n {
      ShownGrows(lines, m, n - 1, start, end);
    }
  }

  lemma {:induction false} ShownStops(lines: seq<string>, m: nat, n: nat, start: U32, end: U32)
    requires m <= n <= |lines| && end <= m
    ensures ShownUpTo(lines, n, start, end) == ShownUpTo(lines, m, start, end)
  {
    if m < n {
      ShownStops(lines, m, n - 1, start, end);
      assert ShownUpTo(lines, n, start, end) == ShownUpTo(lines, n - 1, start, end) + "";
    }
  }

  /** As many numbered lines as fit, then the notice: the next line of the range would exceed the cap. */
  ghost predicate CutShort(output: string, text: string, start: U32, end: U32, cap: nat) {
    exists count :: 0 <= count < |Lines(text)| && CutAfter(output, Lines(text), count, start, end, cap)
  }

  ghost predicate CutAfter(output: string, lines: seq<string>, count: nat, start: U32, end: U32, cap: nat)
    requires count < |lines|
  {
    && start <= count + 1 <= end && output == ShownUpTo(lines, count, start, end) + NOTICE
    && |ShownUpTo(lines, count, start, end)| <= cap < |ShownUpTo(lines, count + 1, start, end)|
  }

  /** `read_numbered_source_slice`. It truncates exactly if the numbered lines do not fit. */
  method ReadNumberedSourceSlice(text: Option<string>, start: U32, end: U32, cap: nat) returns (r: Option<(string, bool)>)
    ensures r.None? <==> text.None?
    ensures r.Some? ==> (r.value.1 <==> |Shown(text.value, start, end)| > cap)
    ensures r.Some? && !r.value.1 ==> r.value.0 == Shown(text.value, start, end)
    ensures r.Some? && r.value.1 ==> CutShort(r.value.0, text.value, start, end, cap)
  {
    if text.None? { return None; }
    var lines := Lines(text.value);
    var output := "";
    for index := 0 to |lines|
      invariant output == ShownUpTo(lines, index, start, end) && |output| <= cap
    {
      var number := index + 1;
      if number > end {
        ShownStops(lines, index, |lines|, start, end);
        return Some((output, false));
      }
      if number >= start {
        var rendered := Rendered(number, lines[index]);
        assert ShownUpTo(lines, number, start, end) == output + rendered;
        if |output| + |rendered| > cap {
          ShownGrows(lines, number, |lines|, start, end);
          assert CutAfter(output + NOTICE, lines, index, start, end, cap);
          return Some((output + NOTICE, true));
        }
        output := output + rendered;
      } else {
        assert output + "" == output;
      }
    }
    return Some((output, false));
  }

  // ---------------------------------------------------------------- what a numbered text says

  ghost predicate AllSpaces(pad: string) {
    forall i :: 0 <= i < |pad| ==> pad[i] == ' '
  }

  /** The line behind its own number, which stands right-aligned in five columns or takes as many as it needs. */
  ghost predicate IsRow(row: string, number: nat, line: string) {
    exists pad :: AllSpaces(pad) && (if |Decimal(number)| >= 5 then pad == "" else |pad + Decimal(number)| == 5)
                  && row == pad + Decimal(number) + ": " + line + "\n"
  }

  function RunTogether(rows: seq<string>): string {
    if rows == [] then "" else RunTogether(rows[..|rows| - 1]) + rows[|rows| - 1]
  }

  lemma {:induction false} PaddedWith(text: string, width: nat) returns (pad: string)
    ensures AllSpaces(pad) && Padded(text, width) == pad + text && (if |text| >= width then pad == "" else |pad| + |text| == width)
    decreases width - |text|
  {
    if |text| >= width {
      pad := "";
    } else {
      var rest := PaddedWith(" " + text, width);
      pad := rest + " ";
      assert rest + (" " + text) == pad + text;
    }
  }

  lemma RenderedIsARow(number: nat, line: string)
    ensures IsRow(Rendered(number, line), number, line)
  {
    var pad := PaddedWith(Decimal(number), 5);
    assert Rendered(number, line) == pad + Decimal(number) + ": " + line + "\n";
  }

  /** The first line of the text that the range names. */
  function FirstLine(start: U32): nat {
    if start == 0 then 1 else start
  }

  /** How many of the first `count` lines lie in the range. */
  function LinesIn(count: nat, start: U32, end: U32): nat {
    var last := if count < end then count else end;
    if last < FirstLine(start) then 0 else last - FirstLine(start) + 1
  }

  lemma LinesInStep(count: nat, start: U32, end: U32)
    requires count > 0
    ensures start <= count <= end ==>
      LinesIn(count, start, end) == LinesIn(count - 1, start, end) + 1 && FirstLine(start) + LinesIn(count - 1, start, end) == count
    ensures !(start <= count <= end) ==> LinesIn(count, start, end) == LinesIn(count - 1, start, end)
  {
  }

  ghost predicate RowsOf(rows: seq<string>, lines: seq<string>, count: nat, start: U32, end: U32)
    requires count <= |lines|
  {
    |rows| == LinesIn(count, start, end) &&
    forall k :: 0 <= k < |rows| ==> FirstLine(start) + k <= count && IsRow(rows[k], FirstLine(start) + k, lines[FirstLine(start) + k - 1])
  }

  lemma RunTogetherSnoc(rows: seq<string>, row: string)
    ensures RunTogether(rows + [row]) == RunTogether(rows) + row
  {
    assert (rows + [row])[..|rows|] == rows;
  }

  lemma NothingAdded(text: string)
    ensures text + "" == text
  {
  }

  /** Every line of the range, once, in order, each behind its own number; and nothing else. */
  lemma {:induction false} ShownLines(lines: seq<string>, count: nat, start: U32, end: U32) returns (rows: seq<string>)
    requires count <= |lines|
    ensures ShownUpTo(lines, count, start, end) == RunTogether(rows) && RowsOf(rows, lines, count, start, end)
    decreases count
  {
    hide IsRow, Rendered, RunTogether;
    if count == 0 {
      rows := [];
      NoRows(start, end);
    } else {
      var front := ShownLines(lines, count - 1, start, end);
      LinesInStep(count, start, end);
      if start <= count <= end {
        RenderedIsARow(count, lines[count - 1]);
        RunTogetherSnoc(front, Rendered(count, lines[count - 1]));
        rows := front + [Rendered(count, lines[count - 1])];
        assert RowsOf(rows, lines, count, start, end);
      } else {
        rows := front;
        NothingAdded(RunTogether(rows));
        assert RowsOf(rows, lines, count, start, end);
      }
    }
  }

  lemma NoRows(start: U32, end: U32)
    ensures RunTogether([]) == "" && LinesIn(0, start, end) == 0
  {
  }

  // ---------------------------------------------------------------- the packet

  datatype OutSlice = OutSlice(start: U32, end: U32, symbols: seq<string>, source: Option<string>, truncated: bool, gapBefore: Option<string>)

  datatype OutFile = OutFile(path: string, slices: seq<OutSlice>, truncated: bool)

  datatype Packet = Packet(files: seq<OutFile>, truncated: bool)

  datatype FileSlices = FileSlices(path: string, slices: seq<Slice>)

  function Length(source: Option<string>): nat {
    if source.None? then 0 else |source.value|
  }

  function Emitted(slices: seq<OutSlice>): nat {
    if slices == [] then 0 else Emitted(slices[..|slices| - 1]) + Length(slices[|slices| - 1].source)
  }

  function TotalEmitted(files: seq<OutFile>): nat {
    if files == [] then 0 else TotalEmitted(files[..|files| - 1]) + Emitted(files[|files| - 1].slices)
  }

  /** Announces the lines between two ranges, if there are any. */
  function GapNote(previousEnd: U32, start: U32): Option<string> {
    if start > SaturatingAdd(previousEnd, 1) then
      Some("... source gap: lines " + Decimal(SaturatingAdd(previousEnd, 1)) + "-" + Decimal(SaturatingSub(start, 1)) + " omitted ...")
    else None
  }

  /** The `i`th range of a file with its labels, and the gap before it announced. */
  ghost predicate Heads(o: OutSlice, merged: seq<Merged>, i: nat)
    requires i < |merged|
  {
    && o.start == merged[i].start && o.end == merged[i].end && o.symbols == merged[i].symbols
    && o.gapBefore == (if i == 0 then None else GapNote(merged[i - 1].end, merged[i].start))
  }

  /** Its lines under a cap: all of them, or as many as fit and the notice. */
  ghost predicate Shows(o: OutSlice, merged: seq<Merged>, i: nat, text: Option<string>, cap: nat)
    requires i < |merged|
  {
    && Heads(o, merged, i) && o.source.Some? == text.Some?
    && (o.truncated <==> text.Some? && |Shown(text.value, o.start, o.end)| > cap)
    && (text.Some? && !o.truncated ==> o.source.value == Shown(text.value, o.start, o.end))
    && (o.truncated ==> CutShort(o.source.value, text.value, o.start, o.end, cap))
  }

  /** What is left of both budgets when `total` bytes of earlier files and `chars` of this one are out. */
  function CapFor(budget: Budget, total: nat, chars: nat): nat {
    var fileRest: nat := if chars > budget.maxCharsPerFile then 0 else budget.maxCharsPerFile - chars;
    var totalRest: nat := if total + chars > budget.maxTotalChars then 0 else budget.maxTotalChars - (total + chars);
    if fileRest <= totalRest then fileRest else totalRest
  }

  lemma NothingLeft(budget: Budget, total: nat, chars: nat)
    requires total + chars >= budget.maxTotalChars || chars >= budget.maxCharsPerFile
    ensures CapFor(budget, total, chars) == 0
  {
  }

  function RangesOf(slices: seq<Slice>): seq<Merged> {
    MergedAll(Sort(ByStart, slices))
  }

  function TextOf(tree: map<string, string>, path: string): Option<string> {
    if path in tree then Some(tree[path]) else None
  }

  /** The file's ranges in order, each as far as the budgets let it; none is left out before a budget is used up. */
  ghost predicate ShowsFile(f: OutFile, input: FileSlices, tree: map<string, string>, budget: Budget, total: nat) {
    var merged := RangesOf(input.slices);
    && f.path == input.path && |f.slices| <= |merged|
    && (|f.slices| < |merged| ==> CapFor(budget, total, Emitted(f.slices)) == 0)
    && forall i :: 0 <= i < |f.slices| ==> Shows(f.slices[i], merged, i, TextOf(tree, f.path), CapFor(budget, total, Emitted(f.slices[..i])))
  }

  /** All ranges, each with all its lines. */
  ghost predicate ShowsWholeFile(f: OutFile, input: FileSlices, tree: map<string, string>) {
    var merged := RangesOf(input.slices);
    && f.path == input.path && |f.slices| == |merged|
    && forall i :: 0 <= i < |f.slices| ==> ShowsWholeRange(f.slices[i], merged, i, TextOf(tree, f.path))
  }

  ghost predicate ShowsWholeRange(o: OutSlice, merged: seq<Merged>, i: nat, text: Option<string>)
    requires i < |merged|
  {
    && Heads(o, merged, i) && !o.truncated
    && o.source == match text case None => None case Some(t) => Some(Shown(t, o.start, o.end))
  }

  lemma EmittedSnoc(slices: seq<OutSlice>, o: OutSlice)
    ensures Emitted(slices + [o]) == Emitted(slices) + Length(o.source)
  {
    assert (slices + [o])[..|slices|] == slices;
  }

  lemma TotalSnoc(files: seq<OutFile>, f: OutFile)
    ensures TotalEmitted(files + [f]) == TotalEmitted(files) + Emitted(f.slices)
  {
    assert (files + [f])[..|files|] == files;
  }

  lemma NoticeLength(output: string, text: string, start: U32, end: U32, cap: nat)
    requires CutShort(output, text, start, end, cap)
    ensures |output| <= cap + 41
  {
    assert |NOTICE| == 41;
  }

  /** The inner loop of `build_explore_source_packet`. `total` is what earlier files emitted. */
  method RenderFile(tree: map<string, string>, input: FileSlices, budget: Budget, total: nat) returns (f: OutFile)
    requires total <= budget.maxTotalChars + 41
    ensures ShowsFile(f, input, tree, budget, total)
    ensures !f.truncated ==> ShowsWholeFile(f, input, tree)
    ensures Emitted(f.slices) <= budget.maxCharsPerFile + 41
    ensures total + Emitted(f.slices) <= budget.maxTotalChars + 41
  {
    hide MergeOf, Shows, ShowsWholeRange, WellFormed, Sorted, Sort, MergedAll, TextOf, CapFor, Emitted;
    var sorted := Sort(ByStart, input.slices);
    var merged := MergeSourceSlices(sorted);
    var text := TextOf(tree, input.path);
    var slices: seq<OutSlice>, chars: nat, truncated := [], 0, false;
    var previousEnd: Option<U32> := None;
    NothingEmitted();
    for i := 0 to |merged|
      invariant |slices| == i && chars == Emitted(slices)
      invariant chars <= budget.maxCharsPerFile + 41 && total + chars <= budget.maxTotalChars + 41
      invariant previousEnd == if i == 0 then None else Some(merged[i - 1].end)
      invariant forall k :: 0 <= k < i ==> Shows(slices[k], merged, k, text, CapFor(budget, total, Emitted(slices[..k])))
      invariant !truncated ==> forall k :: 0 <= k < i ==> ShowsWholeRange(slices[k], merged, k, text)
    {
      if total + chars >= budget.maxTotalChars || chars >= budget.maxCharsPerFile {
        NothingLeft(budget, total, chars);
        return OutFile(input.path, slices, true);
      }
      var o := RenderSlice(text, merged, i, previousEnd, budget, total, chars);
      EmittedSnoc(slices, o);
      previousEnd := Some(merged[i].end);
      chars := chars + Length(o.source);
      truncated := truncated || o.truncated;
      ghost var before := slices;
      slices := slices + [o];
      assert slices[..i] == before;
      assert forall k :: 0 <= k < i ==> slices[k] == before[k] && slices[..k] == before[..k];
    }
    return OutFile(input.path, slices, truncated);
  }

  method RenderSlice(text: Option<string>, merged: seq<Merged>, i: nat, previousEnd: Option<U32>, budget: Budget, total: nat, chars: nat)
    returns (o: OutSlice)
    requires i < |merged| && previousEnd == if i == 0 then None else Some(merged[i - 1].end)
    requires total + chars < budget.maxTotalChars && chars < budget.maxCharsPerFile
    ensures Shows(o, merged, i, text, CapFor(budget, total, chars))
    ensures !o.truncated ==> ShowsWholeRange(o, merged, i, text)
    ensures chars + Length(o.source) <= budget.maxCharsPerFile + 41
    ensures total + chars + Length(o.source) <= budget.maxTotalChars + 41
  {
    var m := merged[i];
    var gap := if previousEnd.None? then None else GapNote(previousEnd.value, m.start);
    var cap := CapFor(budget, total, chars);
    var r := ReadNumberedSourceSlice(text, m.start, m.end, cap);
    hide CutShort, Shown, GapNote;
    if r.None? {
      o := OutSlice(m.start, m.end, m.symbols, None, false, gap);
    } else {
      o := OutSlice(m.start, m.end, m.symbols, Some(r.value.0), r.value.1, gap);
      if r.value.1 {
        NoticeLength(r.value.0, text.value, m.start, m.end, cap);
      }
    }
  }

  ghost predicate DistinctPaths(input: seq<FileSlices>) {
    forall i, j :: 0 <= i < j < |input| ==> input[i].path != input[j].path
  }

  ghost function PathsOf(input: seq<FileSlices>): set<string> {
    set i | 0 <= i < |input| :: input[i].path
  }

  ghost predicate SomeTruncated(files: seq<OutFile>) {
    exists k :: 0 <= k < |files| && files[k].truncated
  }

  lemma {:induction false} DistinctPathsCount(input: seq<FileSlices>)
    requires DistinctPaths(input)
    ensures |PathsOf(input)| == |input|
  {
    if input != [] {
      var last := |input| - 1;
      DistinctPathsCount(input[..last]);
      assert PathsOf(input) == PathsOf(input[..last]) + {input[last].path};
    }
  }

  lemma SubsetCount(a: set<string>, b: set<string>)
    requires a <= b
    ensures |a| <= |b|
  {
    assert b == a + (b - a);
  }

  /** The outer loop of `build_explore_source_packet`: the files in the order of their paths. */
  method BuildSourcePacket(tree: map<string, string>, input: seq<FileSlices>, related: set<string>, budget: Budget) returns (p: Packet)
    ensures |p.files| <= |input| && |p.files| <= budget.maxFiles
    ensures forall k :: 0 <= k < |p.files| ==> ShowsFile(p.files[k], input[k], tree, budget, TotalEmitted(p.files[..k]))
    ensures forall k :: 0 <= k < |p.files| ==> Emitted(p.files[k].slices) <= budget.maxCharsPerFile + 41
    ensures TotalEmitted(p.files) <= budget.maxTotalChars + 41
    ensures !p.truncated && DistinctPaths(input) && PathsOf(input) <= related ==>
      |p.files| == |input| && forall k :: 0 <= k < |input| ==> ShowsWholeFile(p.files[k], input[k], tree)
    ensures p.truncated ==>
      || TotalEmitted(p.files) >= budget.maxTotalChars
      || SomeTruncated(p.files)
      || (|p.files| == budget.maxFiles && |related| > |p.files|)
  {
    hide ShowsFile, ShowsWholeFile, DistinctPaths, SomeTruncated, TotalEmitted, Emitted;
    NothingEmitted();
    var taken := if |input| > budget.maxFiles then budget.maxFiles else |input|;
    var files: seq<OutFile>, total: nat, truncated := [], 0, false;
    var i := 0;
    while i < taken
      invariant 0 <= i <= taken && |files| == i && total == TotalEmitted(files) <= budget.maxTotalChars + 41
      invariant forall k :: 0 <= k < i ==> ShowsFile(files[k], input[k], tree, budget, TotalEmitted(files[..k]))
      invariant forall k :: 0 <= k < i ==> Emitted(files[k].slices) <= budget.maxCharsPerFile + 41
      invariant !truncated ==> forall k :: 0 <= k < i ==> ShowsWholeFile(files[k], input[k], tree)
      invariant truncated ==> SomeTruncated(files)
      decreases taken - i
    {
      var f := RenderFile(tree, input[i], budget, total);
      TotalSnoc(files, f);
      ghost var before := files;
      files := files + [f];
      assert files[..i] == before;
      assert forall k :: 0 <= k < i ==> files[k] == before[k] && files[..k] == before[..k];
      total := total + Emitted(f.slices);
      StillTruncated(before, f);
      truncated := truncated || f.truncated;
      i := i + 1;
      if total >= budget.maxTotalChars {
        return Packet(files, true);
      }
    }
    if |files| >= budget.maxFiles && |related| > |files| {
      return Packet(files, true);
    }
    if DistinctPaths(input) && PathsOf(input) <= related {
      DistinctPathsCount(input);
      SubsetCount(PathsOf(input), related);
    }
    return Packet(files, truncated);
  }

  lemma NothingEmitted()
    ensures TotalEmitted([]) == 0 && Emitted([]) == 0
  {
  }

  lemma StillTruncated(files: seq<OutFile>, f: OutFile)
    ensures SomeTruncated(files + [f]) <==> SomeTruncated(files) || f.truncated
  {
    if SomeTruncated(files) {
      var k :| 0 <= k < |files| && files[k].truncated;
      assert (files + [f])[k].truncated;
    }
    assert (files + [f])[|files|] == f;
  }

  /** Between the ranges of a file with well-formed slices, every omission is announced, with the first and the last line that
      is left out. */
  lemma EveryGapIsAnnounced(slices: seq<Slice>, i: nat)
    requires WellFormed(slices) && 0 < i < |RangesOf(slices)|
    ensures var first, last := RangesOf(slices)[i - 1].end + 1, RangesOf(slices)[i].start - 1;
      first <= last && GapNote(first - 1, last + 1) == Some("... source gap: lines " + Decimal(first) + "-" + Decimal(last) + " omitted ...")
  {
    hide MergeOf, Sort, MergedAll;
    SortedSlices(slices);
    MergeIsRight(Sort(ByStart, slices));
    GapBetween(multiset(slices), RangesOf(slices), i - 1, i);
  }
}
