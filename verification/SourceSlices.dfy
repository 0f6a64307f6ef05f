/** Merging the line ranges that were collected for one file. */
module SourceSlices {
  import opened Ordering

  const U32_MAX := 0xFFFF_FFFF

  type U32 = n: nat | n <= 0xFFFF_FFFF

  function SaturatingAdd(a: U32, b: U32): U32 {
    if a + b > U32_MAX then U32_MAX else a + b
  }

  function SaturatingSub(a: U32, b: U32): U32 {
    if b > a then 0 else a - b
  }

  datatype Slice = Slice(start: U32, end: U32, symbol: string)

  datatype Merged = Merged(start: U32, end: U32, symbols: seq<string>)

  /** Into the last range if it starts no more than three lines behind it, else a range of its own. */
  function Added(merged: seq<Merged>, s: Slice): seq<Merged> {
    if merged != [] && s.start <= SaturatingAdd(merged[|merged| - 1].end, 3) then
      merged[|merged| - 1 := Extended(merged[|merged| - 1], s)]
    else
      merged + [Merged(s.start, s.end, [s.symbol])]
  }

  function Extended(last: Merged, s: Slice): Merged {
    Merged(last.start, if s.end > last.end then s.end else last.end,
           if s.symbol in last.symbols then last.symbols else last.symbols + [s.symbol])
  }

  function MergedAll(slices: seq<Slice>): seq<Merged> {
    if slices == [] then [] else Added(MergedAll(slices[..|slices| - 1]), slices[|slices| - 1])
  }

  predicate ByStart(a: Slice, b: Slice) {
    a.start <= b.start
  }

  ghost predicate WellFormed(slices: seq<Slice>) {
    forall i :: 0 <= i < |slices| ==> slices[i].start <= slices[i].end
  }

  // ---------------------------------------------------------------- what merging is for

  ghost predicate Covered(slices: multiset<Slice>, line: int) {
    exists s :: s in slices && s.start <= line <= s.end
  }

  ghost predicate Within(s: Slice, m: Merged) {
    m.start <= s.start && s.end <= m.end
  }

  /** At least three lines lie between two ranges. */
  ghost predicate Apart(merged: seq<Merged>) {
    forall i, j :: 0 <= i < j < |merged| ==> merged[i].end + 4 <= merged[j].start
  }

  ghost predicate Ends(slices: multiset<Slice>, start: U32, end: U32) {
    && (exists s :: s in slices && s.start == start)
    && (exists s :: s in slices && s.end == end)
  }

  /** A range begins and ends with a slice, and no three lines of it in a row belong to no slice. */
  ghost predicate Filled(slices: multiset<Slice>, m: Merged) {
    && m.start <= m.end && Ends(slices, m.start, m.end)
    && forall line :: m.start <= line && line + 2 <= m.end ==>
         Covered(slices, line) || Covered(slices, line + 1) || Covered(slices, line + 2)
  }

  ghost predicate Distinct(symbols: seq<string>) {
    forall i, j :: 0 <= i < j < |symbols| ==> symbols[i] != symbols[j]
  }

  /** Every symbol once, and just the symbols of the slices within. */
  ghost predicate Labelled(slices: multiset<Slice>, m: Merged) {
    && Distinct(m.symbols)
    && forall symbol :: symbol in m.symbols <==> exists s :: s in slices && Within(s, m) && s.symbol == symbol
  }

  ghost predicate Housed(s: Slice, merged: seq<Merged>) {
    exists j :: 0 <= j < |merged| && Within(s, merged[j])
  }

  /** The merged form of these slices. */
  ghost predicate MergeOf(slices: multiset<Slice>, merged: seq<Merged>) {
    && Apart(merged)
    && (forall j :: 0 <= j < |merged| ==> Filled(slices, merged[j]) && Labelled(slices, merged[j]))
    && (forall s :: s in slices ==> Housed(s, merged))
  }

  /** `merge_source_slices`. */
  method MergeSourceSlices(slices: seq<Slice>) returns (merged: seq<Merged>)
    ensures merged == MergedAll(slices)
    ensures Sorted(ByStart, slices) && WellFormed(slices) ==> MergeOf(multiset(slices), merged)
  {
    hide MergeOf, Sorted, WellFormed, MergedAll;
    merged := [];
    NothingToMerge();
    for i := 0 to |slices|
      invariant merged == MergedAll(slices[..i])
    {
      var s, last := slices[i], |merged| - 1;
      assert slices[..i + 1][..i] == slices[..i];
      MergedAllStep(slices[..i + 1]);
      if merged != [] && s.start <= SaturatingAdd(merged[last].end, 3) {
        merged := merged[last := Extended(merged[last], s)];
      } else {
        merged := merged + [Merged(s.start, s.end, [s.symbol])];
      }
    }
    assert slices[..|slices|] == slices;
    if Sorted(ByStart, slices) && WellFormed(slices) {
      MergeIsRight(slices);
    }
  }

  lemma NothingToMerge()
    ensures MergedAll([]) == []
  {
  }

  // ---------------------------------------------------------------- proof, slice by slice

  lemma CoveredMore(slices: multiset<Slice>, s: Slice, line: int)
    ensures Covered(slices, line) ==> Covered(slices + multiset{s}, line)
    ensures s.start <= line <= s.end ==> Covered(slices + multiset{s}, line)
  {
    assert s in slices + multiset{s};
    if Covered(slices, line) {
      var t :| t in slices && t.start <= line <= t.end;
      assert t in slices + multiset{s};
    }
  }

  lemma FilledMore(slices: multiset<Slice>, s: Slice, m: Merged)
    requires Filled(slices, m)
    ensures Filled(slices + multiset{s}, m)
  {
    var a :| a in slices && a.start == m.start;
    var b :| b in slices && b.end == m.end;
    assert a in slices + multiset{s} && b in slices + multiset{s};
    forall line
      ensures Covered(slices, line) ==> Covered(slices + multiset{s}, line)
    {
      CoveredMore(slices, s, line);
    }
  }

  lemma EndIsCovered(slices: multiset<Slice>, m: Merged)
    requires Filled(slices, m) && forall t :: t in slices ==> t.start <= t.end
    ensures Covered(slices, m.start) && Covered(slices, m.end)
  {
  }

  lemma ExtendedIsFilled(slices: multiset<Slice>, s: Slice, m: Merged)
    requires Filled(slices, m) && m.start <= s.start <= s.end && s.start <= m.end + 3
    requires forall t :: t in slices ==> t.start <= t.end
    ensures Filled(slices + multiset{s}, Extended(m, s))
  {
    var more, e := slices + multiset{s}, Extended(m, s);
    EndIsCovered(slices, m);
    FilledMore(slices, s, m);
    CoveredMore(slices, s, m.end);
    assert s in more;
    forall line | e.start <= line && line + 2 <= e.end
      ensures Covered(more, line) || Covered(more, line + 1) || Covered(more, line + 2)
    {
      CoveredMore(slices, s, line + 2);
    }
  }

  lemma ExtendedIsLabelled(slices: multiset<Slice>, s: Slice, m: Merged)
    requires Labelled(slices, m) && m.start <= s.start
    requires forall t :: t in slices && Within(t, Extended(m, s)) ==> Within(t, m)
    ensures Labelled(slices + multiset{s}, Extended(m, s))
  {
    var more, e := slices + multiset{s}, Extended(m, s);
    forall symbol
      ensures symbol in e.symbols <==> exists t :: t in more && Within(t, e) && t.symbol == symbol
    {
      if symbol in m.symbols {
        var t :| t in slices && Within(t, m) && t.symbol == symbol;
        assert t in more && Within(t, e);
      }
      assert s in more && Within(s, e);
      if exists t :: t in more && Within(t, e) && t.symbol == symbol {
        var t :| t in more && Within(t, e) && t.symbol == symbol;
        if t != s {
          assert t in slices && Within(t, m);
        }
      }
    }
  }

  lemma OthersStayLabelled(slices: multiset<Slice>, s: Slice, m: Merged)
    requires Labelled(slices, m) && !Within(s, m)
    ensures Labelled(slices + multiset{s}, m)
  {
    var more := slices + multiset{s};
    forall symbol
      ensures symbol in m.symbols <==> exists t :: t in more && Within(t, m) && t.symbol == symbol
    {
      if exists t :: t in slices && Within(t, m) && t.symbol == symbol {
        var t :| t in slices && Within(t, m) && t.symbol == symbol;
        assert t in more;
      }
      if exists t :: t in more && Within(t, m) && t.symbol == symbol {
        var t :| t in more && Within(t, m) && t.symbol == symbol;
        assert t in slices;
      }
    }
  }

  lemma RangeOf(slices: multiset<Slice>, merged: seq<Merged>, s: Slice) returns (j: nat)
    requires MergeOf(slices, merged) && s in slices
    ensures j < |merged| && Within(s, merged[j])
  {
    assert Housed(s, merged);
    j :| 0 <= j < |merged| && Within(s, merged[j]);
  }

  lemma RangeIsRight(slices: multiset<Slice>, merged: seq<Merged>, j: nat)
    requires MergeOf(slices, merged) && j < |merged|
    ensures Filled(slices, merged[j]) && Labelled(slices, merged[j]) && merged[j].start <= merged[j].end
  {
    assert Filled(slices, merged[j]);
  }

  lemma GapBetween(slices: multiset<Slice>, merged: seq<Merged>, i: nat, j: nat)
    requires MergeOf(slices, merged) && i < j < |merged|
    ensures merged[i].end + 4 <= merged[j].start
  {
  }

  lemma Assembled(slices: multiset<Slice>, merged: seq<Merged>)
    requires Apart(merged)
    requires forall j :: 0 <= j < |merged| ==> Filled(slices, merged[j]) && Labelled(slices, merged[j])
    requires forall s :: s in slices ==> Housed(s, merged)
    ensures MergeOf(slices, merged)
  {
    hide Filled, Labelled, Housed, Apart;
  }

  /** What the new range says of itself. */
  lemma NewRangeIsRight(slices: multiset<Slice>, s: Slice, m: Merged)
    requires s.start <= s.end && m == Merged(s.start, s.end, [s.symbol])
    requires forall t :: t in slices ==> !Within(t, m)
    ensures Filled(slices + multiset{s}, m) && Labelled(slices + multiset{s}, m)
  {
    var more := slices + multiset{s};
    assert s in more && Within(s, m);
    forall line | m.start <= line && line + 2 <= m.end
      ensures Covered(more, line)
    {
      CoveredMore(slices, s, line);
    }
  }

  lemma OthersStayRight(slices: multiset<Slice>, s: Slice, merged: seq<Merged>, j: nat)
    requires MergeOf(slices, merged) && s.start <= s.end && j < |merged| && merged[j].end < s.start
    ensures Filled(slices + multiset{s}, merged[j]) && Labelled(slices + multiset{s}, merged[j])
  {
    assert Filled(slices, merged[j]) && Labelled(slices, merged[j]);
    hide MergeOf, Filled, Labelled;
    FilledMore(slices, s, merged[j]);
    OthersStayLabelled(slices, s, merged[j]);
  }

  /** Every slice stays housed when the last range grows or another is appended. */
  lemma HousedMore(slices: multiset<Slice>, s: Slice, merged: seq<Merged>, after: seq<Merged>)
    requires (forall t :: t in slices ==> Housed(t, merged)) && |after| >= |merged| && after != []
    requires forall j :: 0 <= j < |merged| ==> after[j].start == merged[j].start && merged[j].end <= after[j].end
    requires Within(s, after[|after| - 1])
    ensures forall t :: t in slices + multiset{s} ==> Housed(t, after)
  {
    forall t | t in slices + multiset{s}
      ensures Housed(t, after)
    {
      if t != s {
        assert t in slices && Housed(t, merged);
        var j :| 0 <= j < |merged| && Within(t, merged[j]);
        assert Within(t, after[j]);
      }
    }
  }

  lemma NewRange(slices: multiset<Slice>, s: Slice, merged: seq<Merged>)
    requires MergeOf(slices, merged) && s.start <= s.end
    requires forall t :: t in slices ==> t.start <= t.end
    requires forall j :: 0 <= j < |merged| ==> merged[j].end + 4 <= s.start
    ensures MergeOf(slices + multiset{s}, merged + [Merged(s.start, s.end, [s.symbol])])
  {
    hide Filled, Labelled;
    var more, m := slices + multiset{s}, Merged(s.start, s.end, [s.symbol]);
    var after := merged + [m];
    forall t | t in slices
      ensures !Within(t, m)
    {
      assert Housed(t, merged);
    }
    NewRangeIsRight(slices, s, m);
    forall j | 0 <= j < |after|
      ensures Filled(more, after[j]) && Labelled(more, after[j])
    {
      if j < |merged| {
        OthersStayRight(slices, s, merged, j);
      }
    }
    HousedMore(slices, s, merged, after);
  }

  /** No slice comes to lie within a range just because the range grew. */
  lemma NobodyMovesIn(slices: multiset<Slice>, s: Slice, merged: seq<Merged>)
    requires MergeOf(slices, merged) && merged != [] && forall t :: t in slices ==> t.start <= t.end
    ensures var m := merged[|merged| - 1]; forall t :: t in slices && Within(t, Extended(m, s)) ==> Within(t, m)
  {
    hide MergeOf;
    var last := |merged| - 1;
    forall t | t in slices && Within(t, Extended(merged[last], s))
      ensures Within(t, merged[last])
    {
      var j := RangeOf(slices, merged, t);
      if j < last {
        GapBetween(slices, merged, j, last);
      }
    }
  }

  lemma GrownIsRight(slices: multiset<Slice>, s: Slice, merged: seq<Merged>)
    requires MergeOf(slices, merged) && s.start <= s.end && merged != []
    requires forall t :: t in slices ==> t.start <= t.end && t.start <= s.start
    requires s.start <= merged[|merged| - 1].end + 3
    ensures var e := Extended(merged[|merged| - 1], s);
      && e.start <= s.start && Filled(slices + multiset{s}, e) && Labelled(slices + multiset{s}, e)
  {
    hide Filled, Labelled, MergeOf;
    var m := merged[|merged| - 1];
    RangeIsRight(slices, merged, |merged| - 1);
    StartsEarlier(slices, m, s.start);
    NobodyMovesIn(slices, s, merged);
    ExtendedIsFilled(slices, s, m);
    ExtendedIsLabelled(slices, s, m);
  }

  lemma OthersStay(slices: multiset<Slice>, s: Slice, merged: seq<Merged>, e: Merged)
    requires MergeOf(slices, merged) && s.start <= s.end && merged != [] && merged[|merged| - 1].start <= s.start
    requires Filled(slices + multiset{s}, e) && Labelled(slices + multiset{s}, e)
    ensures var after := merged[|merged| - 1 := e];
      forall j :: 0 <= j < |after| ==> Filled(slices + multiset{s}, after[j]) && Labelled(slices + multiset{s}, after[j])
  {
    hide Filled, Labelled, MergeOf;
    var more, after := slices + multiset{s}, merged[|merged| - 1 := e];
    forall j | 0 <= j < |after|
      ensures Filled(more, after[j]) && Labelled(more, after[j])
    {
      if j < |merged| - 1 {
        GapBetween(slices, merged, j, |merged| - 1);
        OthersStayRight(slices, s, merged, j);
      }
    }
  }

  lemma LongerRange(slices: multiset<Slice>, s: Slice, merged: seq<Merged>)
    requires MergeOf(slices, merged) && s.start <= s.end && merged != []
    requires forall t :: t in slices ==> t.start <= t.end && t.start <= s.start
    requires s.start <= merged[|merged| - 1].end + 3
    ensures MergeOf(slices + multiset{s}, merged[|merged| - 1 := Extended(merged[|merged| - 1], s)])
  {
    hide Filled, Labelled, MergeOf, Apart, Housed;
    var e := Extended(merged[|merged| - 1], s);
    GrownIsRight(slices, s, merged);
    OthersStay(slices, s, merged, e);
    StillApart(slices, merged, e);
    Regrouped(slices, s, merged, e);
    Assembled(slices + multiset{s}, merged[|merged| - 1 := e]);
  }

  lemma Regrouped(slices: multiset<Slice>, s: Slice, merged: seq<Merged>, e: Merged)
    requires MergeOf(slices, merged) && merged != [] && merged[|merged| - 1].start == e.start && merged[|merged| - 1].end <= e.end
    requires Within(s, e)
    ensures forall t :: t in slices + multiset{s} ==> Housed(t, merged[|merged| - 1 := e])
  {
    hide MergeOf, Housed;
    AllHoused(slices, merged);
    HousedMore(slices, s, merged, merged[|merged| - 1 := e]);
  }

  lemma StartsEarlier(slices: multiset<Slice>, m: Merged, start: U32)
    requires Filled(slices, m) && forall t :: t in slices ==> t.start <= start
    ensures m.start <= start
  {
  }

  lemma StillApart(slices: multiset<Slice>, merged: seq<Merged>, e: Merged)
    requires MergeOf(slices, merged) && merged != [] && e.start == merged[|merged| - 1].start
    ensures Apart(merged[|merged| - 1 := e])
  {
    hide MergeOf;
    var after := merged[|merged| - 1 := e];
    forall i, j | 0 <= i < j < |after|
      ensures after[i].end + 4 <= after[j].start
    {
      GapBetween(slices, merged, i, j);
    }
  }

  lemma AllHoused(slices: multiset<Slice>, merged: seq<Merged>)
    requires MergeOf(slices, merged)
    ensures forall t :: t in slices ==> Housed(t, merged)
  {
  }

  lemma FrontIsBefore(slices: seq<Slice>)
    requires Sorted(ByStart, slices) && WellFormed(slices) && slices != []
    ensures var front := slices[..|slices| - 1];
      && Sorted(ByStart, front) && WellFormed(front)
      && multiset(slices) == multiset(front) + multiset{slices[|slices| - 1]}
      && forall t :: t in multiset(front) ==> t.start <= t.end && t.start <= slices[|slices| - 1].start
  {
    assert slices == slices[..|slices| - 1] + [slices[|slices| - 1]];
  }

  lemma AddedIsRight(slices: multiset<Slice>, s: Slice, merged: seq<Merged>)
    requires MergeOf(slices, merged) && s.start <= s.end
    requires forall t :: t in slices ==> t.start <= t.end && t.start <= s.start
    ensures MergeOf(slices + multiset{s}, Added(merged, s))
  {
    hide MergeOf;
    if merged != [] && s.start <= merged[|merged| - 1].end + 3 {
      LongerRange(slices, s, merged);
    } else {
      LastIsFurthest(slices, merged, s.start);
      NewRange(slices, s, merged);
    }
  }

  lemma MergedAllStep(slices: seq<Slice>)
    requires slices != []
    ensures MergedAll(slices) == Added(MergedAll(slices[..|slices| - 1]), slices[|slices| - 1])
  {
  }

  lemma {:induction false} MergeIsRight(slices: seq<Slice>)
    requires Sorted(ByStart, slices) && WellFormed(slices)
    ensures MergeOf(multiset(slices), MergedAll(slices))
  {
    if slices != [] {
      var last := |slices| - 1;
      FrontIsBefore(slices);
      MergedAllStep(slices);
      assert slices[last].start <= slices[last].end;
      hide Sorted, WellFormed, MergeOf, MergedAll, Added;
      MergeIsRight(slices[..last]);
      AddedIsRight(multiset(slices[..last]), slices[last], MergedAll(slices[..last]));
    } else {
      NothingMerged();
    }
  }

  lemma NothingMerged()
    ensures MergeOf(multiset{}, [])
  {
  }

  lemma LastIsFurthest(slices: multiset<Slice>, merged: seq<Merged>, start: U32)
    requires MergeOf(slices, merged) && (merged == [] || merged[|merged| - 1].end + 3 < start)
    ensures forall j :: 0 <= j < |merged| ==> merged[j].end + 4 <= start
  {
    hide MergeOf;
    forall j | 0 <= j < |merged|
      ensures merged[j].end + 4 <= start
    {
      RangeIsRight(slices, merged, |merged| - 1);
      if j < |merged| - 1 {
        GapBetween(slices, merged, j, |merged| - 1);
      }
    }
  }

  // ---------------------------------------------------------------- the merged form is unique

  ghost predicate InRange(merged: seq<Merged>, line: int) {
    exists j :: 0 <= j < |merged| && merged[j].start <= line <= merged[j].end
  }

  /** The line belongs to a slice, or lies between two slices at most three lines apart. */
  ghost predicate Bridged(slices: multiset<Slice>, line: int) {
    Covered(slices, line) ||
    exists s, t :: s in slices && t in slices && s.end < line < t.start && t.start <= s.end + 3
  }

  lemma CoveredIsInRange(slices: multiset<Slice>, merged: seq<Merged>, line: int)
    requires MergeOf(slices, merged) && Covered(slices, line)
    ensures InRange(merged, line)
  {
    hide Apart, Filled, Labelled, Distinct;
    var s :| s in slices && s.start <= line <= s.end;
    assert Housed(s, merged);
    var j :| 0 <= j < |merged| && Within(s, merged[j]);
    assert merged[j].start <= line <= merged[j].end;
  }

  /** Which lines are in some range depends on the slices only. */
  lemma RangesAreBridges(slices: multiset<Slice>, merged: seq<Merged>, line: int)
    requires MergeOf(slices, merged) && forall s: Slice :: s in slices ==> s.start <= s.end
    ensures InRange(merged, line) <==> Bridged(slices, line)
  {
    hide Filled, Labelled, Covered;
    if Covered(slices, line) {
      CoveredIsInRange(slices, merged, line);
    } else {
      if InRange(merged, line) {
        var j :| 0 <= j < |merged| && merged[j].start <= line <= merged[j].end;
        assert Filled(slices, merged[j]);
        UncoveredIsBridged(slices, merged[j], line);
      }
      if Bridged(slices, line) {
        var s, t :| s in slices && t in slices && s.end < line < t.start && t.start <= s.end + 3;
        NearSlicesShare(slices, merged, s, t, line);
      }
    }
  }

  lemma NearSlicesShare(slices: multiset<Slice>, merged: seq<Merged>, s: Slice, t: Slice, line: int)
    requires MergeOf(slices, merged) && s in slices && t in slices && s.start <= s.end && t.start <= t.end
    requires s.end < line < t.start && t.start <= s.end + 3
    ensures InRange(merged, line)
  {
    hide MergeOf;
    var i := RangeOf(slices, merged, s);
    var j := RangeOf(slices, merged, t);
    if i < j {
      GapBetween(slices, merged, i, j);
    } else {
      if j < i {
        GapBetween(slices, merged, j, i);
      }
      assert merged[i].start <= line <= merged[i].end;
    }
  }

  /** Left and right of an uncovered line of a range, two slices are near. */
  lemma UncoveredIsBridged(slices: multiset<Slice>, m: Merged, line: int)
    requires Filled(slices, m) && m.start <= line <= m.end && !Covered(slices, line)
    requires forall s :: s in slices ==> s.start <= s.end
    ensures Bridged(slices, line)
  {
    EndIsCovered(slices, m);
    var left := if Covered(slices, line - 1) then line - 1 else line - 2;
    var right := if Covered(slices, line + 1) then line + 1 else line + 2;
    assert m.start < line < m.end;
    assert Covered(slices, left) && Covered(slices, right) && right <= left + 3;
    var s :| s in slices && s.start <= left <= s.end;
    var t :| t in slices && t.start <= right <= t.end;
    LineOutside(slices, s, line);
    LineOutside(slices, t, line);
  }

  lemma LineOutside(slices: multiset<Slice>, s: Slice, line: int)
    requires s in slices && !Covered(slices, line)
    ensures line < s.start || s.end < line
  {
  }

  /** Ranges that are apart and not empty. */
  ghost predicate Proper(merged: seq<Merged>) {
    Apart(merged) && forall j :: 0 <= j < |merged| ==> merged[j].start <= merged[j].end
  }

  ghost predicate SameLines(a: seq<Merged>, b: seq<Merged>) {
    forall line: int :: InRange(a, line) <==> InRange(b, line)
  }

  lemma FirstIsLowest(a: seq<Merged>, line: int)
    requires Proper(a) && InRange(a, line)
    ensures a != [] && a[0].start <= line
    ensures InRange(a[1..], line) <==> line > a[0].end
  {
    var j :| 0 <= j < |a| && a[j].start <= line <= a[j].end;
    assert j > 0 ==> a[0].end + 4 <= a[j].start && a[1..][j - 1] == a[j];
    if InRange(a[1..], line) {
      var k :| 0 <= k < |a[1..]| && a[1..][k].start <= line <= a[1..][k].end;
      assert a[1..][k] == a[k + 1];
    }
  }

  lemma TailLines(a: seq<Merged>, line: int)
    requires a != [] && InRange(a[1..], line)
    ensures InRange(a, line)
  {
    var k :| 0 <= k < |a[1..]| && a[1..][k].start <= line <= a[1..][k].end;
    assert a[1..][k] == a[k + 1];
  }

  lemma HeadIsIn(a: seq<Merged>, line: int)
    requires a != [] && a[0].start <= line <= a[0].end
    ensures InRange(a, line)
  {
  }

  lemma HeadEndsNoLater(a: seq<Merged>, b: seq<Merged>)
    requires Proper(a) && Proper(b) && SameLines(a, b) && a != [] && b != []
    ensures b[0].start <= a[0].start && a[0].end <= b[0].end
  {
    HeadIsIn(a, a[0].start);
    FirstIsLowest(b, a[0].start);
    HeadIsIn(b, b[0].start);
    FirstIsLowest(a, b[0].start);
    if b[0].end < a[0].end {
      HeadIsIn(a, b[0].end + 1);
      assert InRange(b, b[0].end + 1);
      FirstIsLowest(b, b[0].end + 1);
      NotRightBehind(b);
    }
  }

  lemma NotRightBehind(b: seq<Merged>)
    requires Proper(b) && b != []
    ensures !InRange(b[1..], b[0].end + 1)
  {
    forall k | 0 <= k < |b[1..]|
      ensures b[0].end + 4 <= b[1..][k].start
    {
      assert b[1..][k] == b[k + 1];
    }
  }

  lemma TailsSameLines(a: seq<Merged>, b: seq<Merged>)
    requires Proper(a) && Proper(b) && SameLines(a, b) && a != [] && b != [] && a[0].end == b[0].end
    ensures Proper(a[1..]) && Proper(b[1..]) && SameLines(a[1..], b[1..])
  {
    forall line: int
      ensures InRange(a[1..], line) <==> InRange(b[1..], line)
    {
      if InRange(a[1..], line) {
        TailLines(a, line);
        FirstIsLowest(a, line);
        FirstIsLowest(b, line);
      }
      if InRange(b[1..], line) {
        TailLines(b, line);
        FirstIsLowest(b, line);
        FirstIsLowest(a, line);
      }
    }
  }

  /** Ranges that are apart are determined by the lines in them. */
  lemma {:induction false} SameLinesSameRanges(a: seq<Merged>, b: seq<Merged>)
    requires Proper(a) && Proper(b) && SameLines(a, b)
    ensures |a| == |b| && forall i :: 0 <= i < |a| ==> a[i].start == b[i].start && a[i].end == b[i].end
    decreases |a|
  {
    hide Proper, SameLines;
    if a == [] || b == [] {
      NoLines(a, b);
    } else {
      HeadEndsNoLater(a, b);
      Flipped(a, b);
      HeadEndsNoLater(b, a);
      TailsSameLines(a, b);
      SameLinesSameRanges(a[1..], b[1..]);
      forall i | 0 <= i < |a|
        ensures a[i].start == b[i].start && a[i].end == b[i].end
      {
        if i > 0 {
          assert a[i] == a[1..][i - 1] && b[i] == b[1..][i - 1];
        }
      }
    }
  }

  lemma Flipped(a: seq<Merged>, b: seq<Merged>)
    requires SameLines(a, b)
    ensures SameLines(b, a)
  {
  }

  lemma NoLines(a: seq<Merged>, b: seq<Merged>)
    requires Proper(a) && Proper(b) && SameLines(a, b) && (a == [] || b == [])
    ensures a == [] && b == []
  {
    assert a != [] ==> InRange(a, a[0].start);
    assert b != [] ==> InRange(b, b[0].start);
  }

  ghost predicate SameSymbols(a: Merged, b: Merged) {
    forall symbol :: symbol in a.symbols <==> symbol in b.symbols
  }

  /** There is one merged form: ranges and the labels on them depend on the slices alone. */
  lemma MergeIsUnique(slices: multiset<Slice>, a: seq<Merged>, b: seq<Merged>)
    requires MergeOf(slices, a) && MergeOf(slices, b) && forall s: Slice :: s in slices ==> s.start <= s.end
    ensures |a| == |b|
    ensures forall i :: 0 <= i < |a| ==> a[i].start == b[i].start && a[i].end == b[i].end && SameSymbols(a[i], b[i])
  {
    IsProper(slices, a);
    IsProper(slices, b);
    hide MergeOf, Proper;
    forall line: int
      ensures InRange(a, line) <==> InRange(b, line)
    {
      RangesAreBridges(slices, a, line);
      RangesAreBridges(slices, b, line);
    }
    SameLinesSameRanges(a, b);
    forall i | 0 <= i < |a|
      ensures SameSymbols(a[i], b[i])
    {
      RangeIsRight(slices, a, i);
      RangeIsRight(slices, b, i);
      SameRangeSameSymbols(slices, a[i], b[i]);
    }
  }

  lemma SameRangeSameSymbols(slices: multiset<Slice>, a: Merged, b: Merged)
    requires Labelled(slices, a) && Labelled(slices, b) && a.start == b.start && a.end == b.end
    ensures SameSymbols(a, b)
  {
    forall symbol
      ensures symbol in a.symbols <==> symbol in b.symbols
    {
      assert (exists s :: s in slices && Within(s, a) && s.symbol == symbol) <==> (exists s :: s in slices && Within(s, b) && s.symbol == symbol) by {
        assert forall s: Slice :: Within(s, a) <==> Within(s, b);
      }
    }
  }

  lemma IsProper(slices: multiset<Slice>, a: seq<Merged>)
    requires MergeOf(slices, a)
    ensures Proper(a)
  {
    assert Apart(a);
    hide MergeOf;
    forall j | 0 <= j < |a|
      ensures a[j].start <= a[j].end
    {
      RangeIsRight(slices, a, j);
    }
  }

  /** Collecting the slices of a file in another order gives the same ranges with the same labels. */
  lemma CollectionOrderDoesNotMatter(x: seq<Slice>, y: seq<Slice>)
    requires WellFormed(x) && multiset(x) == multiset(y)
    ensures var a, b := MergedAll(Sort(ByStart, x)), MergedAll(Sort(ByStart, y));
      |a| == |b| && forall i :: 0 <= i < |a| ==> a[i].start == b[i].start && a[i].end == b[i].end && SameSymbols(a[i], b[i])
  {
    SortedSlices(x);
    WellFormedAgain(x, y);
    SortedSlices(y);
    hide Sort, MergeOf, MergedAll, Sorted, WellFormed;
    MergeIsRight(Sort(ByStart, x));
    MergeIsRight(Sort(ByStart, y));
    MergeIsUnique(multiset(x), MergedAll(Sort(ByStart, x)), MergedAll(Sort(ByStart, y)));
  }

  lemma WellFormedAgain(x: seq<Slice>, y: seq<Slice>)
    requires WellFormed(x) && multiset(x) == multiset(y)
    ensures WellFormed(y) && forall s: Slice :: s in multiset(x) ==> s.start <= s.end
  {
    forall i | 0 <= i < |y|
      ensures y[i].start <= y[i].end
    {
      assert y[i] in multiset(x);
      assert y[i] in x;
    }
    forall s: Slice | s in multiset(x)
      ensures s.start <= s.end
    {
      assert s in x;
    }
  }

  lemma SortedSlices(slices: seq<Slice>)
    ensures Sorted(ByStart, Sort(ByStart, slices)) && multiset(Sort(ByStart, slices)) == multiset(slices)
    ensures WellFormed(slices) ==> WellFormed(Sort(ByStart, slices))
  {
    SortSorts(ByStart, slices);
    if WellFormed(slices) {
      WellFormedAgain(slices, Sort(ByStart, slices));
    }
  }
}
