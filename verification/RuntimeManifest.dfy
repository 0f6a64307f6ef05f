/** The list of runtime files: written one name a line, read back line by line and checked for order and safety. */
module RuntimeManifest {
  import opened Ordering
  import opened Paths
  import opened TextLines

  // ---------------------------------------------------------------- lines

  /** What `write_runtime_file_list` writes. */
  function Written(names: seq<string>): string {
    if names == [] then "\n" else Joined(names) + "\n"
  }

  function Joined(names: seq<string>): string
    requires names != []
  {
    if |names| == 1 then names[0] else names[0] + "\n" + Joined(names[1..])
  }

  predicate OneLine(name: string) {
    '\n' !in name && (name != "" ==> name[|name| - 1] != '\r')
  }

  ghost predicate AllOneLine(names: seq<string>) {
    forall i :: 0 <= i < |names| ==> OneLine(names[i])
  }

  lemma {:induction false} LineThenRest(line: string, name: string, rest: string)
    requires '\n' !in name
    ensures LinesFrom(line, name + "\n" + rest) == [Chomped(line + name)] + Lines(rest)
    decreases |name|
  {
    var text := name + "\n" + rest;
    if name == "" {
      assert text[1..] == rest && line + name == line;
    } else {
      assert text[1..] == name[1..] + "\n" + rest;
      LineThenRest(line + [name[0]], name[1..], rest);
      assert line + [name[0]] + name[1..] == line + name;
    }
  }

  function Terminated(names: seq<string>): string {
    if names == [] then "" else names[0] + "\n" + Terminated(names[1..])
  }

  lemma {:induction false} WrittenIsTerminated(names: seq<string>)
    requires names != []
    ensures Written(names) == Terminated(names)
  {
    if |names| == 1 {
      assert Terminated(names[1..]) == "";
      assert names[0] + "\n" + "" == names[0] + "\n";
    } else {
      WrittenIsTerminated(names[1..]);
      assert names[0] + "\n" + Joined(names[1..]) + "\n" == names[0] + "\n" + (Joined(names[1..]) + "\n");
    }
  }

  lemma {:induction false} ReadsBack(names: seq<string>)
    requires AllOneLine(names)
    ensures Lines(Terminated(names)) == names
  {
    if names != [] {
      LineThenRest("", names[0], Terminated(names[1..]));
      assert "" + names[0] == names[0];
      ReadsBack(names[1..]);
    }
  }

  lemma {:induction false} LinesAreOneLine(line: string, text: string)
    requires '\n' !in line
    ensures forall i :: 0 <= i < |LinesFrom(line, text)| ==> '\n' !in LinesFrom(line, text)[i]
    decreases |text|
  {
    if text != "" {
      if text[0] == '\n' {
        LinesAreOneLine("", text[1..]);
      } else {
        LinesAreOneLine(line + [text[0]], text[1..]);
      }
    }
  }

  /** Names without line feeds come back, each chomped. */
  lemma {:induction false} ReadsChomped(names: seq<string>)
    requires forall i :: 0 <= i < |names| ==> '\n' !in names[i]
    ensures Lines(Terminated(names)) == Mapped(Chomped, names)
  {
    if names != [] {
      LineThenRest("", names[0], Terminated(names[1..]));
      assert "" + names[0] == names[0];
      ReadsChomped(names[1..]);
    }
  }

  /** A written list reads back as it was exactly if every name stays on one line. */
  lemma ListRoundTrip(names: seq<string>)
    ensures Lines(Written(names)) == names <==> names != [] && AllOneLine(names)
  {
    if names == [] {
      assert Lines("\n") == [""] + LinesFrom("", "");
    } else {
      WrittenIsTerminated(names);
      if AllOneLine(names) {
        ReadsBack(names);
      }
      if Lines(Written(names)) == names {
        LinesAreOneLine("", Written(names));
        ReadsChomped(names);
        forall i | 0 <= i < |names|
          ensures OneLine(names[i])
        {
          assert Chomped(names[i]) == names[i];
        }
      }
    }
  }

  // ---------------------------------------------------------------- names

  function Lower(c: char): char {
    if 'A' <= c <= 'Z' then ((c as int) + 32) as char else c
  }

  function LowerCase(name: string): string {
    Mapped(Lower, name)
  }

  predicate LowerLeq(a: string, b: string) {
    StringLeq(LowerCase(a), LowerCase(b))
  }

  predicate SameIgnoringCase(a: string, b: string) {
    LowerCase(a) == LowerCase(b)
  }

  /** `safe_file_name` and `validate_runtime_file_name`. */
  predicate SafeFileName(name: string) {
    name != "" && name != "." && name != ".." && '/' !in name && '\\' !in name && Components(name) == [Normal(name)]
  }

  /** Letter by letter: the checks on `.`, `..` and both separators already make a name one ordinary component. */
  lemma SafeFileNameIff(name: string)
    ensures SafeFileName(name) <==>
      name != "" && name != "." && name != ".." && forall i :: 0 <= i < |name| ==> name[i] != '/' && name[i] != '\\'
  {
    if forall i :: 0 <= i < |name| ==> name[i] != '/' && name[i] != '\\' {
      PiecesOfOne(name);
      assert '/' !in name && '\\' !in name;
      assert [name][1..] == [] && Body([]) == [];
    }
  }

  /** So a safe name stays inside its directory, one level below it. */
  lemma SafeNameStaysInside(root: string, name: string)
    requires IsAbsolute(root) && SafeFileName(name)
    ensures Components(Join(root, name)) == Components(root) + [Normal(name)]
  {
    PiecesOfOne(name);
    ComponentsOfJoined(root, name);
  }

  /** `dedup_by`: of neighbours that are the same, the first stays. */
  function Deduplicated(names: seq<string>): seq<string>
    decreases |names|
  {
    if |names| < 2 then names
    else if SameIgnoringCase(names[0], names[1]) then Deduplicated([names[0]] + names[2..])
    else [names[0]] + Deduplicated(names[1..])
  }

  /** What `runtime_file_names` accepts. */
  predicate Accepted(names: seq<string>) {
    names != [] && names == Deduplicated(Sort(LowerLeq, names)) && forall i :: 0 <= i < |names| ==> SafeFileName(names[i])
  }

  /** Increasing, and no two names that differ in case only. */
  ghost predicate Increasing(names: seq<string>) {
    forall i, j :: 0 <= i < j < |names| ==> LowerLeq(names[i], names[j]) && !SameIgnoringCase(names[i], names[j])
  }

  lemma LowerOrder(names: seq<string>)
    ensures TotalPreorder(LowerLeq)
    ensures Increasing(names) ==> Separates(LowerLeq, multiset(names))
  {
    StringOrder();
    if Increasing(names) {
      forall x, y | x in multiset(names) && y in multiset(names) && LowerLeq(x, y) && LowerLeq(y, x)
        ensures x == y
      {
        assert SameIgnoringCase(x, y);
        assert x in names && y in names;
      }
    }
  }

  lemma {:induction false} NothingToRemove(names: seq<string>)
    requires Increasing(names)
    ensures Deduplicated(names) == names
    decreases |names|
  {
    if |names| >= 2 {
      assert !SameIgnoringCase(names[0], names[1]);
      NothingToRemove(names[1..]);
      assert names == [names[0]] + names[1..];
    }
  }

  lemma {:induction false} DeduplicatedLength(names: seq<string>)
    ensures |Deduplicated(names)| <= |names|
    ensures |Deduplicated(names)| == |names| ==>
      Deduplicated(names) == names && forall i :: 0 <= i < |names| - 1 ==> !SameIgnoringCase(names[i], names[i + 1])
    decreases |names|
  {
    if |names| >= 2 {
      if SameIgnoringCase(names[0], names[1]) {
        DeduplicatedLength([names[0]] + names[2..]);
      } else {
        DeduplicatedLength(names[1..]);
        assert names == [names[0]] + names[1..];
      }
    }
  }

  lemma SortedAndDistinctNeighbours(names: seq<string>)
    requires Sorted(LowerLeq, names)
    requires forall i :: 0 <= i < |names| - 1 ==> !SameIgnoringCase(names[i], names[i + 1])
    ensures Increasing(names)
  {
    StringOrder();
    forall i, j | 0 <= i < j < |names|
      ensures !SameIgnoringCase(names[i], names[j])
    {
      assert LowerLeq(names[i], names[i + 1]) && !SameIgnoringCase(names[i], names[i + 1]);
      if j > i + 1 {
        assert LowerLeq(names[i + 1], names[j]);
      }
    }
  }

  /** The launcher accepts a list exactly if it is not empty, safe, and increasing without two names equal but for case. */
  lemma AcceptedIffIncreasing(names: seq<string>)
    ensures Accepted(names) <==> names != [] && Increasing(names) && forall i :: 0 <= i < |names| ==> SafeFileName(names[i])
  {
    var sorted := Sort(LowerLeq, names);
    LowerOrder(names);
    SortSorts(LowerLeq, names);
    SameLength(names, sorted);
    if Increasing(names) {
      SortedUnique(LowerLeq, names, sorted);
      NothingToRemove(names);
    }
    if names == Deduplicated(sorted) {
      DeduplicatedLength(sorted);
      SortedAndDistinctNeighbours(sorted);
    }
  }
}
