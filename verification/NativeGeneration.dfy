/** What a native runtime generation is: named files, a list of them, an executable that carries their id. */
module NativeGeneration {
  import opened Options
  import opened Hexadecimal
  import opened Paths
  import opened Decimals
  import opened SeedMarker
  import opened TextLines
  import opened RuntimeManifest

  const EXECUTABLE := "codestory-cli-runtime"
  const FILE_LIST := "codestory-native-runtime-files-v1.txt"
  const NUL := '\0'

  /** A link stands for what can be read through it. */
  datatype Node = Regular(bytes: string) | Link(target: Option<string>) | Other

  type Dir = map<string, Node>

  /** A digest function with 32 bytes of output. */
  type Sha = string -> string

  ghost predicate IsSha(h: Sha) {
    forall x :: |h(x)| == 32
  }

  /** The hash tells these two texts apart. */
  predicate Apart(h: Sha, x: string, y: string) {
    h(x) == h(y) ==> x == y
  }

  function HexText(digest: string): (text: string)
    ensures |text| == 2 * |digest| && AllHex(text)
  {
    if digest == "" then "" else Hex(digest[0] as int % 256, 2) + HexText(digest[1..])
  }

  function ReadThrough(d: Dir, name: string): Option<string> {
    if name !in d then None else match d[name]
      case Regular(bytes) => Some(bytes)
      case Link(target) => target
      case Other => None
  }

  predicate IsRegular(d: Dir, name: string) {
    name in d && d[name].Regular?
  }

  /** What `runtime_file_names` answers. */
  function ManifestNames(d: Dir): Option<seq<string>> {
    match ReadThrough(d, FILE_LIST)
    case None => None
    case Some(text) => if Accepted(Lines(text)) then Some(Lines(text)) else None
  }

  // ---------------------------------------------------------------- identities

  datatype Artifact = Artifact(name: string, bytes: string)

  function Listed(h: Sha, artifacts: seq<Artifact>): string {
    if artifacts == [] then "" else artifacts[0].name + [NUL] + (h(artifacts[0].bytes) + Listed(h, artifacts[1..]))
  }

  const SEED_TAG := "codestory-native-generation-v1\0"

  /** What is hashed for a list of files. */
  function ListText(h: Sha, artifacts: seq<Artifact>): string {
    SEED_TAG + Listed(h, artifacts)
  }

  /** `generation_id`, over the sources. */
  function GenerationId(h: Sha, artifacts: seq<Artifact>): string {
    HexText(h(ListText(h, artifacts)))
  }

  predicate AllRegular(d: Dir, names: seq<string>) {
    forall i :: 0 <= i < |names| ==> IsRegular(d, names[i])
  }

  function ArtifactsOf(d: Dir, names: seq<string>): (r: seq<Artifact>)
    requires AllRegular(d, names)
    ensures |r| == |names|
  {
    seq(|names|, i requires 0 <= i < |names| => Artifact(names[i], d[names[i]].bytes))
  }

  /** What `native_seed_id` answers for a directory: the same hash, over what its list names. */
  function NativeSeedId(h: Sha, d: Dir): Option<string> {
    match ManifestNames(d)
    case None => None
    case Some(names) => if AllRegular(d, names) then Some(GenerationId(h, ArtifactsOf(d, names))) else None
  }

  const GENERATION_TAG := "codestory-native-executable-generation-v1\0"

  /** What is hashed for a seed and the digest of an executable. */
  function FinalText(seed: string, digest: string): string {
    GENERATION_TAG + seed + [NUL] + digest
  }

  /** `final_generation_id`. */
  function FinalId(h: Sha, seed: string, digest: string): string {
    HexText(h(FinalText(seed, digest)))
  }

  /** What `runtime_seed_id` answers. */
  function RuntimeSeed(node: Option<Node>): Option<string> {
    if node.Some? && node.value.Regular? then SeedId(node.value.bytes) else None
  }

  function Executable(d: Dir): Option<Node> {
    if EXECUTABLE in d then Some(d[EXECUTABLE]) else None
  }

  /** What `verify_complete_generation` accepts. */
  predicate Verified(h: Sha, d: Dir, digest: string) {
    && NativeSeedId(h, d).Some? && RuntimeSeed(Executable(d)) == NativeSeedId(h, d)
    && h(d[EXECUTABLE].bytes) == digest
  }

  /** List, files, executable digest and id of generation `id` agree. */
  predicate Complete(h: Sha, id: string, d: Dir) {
    && RuntimeSeed(Executable(d)).Some?
    && FinalId(h, RuntimeSeed(Executable(d)).value, h(d[EXECUTABLE].bytes)) == id
    && Verified(h, d, h(d[EXECUTABLE].bytes))
  }

  lemma FinalIdIsAnId(h: Sha, seed: string, digest: string)
    requires IsSha(h)
    ensures IsId(FinalId(h, seed, digest))
  {
  }

  // ---------------------------------------------------------------- what the build stages

  function NamesOf(artifacts: seq<Artifact>): (r: seq<string>)
    ensures |r| == |artifacts|
    ensures forall i :: 0 <= i < |r| ==> r[i] == artifacts[i].name
  {
    seq(|artifacts|, i requires 0 <= i < |artifacts| => artifacts[i].name)
  }

  function Copied(artifacts: seq<Artifact>): (d: Dir)
    ensures d.Keys == set i | 0 <= i < |artifacts| :: artifacts[i].name
  {
    if artifacts == [] then map[]
    else
      var last := |artifacts| - 1;
      Copied(artifacts[..last])[artifacts[last].name := Regular(artifacts[last].bytes)]
  }

  /** The list is written last, over a source of the same name. */
  function StagedDir(artifacts: seq<Artifact>): Dir {
    Copied(artifacts)[FILE_LIST := Regular(Written(NamesOf(artifacts)))]
  }

  /** What staging accepts, once sorted. */
  ghost predicate Stageable(artifacts: seq<Artifact>) {
    && Increasing(NamesOf(artifacts))
    && forall i :: 0 <= i < |artifacts| ==> SafeFileName(artifacts[i].name)
  }

  /** The list can be read back, and is not itself listed with other content. */
  ghost predicate ReadableList(artifacts: seq<Artifact>) {
    && artifacts != [] && AllOneLine(NamesOf(artifacts))
    && forall i :: 0 <= i < |artifacts| && artifacts[i].name == FILE_LIST ==> artifacts[i].bytes == Written(NamesOf(artifacts))
  }

  lemma {:induction false} CopiedAt(artifacts: seq<Artifact>, i: nat)
    requires i < |artifacts| && forall k, l :: 0 <= k < l < |artifacts| ==> artifacts[k].name != artifacts[l].name
    ensures Copied(artifacts)[artifacts[i].name] == Regular(artifacts[i].bytes)
  {
    var last := |artifacts| - 1;
    if i < last {
      CopiedAt(artifacts[..last], i);
    }
  }

  lemma DistinctNames(artifacts: seq<Artifact>)
    requires Increasing(NamesOf(artifacts))
    ensures forall k, l :: 0 <= k < l < |artifacts| ==> artifacts[k].name != artifacts[l].name
  {
    var names := NamesOf(artifacts);
    assert forall k, l :: 0 <= k < l < |names| ==> !SameIgnoringCase(names[k], names[l]);
  }

  /** What is read of a staged file. */
  lemma StagedFile(artifacts: seq<Artifact>, i: nat)
    requires Increasing(NamesOf(artifacts)) && i < |artifacts|
    ensures var name := artifacts[i].name;
      IsRegular(StagedDir(artifacts), name) &&
      StagedDir(artifacts)[name].bytes == if name == FILE_LIST then Written(NamesOf(artifacts)) else artifacts[i].bytes
  {
    DistinctNames(artifacts);
    CopiedAt(artifacts, i);
  }

  lemma StagedArtifacts(artifacts: seq<Artifact>)
    requires Increasing(NamesOf(artifacts)) && ReadableList(artifacts)
    ensures AllRegular(StagedDir(artifacts), NamesOf(artifacts)) && ArtifactsOf(StagedDir(artifacts), NamesOf(artifacts)) == artifacts
  {
    forall i | 0 <= i < |artifacts|
      ensures IsRegular(StagedDir(artifacts), artifacts[i].name)
      ensures StagedDir(artifacts)[artifacts[i].name].bytes == artifacts[i].bytes
    {
      StagedFile(artifacts, i);
    }
  }

  lemma StagedListIsAccepted(artifacts: seq<Artifact>)
    requires Stageable(artifacts) && ReadableList(artifacts)
    ensures ManifestNames(StagedDir(artifacts)) == Some(NamesOf(artifacts))
  {
    var names := NamesOf(artifacts);
    ListRoundTrip(names);
    AcceptedIffIncreasing(names);
    hide Lines, Written, Accepted, Copied, Increasing, AllOneLine, SafeFileName;
    assert ReadThrough(StagedDir(artifacts), FILE_LIST) == Some(Written(names));
  }

  /** The launcher computes for a staged directory the id that the build computed for its sources. */
  lemma BuildAndLaunchAgree(h: Sha, artifacts: seq<Artifact>)
    requires Stageable(artifacts) && ReadableList(artifacts)
    ensures ManifestNames(StagedDir(artifacts)) == Some(NamesOf(artifacts))
    ensures NativeSeedId(h, StagedDir(artifacts)) == Some(GenerationId(h, artifacts))
  {
    StagedListIsAccepted(artifacts);
    StagedArtifacts(artifacts);
    hide StagedDir, ManifestNames, ReadableList, Increasing, GenerationId, ArtifactsOf, AllRegular;
  }

  // ---------------------------------------------------------------- an id stands for one set of files

  lemma {:induction false} ListedInjective(h: Sha, a: seq<Artifact>, b: seq<Artifact>)
    requires IsSha(h) && Listed(h, a) == Listed(h, b)
    requires forall i :: 0 <= i < |a| ==> NUL !in a[i].name
    requires forall i :: 0 <= i < |b| ==> NUL !in b[i].name
    ensures |a| == |b| && forall i :: 0 <= i < |a| ==> a[i].name == b[i].name && h(a[i].bytes) == h(b[i].bytes)
  {
    if a != [] && b != [] {
      var x, y := h(a[0].bytes) + Listed(h, a[1..]), h(b[0].bytes) + Listed(h, b[1..]);
      SplitUnique(a[0].name, x, b[0].name, y, NUL);
      assert x[..32] == h(a[0].bytes) && y[..32] == h(b[0].bytes);
      assert x[32..] == Listed(h, a[1..]) && y[32..] == Listed(h, b[1..]);
      ListedInjective(h, a[1..], b[1..]);
    }
  }

  lemma HexTextCut(s: string)
    requires s != ""
    ensures HexText(s)[..2] == Hex(s[0] as int % 256, 2) && HexText(s)[2..] == HexText(s[1..])
  {
  }

  lemma SameByte(a: char, b: char)
    requires a as int < 256 && b as int < 256 && Hex(a as int % 256, 2) == Hex(b as int % 256, 2)
    ensures a == b
  {
    hide Hex;
    SameHexPair(a as int, b as int);
  }

  lemma SameHexPair(a: nat, b: nat)
    requires a < 256 && b < 256 && Hex(a, 2) == Hex(b, 2)
    ensures a == b
  {
    Power2Plus8(0);
    HexInjective(a, b, 2);
  }

  lemma {:induction false} HexTextInjective(a: string, b: string)
    requires HexText(a) == HexText(b) && forall i :: 0 <= i < |a| ==> a[i] as int < 256
    requires forall i :: 0 <= i < |b| ==> b[i] as int < 256
    ensures a == b
  {
    if a != "" {
      HexTextCut(a);
      HexTextCut(b);
      SameByte(a[0], b[0]);
      HexTextInjective(a[1..], b[1..]);
      assert a == [a[0]] + a[1..] && b == [b[0]] + b[1..];
    }
  }

  ghost predicate ByteSha(h: Sha) {
    IsSha(h) && forall x, i :: 0 <= i < |h(x)| ==> h(x)[i] as int < 256
  }

  /** Directories with one seed id list the same names with the same digests, unless the two listings collide. */
  lemma SameIdSameFiles(h: Sha, a: seq<Artifact>, b: seq<Artifact>)
    requires ByteSha(h) && GenerationId(h, a) == GenerationId(h, b)
    requires Apart(h, ListText(h, a), ListText(h, b))
    requires forall i :: 0 <= i < |a| ==> NUL !in a[i].name
    requires forall i :: 0 <= i < |b| ==> NUL !in b[i].name
    ensures NamesOf(a) == NamesOf(b) && forall i :: 0 <= i < |a| ==> h(a[i].bytes) == h(b[i].bytes)
  {
    var x, y := ListText(h, a), ListText(h, b);
    HexTextInjective(h(x), h(y));
    assert x[|SEED_TAG|..] == Listed(h, a) && y[|SEED_TAG|..] == Listed(h, b);
    ListedInjective(h, a, b);
  }

  lemma FinalTextInjective(s: string, d: string, t: string, e: string)
    requires IsId(s) && IsId(t) && FinalText(s, d) == FinalText(t, e)
    ensures s == t && d == e
  {
    var x, y := FinalText(s, d), FinalText(t, e);
    assert x[|GENERATION_TAG|..] == s + [NUL] + d && y[|GENERATION_TAG|..] == t + [NUL] + e;
    assert !IsHexDigit(NUL);
    SplitUnique(s, d, t, e, NUL);
  }

  /** A generation's id stands for one seed and one executable digest. */
  lemma FinalIdInjective(h: Sha, s: string, d: string, t: string, e: string)
    requires ByteSha(h) && IsId(s) && IsId(t) && FinalId(h, s, d) == FinalId(h, t, e)
    requires Apart(h, FinalText(s, d), FinalText(t, e))
    ensures s == t && d == e
  {
    HexTextInjective(h(FinalText(s, d)), h(FinalText(t, e)));
    FinalTextInjective(s, d, t, e);
  }

  lemma {:induction false} LinesKeepLetters(line: string, text: string, c: char)
    requires c !in line && c !in text
    ensures forall i :: 0 <= i < |LinesFrom(line, text)| ==> c !in LinesFrom(line, text)[i]
    decreases |text|
  {
    if text != "" {
      if text[0] == '\n' {
        LinesKeepLetters("", text[1..], c);
      } else {
        LinesKeepLetters(line + [text[0]], text[1..], c);
      }
    }
  }

  lemma {:induction false} JoinedLetters(names: seq<string>, c: char)
    requires names != [] && c != '\n' && forall i :: 0 <= i < |names| ==> c !in names[i]
    ensures c !in Joined(names)
  {
    if |names| > 1 {
      JoinedLetters(names[1..], c);
    }
  }

  lemma ReadIsNulFree(read: seq<Artifact>, names: seq<string>)
    requires NamesOf(read) == names && forall i :: 0 <= i < |names| ==> NUL !in names[i]
    ensures forall i :: 0 <= i < |read| ==> NUL !in read[i].name
  {
    forall i | 0 <= i < |read|
      ensures NUL !in read[i].name
    {
      assert read[i].name == names[i];
    }
  }

  /** If what is read back from a written list hashes to the id of what was listed, the list was readable. */
  lemma NamesReadBack(h: Sha, artifacts: seq<Artifact>, read: seq<Artifact>)
    requires ByteSha(h) && NamesOf(read) == Lines(Written(NamesOf(artifacts)))
    requires forall i :: 0 <= i < |artifacts| ==> NUL !in artifacts[i].name
    requires GenerationId(h, read) == GenerationId(h, artifacts)
    requires Apart(h, ListText(h, artifacts), ListText(h, read))
    ensures artifacts != [] && AllOneLine(NamesOf(artifacts)) && NamesOf(read) == NamesOf(artifacts)
    ensures forall i :: 0 <= i < |artifacts| ==> h(artifacts[i].bytes) == h(read[i].bytes)
  {
    ReadNamesHaveNoNul(artifacts);
    ReadIsNulFree(read, Lines(Written(NamesOf(artifacts))));
    hide Lines, Written, ListText, GenerationId, Apart;
    SameIdSameFiles(h, artifacts, read);
    ListRoundTrip(NamesOf(artifacts));
  }

  lemma ToldApart(h: Sha, x: string, y: string)
    requires Apart(h, x, y) && h(x) == h(y)
    ensures x == y
  {
  }

  lemma StagedList(artifacts: seq<Artifact>, names: seq<string>)
    requires ManifestNames(StagedDir(artifacts)) == Some(names)
    ensures names == Lines(Written(NamesOf(artifacts)))
  {
    hide Copied, Lines, Accepted;
  }

  /** The agreement is exact: where the list cannot be read back, or lists itself with other content, the launcher finds
      another id or none. */
  lemma AgreementNeedsAReadableList(h: Sha, artifacts: seq<Artifact>, read: seq<Artifact>)
    requires ByteSha(h) && Stageable(artifacts) && forall i :: 0 <= i < |artifacts| ==> NUL !in artifacts[i].name
    requires var d := StagedDir(artifacts);
      && NativeSeedId(h, d) == Some(GenerationId(h, artifacts))
      && read == ArtifactsOf(d, ManifestNames(d).value)
    requires Apart(h, ListText(h, artifacts), ListText(h, read))
    requires forall i :: 0 <= i < |artifacts| && artifacts[i].name == FILE_LIST ==> Apart(h, artifacts[i].bytes, Written(NamesOf(artifacts)))
    ensures ReadableList(artifacts)
  {
    hide Copied, Lines, LinesFrom, Accepted, Written, ListText, GenerationId, AllOneLine, Increasing, SafeFileName, ByteSha, StagedDir, ManifestNames, Apart;
    var names := ManifestNames(StagedDir(artifacts)).value;
    StagedList(artifacts, names);
    assert NamesOf(read) == names;
    NamesReadBack(h, artifacts, read);
    forall i | 0 <= i < |artifacts| && artifacts[i].name == FILE_LIST
      ensures artifacts[i].bytes == Written(NamesOf(artifacts))
    {
      StagedFile(artifacts, i);
      assert |read| == |NamesOf(read)| == |NamesOf(artifacts)|;
      assert NamesOf(artifacts)[i] == names[i];
      ToldApart(h, artifacts[i].bytes, read[i].bytes);
    }
  }

  const TWO_LINES := "a\nb"

  lemma TwoLinesRead()
    ensures Lines(Written([TWO_LINES])) == ["a", "b"]
  {
    LineThenRest("", "a", "b" + "\n" + "");
    LineThenRest("", "b", "");
    assert "a" + "\n" + ("b" + "\n" + "") == "a\nb\n" == Written([TWO_LINES]);
    assert Lines("") == [];
    assert "" + "a" == "a" && "" + "b" == "b";
  }

  lemma TwoLinesStaged(bytes: string)
    ensures var artifacts := [Artifact(TWO_LINES, bytes)];
      && NamesOf(artifacts) == [TWO_LINES] && StagedDir(artifacts).Keys == {TWO_LINES, FILE_LIST}
      && StagedDir(artifacts)[FILE_LIST] == Regular(Written([TWO_LINES]))
  {
    var artifacts := [Artifact(TWO_LINES, bytes)];
    assert NamesOf(artifacts) == [TWO_LINES];
    assert artifacts[..0] == [] && Copied([]) == map[];
  }

  lemma TwoLinesStageable(bytes: string)
    ensures var artifacts := [Artifact(TWO_LINES, bytes)]; Stageable(artifacts) && !ReadableList(artifacts)
  {
    var artifacts := [Artifact(TWO_LINES, bytes)];
    PiecesOfOne(TWO_LINES);
    TwoLinesRead();
    assert NamesOf(artifacts) == [TWO_LINES];
    assert TWO_LINES[1] == '\n' && |TWO_LINES| == 3 && |FILE_LIST| > 3;
    hide Lines, Written, Copied;
  }

  lemma TwoLinesHaveNoId(h: Sha, bytes: string)
    ensures NativeSeedId(h, StagedDir([Artifact(TWO_LINES, bytes)])).None?
  {
    TwoLinesRead();
    TwoLinesStaged(bytes);
    assert TWO_LINES[1] == '\n';
    assert "a" != TWO_LINES && "a" != FILE_LIST;
    hide Accepted, Lines, Written, StagedDir, GenerationId;
    assert !IsRegular(StagedDir([Artifact(TWO_LINES, bytes)]), ["a", "b"][0]);
  }

  /** A witness: the build stages a file whose name is two lines, and the launcher finds no id at all. */
  lemma LineBreakIsNotRead(h: Sha, bytes: string)
    ensures var artifacts := [Artifact(TWO_LINES, bytes)];
      Stageable(artifacts) && !ReadableList(artifacts) && NativeSeedId(h, StagedDir(artifacts)).None?
  {
    hide *;
    TwoLinesStageable(bytes);
    TwoLinesHaveNoId(h, bytes);
  }

  lemma ReadNamesHaveNoNul(artifacts: seq<Artifact>)
    requires forall i :: 0 <= i < |artifacts| ==> NUL !in artifacts[i].name
    ensures forall i :: 0 <= i < |Lines(Written(NamesOf(artifacts)))| ==> NUL !in Lines(Written(NamesOf(artifacts)))[i]
  {
    if artifacts != [] {
      JoinedLetters(NamesOf(artifacts), NUL);
    }
    LinesKeepLetters("", Written(NamesOf(artifacts)), NUL);
  }

  // ---------------------------------------------------------------- what the launcher publishes

  function Selected(seed: Dir, names: seq<string>): Dir
    requires AllRegular(seed, names)
  {
    map name | name in names :: seed[name]
  }

  /** Seed files, the candidate as executable, the list. */
  function NewGeneration(seed: Dir, names: seq<string>, bytes: string, text: string): Dir
    requires AllRegular(seed, names)
  {
    Selected(seed, names)[EXECUTABLE := Regular(bytes)][FILE_LIST := Regular(text)]
  }

  /** Nothing stands in the way of copying seed and candidate together. */
  predicate Publishable(seed: Dir) {
    && ManifestNames(seed).Some? && AllRegular(seed, ManifestNames(seed).value)
    && EXECUTABLE !in ManifestNames(seed).value && FILE_LIST !in ManifestNames(seed).value
  }

  function Published(seed: Dir, bytes: string): Dir
    requires Publishable(seed)
  {
    NewGeneration(seed, ManifestNames(seed).value, bytes, ReadThrough(seed, FILE_LIST).value)
  }

  lemma PublishedFiles(seed: Dir, bytes: string)
    requires Publishable(seed)
    ensures var names := ManifestNames(seed).value;
      AllRegular(Published(seed, bytes), names) && ArtifactsOf(Published(seed, bytes), names) == ArtifactsOf(seed, names)
  {
    var names, d := ManifestNames(seed).value, Published(seed, bytes);
    hide ManifestNames;
    forall i | 0 <= i < |names|
      ensures names[i] in d && d[names[i]] == seed[names[i]]
    {
      assert names[i] in names;
    }
  }

  /** A published generation has its seed's id. */
  lemma PublishedKeepsTheSeed(h: Sha, seed: Dir, bytes: string)
    requires Publishable(seed)
    ensures NativeSeedId(h, Published(seed, bytes)) == NativeSeedId(h, seed)
    ensures Executable(Published(seed, bytes)) == Some(Regular(bytes))
  {
    PublishedFiles(seed, bytes);
    hide Accepted, Copied, ArtifactsOf, GenerationId, AllRegular;
    var d := Published(seed, bytes);
    assert EXECUTABLE != FILE_LIST;
    assert ReadThrough(d, FILE_LIST) == ReadThrough(seed, FILE_LIST);
    assert ManifestNames(d) == ManifestNames(seed);
  }

  /** What is published from a directory with its own id, and an executable with that id, is complete. */
  lemma PublishedIsComplete(h: Sha, seed: Dir, id: string, bytes: string)
    requires Publishable(seed) && NativeSeedId(h, seed) == Some(id) && SeedId(bytes) == Some(id)
    ensures Complete(h, FinalId(h, id, h(bytes)), Published(seed, bytes))
  {
    PublishedKeepsTheSeed(h, seed, bytes);
    hide NativeSeedId, Published, Publishable;
  }

  /** A candidate built with a staged directory can be published with it. */
  lemma StagedSeedCompletes(h: Sha, artifacts: seq<Artifact>, bytes: string)
    requires Stageable(artifacts) && ReadableList(artifacts)
    requires EXECUTABLE !in NamesOf(artifacts) && FILE_LIST !in NamesOf(artifacts)
    requires SeedId(bytes) == Some(GenerationId(h, artifacts))
    ensures var seed := StagedDir(artifacts);
      Publishable(seed) && Complete(h, FinalId(h, GenerationId(h, artifacts), h(bytes)), Published(seed, bytes))
  {
    BuildAndLaunchAgree(h, artifacts);
    StagedArtifacts(artifacts);
    PublishedKeepsTheSeed(h, StagedDir(artifacts), bytes);
  }
}
