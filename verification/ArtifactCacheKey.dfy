/** The key of a cached index artifact: a hash over a portable description of how a file is compiled. */
module ArtifactCacheKey {
  import opened Options
  import opened Ordering
  import opened Paths
  import opened Fnv
  import opened Hexadecimal

  const VERSION: nat := 2

  datatype Standard = C89 | C99 | C11 | C17 | C23 | Cxx98 | Cxx03 | Cxx11 | Cxx14 | Cxx17 | Cxx20 | Cxx23

  datatype Define = Define(name: string, value: Option<string>)

  /** `defines` lists a map in whatever order it is traversed. */
  datatype CompilationInfo = CompilationInfo(
    file: string, workingDirectory: string, includePaths: seq<string>, systemIncludePaths: seq<string>,
    defines: seq<Define>, standard: Option<Standard>, otherFlags: seq<string>)

  datatype Language = Language(name: string, graphQuery: string, tagsQuery: Option<string>)

  datatype Request = Request(
    cachePath: string, source: seq<Byte>, language: Language, info: Option<CompilationInfo>,
    legacyEdgeIdentity: bool, lazyGraphExecution: bool)

  // ---------------------------------------------------------------- what is fed to the hash

  /** A text as bytes; characters stand for the bytes 0 to 255. */
  function Bytes(text: string): (r: seq<Byte>)
    ensures |r| == |text|
  {
    seq(|text|, i requires 0 <= i < |text| => text[i] as int % 256)
  }

  lemma BytesConcat(a: string, b: string)
    ensures Bytes(a + b) == Bytes(a) + Bytes(b)
  {
  }

  function LittleEndian32(n: nat): seq<Byte> {
    [n % 256, n / 256 % 256, n / 65536 % 256, n / 16777216 % 256]
  }

  function BoolBytes(b: bool): seq<Byte> {
    if b then [1] else [0]
  }

  function OptionalBytes(text: Option<string>): seq<Byte> {
    if text.None? then BoolBytes(false) else BoolBytes(true) + Bytes(text.value)
  }

  function Slashed(text: string): string {
    seq(|text|, i requires 0 <= i < |text| => if text[i] == '\\' then '/' else text[i])
  }

  function StandardName(standard: Standard): string {
    match standard
    case C89 => "c89"
    case C99 => "c99"
    case C11 => "c11"
    case C17 => "c17"
    case C23 => "c23"
    case Cxx98 => "c++98"
    case Cxx03 => "c++03"
    case Cxx11 => "c++11"
    case Cxx14 => "c++14"
    case Cxx17 => "c++17"
    case Cxx20 => "c++20"
    case Cxx23 => "c++23"
  }

  function NameOf(standard: Option<Standard>): Option<string> {
    if standard.None? then None else Some(StandardName(standard.value))
  }

  function PortableBytes(names: seq<string>): seq<Byte> {
    Bytes(Slashed(PortableText(names)))
  }

  /** The names of a portable path; of no use for others. */
  function NamesOrNothing(root: string, path: string): seq<string> {
    var names := PortableNames(root, path);
    if names.None? then [] else names.value
  }

  /** `Ord` for paths: component by component. */
  predicate PathLeq(a: seq<string>, b: seq<string>) {
    LexLeq(StringLeq, a, b)
  }

  predicate DefineLeq(a: Define, b: Define) {
    StringLeq(a.name, b.name)
  }

  function Flat(pieces: seq<seq<Byte>>): seq<Byte> {
    if pieces == [] then [] else Flat(pieces[..|pieces| - 1]) + pieces[|pieces| - 1]
  }

  function PathForms(root: string, paths: seq<string>): (r: seq<seq<string>>)
    ensures |r| == |paths| && forall i :: 0 <= i < |paths| ==> r[i] == NamesOrNothing(root, paths[i])
  {
    Mapped(p => NamesOrNothing(root, p), paths)
  }

  function FlagForms(root: string, flags: seq<string>): (r: seq<string>)
    ensures |r| == |flags| && forall i :: 0 <= i < |flags| ==> r[i] == FlagOrNothing(root, flags[i])
  {
    Mapped(f => FlagOrNothing(root, f), flags)
  }

  function SortedPaths(root: string, paths: seq<string>): seq<seq<string>> {
    Sort(PathLeq, PathForms(root, paths))
  }

  function PathsBytes(root: string, paths: seq<string>): seq<Byte> {
    Flat(Mapped(PortableBytes, SortedPaths(root, paths)))
  }

  function DefineBytes(define: Define): seq<Byte> {
    Bytes(define.name) + OptionalBytes(define.value)
  }

  function DefinesBytes(defines: seq<Define>): seq<Byte> {
    Flat(Mapped(DefineBytes, Sort(DefineLeq, defines)))
  }

  predicate PartAt(text: string, part: string, i: nat) {
    i + |part| <= |text| && text[i..i + |part|] == part
  }

  predicate Contains(text: string, part: string) {
    exists i :: 0 <= i <= |text| && PartAt(text, part, i)
  }

  predicate IsSeparator(c: char) {
    c == '/' || c == '\\'
  }

  predicate IsAlphabetic(c: char) {
    'a' <= c <= 'z' || 'A' <= c <= 'Z'
  }

  predicate DriveAt(text: string, i: nat) {
    i + 3 <= |text| && IsAlphabetic(text[i]) && text[i + 1] == ':' && IsSeparator(text[i + 2])
  }

  predicate StartsAbsolute(text: string) {
    (text != "" && IsSeparator(text[0])) || DriveAt(text, 0)
  }

  predicate GluedAbsolute(flag: string, prefix: string) {
    prefix <= flag && StartsAbsolute(flag[|prefix|..])
  }

  /** `has_unportable_embedded_absolute_path`. */
  predicate EmbedsAbsolutePath(flag: string) {
    || Contains(flag, "=/") || Contains(flag, "=\\")
    || (exists i :: 0 <= i < |flag| && DriveAt(flag, i))
    || GluedAbsolute(flag, "-include") || GluedAbsolute(flag, "-imacros")
    || GluedAbsolute(flag, "-include-pch") || GluedAbsolute(flag, "-isysroot")
  }

  /** `is_standalone_slash_root_path_like`. */
  predicate SlashRootLike(flag: string) {
    flag != "" && IsSeparator(flag[0]) && exists i :: 1 <= i < |flag| && IsSeparator(flag[i])
  }

  /** `flag.contains(root)`, for a root that is not empty. */
  predicate Mentions(root: string, flag: string) {
    root != "" && Contains(flag, root)
  }

  /** `portable_compile_flag`. */
  function PortableFlag(root: string, flag: string): Option<string> {
    if IsAbsolute(flag) then
      match CachePath(root, flag)
      case None => None
      case Some(path) => Some("path:" + path)
    else if SlashRootLike(flag) || Mentions(root, flag) || EmbedsAbsolutePath(flag) then None
    else Some("flag:" + flag)
  }

  function FlagOrNothing(root: string, flag: string): string {
    var portable := PortableFlag(root, flag);
    if portable.None? then "" else portable.value
  }

  function FlagsBytes(root: string, flags: seq<string>): seq<Byte> {
    Flat(Mapped(Bytes, Sort(StringLeq, FlagForms(root, flags))))
  }

  predicate AllPortable(root: string, paths: seq<string>) {
    forall i :: 0 <= i < |paths| ==> PortableNames(root, paths[i]).Some?
  }

  predicate FlagsPortable(root: string, flags: seq<string>) {
    forall i :: 0 <= i < |flags| ==> PortableFlag(root, flags[i]).Some?
  }

  predicate InfoPortable(root: string, info: CompilationInfo) {
    && PortableNames(root, info.file).Some? && PortableNames(root, info.workingDirectory).Some?
    && AllPortable(root, info.includePaths) && AllPortable(root, info.systemIncludePaths)
    && FlagsPortable(root, info.otherFlags)
  }

  function FileBytes(root: string, info: CompilationInfo): seq<Byte> {
    BoolBytes(true) + PortableBytes(NamesOrNothing(root, info.file)) + PortableBytes(NamesOrNothing(root, info.workingDirectory))
    + OptionalBytes(NameOf(info.standard))
  }

  function InfoBytes(root: string, info: CompilationInfo): seq<Byte> {
    FileBytes(root, info) + PathsBytes(root, info.includePaths) + PathsBytes(root, info.systemIncludePaths)
    + DefinesBytes(info.defines) + FlagsBytes(root, info.otherFlags)
  }

  function LanguageBytes(r: Request): seq<Byte> {
    Bytes(r.language.name) + Bytes(r.language.graphQuery) + OptionalBytes(r.language.tagsQuery)
    + BoolBytes(r.legacyEdgeIdentity) + BoolBytes(r.lazyGraphExecution)
  }

  function KeyBytes(root: string, r: Request): seq<Byte> {
    Bytes("index-artifact") + LittleEndian32(VERSION) + PortableBytes(NamesOrNothing("", r.cachePath)) + r.source
    + LanguageBytes(r) + (if r.info.None? then BoolBytes(false) else InfoBytes(root, r.info.value))
  }

  predicate Keyed(root: string, r: Request) {
    PortableNames("", r.cachePath).Some? && (r.info.Some? ==> InfoPortable(root, r.info.value))
  }

  /** What `build_index_artifact_cache_key` answers. */
  function IndexKey(root: string, r: Request): Option<string> {
    if Keyed(root, r) then Some("v2:" + Hex(Mix(OFFSET_BASIS, KeyBytes(root, r)), 16)) else None
  }

  // ---------------------------------------------------------------- the hashing code

  lemma Regroup(a: seq<Byte>, b: seq<Byte>, c: seq<Byte>)
    ensures (a + b) + c == a + (b + c)
  {
  }

  /** Makes every path portable, or gives up at the first that is not. */
  method CollectPaths(root: string, paths: seq<string>) returns (collected: Option<seq<seq<string>>>)
    ensures collected == if AllPortable(root, paths) then Some(PathForms(root, paths)) else None
  {
    var done: seq<seq<string>> := [];
    for i := 0 to |paths|
      invariant |done| == i
      invariant forall k :: 0 <= k < i ==> PortableNames(root, paths[k]).Some? && done[k] == NamesOrNothing(root, paths[k])
    {
      var names := PortableNames(root, paths[i]);
      if names.None? {
        return None;
      }
      done := done + [names.value];
    }
    assert done == PathForms(root, paths);
    return Some(done);
  }

  method CollectFlags(root: string, flags: seq<string>) returns (collected: Option<seq<string>>)
    ensures collected == if FlagsPortable(root, flags) then Some(FlagForms(root, flags)) else None
  {
    var done: seq<string> := [];
    for i := 0 to |flags|
      invariant |done| == i
      invariant forall k :: 0 <= k < i ==> PortableFlag(root, flags[k]).Some? && done[k] == FlagOrNothing(root, flags[k])
    {
      var flag := PortableFlag(root, flags[i]);
      if flag.None? {
        return None;
      }
      done := done + [flag.value];
    }
    assert done == FlagForms(root, flags);
    return Some(done);
  }

  /** The state behind `&mut u64`, and, for the proof, all bytes that went into it. */
  class Hasher {
    var state: Word
    ghost var fed: seq<Byte>

    ghost predicate Valid()
      reads this
    {
      state == Mix(OFFSET_BASIS, fed)
    }

    constructor ()
      ensures Valid() && fed == []
    {
      state, fed := OFFSET_BASIS, [];
    }

    method MixBytes(bytes: seq<Byte>)
      requires Valid()
      modifies this
      ensures Valid() && fed == old(fed) + bytes && state == Mix(old(state), bytes)
    {
      for i := 0 to |bytes|
        invariant Valid() && fed == old(fed) + bytes[..i] && state == Mix(old(state), bytes[..i])
      {
        var next := Times(XorByte(state, bytes[i]));
        MixOne(state, bytes[i]);
        MixConcat(OFFSET_BASIS, fed, [bytes[i]]);
        MixConcat(old(state), bytes[..i], [bytes[i]]);
        assert bytes[..i + 1] == bytes[..i] + [bytes[i]];
        Regroup(old(fed), bytes[..i], [bytes[i]]);
        state, fed := next, fed + [bytes[i]];
      }
      assert bytes[..|bytes|] == bytes;
    }

    method MixStr(value: string)
      requires Valid()
      modifies this
      ensures Valid() && fed == old(fed) + Bytes(value)
    {
      MixBytes(Bytes(value));
    }

    method MixBool(value: bool)
      requires Valid()
      modifies this
      ensures Valid() && fed == old(fed) + BoolBytes(value)
    {
      MixBytes(BoolBytes(value));
    }

    method MixU32(value: nat)
      requires Valid() && value < 0x1_0000_0000
      modifies this
      ensures Valid() && fed == old(fed) + LittleEndian32(value)
    {
      MixBytes(LittleEndian32(value));
    }

    method MixOptionalStr(value: Option<string>)
      requires Valid()
      modifies this
      ensures Valid() && fed == old(fed) + OptionalBytes(value)
    {
      match value
      case None => MixBool(false);
      case Some(text) =>
        MixBool(true);
        MixStr(text);
    }

    method MixPath(path: string) returns (portable: bool)
      requires Valid()
      modifies this
      ensures Valid() && portable == PortableNames("", path).Some?
      ensures fed == old(fed) + if portable then PortableBytes(PortableNames("", path).value) else []
    {
      var token := IndexArtifactCachePath("", path);
      if token.None? {
        return false;
      }
      MixStr(Slashed(token.value));
      return true;
    }

    /** A path that was made portable before; it cannot fail. */
    method MixPortable(root: string, path: string) returns (portable: bool)
      requires Valid()
      modifies this
      ensures Valid() && portable == PortableNames(root, path).Some?
      ensures fed == old(fed) + if portable then PortableBytes(NamesOrNothing(root, path)) else []
    {
      var text := IndexArtifactCachePath(root, path);
      if text.None? {
        return false;
      }
      PortableNamesAreSegments(root, path);
      RenderedReadsBack("", PortableNames(root, path).value);
      portable := MixPath(text.value);
    }

    /** Collects the portable forms, sorts them, mixes them. */
    method MixPaths(root: string, paths: seq<string>) returns (portable: bool)
      requires Valid()
      modifies this
      ensures Valid() && portable == AllPortable(root, paths)
      ensures fed == old(fed) + if portable then PathsBytes(root, paths) else []
    {
      var collected := CollectPaths(root, paths);
      if collected.None? {
        return false;
      }
      var sorted := Sort(PathLeq, collected.value);
      assert sorted == SortedPaths(root, paths);
      hide SortedPaths, PathForms, AllPortable, Mix, NamesOrNothing, PortableBytes, PortableNames, Sort;
      var pieces := Mapped(PortableBytes, sorted);
      for i := 0 to |sorted|
        invariant Valid() && fed == old(fed) + Flat(pieces[..i])
      {
        SortedIsSegments(root, paths, i);
        RenderedReadsBack("", sorted[i]);
        var ok := MixPath(PortableText(sorted[i]));
        FlatStep(pieces, i);
        Regroup(old(fed), Flat(pieces[..i]), pieces[i]);
      }
      assert pieces[..|pieces|] == pieces;
      return true;
    }

    method MixDefines(defines: seq<Define>)
      requires Valid()
      modifies this
      ensures Valid() && fed == old(fed) + DefinesBytes(defines)
    {
      var sorted := Sort(DefineLeq, defines);
      ghost var pieces := Mapped(DefineBytes, sorted);
      for i := 0 to |sorted|
        invariant Valid() && fed == old(fed) + Flat(pieces[..i])
      {
        MixStr(sorted[i].name);
        MixOptionalStr(sorted[i].value);
        FlatStep(pieces, i);
        Regroup(old(fed) + Flat(pieces[..i]), Bytes(sorted[i].name), OptionalBytes(sorted[i].value));
        Regroup(old(fed), Flat(pieces[..i]), pieces[i]);
      }
      assert pieces[..|pieces|] == pieces;
    }

    method MixFlags(root: string, flags: seq<string>) returns (portable: bool)
      requires Valid()
      modifies this
      ensures Valid() && portable == FlagsPortable(root, flags)
      ensures fed == old(fed) + if portable then FlagsBytes(root, flags) else []
    {
      var collected := CollectFlags(root, flags);
      if collected.None? {
        return false;
      }
      var sorted := Sort(StringLeq, collected.value);
      ghost var pieces := Mapped(Bytes, sorted);
      for i := 0 to |sorted|
        invariant Valid() && fed == old(fed) + Flat(pieces[..i])
      {
        MixStr(sorted[i]);
        FlatStep(pieces, i);
        Regroup(old(fed), Flat(pieces[..i]), pieces[i]);
      }
      assert pieces[..|pieces|] == pieces;
      return true;
    }

    method MixCompilationInfo(root: string, info: Option<CompilationInfo>) returns (portable: bool)
      requires Valid()
      modifies this
      ensures Valid() && portable == (info.Some? ==> InfoPortable(root, info.value))
      ensures portable ==> fed == old(fed) + if info.None? then BoolBytes(false) else InfoBytes(root, info.value)
    {
      hide AllPortable, FlagsPortable, PathsBytes, DefinesBytes, FlagsBytes, PortableBytes, OptionalBytes, NamesOrNothing, PortableNames, Mix;
      if info.None? {
        MixBool(false);
        return true;
      }
      var i := info.value;
      MixBool(true);
      portable := MixPortable(root, i.file);
      if !portable { return; }
      portable := MixPortable(root, i.workingDirectory);
      if !portable { return; }
      MixOptionalStr(NameOf(i.standard));
      assert fed == old(fed) + FileBytes(root, i);
      portable := MixPaths(root, i.includePaths);
      if !portable { return; }
      portable := MixPaths(root, i.systemIncludePaths);
      if !portable { return; }
      MixDefines(i.defines);
      portable := MixFlags(root, i.otherFlags);
      if portable {
        Regroup5(old(fed), FileBytes(root, i), PathsBytes(root, i.includePaths), PathsBytes(root, i.systemIncludePaths),
                 DefinesBytes(i.defines), FlagsBytes(root, i.otherFlags));
      }
    }
  }

  method BuildIndexArtifactCacheKey(root: string, r: Request) returns (key: Option<string>)
    ensures key == IndexKey(root, r)
  {
    hide Mix, InfoBytes, PortableBytes, OptionalBytes, PortableNames, InfoPortable;
    var hasher := new Hasher();
    hasher.MixStr("index-artifact");
    hasher.MixU32(VERSION);
    var portable := hasher.MixPath(r.cachePath);
    if !portable {
      return None;
    }
    hasher.MixBytes(r.source);
    ghost var start := hasher.fed;
    hasher.MixStr(r.language.name);
    hasher.MixStr(r.language.graphQuery);
    hasher.MixOptionalStr(r.language.tagsQuery);
    hasher.MixBool(r.legacyEdgeIdentity);
    hasher.MixBool(r.lazyGraphExecution);
    Regroup5(start, Bytes(r.language.name), Bytes(r.language.graphQuery), OptionalBytes(r.language.tagsQuery),
             BoolBytes(r.legacyEdgeIdentity), BoolBytes(r.lazyGraphExecution));
    portable := hasher.MixCompilationInfo(root, r.info);
    if !portable {
      return None;
    }
    assert [] + Bytes("index-artifact") == Bytes("index-artifact");
    assert hasher.fed == KeyBytes(root, r);
    return Some("v2:" + Hex(hasher.state, 16));
  }

  lemma Regroup5(s: seq<Byte>, a: seq<Byte>, b: seq<Byte>, c: seq<Byte>, d: seq<Byte>, e: seq<Byte>)
    ensures s + a + b + c + d + e == s + (a + b + c + d + e)
  {
    Regroup(s, a, b);
    Regroup(s, a + b, c);
    Regroup(s, a + b + c, d);
    Regroup(s, a + b + c + d, e);
  }

  lemma MixOne(state: Word, byte: Byte)
    ensures Mix(state, [byte]) == Times(XorByte(state, byte))
  {
    assert [byte][1..] == [];
    assert Mix(Times(XorByte(state, byte)), []) == Times(XorByte(state, byte));
  }

  lemma FlatStep(pieces: seq<seq<Byte>>, i: nat)
    requires i < |pieces|
    ensures Flat(pieces[..i + 1]) == Flat(pieces[..i]) + pieces[i]
  {
    assert pieces[..i + 1][..i] == pieces[..i];
  }

  lemma SortedIsSegments(root: string, paths: seq<string>, k: nat)
    requires AllPortable(root, paths) && k < |SortedPaths(root, paths)|
    ensures forall j :: 0 <= j < |SortedPaths(root, paths)[k]| ==> Segment(SortedPaths(root, paths)[k][j])
  {
    var forms, sorted := PathForms(root, paths), SortedPaths(root, paths);
    assert sorted[k] in multiset(sorted);
    assert sorted[k] in forms;
    var i :| 0 <= i < |forms| && forms[i] == sorted[k];
    PortableNamesAreSegments(root, paths[i]);
  }
}
