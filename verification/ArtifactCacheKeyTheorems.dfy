/** What the cache key depends on: not on where the root is, not on the order of lists, on every byte of the source. */
module ArtifactCacheKeyTheorems {
  import opened Options
  import opened Ordering
  import opened Paths
  import opened Fnv
  import opened Hexadecimal
  import opened ArtifactCacheKey

  // ---------------------------------------------------------------- relocation

  /** A text in a compile description, written without the root: taken as it is, or a path inside the root. */
  datatype Place = Plain(text: string) | InRoot(rel: string)

  function Located(root: string, place: Place): string {
    if place.Plain? then place.text else Join(root, place.rel)
  }

  predicate Relative(place: Place) {
    !IsAbsolute(if place.Plain? then place.text else place.rel)
  }

  datatype Description = Description(
    file: Place, workingDirectory: Place, includes: seq<Place>, systemIncludes: seq<Place>,
    defines: seq<Define>, standard: Option<Standard>, flags: seq<Place>)

  function LocatedAll(root: string, places: seq<Place>): seq<string> {
    Mapped(p => Located(root, p), places)
  }

  function At(root: string, d: Description): CompilationInfo {
    CompilationInfo(Located(root, d.file), Located(root, d.workingDirectory), LocatedAll(root, d.includes),
      LocatedAll(root, d.systemIncludes), d.defines, d.standard, LocatedAll(root, d.flags))
  }

  ghost predicate AllRelative(places: seq<Place>) {
    forall i :: 0 <= i < |places| ==> Relative(places[i])
  }

  ghost predicate RootFree(d: Description) {
    Relative(d.file) && Relative(d.workingDirectory) && AllRelative(d.includes) && AllRelative(d.systemIncludes) && AllRelative(d.flags)
  }

  /** Some flag, itself no path, contains the text of the root. */
  predicate FlagMentions(root: string, d: Description) {
    exists i :: 0 <= i < |d.flags| && d.flags[i].Plain? && Mentions(root, d.flags[i].text)
  }

  function Placed(r: Request, root: string, d: Description): Request {
    r.(info := Some(At(root, d)))
  }

  lemma SameLanguage(r: Request, s: Request)
    requires r.language == s.language && r.legacyEdgeIdentity == s.legacyEdgeIdentity && r.lazyGraphExecution == s.lazyGraphExecution
    ensures LanguageBytes(r) == LanguageBytes(s)
  {
  }

  /** The key sees a description only through its bytes. */
  lemma SameInfoSameKey(a: string, x: CompilationInfo, b: string, y: CompilationInfo, r: Request)
    requires InfoPortable(a, x) == InfoPortable(b, y) && (InfoPortable(a, x) ==> InfoBytes(a, x) == InfoBytes(b, y))
    ensures IndexKey(a, r.(info := Some(x))) == IndexKey(b, r.(info := Some(y)))
  {
    hide InfoPortable, InfoBytes, Mix, Bytes, PortableBytes, PortableNames, LanguageBytes;
    var u, v := r.(info := Some(x)), r.(info := Some(y));
    SameLanguage(u, v);
    if InfoPortable(a, x) {
      assert KeyBytes(a, u) == KeyBytes(b, v);
    }
  }

  lemma PlaceMoves(a: string, b: string, place: Place)
    requires IsAbsolute(a) && IsAbsolute(b) && Relative(place)
    ensures PortableNames(a, Located(a, place)) == PortableNames(b, Located(b, place))
  {
    if place.InRoot? {
      JoinedIsRelative(a, place.rel);
      JoinedIsRelative(b, place.rel);
    }
  }

  lemma PlacesMove(a: string, b: string, places: seq<Place>)
    requires IsAbsolute(a) && IsAbsolute(b) && AllRelative(places)
    ensures AllPortable(a, LocatedAll(a, places)) == AllPortable(b, LocatedAll(b, places))
    ensures PathsBytes(a, LocatedAll(a, places)) == PathsBytes(b, LocatedAll(b, places))
  {
    var x, y := LocatedAll(a, places), LocatedAll(b, places);
    forall i | 0 <= i < |places|
      ensures PortableNames(a, x[i]) == PortableNames(b, y[i])
    {
      PlaceMoves(a, b, places[i]);
    }
    assert PathForms(a, x) == PathForms(b, y);
  }

  lemma FilesMove(a: string, b: string, d: Description)
    requires IsAbsolute(a) && IsAbsolute(b) && RootFree(d)
    ensures var x, y := At(a, d), At(b, d);
      && PortableNames(a, x.file) == PortableNames(b, y.file)
      && PortableNames(a, x.workingDirectory) == PortableNames(b, y.workingDirectory)
      && FileBytes(a, x) == FileBytes(b, y)
  {
    PlaceMoves(a, b, d.file);
    PlaceMoves(a, b, d.workingDirectory);
  }

  lemma FlagMoves(a: string, b: string, place: Place)
    requires IsAbsolute(a) && IsAbsolute(b) && Relative(place)
    requires PortableFlag(a, Located(a, place)).Some?
    ensures PortableFlag(b, Located(b, place)) ==
      if place.Plain? && Mentions(b, place.text) then None else PortableFlag(a, Located(a, place))
  {
    PlaceMoves(a, b, place);
    if place.InRoot? {
      ComponentsOfJoined(a, place.rel);
      ComponentsOfJoined(b, place.rel);
    }
  }

  lemma FlagsMove(a: string, b: string, places: seq<Place>)
    requires IsAbsolute(a) && IsAbsolute(b) && AllRelative(places) && FlagsPortable(a, LocatedAll(a, places))
    ensures FlagsPortable(b, LocatedAll(b, places)) <==>
      !exists i :: 0 <= i < |places| && places[i].Plain? && Mentions(b, places[i].text)
    ensures FlagsPortable(b, LocatedAll(b, places)) ==> FlagsBytes(a, LocatedAll(a, places)) == FlagsBytes(b, LocatedAll(b, places))
  {
    var x, y := LocatedAll(a, places), LocatedAll(b, places);
    forall i | 0 <= i < |places|
      ensures PortableFlag(b, y[i]) == if places[i].Plain? && Mentions(b, places[i].text) then None else PortableFlag(a, x[i])
    {
      FlagMoves(a, b, places[i]);
    }
    if FlagsPortable(b, y) {
      assert FlagForms(a, x) == FlagForms(b, y);
    }
  }

  lemma KeyedWithInfo(root: string, r: Request, info: CompilationInfo)
    requires IndexKey(root, r.(info := Some(info))).Some?
    ensures InfoPortable(root, info)
  {
  }

  lemma InfoPortabilityMoves(a: string, b: string, d: Description)
    requires IsAbsolute(a) && IsAbsolute(b) && RootFree(d) && InfoPortable(a, At(a, d))
    ensures InfoPortable(b, At(b, d)) <==> !FlagMentions(b, d)
  {
    FilesMove(a, b, d);
    PlacesMove(a, b, d.includes);
    PlacesMove(a, b, d.systemIncludes);
    FlagsMove(a, b, d.flags);
    hide PortableNames, AllPortable, FlagsPortable, LocatedAll, Located, Mentions;
  }

  lemma InfoBytesMove(a: string, b: string, d: Description)
    requires IsAbsolute(a) && IsAbsolute(b) && RootFree(d) && InfoPortable(a, At(a, d)) && InfoPortable(b, At(b, d))
    ensures InfoBytes(a, At(a, d)) == InfoBytes(b, At(b, d))
  {
    FilesMove(a, b, d);
    PlacesMove(a, b, d.includes);
    PlacesMove(a, b, d.systemIncludes);
    FlagsMove(a, b, d.flags);
    hide FileBytes, PathsBytes, FlagsBytes, DefinesBytes, PortableNames, AllPortable, FlagsPortable, LocatedAll, Located, Mentions;
  }

  /** A tree that was moved to another root gets the same key, and it gets none exactly when a flag that is no path happens
      to contain the new root. */
  lemma RelocationKeepsTheKey(a: string, b: string, r: Request, d: Description)
    requires IsAbsolute(a) && IsAbsolute(b) && RootFree(d)
    requires IndexKey(a, Placed(r, a, d)).Some?
    ensures IndexKey(b, Placed(r, b, d)) == if FlagMentions(b, d) then None else IndexKey(a, Placed(r, a, d))
  {
    KeyedWithInfo(a, r, At(a, d));
    InfoPortabilityMoves(a, b, d);
    hide At, InfoPortable, InfoBytes, KeyBytes, Mix;
    if !FlagMentions(b, d) {
      InfoBytesMove(a, b, d);
      SameInfoSameKey(a, At(a, d), b, At(b, d), r);
    }
  }

  /** One file compiled in its root with the flag `-I/b`. */
  const FLAGGED := Description(Plain("m.c"), Plain("."), [], [], [], None, [Plain("-I/b")])

  lemma FlaggedFileIsPortable()
    ensures PortableNames("/a", "m.c").Some?
  {
    var name := "m.c";
    assert name[0] == 'm' && name[1] == '.' && name[2] == 'c' && Segment(name);
    assert PortableText([name]) == name;
    hide Render, PortableNames, PortableText;
    RenderedReadsBack("/a", [name]);
  }

  lemma FlaggedDirectoryIsPortable()
    ensures PortableNames("/a", ".").Some?
  {
    assert PortableText([]) == ".";
    hide Render, PortableNames, PortableText;
    RenderedReadsBack("/a", []);
  }

  lemma NotContained(flag: string, part: string)
    requires flag == "-I/b" && (part == "/a" || part == "=/" || part == "=\\")
    ensures !Contains(flag, part)
  {
    assert flag[0] == '-' && flag[1] == 'I' && flag[2] == '/' && flag[3] == 'b';
    forall i | 0 <= i <= |flag|
      ensures !PartAt(flag, part, i)
    {
      if i + 2 <= |flag| {
        assert flag[i..i + 2][0] == flag[i] && flag[i..i + 2][1] == flag[i + 1];
      }
    }
  }

  lemma FlagIsPortableAtA()
    ensures PortableFlag("/a", "-I/b").Some?
  {
    var flag := "-I/b";
    NotContained(flag, "/a");
    NotContained(flag, "=/");
    NotContained(flag, "=\\");
    hide Contains;
  }

  lemma FlagMentionsB()
    ensures FlagMentions("/b", FLAGGED)
  {
    var flag := "-I/b";
    assert PartAt(flag, "/b", 2);
    assert FLAGGED.flags[0] == Plain(flag);
  }

  lemma FlaggedIsPortableAtA()
    ensures InfoPortable("/a", At("/a", FLAGGED))
  {
    hide PortableNames, PortableFlag;
    FlaggedFileIsPortable();
    FlaggedDirectoryIsPortable();
    FlagIsPortableAtA();
    assert LocatedAll("/a", []) == [] && LocatedAll("/a", [Plain("-I/b")]) == ["-I/b"];
  }

  /** It has a key in `/a` and none in `/b`, because the flag, which is no path, happens to contain that root. */
  lemma RelocatedIntoItsFlag(r: Request)
    requires PortableNames("", r.cachePath).Some?
    ensures RootFree(FLAGGED) && IndexKey("/a", Placed(r, "/a", FLAGGED)).Some? && IndexKey("/b", Placed(r, "/b", FLAGGED)).None?
  {
    FlaggedIsPortableAtA();
    FlagMentionsB();
    hide PortableNames, PortableFlag, Mix, KeyBytes, Hex, InfoPortable, At, FlagMentions;
    RelocationKeepsTheKey("/a", "/b", r, FLAGGED);
  }

  // ---------------------------------------------------------------- order

  ghost predicate DistinctNames(defines: seq<Define>) {
    forall i, j :: 0 <= i < j < |defines| ==> defines[i].name != defines[j].name
  }

  ghost predicate SameElements(a: CompilationInfo, b: CompilationInfo) {
    && a.file == b.file && a.workingDirectory == b.workingDirectory && a.standard == b.standard
    && multiset(a.includePaths) == multiset(b.includePaths)
    && multiset(a.systemIncludePaths) == multiset(b.systemIncludePaths)
    && multiset(a.defines) == multiset(b.defines)
    && multiset(a.otherFlags) == multiset(b.otherFlags)
  }

  lemma PathOrder()
    ensures TotalOrder(PathLeq)
  {
    StringOrder();
    forall a, b
      ensures PathLeq(a, b) || PathLeq(b, a)
      ensures PathLeq(a, b) && PathLeq(b, a) ==> a == b
    {
      LexTotal(StringLeq, a, b);
    }
    forall a, b, c | PathLeq(a, b) && PathLeq(b, c)
      ensures PathLeq(a, c)
    {
      LexTransitive(StringLeq, a, b, c);
    }
  }

  lemma DefineOrder(defines: seq<Define>)
    requires DistinctNames(defines)
    ensures TotalPreorder(DefineLeq) && Separates(DefineLeq, multiset(defines))
  {
    StringOrder();
    forall x, y | x in multiset(defines) && y in multiset(defines) && DefineLeq(x, y) && DefineLeq(y, x)
      ensures x == y
    {
      assert x in defines && y in defines;
    }
  }

  lemma PortabilityForgetsOrder(root: string, a: seq<string>, b: seq<string>)
    requires multiset(a) == multiset(b)
    ensures AllPortable(root, a) ==> AllPortable(root, b)
    ensures FlagsPortable(root, a) ==> FlagsPortable(root, b)
  {
    forall i | 0 <= i < |b|
      ensures b[i] in a
    {
      assert b[i] in multiset(a);
    }
  }

  lemma SameForms(root: string, texts: seq<string>)
    ensures PathForms(root, texts) == Mapped(p => NamesOrNothing(root, p), texts)
    ensures FlagForms(root, texts) == Mapped(f => FlagOrNothing(root, f), texts)
  {
  }

  lemma PathsForgetOrder(root: string, a: seq<string>, b: seq<string>)
    requires multiset(a) == multiset(b)
    ensures PathsBytes(root, a) == PathsBytes(root, b)
  {
    PathOrder();
    MappedPermutation(p => NamesOrNothing(root, p), a, b);
    SameForms(root, a);
    SameForms(root, b);
    SortForgetsOrder(PathLeq, PathForms(root, a), PathForms(root, b));
  }

  lemma FlagsForgetOrder(root: string, a: seq<string>, b: seq<string>)
    requires multiset(a) == multiset(b)
    ensures FlagsBytes(root, a) == FlagsBytes(root, b)
  {
    StringOrder();
    MappedPermutation(f => FlagOrNothing(root, f), a, b);
    SameForms(root, a);
    SameForms(root, b);
    SortForgetsOrder(StringLeq, FlagForms(root, a), FlagForms(root, b));
  }

  lemma SameFiles(root: string, a: CompilationInfo, b: CompilationInfo)
    requires a.file == b.file && a.workingDirectory == b.workingDirectory && a.standard == b.standard
    ensures FileBytes(root, a) == FileBytes(root, b)
  {
  }

  /** Include paths, system include paths and other flags in any order, defines in any traversal order: the same key. */
  lemma OrderDoesNotMatter(root: string, r: Request, a: CompilationInfo, b: CompilationInfo)
    requires SameElements(a, b) && DistinctNames(a.defines)
    ensures IndexKey(root, r.(info := Some(a))) == IndexKey(root, r.(info := Some(b)))
  {
    PathsForgetOrder(root, a.includePaths, b.includePaths);
    PathsForgetOrder(root, a.systemIncludePaths, b.systemIncludePaths);
    FlagsForgetOrder(root, a.otherFlags, b.otherFlags);
    DefineOrder(a.defines);
    SortForgetsOrder(DefineLeq, a.defines, b.defines);
    PortabilityForgetsOrder(root, a.includePaths, b.includePaths);
    PortabilityForgetsOrder(root, b.includePaths, a.includePaths);
    PortabilityForgetsOrder(root, a.systemIncludePaths, b.systemIncludePaths);
    PortabilityForgetsOrder(root, b.systemIncludePaths, a.systemIncludePaths);
    PortabilityForgetsOrder(root, a.otherFlags, b.otherFlags);
    PortabilityForgetsOrder(root, b.otherFlags, a.otherFlags);
    hide PathsBytes, FlagsBytes, AllPortable, FlagsPortable, PortableNames, TotalPreorder, Separates, DistinctNames, Mix, IndexKey, FileBytes;
    SameFiles(root, a, b);
    assert InfoBytes(root, a) == InfoBytes(root, b);
    assert InfoPortable(root, a) == InfoPortable(root, b);
    SameInfoSameKey(root, a, root, b, r);
  }

  // ---------------------------------------------------------------- what tells keys apart

  lemma KeyShowsTheState(root: string, r: Request, s: Request)
    requires IndexKey(root, r).Some? && IndexKey(root, s).Some?
    ensures IndexKey(root, r) == IndexKey(root, s) <==>
      Mix(OFFSET_BASIS, KeyBytes(root, r)) == Mix(OFFSET_BASIS, KeyBytes(root, s))
  {
    var x, y := Mix(OFFSET_BASIS, KeyBytes(root, r)), Mix(OFFSET_BASIS, KeyBytes(root, s));
    if "v2:" + Hex(x, 16) == "v2:" + Hex(y, 16) {
      assert ("v2:" + Hex(x, 16))[3..] == Hex(x, 16) && ("v2:" + Hex(y, 16))[3..] == Hex(y, 16);
      WordBits();
      HexInjective(x, y, 16);
    }
  }

  function Head(r: Request): seq<Byte> {
    Bytes("index-artifact") + LittleEndian32(VERSION) + PortableBytes(NamesOrNothing("", r.cachePath))
  }

  function Tail(root: string, r: Request): seq<Byte> {
    LanguageBytes(r) + (if r.info.None? then BoolBytes(false) else InfoBytes(root, r.info.value))
  }

  lemma KeyBytesAround(root: string, r: Request, pre: seq<Byte>, byte: Byte, post: seq<Byte>)
    requires r.source == pre + [byte] + post
    ensures KeyBytes(root, r) == (Head(r) + pre) + [byte] + (post + Tail(root, r))
  {
    var tail := if r.info.None? then BoolBytes(false) else InfoBytes(root, r.info.value);
    Around(Head(r), pre, [byte], post, LanguageBytes(r), tail);
  }

  lemma Around(h: seq<Byte>, pre: seq<Byte>, byte: seq<Byte>, post: seq<Byte>, l: seq<Byte>, tail: seq<Byte>)
    ensures h + (pre + byte + post) + l + tail == (h + pre) + byte + (post + (l + tail))
  {
  }

  /** Two sources that differ in exactly one byte never share a key. */
  lemma OneByteChangesTheKey(root: string, r: Request, pre: seq<Byte>, a: Byte, b: Byte, post: seq<Byte>)
    requires a != b && Keyed(root, r)
    ensures IndexKey(root, r.(source := pre + [a] + post)) != IndexKey(root, r.(source := pre + [b] + post))
  {
    var x, y := r.(source := pre + [a] + post), r.(source := pre + [b] + post);
    KeyBytesAround(root, x, pre, a, post);
    KeyBytesAround(root, y, pre, b, post);
    OneByteChangesTheState(OFFSET_BASIS, Head(r) + pre, a, b, post + Tail(root, r));
    KeyShowsTheState(root, x, y);
  }

  // ---------------------------------------------------------------- what does not

  lemma Between(a: seq<Byte>, x: seq<Byte>, y: seq<Byte>, b: seq<Byte>)
    ensures a + x + b == a + y + b <==> x == y
  {
    if a + x + b == a + y + b {
      assert |x| == |y|;
      assert x == (a + x + b)[|a|..|a| + |x|] && y == (a + y + b)[|a|..|a| + |y|];
    }
  }

  /** What follows never merges two states, and never separates equal ones. */
  lemma StateBetween(a: seq<Byte>, x: seq<Byte>, y: seq<Byte>, b: seq<Byte>)
    ensures Mix(OFFSET_BASIS, a + x + b) == Mix(OFFSET_BASIS, a + y + b) <==> Mix(OFFSET_BASIS, a + x) == Mix(OFFSET_BASIS, a + y)
  {
    MixConcat(OFFSET_BASIS, a + x, b);
    MixConcat(OFFSET_BASIS, a + y, b);
    MixInjective(Mix(OFFSET_BASIS, a + x), Mix(OFFSET_BASIS, a + y), b);
  }

  /** The fields of the key in their order; a missing description is one field. */
  function InfoFields(root: string, info: CompilationInfo): seq<seq<Byte>> {
    [BoolBytes(true), PortableBytes(NamesOrNothing(root, info.file)), PortableBytes(NamesOrNothing(root, info.workingDirectory)),
     OptionalBytes(NameOf(info.standard)), PathsBytes(root, info.includePaths), PathsBytes(root, info.systemIncludePaths),
     DefinesBytes(info.defines), FlagsBytes(root, info.otherFlags)]
  }

  function RequestFields(r: Request): seq<seq<Byte>> {
    [Bytes("index-artifact"), LittleEndian32(VERSION), PortableBytes(NamesOrNothing("", r.cachePath)), r.source,
     Bytes(r.language.name), Bytes(r.language.graphQuery), OptionalBytes(r.language.tagsQuery),
     BoolBytes(r.legacyEdgeIdentity), BoolBytes(r.lazyGraphExecution)]
  }

  function Fields(root: string, r: Request): seq<seq<Byte>> {
    RequestFields(r) + if r.info.None? then [BoolBytes(false)] else InfoFields(root, r.info.value)
  }

  lemma FlatSnoc(pieces: seq<seq<Byte>>, last: seq<Byte>)
    ensures Flat(pieces + [last]) == Flat(pieces) + last
  {
    assert (pieces + [last])[..|pieces|] == pieces;
  }

  lemma {:induction false} FlatConcat(a: seq<seq<Byte>>, b: seq<seq<Byte>>)
    ensures Flat(a + b) == Flat(a) + Flat(b)
    decreases |b|
  {
    if b == [] {
      assert a + b == a && Flat(a) + [] == Flat(a);
    } else {
      var front, last := b[..|b| - 1], b[|b| - 1];
      assert a + b == (a + front) + [last] && b == front + [last];
      FlatConcat(a, front);
      FlatSnoc(a + front, last);
      Regroup(Flat(a), Flat(front), last);
    }
  }

  lemma FlatOne(a: seq<Byte>)
    ensures Flat([a]) == a
  {
    FlatSnoc([], a);
    assert [] + [a] == [a] && [] + a == a;
  }

  lemma FlatFour(a: seq<Byte>, b: seq<Byte>, c: seq<Byte>, d: seq<Byte>)
    ensures Flat([a, b, c, d]) == a + b + c + d
  {
    FlatOne(a);
    FlatSnoc([a], b);
    FlatSnoc([a, b], c);
    FlatSnoc([a, b, c], d);
    assert [a] + [b] == [a, b] && [a, b] + [c] == [a, b, c] && [a, b, c] + [d] == [a, b, c, d];
  }

  lemma FlatEight(a: seq<Byte>, b: seq<Byte>, c: seq<Byte>, d: seq<Byte>, e: seq<Byte>, f: seq<Byte>, g: seq<Byte>, h: seq<Byte>)
    ensures Flat([a, b, c, d, e, f, g, h]) == a + b + c + d + e + f + g + h
  {
    FlatConcat([a, b, c, d], [e, f, g, h]);
    FlatFour(a, b, c, d);
    FlatFour(e, f, g, h);
    Regroup4(a + b + c + d, e, f, g, h);
    hide Flat;
    assert [a, b, c, d] + [e, f, g, h] == [a, b, c, d, e, f, g, h];
  }

  lemma InfoBytesAreTheFields(root: string, info: CompilationInfo)
    ensures Flat(InfoFields(root, info)) == InfoBytes(root, info)
  {
    hide Bytes, PortableBytes, OptionalBytes, PathsBytes, DefinesBytes, FlagsBytes, NamesOrNothing, Flat, BoolBytes;
    FlatEight(BoolBytes(true), PortableBytes(NamesOrNothing(root, info.file)), PortableBytes(NamesOrNothing(root, info.workingDirectory)),
              OptionalBytes(NameOf(info.standard)), PathsBytes(root, info.includePaths), PathsBytes(root, info.systemIncludePaths),
              DefinesBytes(info.defines), FlagsBytes(root, info.otherFlags));
  }

  lemma Regroup4(s: seq<Byte>, a: seq<Byte>, b: seq<Byte>, c: seq<Byte>, d: seq<Byte>)
    ensures s + a + b + c + d == s + (a + b + c + d)
  {
    Regroup(s, a, b);
    Regroup(s, a + b, c);
    Regroup(s, a + b + c, d);
  }

  lemma RequestBytesAreTheFields(r: Request)
    ensures Flat(RequestFields(r)) == Head(r) + r.source + LanguageBytes(r)
  {
    var f := RequestFields(r);
    assert f == [f[0], f[1], f[2], f[3]] + ([f[4], f[5], f[6], f[7]] + [f[8]]);
    hide Bytes, PortableBytes, OptionalBytes, NamesOrNothing, Flat, LittleEndian32;
    FlatConcat([f[0], f[1], f[2], f[3]], [f[4], f[5], f[6], f[7]] + [f[8]]);
    FlatConcat([f[4], f[5], f[6], f[7]], [f[8]]);
    FlatFour(f[0], f[1], f[2], f[3]);
    FlatFour(f[4], f[5], f[6], f[7]);
    FlatOne(f[8]);
  }

  /** What is hashed is the fields, one after the other. */
  lemma KeyBytesAreTheFields(root: string, r: Request)
    ensures KeyBytes(root, r) == Flat(Fields(root, r))
  {
    RequestBytesAreTheFields(r);
    if r.info.None? {
      FlatOne(BoolBytes(false));
      FlatConcat(RequestFields(r), [BoolBytes(false)]);
    } else {
      InfoBytesAreTheFields(root, r.info.value);
      FlatConcat(RequestFields(r), InfoFields(root, r.info.value));
    }
    hide Bytes, PortableBytes, LanguageBytes, InfoBytes, Flat, RequestFields, InfoFields;
  }

  /** No field is framed. Take any requests whose fields agree but for some in a row: they feed the same bytes to the hash exactly
      if those in the row run together to the same bytes, and have the same key exactly if the states behind the row agree. */
  lemma FieldsAreNotFramed(root: string, r: Request, s: Request, before: seq<seq<Byte>>, x: seq<seq<Byte>>, y: seq<seq<Byte>>, after: seq<seq<Byte>>)
    requires Keyed(root, r) && Keyed(root, s)
    requires Fields(root, r) == before + x + after && Fields(root, s) == before + y + after
    ensures KeyBytes(root, r) == KeyBytes(root, s) <==> Flat(x) == Flat(y)
    ensures IndexKey(root, r) == IndexKey(root, s) <==>
      Mix(OFFSET_BASIS, Flat(before) + Flat(x)) == Mix(OFFSET_BASIS, Flat(before) + Flat(y))
  {
    hide KeyBytes, Fields, Flat, Mix, PortableNames, InfoPortable;
    KeyBytesAreTheFields(root, r);
    KeyBytesAreTheFields(root, s);
    FlatConcat(before + x, after);
    FlatConcat(before, x);
    FlatConcat(before + y, after);
    FlatConcat(before, y);
    Between(Flat(before), Flat(x), Flat(y), Flat(after));
    StateBetween(Flat(before), Flat(x), Flat(y), Flat(after));
    KeyShowsTheState(root, r, s);
  }

  /** So with any two neighbours: source and language, system include paths and defines, defines and flags, and all others. */
  lemma NeighboursAreNotFramed(root: string, r: Request, s: Request, i: nat)
    requires Keyed(root, r) && Keyed(root, s) && i + 1 < |Fields(root, r)| == |Fields(root, s)|
    requires forall k :: 0 <= k < |Fields(root, r)| && k != i && k != i + 1 ==> Fields(root, r)[k] == Fields(root, s)[k]
    ensures var f, g := Fields(root, r), Fields(root, s);
      && (KeyBytes(root, r) == KeyBytes(root, s) <==> f[i] + f[i + 1] == g[i] + g[i + 1])
      && (IndexKey(root, r) == IndexKey(root, s) <==>
            Mix(OFFSET_BASIS, Flat(f[..i]) + (f[i] + f[i + 1])) == Mix(OFFSET_BASIS, Flat(f[..i]) + (g[i] + g[i + 1])))
  {
    hide Fields, KeyBytes, IndexKey, Mix, Keyed, Flat;
    var f, g := Fields(root, r), Fields(root, s);
    assert f == f[..i] + [f[i], f[i + 1]] + f[i + 2..] && g == f[..i] + [g[i], g[i + 1]] + f[i + 2..];
    FieldsAreNotFramed(root, r, s, f[..i], [f[i], f[i + 1]], [g[i], g[i + 1]], f[i + 2..]);
    FlatTwo(f[i], f[i + 1]);
    FlatTwo(g[i], g[i + 1]);
  }

  lemma FlatTwo(a: seq<Byte>, b: seq<Byte>)
    ensures Flat([a, b]) == a + b
  {
    FlatOne(a);
    FlatSnoc([a], b);
    assert [a] + [b] == [a, b];
  }

  function Prefix(): seq<Byte> {
    Bytes("index-artifact") + LittleEndian32(VERSION)
  }

  function PathAndSource(r: Request): seq<Byte> {
    PortableBytes(NamesOrNothing("", r.cachePath)) + r.source
  }

  ghost predicate SameButPathAndSource(r: Request, s: Request) {
    s == r.(cachePath := s.cachePath, source := s.source)
  }

  function Opening(): seq<seq<Byte>> {
    [Bytes("index-artifact"), LittleEndian32(VERSION)]
  }

  function AfterSource(root: string, r: Request): seq<seq<Byte>> {
    RequestFields(r)[4..] + if r.info.None? then [BoolBytes(false)] else InfoFields(root, r.info.value)
  }

  lemma FieldsAroundPathAndSource(root: string, r: Request)
    ensures Fields(root, r) == Opening() + [PortableBytes(NamesOrNothing("", r.cachePath)), r.source] + AfterSource(root, r)
  {
    hide Bytes, LittleEndian32, PortableBytes, NamesOrNothing, OptionalBytes, BoolBytes, InfoFields;
    assert RequestFields(r) == Opening() + [PortableBytes(NamesOrNothing("", r.cachePath)), r.source] + RequestFields(r)[4..];
  }

  lemma SameAfterSource(root: string, r: Request, s: Request)
    requires SameButPathAndSource(r, s)
    ensures AfterSource(root, r) == AfterSource(root, s)
  {
    hide Bytes, LittleEndian32, PortableBytes, NamesOrNothing, OptionalBytes, BoolBytes, InfoFields;
  }

  /** The path and the source. */
  lemma PathAndSourceAreNotFramed(root: string, r: Request, s: Request)
    requires Keyed(root, r) && Keyed(root, s) && SameButPathAndSource(r, s)
    ensures KeyBytes(root, r) == KeyBytes(root, s) <==> PathAndSource(r) == PathAndSource(s)
    ensures IndexKey(root, r) == IndexKey(root, s) <==>
      Mix(OFFSET_BASIS, Prefix() + PathAndSource(r)) == Mix(OFFSET_BASIS, Prefix() + PathAndSource(s))
  {
    hide KeyBytes, IndexKey, Mix, Keyed, Flat, Fields, AfterSource, Bytes, PortableBytes, NamesOrNothing, LittleEndian32, SameButPathAndSource;
    FieldsAroundPathAndSource(root, r);
    FieldsAroundPathAndSource(root, s);
    SameAfterSource(root, r, s);
    var path, other := PortableBytes(NamesOrNothing("", r.cachePath)), PortableBytes(NamesOrNothing("", s.cachePath));
    FieldsAreNotFramed(root, r, s, Opening(), [path, r.source], [other, s.source], AfterSource(root, r));
    FlatTwo(Bytes("index-artifact"), LittleEndian32(VERSION));
    FlatTwo(path, r.source);
    FlatTwo(other, s.source);
  }

  /** In particular, bytes may move from the end of the path to the start of the source. */
  lemma PathRunsIntoSource(root: string, r: Request, path: string, more: string, source: seq<Byte>)
    requires CachePath("", path) == Some(path) && CachePath("", path + more) == Some(path + more)
    requires '\\' !in path + more
    ensures IndexKey(root, r.(cachePath := path, source := Bytes(more) + source)) ==
            IndexKey(root, r.(cachePath := path + more, source := source))
  {
    var x, y := r.(cachePath := path, source := Bytes(more) + source), r.(cachePath := path + more, source := source);
    if Keyed(root, x) {
      assert Slashed(path) == path && Slashed(path + more) == path + more;
      BytesConcat(path, more);
      Regroup(Bytes(path), Bytes(more), source);
      hide Mix, InfoBytes, InfoPortable, KeyBytes, Hex;
      PathAndSourceAreNotFramed(root, x, y);
    }
  }

  function Includes(root: string, info: CompilationInfo): seq<Byte> {
    PathsBytes(root, info.includePaths) + PathsBytes(root, info.systemIncludePaths)
  }

  function Front(root: string, r: Request, info: CompilationInfo): seq<Byte> {
    Head(r) + r.source + LanguageBytes(r) + FileBytes(root, info)
  }

  ghost predicate SameButIncludes(a: CompilationInfo, b: CompilationInfo) {
    b == a.(includePaths := b.includePaths, systemIncludePaths := b.systemIncludePaths)
  }

  function BeforeIncludes(root: string, r: Request, info: CompilationInfo): seq<seq<Byte>> {
    RequestFields(r) + InfoFields(root, info)[..4]
  }

  function AfterIncludes(root: string, info: CompilationInfo): seq<seq<Byte>> {
    InfoFields(root, info)[6..]
  }

  lemma FieldsAroundIncludes(root: string, r: Request, info: CompilationInfo)
    ensures Fields(root, r.(info := Some(info))) == BeforeIncludes(root, r, info)
      + [PathsBytes(root, info.includePaths), PathsBytes(root, info.systemIncludePaths)] + AfterIncludes(root, info)
  {
    hide Bytes, LittleEndian32, PortableBytes, NamesOrNothing, OptionalBytes, BoolBytes, PathsBytes, DefinesBytes, FlagsBytes;
    var f, g := RequestFields(r), InfoFields(root, info);
    assert RequestFields(r.(info := Some(info))) == f;
    hide RequestFields;
    assert g == g[..4] + [g[4], g[5]] + g[6..];
  }

  lemma BytesBeforeIncludes(root: string, r: Request, info: CompilationInfo)
    ensures Flat(BeforeIncludes(root, r, info)) == Front(root, r, info)
  {
    hide Bytes, LittleEndian32, PortableBytes, NamesOrNothing, OptionalBytes, BoolBytes, PathsBytes, DefinesBytes, FlagsBytes,
      Flat, RequestFields, Head, LanguageBytes;
    var g := InfoFields(root, info);
    RequestBytesAreTheFields(r);
    FlatConcat(RequestFields(r), [g[0], g[1], g[2], g[3]]);
    FlatFour(g[0], g[1], g[2], g[3]);
    assert g[..4] == [g[0], g[1], g[2], g[3]];
  }

  lemma SameAroundIncludes(root: string, r: Request, a: CompilationInfo, b: CompilationInfo)
    requires SameButIncludes(a, b)
    ensures BeforeIncludes(root, r, a) == BeforeIncludes(root, r, b) && AfterIncludes(root, a) == AfterIncludes(root, b)
  {
    hide PortableBytes, NamesOrNothing, OptionalBytes, BoolBytes, PathsBytes, DefinesBytes, FlagsBytes, RequestFields;
  }

  /** The two lists of include paths. */
  lemma IncludeListsAreNotFramed(root: string, r: Request, a: CompilationInfo, b: CompilationInfo)
    requires Keyed(root, r.(info := Some(a))) && Keyed(root, r.(info := Some(b))) && SameButIncludes(a, b)
    ensures KeyBytes(root, r.(info := Some(a))) == KeyBytes(root, r.(info := Some(b))) <==> Includes(root, a) == Includes(root, b)
    ensures IndexKey(root, r.(info := Some(a))) == IndexKey(root, r.(info := Some(b))) <==>
      Mix(OFFSET_BASIS, Front(root, r, a) + Includes(root, a)) == Mix(OFFSET_BASIS, Front(root, r, a) + Includes(root, b))
  {
    hide KeyBytes, IndexKey, Mix, Keyed, Flat, Fields, Front, BeforeIncludes, AfterIncludes, SameButIncludes, PathsBytes;
    var x, y := r.(info := Some(a)), r.(info := Some(b));
    FieldsAroundIncludes(root, r, a);
    FieldsAroundIncludes(root, r, b);
    SameAroundIncludes(root, r, a, b);
    BytesBeforeIncludes(root, r, a);
    var inc, sys, inc', sys' := PathsBytes(root, a.includePaths), PathsBytes(root, a.systemIncludePaths),
      PathsBytes(root, b.includePaths), PathsBytes(root, b.systemIncludePaths);
    FieldsAreNotFramed(root, x, y, BeforeIncludes(root, r, a), [inc, sys], [inc', sys'], AfterIncludes(root, a));
    FlatTwo(inc, sys);
    FlatTwo(inc', sys');
  }

  /** In particular, whether a directory is an ordinary or a system include path does not enter the key. */
  lemma IncludeKindIsNotKeyed(root: string, r: Request, info: CompilationInfo, paths: seq<string>)
    ensures IndexKey(root, r.(info := Some(info.(includePaths := paths, systemIncludePaths := [])))) ==
            IndexKey(root, r.(info := Some(info.(includePaths := [], systemIncludePaths := paths))))
  {
    var a, b := info.(includePaths := paths, systemIncludePaths := []), info.(includePaths := [], systemIncludePaths := paths);
    var x, y := r.(info := Some(a)), r.(info := Some(b));
    NoPaths(root);
    assert Keyed(root, x) == Keyed(root, y);
    if Keyed(root, x) {
      assert Includes(root, a) == Includes(root, b);
      hide Includes, KeyBytes, Mix, Keyed, Front;
      IncludeListsAreNotFramed(root, r, a, b);
    }
  }

  lemma NoPaths(root: string)
    ensures PathsBytes(root, []) == [] && AllPortable(root, [])
  {
  }
}
