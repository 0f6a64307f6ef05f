/** Every part of a request is in its key: what one changed field, or one changed byte, does to bytes and key. */
module ArtifactCacheKeyFields {
  import opened Options
  import opened Ordering
  import opened Paths
  import opened Fnv
  import opened ArtifactCacheKey
  import opened ArtifactCacheKeyTheorems

  /** The two requests differ in their `i`-th field at most. */
  ghost predicate SameBut(root: string, r: Request, s: Request, i: nat) {
    var f, g := Fields(root, r), Fields(root, s);
    i < |f| == |g| && forall k :: 0 <= k < |f| && k != i ==> f[k] == g[k]
  }

  lemma Rows(root: string, r: Request, s: Request, i: nat) returns (before: seq<seq<Byte>>, after: seq<seq<Byte>>)
    requires SameBut(root, r, s, i)
    ensures Fields(root, r) == before + [Fields(root, r)[i]] + after && Fields(root, s) == before + [Fields(root, s)[i]] + after
  {
    hide Fields;
    before, after := Fields(root, r)[..i], Fields(root, r)[i + 1..];
    assert Fields(root, s)[..i] == before && Fields(root, s)[i + 1..] == after;
  }

  /** One changed field changes what is hashed. */
  lemma OneFieldIsKeyed(root: string, r: Request, s: Request, i: nat)
    requires Keyed(root, r) && Keyed(root, s) && SameBut(root, r, s, i)
    ensures KeyBytes(root, r) == KeyBytes(root, s) <==> Fields(root, r)[i] == Fields(root, s)[i]
  {
    var before, after := Rows(root, r, s, i);
    hide Fields, KeyBytes, IndexKey, Mix, Flat, Keyed, SameBut;
    FieldsAreNotFramed(root, r, s, before, [Fields(root, r)[i]], [Fields(root, s)[i]], after);
    FlatOne(Fields(root, r)[i]);
    FlatOne(Fields(root, s)[i]);
  }

  /** The byte strings differ in exactly one byte. */
  ghost predicate OneByteApart(x: seq<Byte>, y: seq<Byte>) {
    exists pre: seq<Byte>, a: Byte, b: Byte, post: seq<Byte> :: AreApart(x, y, pre, a, b, post)
  }

  ghost predicate AreApart(x: seq<Byte>, y: seq<Byte>, pre: seq<Byte>, a: Byte, b: Byte, post: seq<Byte>) {
    a != b && x == pre + [a] + post && y == pre + [b] + post
  }

  lemma RowOfThree(before: seq<seq<Byte>>, x: seq<Byte>, after: seq<seq<Byte>>)
    ensures Flat(before + [x] + after) == Flat(before) + x + Flat(after)
  {
    FlatConcat(before + [x], after);
    FlatConcat(before, [x]);
    FlatOne(x);
  }

  /** One changed byte in one field always changes the key. */
  lemma OneByteOfAField(root: string, r: Request, s: Request, i: nat)
    requires Keyed(root, r) && Keyed(root, s) && SameBut(root, r, s, i) && OneByteApart(Fields(root, r)[i], Fields(root, s)[i])
    ensures IndexKey(root, r) != IndexKey(root, s)
  {
    var x, y := Fields(root, r)[i], Fields(root, s)[i];
    var before, after := Rows(root, r, s, i);
    hide Fields, KeyBytes, IndexKey, Mix, Flat, SameBut, PortableNames, InfoPortable;
    var pre, a, b, post :| AreApart(x, y, pre, a, b, post);
    KeyBytesAreTheFields(root, r);
    KeyBytesAreTheFields(root, s);
    RowOfThree(before, x, after);
    RowOfThree(before, y, after);
    Around(Flat(before), pre, [a], post, Flat(after), []);
    Around(Flat(before), pre, [b], post, Flat(after), []);
    assert Flat(after) + [] == Flat(after);
    assert KeyBytes(root, r) + [] == KeyBytes(root, r) && KeyBytes(root, s) + [] == KeyBytes(root, s);
    OneByteChangesTheState(OFFSET_BASIS, Flat(before) + pre, a, b, post + Flat(after));
    KeyShowsTheState(root, r, s);
  }

  // ---------------------------------------------------------------- texts as bytes

  predicate ByteText(text: string) {
    forall i :: 0 <= i < |text| ==> text[i] as int < 256
  }

  predicate ByteTextOrNone(text: Option<string>) {
    text.Some? ==> ByteText(text.value)
  }

  lemma BytesInjective(a: string, b: string)
    requires ByteText(a) && ByteText(b)
    ensures Bytes(a) == Bytes(b) <==> a == b
  {
    if Bytes(a) == Bytes(b) {
      forall i | 0 <= i < |a| ensures a[i] == b[i] {
        assert Bytes(a)[i] == Bytes(b)[i];
      }
    }
  }

  lemma OptionalInjective(a: Option<string>, b: Option<string>)
    requires ByteTextOrNone(a) && ByteTextOrNone(b)
    ensures OptionalBytes(a) == OptionalBytes(b) <==> a == b
  {
    if OptionalBytes(a) == OptionalBytes(b) {
      assert OptionalBytes(a)[0] == if a.None? then 0 else 1;
      assert OptionalBytes(b)[0] == if b.None? then 0 else 1;
      if a.Some? {
        assert OptionalBytes(a)[1..] == Bytes(a.value) && OptionalBytes(b)[1..] == Bytes(b.value);
        BytesInjective(a.value, b.value);
      }
    }
  }

  /** Texts that differ in exactly one byte. */
  ghost predicate OneLetterApart(a: string, b: string) {
    |a| == |b| && exists i :: 0 <= i < |a| && a[i] as int % 256 != b[i] as int % 256 && b == a[i := b[i]]
  }

  lemma OneByteAt(x: seq<Byte>, y: seq<Byte>, i: nat)
    requires |x| == |y| && i < |x| && x[i] != y[i] && forall k :: 0 <= k < |x| && k != i ==> x[k] == y[k]
    ensures OneByteApart(x, y)
  {
    assert x == x[..i] + [x[i]] + x[i + 1..];
    assert y == x[..i] + [y[i]] + x[i + 1..];
    assert AreApart(x, y, x[..i], x[i], y[i], x[i + 1..]);
  }

  lemma OneByteWithin(p: seq<Byte>, x: seq<Byte>, y: seq<Byte>, q: seq<Byte>)
    requires OneByteApart(x, y)
    ensures OneByteApart(p + x + q, p + y + q)
  {
    var pre, a, b, post :| AreApart(x, y, pre, a, b, post);
    assert p + x + q == (p + pre) + [a] + (post + q);
    assert p + y + q == (p + pre) + [b] + (post + q);
    assert AreApart(p + x + q, p + y + q, p + pre, a, b, post + q);
  }

  lemma OneLetterIsOneByte(a: string, b: string)
    requires OneLetterApart(a, b)
    ensures OneByteApart(Bytes(a), Bytes(b))
  {
    var i :| 0 <= i < |a| && a[i] as int % 256 != b[i] as int % 256 && b == a[i := b[i]];
    OneByteAt(Bytes(a), Bytes(b), i);
  }

  lemma OneLetterOfAnOptional(a: string, b: string)
    requires OneLetterApart(a, b)
    ensures OneByteApart(OptionalBytes(Some(a)), OptionalBytes(Some(b)))
  {
    OneLetterIsOneByte(a, b);
    hide Bytes, OneByteApart;
    OneByteWithin(BoolBytes(true), Bytes(a), Bytes(b), []);
    assert OptionalBytes(Some(a)) + [] == OptionalBytes(Some(a)) && OptionalBytes(Some(b)) + [] == OptionalBytes(Some(b));
  }

  lemma SwitchIsOneByte(b: bool)
    ensures OneByteApart(BoolBytes(b), BoolBytes(!b))
  {
    OneByteAt(BoolBytes(b), BoolBytes(!b), 0);
  }

  // ---------------------------------------------------------------- language and switches

  lemma LanguageFields(root: string, r: Request, name: string, query: string, tags: Option<string>, legacy: bool, lazy: bool)
    ensures SameBut(root, r, r.(language := r.language.(name := name)), 4)
    ensures SameBut(root, r, r.(language := r.language.(graphQuery := query)), 5)
    ensures SameBut(root, r, r.(language := r.language.(tagsQuery := tags)), 6)
    ensures SameBut(root, r, r.(legacyEdgeIdentity := legacy), 7)
    ensures SameBut(root, r, r.(lazyGraphExecution := lazy), 8)
  {
    hide Bytes, OptionalBytes, BoolBytes, PortableBytes, NamesOrNothing, LittleEndian32, InfoFields;
  }

  lemma LanguageValues(root: string, r: Request)
    ensures |Fields(root, r)| >= 9
    ensures Fields(root, r)[4] == Bytes(r.language.name) && Fields(root, r)[5] == Bytes(r.language.graphQuery)
    ensures Fields(root, r)[6] == OptionalBytes(r.language.tagsQuery)
    ensures Fields(root, r)[7] == BoolBytes(r.legacyEdgeIdentity) && Fields(root, r)[8] == BoolBytes(r.lazyGraphExecution)
  {
    hide Bytes, OptionalBytes, BoolBytes, PortableBytes, NamesOrNothing, LittleEndian32, InfoFields;
  }

  /** The language's name and queries are in what is hashed: another text is other bytes, and one other letter another key. */
  lemma LanguageIsKeyed(root: string, r: Request, name: string, query: string)
    requires Keyed(root, r) && ByteText(r.language.name) && ByteText(r.language.graphQuery) && ByteText(name) && ByteText(query)
    ensures var s := r.(language := r.language.(name := name));
      && (KeyBytes(root, s) == KeyBytes(root, r) <==> name == r.language.name)
      && (OneLetterApart(r.language.name, name) ==> IndexKey(root, s) != IndexKey(root, r))
    ensures var s := r.(language := r.language.(graphQuery := query));
      && (KeyBytes(root, s) == KeyBytes(root, r) <==> query == r.language.graphQuery)
      && (OneLetterApart(r.language.graphQuery, query) ==> IndexKey(root, s) != IndexKey(root, r))
  {
    hide KeyBytes, IndexKey, SameBut, InfoPortable, Fields, Bytes;
    LanguageFields(root, r, name, query, None, true, true);
    var s, t := r.(language := r.language.(name := name)), r.(language := r.language.(graphQuery := query));
    LanguageValues(root, r);
    LanguageValues(root, s);
    LanguageValues(root, t);
    OneFieldIsKeyed(root, r, s, 4);
    OneFieldIsKeyed(root, r, t, 5);
    BytesInjective(name, r.language.name);
    BytesInjective(query, r.language.graphQuery);
    if OneLetterApart(r.language.name, name) {
      OneLetterIsOneByte(r.language.name, name);
      OneByteOfAField(root, r, s, 4);
    }
    if OneLetterApart(r.language.graphQuery, query) {
      OneLetterIsOneByte(r.language.graphQuery, query);
      OneByteOfAField(root, r, t, 5);
    }
  }

  /** So are the optional tags query, whose absence is not an empty one, and the two switches. */
  lemma TagsAndSwitchesAreKeyed(root: string, r: Request, tags: Option<string>)
    requires Keyed(root, r) && ByteTextOrNone(r.language.tagsQuery) && ByteTextOrNone(tags)
    ensures var s := r.(language := r.language.(tagsQuery := tags));
      && (KeyBytes(root, s) == KeyBytes(root, r) <==> tags == r.language.tagsQuery)
      && (r.language.tagsQuery.Some? && tags.Some? && OneLetterApart(r.language.tagsQuery.value, tags.value) ==> IndexKey(root, s) != IndexKey(root, r))
    ensures IndexKey(root, r.(legacyEdgeIdentity := !r.legacyEdgeIdentity)) != IndexKey(root, r)
    ensures IndexKey(root, r.(lazyGraphExecution := !r.lazyGraphExecution)) != IndexKey(root, r)
  {
    hide KeyBytes, IndexKey, SameBut, InfoPortable, Fields, Bytes, OptionalBytes, BoolBytes, OneByteApart;
    LanguageFields(root, r, "", "", tags, !r.legacyEdgeIdentity, !r.lazyGraphExecution);
    var s := r.(language := r.language.(tagsQuery := tags));
    var legacy, lazy := r.(legacyEdgeIdentity := !r.legacyEdgeIdentity), r.(lazyGraphExecution := !r.lazyGraphExecution);
    LanguageValues(root, r);
    LanguageValues(root, s);
    LanguageValues(root, legacy);
    LanguageValues(root, lazy);
    OneFieldIsKeyed(root, r, s, 6);
    OptionalInjective(tags, r.language.tagsQuery);
    if r.language.tagsQuery.Some? && tags.Some? && OneLetterApart(r.language.tagsQuery.value, tags.value) {
      OneLetterOfAnOptional(r.language.tagsQuery.value, tags.value);
      OneByteOfAField(root, r, s, 6);
    }
    SwitchIsOneByte(r.legacyEdgeIdentity);
    OneByteOfAField(root, r, legacy, 7);
    SwitchIsOneByte(r.lazyGraphExecution);
    OneByteOfAField(root, r, lazy, 8);
  }

  // ---------------------------------------------------------------- paths

  lemma PortableBytesOf(root: string, path: string, text: string)
    requires CachePath(root, path) == Some(text)
    ensures PortableNames(root, path).Some? && PortableBytes(NamesOrNothing(root, path)) == Bytes(Slashed(text))
  {
  }

  lemma SlashedText(text: string)
    ensures ByteText(text) ==> ByteText(Slashed(text))
  {
  }

  lemma CachePathField(root: string, r: Request, path: string)
    ensures SameBut(root, r, r.(cachePath := path), 2)
    ensures Fields(root, r)[2] == PortableBytes(NamesOrNothing("", r.cachePath))
  {
    hide Bytes, OptionalBytes, BoolBytes, PortableBytes, NamesOrNothing, LittleEndian32, InfoFields;
  }

  /** The cached file's portable path is in what is hashed, up to the kind of slash. */
  lemma CachePathIsKeyed(root: string, r: Request, path: string, text: string, other: string)
    requires Keyed(root, r) && CachePath("", r.cachePath) == Some(text) && CachePath("", path) == Some(other) && ByteText(text) && ByteText(other)
    ensures var s := r.(cachePath := path);
      && (KeyBytes(root, s) == KeyBytes(root, r) <==> Slashed(other) == Slashed(text))
      && (OneLetterApart(Slashed(text), Slashed(other)) ==> IndexKey(root, s) != IndexKey(root, r))
      && (Slashed(other) == Slashed(text) ==> IndexKey(root, s) == IndexKey(root, r))
  {
    hide KeyBytes, SameBut, InfoPortable, Fields, PortableNames, Slashed, Mix, Bytes;
    var s := r.(cachePath := path);
    CachePathField(root, r, path);
    CachePathField(root, s, path);
    PortableBytesOf("", r.cachePath, text);
    PortableBytesOf("", path, other);
    SlashedText(text);
    SlashedText(other);
    OneFieldIsKeyed(root, r, s, 2);
    BytesInjective(Slashed(other), Slashed(text));
    if OneLetterApart(Slashed(text), Slashed(other)) {
      OneLetterIsOneByte(Slashed(text), Slashed(other));
      hide IndexKey;
      OneByteOfAField(root, r, s, 2);
    }
  }

  lemma SlashesAlike(pre: string, post: string)
    requires ByteText(pre) && ByteText(post)
    ensures Slashed(pre + "\\" + post) == Slashed(pre + "/" + post)
    ensures ByteText(pre + "\\" + post) && ByteText(pre + "/" + post)
  {
  }

  /** A backslash in a name is keyed like a separator. */
  lemma BackslashIsKeyedAsSlash(root: string, r: Request, path: string, pre: string, post: string)
    requires Keyed(root, r) && ByteText(pre) && ByteText(post)
    requires CachePath("", r.cachePath) == Some(pre + "/" + post) && CachePath("", path) == Some(pre + "\\" + post)
    ensures IndexKey(root, r.(cachePath := path)) == IndexKey(root, r)
  {
    hide Slashed, IndexKey, KeyBytes, CachePath, Keyed, ByteText;
    SlashesAlike(pre, post);
    CachePathIsKeyed(root, r, path, pre + "/" + post, pre + "\\" + post);
  }

  lemma RequestFieldsStay(r: Request, info: CompilationInfo)
    ensures RequestFields(r.(info := Some(info))) == RequestFields(r) && |RequestFields(r)| == 9
  {
    hide Bytes, OptionalBytes, BoolBytes, PortableBytes, NamesOrNothing, LittleEndian32;
  }

  ghost predicate InfoSameBut(root: string, a: CompilationInfo, b: CompilationInfo, i: nat) {
    i < 8 && forall k :: 0 <= k < 8 && k != i ==> InfoFields(root, a)[k] == InfoFields(root, b)[k]
  }

  lemma InfoHasEight(root: string, info: CompilationInfo)
    ensures |InfoFields(root, info)| == 8
  {
  }

  /** A changed part of the description is a changed field of the request. */
  lemma InfoField(root: string, r: Request, a: CompilationInfo, b: CompilationInfo, i: nat)
    requires r.info == Some(a) && InfoSameBut(root, a, b, i)
    ensures var s := r.(info := Some(b));
      && SameBut(root, r, s, 9 + i) && Fields(root, r)[9 + i] == InfoFields(root, a)[i] && Fields(root, s)[9 + i] == InfoFields(root, b)[i]
  {
    hide RequestFields, InfoFields;
    RequestFieldsStay(r, b);
    InfoHasEight(root, a);
    InfoHasEight(root, b);
    var f, g, front := Fields(root, r), Fields(root, r.(info := Some(b))), RequestFields(r);
    assert f == front + InfoFields(root, a) && g == front + InfoFields(root, b);
    hide Fields;
    forall k | 0 <= k < 17 && k != 9 + i ensures f[k] == g[k] {
      if k >= 9 { assert f[k] == InfoFields(root, a)[k - 9] && g[k] == InfoFields(root, b)[k - 9]; }
    }
  }

  lemma DescriptionFields(root: string, info: CompilationInfo, file: string, directory: string, standard: Option<Standard>)
    ensures InfoSameBut(root, info, info.(file := file), 1)
    ensures InfoSameBut(root, info, info.(workingDirectory := directory), 2)
    ensures InfoSameBut(root, info, info.(standard := standard), 3)
  {
    hide Bytes, OptionalBytes, BoolBytes, PortableBytes, NamesOrNothing, PathsBytes, FlagsBytes, DefinesBytes;
  }

  /** So are the portable paths of the compiled file and of the working directory. */
  lemma FileIsKeyed(root: string, r: Request, info: CompilationInfo, file: string, text: string, other: string)
    requires Keyed(root, r) && r.info == Some(info) && CachePath(root, info.file) == Some(text) && CachePath(root, file) == Some(other)
    requires ByteText(text) && ByteText(other)
    ensures var s := r.(info := Some(info.(file := file)));
      && (KeyBytes(root, s) == KeyBytes(root, r) <==> Slashed(other) == Slashed(text))
      && (OneLetterApart(Slashed(text), Slashed(other)) ==> IndexKey(root, s) != IndexKey(root, r))
  {
    hide KeyBytes, IndexKey, SameBut, Fields, PortableNames, Slashed, Bytes, InfoSameBut, AllPortable, FlagsPortable, CachePath, NamesOrNothing, PortableBytes, ByteText;
    var s := r.(info := Some(info.(file := file)));
    DescriptionFields(root, info, file, "", None);
    InfoField(root, r, info, s.info.value, 1);
    PortableBytesOf(root, info.file, text);
    PortableBytesOf(root, file, other);
    SlashedText(text);
    SlashedText(other);
    OneFieldIsKeyed(root, r, s, 10);
    BytesInjective(Slashed(other), Slashed(text));
    if OneLetterApart(Slashed(text), Slashed(other)) {
      OneLetterIsOneByte(Slashed(text), Slashed(other));
      OneByteOfAField(root, r, s, 10);
    }
  }

  lemma DirectoryIsKeyed(root: string, r: Request, info: CompilationInfo, directory: string, text: string, other: string)
    requires Keyed(root, r) && r.info == Some(info) && CachePath(root, info.workingDirectory) == Some(text)
    requires CachePath(root, directory) == Some(other) && ByteText(text) && ByteText(other)
    ensures var s := r.(info := Some(info.(workingDirectory := directory)));
      && (KeyBytes(root, s) == KeyBytes(root, r) <==> Slashed(other) == Slashed(text))
      && (OneLetterApart(Slashed(text), Slashed(other)) ==> IndexKey(root, s) != IndexKey(root, r))
  {
    hide KeyBytes, IndexKey, SameBut, Fields, PortableNames, Slashed, Bytes, InfoSameBut, AllPortable, FlagsPortable, CachePath, NamesOrNothing, PortableBytes, ByteText;
    var s := r.(info := Some(info.(workingDirectory := directory)));
    DescriptionFields(root, info, "", directory, None);
    InfoField(root, r, info, s.info.value, 2);
    PortableBytesOf(root, info.workingDirectory, text);
    PortableBytesOf(root, directory, other);
    SlashedText(text);
    SlashedText(other);
    OneFieldIsKeyed(root, r, s, 11);
    BytesInjective(Slashed(other), Slashed(text));
    if OneLetterApart(Slashed(text), Slashed(other)) {
      OneLetterIsOneByte(Slashed(text), Slashed(other));
      OneByteOfAField(root, r, s, 11);
    }
  }

  lemma StandardNamesDiffer(a: Standard, b: Standard)
    ensures StandardName(a) == StandardName(b) <==> a == b
    ensures ByteText(StandardName(a))
  {
    var x, y := StandardName(a), StandardName(b);
    assert |x| == if a.C89? || a.C99? || a.C11? || a.C17? || a.C23? then 3 else 5;
    assert x[|x| - 2..][0] == x[|x| - 2] && x[|x| - 2..][1] == x[|x| - 1];
  }

  /** The language standard is in what is hashed, and none is not the same as any. */
  lemma StandardIsKeyed(root: string, r: Request, info: CompilationInfo, standard: Option<Standard>)
    requires Keyed(root, r) && r.info == Some(info)
    ensures KeyBytes(root, r.(info := Some(info.(standard := standard)))) == KeyBytes(root, r) <==> standard == info.standard
  {
    hide KeyBytes, SameBut, Fields, StandardName, PortableNames, InfoSameBut, OptionalBytes, AllPortable, FlagsPortable;
    var s := r.(info := Some(info.(standard := standard)));
    DescriptionFields(root, info, "", "", standard);
    InfoField(root, r, info, s.info.value, 3);
    if standard.Some? { StandardNamesDiffer(standard.value, standard.value); }
    if info.standard.Some? { StandardNamesDiffer(info.standard.value, info.standard.value); }
    if standard.Some? && info.standard.Some? { StandardNamesDiffer(standard.value, info.standard.value); }
    OneFieldIsKeyed(root, r, s, 12);
    OptionalInjective(NameOf(standard), NameOf(info.standard));
  }

  /** A request without a compile description feeds other bytes than one with any. */
  lemma DescriptionIsKeyed(root: string, r: Request, info: CompilationInfo)
    ensures KeyBytes(root, r.(info := None)) != KeyBytes(root, r.(info := Some(info)))
  {
    var x, y := r.(info := None), r.(info := Some(info));
    var front := Bytes("index-artifact") + LittleEndian32(VERSION) + PortableBytes(NamesOrNothing("", r.cachePath)) + r.source + LanguageBytes(r);
    SameLanguage(x, r);
    SameLanguage(y, r);
    assert KeyBytes(root, x)[|front|] == 0;
    assert InfoBytes(root, info)[0] == 1;
    assert KeyBytes(root, y)[|front|] == 1;
  }

  // ---------------------------------------------------------------- sorted lists

  /** Nothing else in the list tells `s[j]` and `y` apart by order. */
  ghost predicate KeepsPlace<T>(leq: (T, T) -> bool, s: seq<T>, j: nat, y: T)
    requires j < |s|
  {
    forall k :: 0 <= k < |s| && k != j ==> (leq(s[k], s[j]) <==> leq(s[k], y)) && (leq(s[j], s[k]) <==> leq(y, s[k]))
  }

  lemma OthersAreTheRest<T>(s: seq<T>, j: nat, f: seq<T>, g: seq<T>)
    requires j < |s| && multiset(f + [s[j]] + g) == multiset(s)
    ensures multiset(f) + multiset(g) == multiset(Without(s, j))
  {
    WithoutOne(s, j);
    var one := multiset{s[j]};
    assert multiset(f + [s[j]] + g) == multiset(f) + one + multiset(g);
    assert multiset(f) + multiset(g) == multiset(s) - one;
    assert multiset(Without(s, j)) == multiset(s) - one;
  }

  lemma OthersInSorted<T>(s: seq<T>, j: nat, f: seq<T>, g: seq<T>)
    requires j < |s| && multiset(f + [s[j]] + g) == multiset(s)
    ensures forall z :: z in f || z in g ==> exists k :: 0 <= k < |s| && k != j && s[k] == z
  {
    OthersAreTheRest(s, j, f, g);
    var rest := Without(s, j);
    forall z | z in f || z in g
      ensures exists k :: 0 <= k < |s| && k != j && s[k] == z
    {
      assert z in multiset(rest);
      var i :| 0 <= i < |rest| && rest[i] == z;
      assert s[if i < j then i else i + 1] == z;
    }
  }

  lemma Replaced<T>(s: seq<T>, j: nat, y: T, f: seq<T>, g: seq<T>)
    requires j < |s| && multiset(f + [s[j]] + g) == multiset(s)
    ensures multiset(f + [y] + g) == multiset(s[j := y])
  {
    WithoutOne(s, j);
    WithoutOne(s[j := y], j);
    assert Without(s[j := y], j) == Without(s, j);
    assert multiset(f + [s[j]] + g) == multiset{s[j]} + (multiset(f) + multiset(g));
    assert multiset(f + [y] + g) == multiset{y} + (multiset(f) + multiset(g));
  }

  lemma StillSorted<T(!new)>(leq: (T, T) -> bool, s: seq<T>, j: nat, y: T, f: seq<T>, g: seq<T>)
    requires j < |s| && multiset(f + [s[j]] + g) == multiset(s) && KeepsPlace(leq, s, j, y) && Sorted(leq, f + [s[j]] + g)
    ensures Sorted(leq, f + [y] + g)
  {
    OthersInSorted(s, j, f, g);
    var old', t := f + [s[j]] + g, f + [y] + g;
    forall a, b | 0 <= a < b < |t|
      ensures leq(t[a], t[b])
    {
      assert leq(old'[a], old'[b]);
      if a == |f| {
        assert t[b] in g && old'[b] == t[b];
      } else if b == |f| {
        assert t[a] in f && old'[a] == t[a];
      } else {
        assert t[a] == old'[a] && t[b] == old'[b];
      }
    }
  }

  /** An element that keeps its place is exchanged in the sorted list. */
  lemma SortExchanges<T(!new)>(leq: (T, T) -> bool, s: seq<T>, j: nat, y: T) returns (f: seq<T>, g: seq<T>)
    requires TotalPreorder(leq) && j < |s| && KeepsPlace(leq, s, j, y) && Separates(leq, multiset(s[j := y]))
    ensures Sort(leq, s) == f + [s[j]] + g && Sort(leq, s[j := y]) == f + [y] + g
  {
    hide TotalPreorder, Sorted, KeepsPlace, Separates, Sort;
    var sorted := Sort(leq, s);
    assert s[j] in multiset(sorted);
    var i :| 0 <= i < |sorted| && sorted[i] == s[j];
    f, g := sorted[..i], sorted[i + 1..];
    assert sorted == f + [s[j]] + g;
    SortSorts(leq, s);
    SortSorts(leq, s[j := y]);
    StillSorted(leq, s, j, y, f, g);
    Replaced(s, j, y, f, g);
    SortedUnique(leq, Sort(leq, s[j := y]), f + [y] + g);
  }

  lemma {:induction false} MappedConcat<T, U>(f: T -> U, a: seq<T>, b: seq<T>)
    ensures Mapped(f, a + b) == Mapped(f, a) + Mapped(f, b)
  {
    if a == [] {
      assert a + b == b;
    } else {
      assert (a + b)[1..] == a[1..] + b;
      MappedConcat(f, a[1..], b);
    }
  }

  lemma FlatOfThree<T>(enc: T -> seq<Byte>, f: seq<T>, x: T, g: seq<T>)
    ensures Flat(Mapped(enc, f + [x] + g)) == Flat(Mapped(enc, f)) + enc(x) + Flat(Mapped(enc, g))
  {
    MappedConcat(enc, f + [x], g);
    MappedConcat(enc, f, [x]);
    assert Mapped(enc, [x]) == [enc(x)];
    RowOfThree(Mapped(enc, f), enc(x), Mapped(enc, g));
  }

  /** What is hashed of a sorted list when one element that keeps its place is exchanged. */
  lemma ListExchanges<T(!new)>(leq: (T, T) -> bool, enc: T -> seq<Byte>, s: seq<T>, j: nat, y: T)
    requires TotalPreorder(leq) && j < |s| && KeepsPlace(leq, s, j, y) && Separates(leq, multiset(s[j := y]))
    ensures var a, b := Flat(Mapped(enc, Sort(leq, s))), Flat(Mapped(enc, Sort(leq, s[j := y])));
      && (a == b <==> enc(s[j]) == enc(y)) && (OneByteApart(enc(s[j]), enc(y)) ==> OneByteApart(a, b))
  {
    var f, g := SortExchanges(leq, s, j, y);
    hide Sort, Flat, OneByteApart;
    FlatOfThree(enc, f, s[j], g);
    FlatOfThree(enc, f, y, g);
    var p, q := Flat(Mapped(enc, f)), Flat(Mapped(enc, g));
    Between(p, enc(s[j]), enc(y), q);
    if OneByteApart(enc(s[j]), enc(y)) {
      OneByteWithin(p, enc(s[j]), enc(y), q);
    }
  }

  // ---------------------------------------------------------------- include paths, flags, defines

  lemma PathFormsExchange(root: string, paths: seq<string>, j: nat, path: string)
    requires j < |paths|
    ensures PathForms(root, paths[j := path]) == PathForms(root, paths)[j := NamesOrNothing(root, path)]
  {
    hide NamesOrNothing;
  }

  lemma StillPortable(root: string, paths: seq<string>, j: nat, path: string, text: string)
    requires AllPortable(root, paths) && j < |paths| && CachePath(root, path) == Some(text)
    ensures AllPortable(root, paths[j := path])
  {
  }

  lemma FlagFormsExchange(root: string, flags: seq<string>, j: nat, flag: string)
    requires j < |flags|
    ensures FlagForms(root, flags[j := flag]) == FlagForms(root, flags)[j := FlagOrNothing(root, flag)]
  {
    hide FlagOrNothing;
  }

  lemma ListFields(root: string, info: CompilationInfo, paths: seq<string>, defines: seq<Define>, flags: seq<string>)
    ensures InfoSameBut(root, info, info.(includePaths := paths), 4)
    ensures InfoSameBut(root, info, info.(systemIncludePaths := paths), 5)
    ensures InfoSameBut(root, info, info.(defines := defines), 6)
    ensures InfoSameBut(root, info, info.(otherFlags := flags), 7)
  {
    hide Bytes, OptionalBytes, BoolBytes, PortableBytes, NamesOrNothing, PathsBytes, FlagsBytes, DefinesBytes;
  }

  lemma ListValues(root: string, info: CompilationInfo)
    ensures |InfoFields(root, info)| == 8
    ensures InfoFields(root, info)[4] == PathsBytes(root, info.includePaths) && InfoFields(root, info)[5] == PathsBytes(root, info.systemIncludePaths)
    ensures InfoFields(root, info)[6] == DefinesBytes(info.defines) && InfoFields(root, info)[7] == FlagsBytes(root, info.otherFlags)
  {
    hide Bytes, OptionalBytes, BoolBytes, PortableBytes, NamesOrNothing, PathsBytes, FlagsBytes, DefinesBytes;
  }

  lemma KeyedParts(root: string, r: Request, info: CompilationInfo)
    requires r.info == Some(info)
    ensures Keyed(root, r) <==> PortableNames("", r.cachePath).Some? && InfoPortable(root, info)
  {
  }

  lemma PortableWith(root: string, info: CompilationInfo, paths: seq<string>)
    requires InfoPortable(root, info) && AllPortable(root, paths)
    ensures InfoPortable(root, info.(includePaths := paths)) && InfoPortable(root, info.(systemIncludePaths := paths))
  {
  }

  lemma PortableLists(root: string, info: CompilationInfo)
    requires InfoPortable(root, info)
    ensures AllPortable(root, info.includePaths) && AllPortable(root, info.systemIncludePaths)
  {
  }

  lemma StaysKeyed(root: string, r: Request, info: CompilationInfo, j: nat, path: string, text: string)
    requires Keyed(root, r) && r.info == Some(info) && CachePath(root, path) == Some(text)
    ensures j < |info.includePaths| ==> Keyed(root, r.(info := Some(info.(includePaths := info.includePaths[j := path]))))
    ensures j < |info.systemIncludePaths| ==> Keyed(root, r.(info := Some(info.(systemIncludePaths := info.systemIncludePaths[j := path]))))
  {
    KeyedParts(root, r, info);
    hide *;
    PortableLists(root, info);
    if j < |info.includePaths| {
      var changed := info.(includePaths := info.includePaths[j := path]);
      StillPortable(root, info.includePaths, j, path, text);
      PortableWith(root, info, info.includePaths[j := path]);
      KeyedParts(root, r.(info := Some(changed)), changed);
    }
    if j < |info.systemIncludePaths| {
      var changed := info.(systemIncludePaths := info.systemIncludePaths[j := path]);
      StillPortable(root, info.systemIncludePaths, j, path, text);
      PortableWith(root, info, info.systemIncludePaths[j := path]);
      KeyedParts(root, r.(info := Some(changed)), changed);
    }
  }

  /** In whichever list of include paths: one path is exchanged for another that sorts to the same place. */
  lemma PathsBytesExchange(root: string, paths: seq<string>, j: nat, path: string, text: string, other: string)
    requires j < |paths| && CachePath(root, paths[j]) == Some(text) && CachePath(root, path) == Some(other) && ByteText(text) && ByteText(other)
    requires KeepsPlace(PathLeq, PathForms(root, paths), j, NamesOrNothing(root, path))
    ensures PathsBytes(root, paths[j := path]) == PathsBytes(root, paths) <==> Slashed(other) == Slashed(text)
    ensures OneLetterApart(Slashed(text), Slashed(other)) ==> OneByteApart(PathsBytes(root, paths), PathsBytes(root, paths[j := path]))
  {
    hide KeepsPlace, CachePath, NamesOrNothing, PortableBytes, Bytes, Flat, Sort, PathForms, Slashed, ByteText;
    PathFormsExchange(root, paths, j, path);
    PathOrder();
    var forms := PathForms(root, paths);
    ListExchanges(PathLeq, PortableBytes, forms, j, NamesOrNothing(root, path));
    PortableBytesOf(root, paths[j], text);
    PortableBytesOf(root, path, other);
    SlashedText(text);
    SlashedText(other);
    BytesInjective(Slashed(other), Slashed(text));
    if OneLetterApart(Slashed(text), Slashed(other)) {
      OneLetterIsOneByte(Slashed(text), Slashed(other));
    }
  }

  /** An include path is in what is hashed; if the changed path keeps its place, one other letter is another key. */
  lemma IncludeIsKeyed(root: string, r: Request, info: CompilationInfo, j: nat, path: string, text: string, other: string)
    requires Keyed(root, r) && r.info == Some(info) && j < |info.includePaths| && ByteText(text) && ByteText(other)
    requires CachePath(root, info.includePaths[j]) == Some(text) && CachePath(root, path) == Some(other)
    requires KeepsPlace(PathLeq, PathForms(root, info.includePaths), j, NamesOrNothing(root, path))
    ensures var s := r.(info := Some(info.(includePaths := info.includePaths[j := path])));
      && (KeyBytes(root, s) == KeyBytes(root, r) <==> Slashed(other) == Slashed(text))
      && (OneLetterApart(Slashed(text), Slashed(other)) ==> IndexKey(root, s) != IndexKey(root, r))
  {
    hide *;
    var changed := info.(includePaths := info.includePaths[j := path]);
    var s := r.(info := Some(changed));
    ListFields(root, info, changed.includePaths, [], []);
    ListValues(root, info);
    ListValues(root, changed);
    InfoField(root, r, info, changed, 4);
    PathsBytesExchange(root, info.includePaths, j, path, text, other);
    StaysKeyed(root, r, info, j, path, other);
    OneFieldIsKeyed(root, r, s, 13);
    if OneLetterApart(Slashed(text), Slashed(other)) {
      OneByteOfAField(root, r, s, 13);
    }
  }

  /** And so is a system include path. */
  lemma SystemIncludeIsKeyed(root: string, r: Request, info: CompilationInfo, j: nat, path: string, text: string, other: string)
    requires Keyed(root, r) && r.info == Some(info) && j < |info.systemIncludePaths| && ByteText(text) && ByteText(other)
    requires CachePath(root, info.systemIncludePaths[j]) == Some(text) && CachePath(root, path) == Some(other)
    requires KeepsPlace(PathLeq, PathForms(root, info.systemIncludePaths), j, NamesOrNothing(root, path))
    ensures var s := r.(info := Some(info.(systemIncludePaths := info.systemIncludePaths[j := path])));
      && (KeyBytes(root, s) == KeyBytes(root, r) <==> Slashed(other) == Slashed(text))
      && (OneLetterApart(Slashed(text), Slashed(other)) ==> IndexKey(root, s) != IndexKey(root, r))
  {
    hide *;
    var changed := info.(systemIncludePaths := info.systemIncludePaths[j := path]);
    var s := r.(info := Some(changed));
    ListFields(root, info, changed.systemIncludePaths, [], []);
    ListValues(root, info);
    ListValues(root, changed);
    InfoField(root, r, info, changed, 5);
    PathsBytesExchange(root, info.systemIncludePaths, j, path, text, other);
    StaysKeyed(root, r, info, j, path, other);
    OneFieldIsKeyed(root, r, s, 14);
    if OneLetterApart(Slashed(text), Slashed(other)) {
      OneByteOfAField(root, r, s, 14);
    }
  }

  lemma FlagsBytesExchange(root: string, flags: seq<string>, j: nat, flag: string, text: string, other: string)
    requires j < |flags| && PortableFlag(root, flags[j]) == Some(text) && PortableFlag(root, flag) == Some(other) && ByteText(text) && ByteText(other)
    requires KeepsPlace(StringLeq, FlagForms(root, flags), j, other)
    ensures FlagsBytes(root, flags[j := flag]) == FlagsBytes(root, flags) <==> other == text
    ensures OneLetterApart(text, other) ==> OneByteApart(FlagsBytes(root, flags), FlagsBytes(root, flags[j := flag]))
  {
    hide KeepsPlace, PortableFlag, Bytes, Flat, Sort, FlagForms, ByteText;
    FlagFormsExchange(root, flags, j, flag);
    StringOrder();
    ListExchanges(StringLeq, Bytes, FlagForms(root, flags), j, other);
    BytesInjective(other, text);
    if OneLetterApart(text, other) {
      OneLetterIsOneByte(text, other);
    }
  }

  /** A flag's portable form is in what is hashed; if the changed flag keeps its place, one other letter is another key. */
  lemma FlagIsKeyed(root: string, r: Request, info: CompilationInfo, j: nat, flag: string, text: string, other: string)
    requires Keyed(root, r) && r.info == Some(info) && j < |info.otherFlags| && ByteText(text) && ByteText(other)
    requires PortableFlag(root, info.otherFlags[j]) == Some(text) && PortableFlag(root, flag) == Some(other)
    requires KeepsPlace(StringLeq, FlagForms(root, info.otherFlags), j, other)
    ensures var s := r.(info := Some(info.(otherFlags := info.otherFlags[j := flag])));
      && (KeyBytes(root, s) == KeyBytes(root, r) <==> other == text)
      && (OneLetterApart(text, other) ==> IndexKey(root, s) != IndexKey(root, r))
  {
    hide KeyBytes, IndexKey, SameBut, Fields, InfoSameBut, AllPortable, PortableFlag, KeepsPlace, ByteText, FlagsBytes, FlagForms;
    var changed := info.(otherFlags := info.otherFlags[j := flag]);
    var s := r.(info := Some(changed));
    ListFields(root, info, [], [], changed.otherFlags);
    InfoField(root, r, info, changed, 7);
    FlagsBytesExchange(root, info.otherFlags, j, flag, text, other);
    assert Keyed(root, s);
    hide Keyed;
    OneFieldIsKeyed(root, r, s, 16);
    if OneLetterApart(text, other) {
      OneByteOfAField(root, r, s, 16);
    }
  }

  lemma ValueKeepsPlace(defines: seq<Define>, j: nat, value: Option<string>)
    requires j < |defines| && DistinctNames(defines)
    ensures KeepsPlace(DefineLeq, defines, j, defines[j].(value := value)) && DistinctNames(defines[j := defines[j].(value := value)])
  {
  }

  lemma DefineBytesExchange(defines: seq<Define>, j: nat, value: Option<string>)
    requires j < |defines| && DistinctNames(defines) && ByteTextOrNone(defines[j].value) && ByteTextOrNone(value)
    ensures var other := defines[j := defines[j].(value := value)];
      && (DefinesBytes(other) == DefinesBytes(defines) <==> value == defines[j].value)
      && (defines[j].value.Some? && value.Some? && OneLetterApart(defines[j].value.value, value.value) ==>
            OneByteApart(DefinesBytes(defines), DefinesBytes(other)))
  {
    hide KeepsPlace, Bytes, Flat, Sort, OptionalBytes, DistinctNames, TotalPreorder, Separates, OneByteApart, OneLetterApart, ByteTextOrNone;
    var d := defines[j].(value := value);
    ValueKeepsPlace(defines, j, value);
    DefineOrder(defines[j := d]);
    ListExchanges(DefineLeq, DefineBytes, defines, j, d);
    OptionalInjective(value, defines[j].value);
    Between(Bytes(d.name), OptionalBytes(defines[j].value), OptionalBytes(value), []);
    EndsWithNothing(DefineBytes(defines[j]));
    EndsWithNothing(DefineBytes(d));
    if defines[j].value.Some? && value.Some? && OneLetterApart(defines[j].value.value, value.value) {
      OneLetterOfAnOptional(defines[j].value.value, value.value);
      OneByteWithin(Bytes(d.name), OptionalBytes(defines[j].value), OptionalBytes(value), []);
    }
  }

  lemma EndsWithNothing(x: seq<Byte>)
    ensures x + [] == x
  {
  }

  /** A define's value is in what is hashed: another value, or none, is other bytes, and one other letter another key. */
  lemma DefineValueIsKeyed(root: string, r: Request, info: CompilationInfo, j: nat, value: Option<string>)
    requires Keyed(root, r) && r.info == Some(info) && j < |info.defines| && DistinctNames(info.defines)
    requires ByteTextOrNone(info.defines[j].value) && ByteTextOrNone(value)
    ensures var was, s := info.defines[j].value, r.(info := Some(info.(defines := info.defines[j := info.defines[j].(value := value)])));
      && (KeyBytes(root, s) == KeyBytes(root, r) <==> value == was)
      && (was.Some? && value.Some? && OneLetterApart(was.value, value.value) ==> IndexKey(root, s) != IndexKey(root, r))
  {
    hide KeyBytes, IndexKey, SameBut, Fields, InfoSameBut, AllPortable, FlagsPortable, DefinesBytes, DistinctNames, OneByteApart, OneLetterApart, ByteTextOrNone;
    var changed := info.(defines := info.defines[j := info.defines[j].(value := value)]);
    var s := r.(info := Some(changed));
    ListFields(root, info, [], changed.defines, []);
    InfoField(root, r, info, changed, 6);
    DefineBytesExchange(info.defines, j, value);
    assert Keyed(root, s);
    hide Keyed;
    OneFieldIsKeyed(root, r, s, 15);
    if info.defines[j].value.Some? && value.Some? && OneLetterApart(info.defines[j].value.value, value.value) {
      OneByteOfAField(root, r, s, 15);
    }
  }

  // ---------------------------------------------------------------- wherever the changed element moves

  lemma ThreeBags<T>(p: seq<T>, x: seq<T>, q: seq<T>)
    ensures multiset(p + x + q) == multiset(p + q) + multiset(x)
  {
  }

  lemma TakenApart<T>(s: seq<T>, i: nat)
    requires i < |s|
    ensures s == s[..i] + [s[i]] + s[i + 1..] && Without(s, i) == s[..i] + s[i + 1..]
  {
  }

  lemma FlatOfRow(f: seq<seq<Byte>>, x: seq<Byte>, g: seq<seq<Byte>>)
    ensures multiset(Flat(f + [x] + g)) == multiset(Flat(f + g)) + multiset(x)
  {
    hide Flat;
    RowOfThree(f, x, g);
    FlatConcat(f, g);
    ThreeBags(Flat(f), x, Flat(g));
  }

  lemma FlatWithout(pieces: seq<seq<Byte>>, i: nat)
    requires i < |pieces|
    ensures multiset(Flat(pieces)) == multiset(Flat(Without(pieces, i))) + multiset(pieces[i])
  {
    hide *;
    TakenApart(pieces, i);
    FlatOfRow(pieces[..i], pieces[i], pieces[i + 1..]);
  }

  /** Pieces run together in another order are the same bytes in another order. */
  lemma {:induction false} FlatPermutation(a: seq<seq<Byte>>, b: seq<seq<Byte>>)
    requires multiset(a) == multiset(b)
    ensures multiset(Flat(a)) == multiset(Flat(b))
    decreases |a|
  {
    SameLength(a, b);
    if a == [] {
      assert b == [];
    } else {
      assert a[0] in multiset(b);
      var i :| 0 <= i < |b| && b[i] == a[0];
      WithoutOne(a, 0);
      WithoutOne(b, i);
      assert multiset(Without(a, 0)) == multiset(a) - multiset{a[0]} == multiset(Without(b, i));
      hide Flat, Without;
      FlatPermutation(Without(a, 0), Without(b, i));
      FlatWithout(a, 0);
      FlatWithout(b, i);
    }
  }

  lemma ApartIsNoPermutation(x: seq<Byte>, y: seq<Byte>)
    requires OneByteApart(x, y)
    ensures multiset(x) != multiset(y)
  {
    var pre, a, b, post :| AreApart(x, y, pre, a, b, post);
    var p: multiset<Byte>, q: multiset<Byte> := multiset(pre), multiset(post);
    var one: multiset<Byte>, other: multiset<Byte> := multiset{a}, multiset{b};
    assert multiset(x) == p + one + q && multiset(y) == p + other + q;
    assert (p + one + q)[a] == p[a] + 1 + q[a] && (p + other + q)[a] == p[a] + q[a];
  }

  /** One byte changed in one element, wherever sorting then puts it: other bytes. */
  lemma ListChanges<T(!new)>(leq: (T, T) -> bool, enc: T -> seq<Byte>, s: seq<T>, j: nat, y: T)
    requires j < |s| && OneByteApart(enc(s[j]), enc(y))
    ensures Flat(Mapped(enc, Sort(leq, s))) != Flat(Mapped(enc, Sort(leq, s[j := y])))
  {
    var f, g := s[..j], s[j + 1..];
    assert s == f + [s[j]] + g && s[j := y] == f + [y] + g;
    hide Flat, Sort, OneByteApart;
    MappedPermutation(enc, Sort(leq, s), s);
    MappedPermutation(enc, Sort(leq, s[j := y]), s[j := y]);
    FlatPermutation(Mapped(enc, Sort(leq, s)), Mapped(enc, s));
    FlatPermutation(Mapped(enc, Sort(leq, s[j := y])), Mapped(enc, s[j := y]));
    FlatOfThree(enc, f, s[j], g);
    FlatOfThree(enc, f, y, g);
    OneByteWithin(Flat(Mapped(enc, f)), enc(s[j]), enc(y), Flat(Mapped(enc, g)));
    ApartIsNoPermutation(Flat(Mapped(enc, s)), Flat(Mapped(enc, s[j := y])));
  }

  /** A flag that differs in one letter, or a define whose name does, changes what is hashed, wherever it is sorted to. */
  lemma ChangedFlagIsHashed(root: string, r: Request, info: CompilationInfo, j: nat, flag: string, text: string, other: string)
    requires Keyed(root, r) && r.info == Some(info) && j < |info.otherFlags|
    requires PortableFlag(root, info.otherFlags[j]) == Some(text) && PortableFlag(root, flag) == Some(other) && OneLetterApart(text, other)
    ensures KeyBytes(root, r.(info := Some(info.(otherFlags := info.otherFlags[j := flag])))) != KeyBytes(root, r)
  {
    hide KeyBytes, SameBut, Fields, InfoSameBut, AllPortable, PortableFlag, FlagForms, Bytes, Flat, Sort, OneByteApart, OneLetterApart;
    var changed := info.(otherFlags := info.otherFlags[j := flag]);
    var s := r.(info := Some(changed));
    ListFields(root, info, [], [], changed.otherFlags);
    InfoField(root, r, info, changed, 7);
    FlagFormsExchange(root, info.otherFlags, j, flag);
    OneLetterIsOneByte(text, other);
    ListChanges(StringLeq, Bytes, FlagForms(root, info.otherFlags), j, other);
    assert Keyed(root, s);
    hide Keyed;
    OneFieldIsKeyed(root, r, s, 16);
  }

  lemma ChangedPathsBytes(root: string, paths: seq<string>, j: nat, path: string, text: string, other: string)
    requires j < |paths| && CachePath(root, paths[j]) == Some(text) && CachePath(root, path) == Some(other)
    requires OneLetterApart(Slashed(text), Slashed(other))
    ensures PathsBytes(root, paths[j := path]) != PathsBytes(root, paths)
  {
    hide CachePath, NamesOrNothing, PortableBytes, Bytes, Flat, Sort, PathForms, Slashed, OneLetterApart, OneByteApart;
    PathFormsExchange(root, paths, j, path);
    PortableBytesOf(root, paths[j], text);
    PortableBytesOf(root, path, other);
    OneLetterIsOneByte(Slashed(text), Slashed(other));
    ListChanges(PathLeq, PortableBytes, PathForms(root, paths), j, NamesOrNothing(root, path));
  }

  /** So does an include path of either kind. */
  lemma ChangedIncludeIsHashed(root: string, r: Request, info: CompilationInfo, j: nat, path: string, text: string, other: string)
    requires Keyed(root, r) && r.info == Some(info) && CachePath(root, path) == Some(other) && OneLetterApart(Slashed(text), Slashed(other))
    ensures j < |info.includePaths| && CachePath(root, info.includePaths[j]) == Some(text) ==>
      KeyBytes(root, r.(info := Some(info.(includePaths := info.includePaths[j := path])))) != KeyBytes(root, r)
    ensures j < |info.systemIncludePaths| && CachePath(root, info.systemIncludePaths[j]) == Some(text) ==>
      KeyBytes(root, r.(info := Some(info.(systemIncludePaths := info.systemIncludePaths[j := path])))) != KeyBytes(root, r)
  {
    hide *;
    StaysKeyed(root, r, info, j, path, other);
    if j < |info.includePaths| && CachePath(root, info.includePaths[j]) == Some(text) {
      var changed := info.(includePaths := info.includePaths[j := path]);
      ListFields(root, info, changed.includePaths, [], []);
      ListValues(root, info);
      ListValues(root, changed);
      InfoField(root, r, info, changed, 4);
      ChangedPathsBytes(root, info.includePaths, j, path, text, other);
      OneFieldIsKeyed(root, r, r.(info := Some(changed)), 13);
    }
    if j < |info.systemIncludePaths| && CachePath(root, info.systemIncludePaths[j]) == Some(text) {
      var changed := info.(systemIncludePaths := info.systemIncludePaths[j := path]);
      ListFields(root, info, changed.systemIncludePaths, [], []);
      ListValues(root, info);
      ListValues(root, changed);
      InfoField(root, r, info, changed, 5);
      ChangedPathsBytes(root, info.systemIncludePaths, j, path, text, other);
      OneFieldIsKeyed(root, r, r.(info := Some(changed)), 14);
    }
  }

  lemma NameIsOneByte(a: Define, b: Define)
    requires a.value == b.value && OneLetterApart(a.name, b.name)
    ensures OneByteApart(DefineBytes(a), DefineBytes(b))
  {
    OneLetterIsOneByte(a.name, b.name);
    hide Bytes, OptionalBytes, OneByteApart;
    OneByteWithin([], Bytes(a.name), Bytes(b.name), OptionalBytes(a.value));
    assert [] + Bytes(a.name) == Bytes(a.name) && [] + Bytes(b.name) == Bytes(b.name);
  }

  /** So does the name of a define. */
  lemma ChangedDefineIsHashed(root: string, r: Request, info: CompilationInfo, j: nat, name: string)
    requires Keyed(root, r) && r.info == Some(info) && j < |info.defines| && OneLetterApart(info.defines[j].name, name)
    ensures KeyBytes(root, r.(info := Some(info.(defines := info.defines[j := info.defines[j].(name := name)])))) != KeyBytes(root, r)
  {
    hide KeyBytes, SameBut, Fields, InfoSameBut, AllPortable, FlagsPortable, DefineBytes, Flat, Sort, OneByteApart, OneLetterApart;
    var d := info.defines[j].(name := name);
    var changed := info.(defines := info.defines[j := d]);
    ListFields(root, info, [], changed.defines, []);
    InfoField(root, r, info, changed, 6);
    NameIsOneByte(info.defines[j], d);
    ListChanges(DefineLeq, DefineBytes, info.defines, j, d);
    OneFieldIsKeyed(root, r, r.(info := Some(changed)), 15);
  }

  // ---------------------------------------------------------------- flags

  /** The portable form tells flags apart, but for absolute paths to the same place; and a path never looks like a plain flag. */
  lemma PortableFlagsDiffer(root: string, flag: string, other: string)
    requires PortableFlag(root, flag).Some? && PortableFlag(root, other).Some?
    ensures PortableFlag(root, flag) == PortableFlag(root, other) <==>
      if IsAbsolute(flag) then IsAbsolute(other) && CachePath(root, flag) == CachePath(root, other) else flag == other
  {
    hide CachePath, SlashRootLike, Mentions, EmbedsAbsolutePath;
    var f, g := PortableFlag(root, flag).value, PortableFlag(root, other).value;
    if f == g {
      assert f[0] == g[0] && f[5..] == g[5..];
      assert IsAbsolute(flag) ==> f[0] == 'p' && f[5..] == CachePath(root, flag).value;
      assert !IsAbsolute(flag) ==> f[0] == 'f' && f[5..] == flag;
      assert IsAbsolute(other) ==> g[0] == 'p' && g[5..] == CachePath(root, other).value;
      assert !IsAbsolute(other) ==> g[0] == 'f' && g[5..] == other;
    }
  }

  predicate SlashAt(text: string, i: nat) {
    i < |text| && (text[i] == '/' || text[i] == '\\')
  }

  predicate DriveLetterAt(text: string, i: nat) {
    i + 1 < |text| && ('a' <= text[i] <= 'z' || 'A' <= text[i] <= 'Z') && text[i + 1] == ':' && SlashAt(text, i + 2)
  }

  /** An absolute path is glued to the option. */
  predicate GluedTo(text: string, option: string) {
    |option| <= |text| && text[..|option|] == option && (SlashAt(text, |option|) || DriveLetterAt(text, |option|))
  }

  /** Somewhere in the flag, letter by letter, an absolute path can be seen. */
  ghost predicate ShowsAPath(root: string, flag: string) {
    || (SlashAt(flag, 0) && exists i :: 0 < i < |flag| && SlashAt(flag, i))
    || (root != "" && exists pre, post :: flag == pre + root + post)
    || (exists i :: 0 <= i < |flag| && flag[i] == '=' && SlashAt(flag, i + 1))
    || (exists i :: 0 <= i < |flag| && DriveLetterAt(flag, i))
    || GluedTo(flag, "-include") || GluedTo(flag, "-imacros") || GluedTo(flag, "-include-pch") || GluedTo(flag, "-isysroot")
  }

  lemma EqualsSlash(flag: string)
    ensures Contains(flag, "=/") || Contains(flag, "=\\") <==> exists i :: 0 <= i < |flag| && flag[i] == '=' && SlashAt(flag, i + 1)
  {
    if i :| 0 <= i < |flag| && flag[i] == '=' && SlashAt(flag, i + 1) {
      assert PartAt(flag, ['=', flag[i + 1]], i);
    }
    forall part: string, i | (part == "=/" || part == "=\\") && 0 <= i <= |flag| && PartAt(flag, part, i)
      ensures i < |flag| && flag[i] == '=' && SlashAt(flag, i + 1)
    {
      assert flag[i..i + 2][0] == flag[i] && flag[i..i + 2][1] == flag[i + 1];
    }
  }

  lemma MentionedIn(root: string, flag: string)
    ensures Mentions(root, flag) <==> root != "" && exists pre, post :: flag == pre + root + post
  {
    if i :| 0 <= i <= |flag| && PartAt(flag, root, i) {
      assert flag == flag[..i] + root + flag[i + |root|..];
    }
    if pre, post :| flag == pre + root + post {
      assert PartAt(flag, root, |pre|);
    }
  }

  lemma Glued(flag: string, option: string)
    ensures GluedAbsolute(flag, option) <==> GluedTo(flag, option)
  {
    if |option| <= |flag| {
      var rest := flag[|option|..];
      assert forall i :: 0 <= i < |rest| ==> rest[i] == flag[|option| + i];
    }
  }

  lemma Drives(flag: string)
    ensures (exists i :: 0 <= i < |flag| && DriveAt(flag, i)) <==> exists i :: 0 <= i < |flag| && DriveLetterAt(flag, i)
  {
    assert forall i: nat :: DriveAt(flag, i) <==> DriveLetterAt(flag, i);
  }

  lemma RootLike(flag: string)
    ensures SlashRootLike(flag) <==> SlashAt(flag, 0) && exists i :: 0 < i < |flag| && SlashAt(flag, i)
  {
    if i :| 1 <= i < |flag| && IsSeparator(flag[i]) { assert SlashAt(flag, i); }
    if i :| 0 < i < |flag| && SlashAt(flag, i) { assert IsSeparator(flag[i]); }
  }

  /** A flag that is no path is keyed exactly if no absolute path shows in it. */
  lemma PlainFlagIsKeyedIff(root: string, flag: string)
    requires !IsAbsolute(flag)
    ensures PortableFlag(root, flag).Some? <==> !ShowsAPath(root, flag)
  {
    hide Mentions, Contains, GluedAbsolute, GluedTo, DriveAt, DriveLetterAt, SlashRootLike, SlashAt, CachePath;
    EqualsSlash(flag);
    Glued(flag, "-include");
    Glued(flag, "-imacros");
    Glued(flag, "-include-pch");
    Glued(flag, "-isysroot");
    Drives(flag);
    RootLike(flag);
    MentionedIn(root, flag);
  }
}
