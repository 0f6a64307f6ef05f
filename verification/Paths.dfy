/** Unix path texts: how a text falls into components, how components are joined again, and the path of a file relative
    to its root. */
module Paths {
  import opened Options

  datatype Component = RootDir | CurDir | ParentDir | Normal(name: string)

  predicate IsAbsolute(path: string) {
    path != "" && path[0] == '/'
  }

  /** The text between the separators. */
  function Pieces(text: string): (r: seq<string>)
    ensures |r| > 0
    ensures forall i :: 0 <= i < |r| ==> '/' !in r[i]
  {
    if text == "" then [""]
    else
      var rest := Pieces(text[1..]);
      if text[0] == '/' then [""] + rest else [[text[0]] + rest[0]] + rest[1..]
  }

  /** Empty pieces and single dots do not count. */
  function Body(pieces: seq<string>): seq<Component> {
    if pieces == [] then []
    else if pieces[0] == "" || pieces[0] == "." then Body(pieces[1..])
    else [if pieces[0] == ".." then ParentDir else Normal(pieces[0])] + Body(pieces[1..])
  }

  /** `Path::components`: a leading dot of a relative path does count. */
  function Components(path: string): seq<Component> {
    var pieces := Pieces(path);
    (if IsAbsolute(path) then [RootDir] else if pieces[0] == "." then [CurDir] else []) + Body(pieces)
  }

  /** `Path::join` with a relative second part. */
  function Join(root: string, rel: string): string {
    if root == "" || root[|root| - 1] == '/' then root + rel else root + "/" + rel
  }

  /** A name that stays one ordinary component. */
  predicate Segment(name: string) {
    name != "" && name != "." && name != ".." && '/' !in name
  }

  /** A `PathBuf` into which the names were pushed one after the other. */
  function Render(names: seq<string>): string {
    if names == [] then "" else if |names| == 1 then names[0] else Render(names[..|names| - 1]) + "/" + names[|names| - 1]
  }

  /** The names of a relative path that does not leave its directory. */
  function Names(components: seq<Component>): Option<seq<string>> {
    if components == [] then Some([])
    else match Names(components[1..])
      case None => None
      case Some(rest) =>
        match components[0]
        case Normal(name) => Some([name] + rest)
        case CurDir => Some(rest)
        case ParentDir => None
        case RootDir => None
  }

  function StripPrefix(root: seq<Component>, path: seq<Component>): Option<seq<Component>> {
    if |root| <= |path| && path[..|root|] == root then Some(path[|root|..]) else None
  }

  function PortableNames(root: string, path: string): Option<seq<string>> {
    if IsAbsolute(path) then
      match StripPrefix(Components(root), Components(path))
      case None => None
      case Some(relative) => Names(relative)
    else
      Names(Components(path))
  }

  function PortableText(names: seq<string>): string {
    if names == [] then "." else Render(names)
  }

  /** What `index_artifact_cache_path` answers. */
  function CachePath(root: string, path: string): Option<string> {
    match PortableNames(root, path)
    case None => None
    case Some(names) => Some(PortableText(names))
  }

  /** `index_artifact_cache_path`: pushes the ordinary components, one by one, refusing the others. */
  method IndexArtifactCachePath(root: string, path: string) returns (portable: Option<string>)
    ensures portable == CachePath(root, path)
  {
    hide Components, Render, Names;
    var relative := Components(path);
    if IsAbsolute(path) {
      var stripped := StripPrefix(Components(root), relative);
      if stripped.None? {
        return None;
      }
      relative := stripped.value;
    }
    var buffer := "";
    ghost var names := [];
    NormalNamesAreNotEmpty(root, path, relative);
    NothingRendered(relative);
    for i := 0 to |relative|
      invariant Names(relative[..i]) == Some(names) && buffer == Render(names)
      invariant buffer == "" <==> names == []
    {
      NamesStep(relative, i);
      match relative[i]
      case Normal(name) =>
        buffer := if buffer == "" then name else buffer + "/" + name;
        RenderSnoc(names, name);
        names := names + [name];
      case CurDir =>
      case ParentDir =>
        NamesPrefix(relative, i + 1);
        return None;
      case RootDir =>
        NamesPrefix(relative, i + 1);
        return None;
    }
    assert relative[..|relative|] == relative;
    portable := Some(if buffer == "" then "." else buffer);
  }

  // ---------------------------------------------------------------- parsing and rendering

  lemma {:induction false} PiecesOfJoined(a: string, b: string)
    ensures Pieces(a + "/" + b) == Pieces(a) + Pieces(b)
  {
    if a == "" {
      assert (a + "/" + b)[1..] == b;
    } else {
      assert (a + "/" + b)[1..] == a[1..] + "/" + b;
      PiecesOfJoined(a[1..], b);
    }
  }

  lemma {:induction false} PiecesOfOne(name: string)
    requires '/' !in name
    ensures Pieces(name) == [name]
  {
    if name != "" {
      PiecesOfOne(name[1..]);
      assert name == [name[0]] + name[1..];
    }
  }

  lemma {:induction false} PiecesOfRendered(names: seq<string>)
    requires names != [] && forall i :: 0 <= i < |names| ==> Segment(names[i])
    ensures Pieces(Render(names)) == names
    decreases |names|
  {
    var last := |names| - 1;
    PiecesOfOne(names[last]);
    if last > 0 {
      PiecesOfRendered(names[..last]);
      PiecesOfJoined(Render(names[..last]), names[last]);
      assert names == names[..last] + [names[last]];
    }
  }

  lemma {:induction false} BodyConcat(a: seq<string>, b: seq<string>)
    ensures Body(a + b) == Body(a) + Body(b)
  {
    if a == [] {
      assert a + b == b;
    } else {
      assert (a + b)[1..] == a[1..] + b;
      BodyConcat(a[1..], b);
    }
  }

  lemma {:induction false} AreSegments(pieces: seq<string>)
    requires forall i :: 0 <= i < |pieces| ==> '/' !in pieces[i]
    ensures forall i :: 0 <= i < |Body(pieces)| ==>
      Body(pieces)[i].ParentDir? || (Body(pieces)[i].Normal? && Segment(Body(pieces)[i].name))
  {
    if pieces != [] {
      AreSegments(pieces[1..]);
    }
  }

  lemma NormalNamesAreNotEmpty(root: string, path: string, relative: seq<Component>)
    requires relative == Components(path) || StripPrefix(Components(root), Components(path)) == Some(relative)
    ensures forall k :: 0 <= k < |relative| && relative[k].Normal? ==> relative[k].name != ""
  {
    AreSegments(Pieces(path));
  }

  lemma NothingRendered(components: seq<Component>)
    ensures Render([]) == "" && Names(components[..0]) == Some([])
  {
  }

  lemma RenderSnoc(names: seq<string>, name: string)
    ensures Render(names + [name]) == if names == [] then name else Render(names) + "/" + name
  {
    assert (names + [name])[..|names|] == names;
  }

  lemma {:induction false} NamesSnoc(components: seq<Component>, c: Component)
    ensures Names(components + [c]) ==
      if Names(components).None? || Names([c]).None? then None else Some(Names(components).value + Names([c]).value)
  {
    assert Names([c][1..]) == Some([]);
    if components == [] {
      assert components + [c] == [c];
      assert Names([c]).Some? ==> [] + Names([c]).value == Names([c]).value;
    } else {
      assert (components + [c])[1..] == components[1..] + [c];
      NamesSnoc(components[1..], c);
      var whole, rest := Names(components), Names(components[1..]);
      if components[0].Normal? && rest.Some? && Names([c]).Some? {
        assert [components[0].name] + (rest.value + Names([c]).value) == whole.value + Names([c]).value;
      }
    }
  }

  /** The names of one more component. */
  lemma NamesStep(components: seq<Component>, i: nat)
    requires i < |components| && Names(components[..i]).Some?
    ensures Names(components[..i + 1]) ==
      match components[i]
      case Normal(name) => Some(Names(components[..i]).value + [name])
      case CurDir => Names(components[..i])
      case ParentDir => None
      case RootDir => None
  {
    var c := components[i];
    assert components[..i + 1] == components[..i] + [c];
    NamesSnoc(components[..i], c);
    assert Names([c][1..]) == Some([]);
    assert Names([c]) == match c
      case Normal(name) => Some([name] + [])
      case CurDir => Some([])
      case ParentDir => None
      case RootDir => None;
    assert Names(components[..i]).value + [] == Names(components[..i]).value;
    assert c.Normal? ==> [c.name] + [] == [c.name];
  }

  lemma {:induction false} NamesPrefix(components: seq<Component>, i: nat)
    requires i <= |components| && Names(components[..i]).None?
    ensures Names(components).None?
  {
    assert i > 0;
    assert components[..i][1..] == components[1..][..i - 1];
    if Names(components[1..][..i - 1]).None? {
      NamesPrefix(components[1..], i - 1);
    }
  }

  function Normals(names: seq<string>): seq<Component> {
    if names == [] then [] else [Normal(names[0])] + Normals(names[1..])
  }

  lemma {:induction false} NormalsFound(names: seq<string>)
    requires forall i :: 0 <= i < |names| ==> Segment(names[i])
    ensures Body(names) == Normals(names) && Names(Normals(names)) == Some(names)
  {
    if names != [] {
      NormalsFound(names[1..]);
      assert names == [names[0]] + names[1..];
      assert Normals(names)[1..] == Normals(names[1..]);
    }
  }

  lemma {:induction false} NamesAreSegments(components: seq<Component>)
    requires forall i :: 0 <= i < |components| && components[i].Normal? ==> Segment(components[i].name)
    requires Names(components).Some?
    ensures forall i :: 0 <= i < |Names(components).value| ==> Segment(Names(components).value[i])
  {
    if components != [] {
      NamesAreSegments(components[1..]);
    }
  }

  lemma PortableNamesAreSegments(root: string, path: string)
    requires PortableNames(root, path).Some?
    ensures forall i :: 0 <= i < |PortableNames(root, path).value| ==> Segment(PortableNames(root, path).value[i])
  {
    AreSegments(Pieces(path));
    NamesAreSegments(if IsAbsolute(path) then StripPrefix(Components(root), Components(path)).value else Components(path));
  }

  lemma AbsoluteStartsEmpty(path: string)
    ensures IsAbsolute(path) ==> Pieces(path)[0] == ""
  {
  }

  /** A portable path reads back as the names it was made of, whatever the root. */
  lemma RenderedReadsBack(root: string, names: seq<string>)
    requires forall i :: 0 <= i < |names| ==> Segment(names[i])
    ensures PortableNames(root, PortableText(names)) == Some(names)
  {
    if names == [] {
      assert Pieces(".") == ["."] by {
        PiecesOfOne(".");
      }
      assert Components(".") == [CurDir];
      assert Names([CurDir]) == Some([]) by {
        assert Names([CurDir][1..]) == Some([]);
      }
    } else {
      PiecesOfRendered(names);
      NormalsFound(names);
      var text := Render(names);
      assert Pieces(text)[0] == names[0];
      AbsoluteStartsEmpty(text);
      assert Components(text) == Normals(names);
    }
  }

  /** Making a portable path portable again changes nothing. */
  lemma CachePathIsStable(root: string, path: string, other: string)
    requires CachePath(root, path).Some?
    ensures CachePath(other, CachePath(root, path).value) == CachePath(root, path)
  {
    PortableNamesAreSegments(root, path);
    RenderedReadsBack(other, PortableNames(root, path).value);
  }

  // ---------------------------------------------------------------- relocation

  lemma BodyOfJoined(a: string, b: string)
    ensures Body(Pieces(a + "/" + b)) == Body(Pieces(a)) + Body(Pieces(b))
  {
    PiecesOfJoined(a, b);
    BodyConcat(Pieces(a), Pieces(b));
  }

  lemma EmptyBody()
    ensures Body(Pieces("")) == []
  {
  }

  lemma BodyOfRoot(root: string, rel: string)
    requires IsAbsolute(root)
    ensures Body(Pieces(Join(root, rel))) == Body(Pieces(root)) + Body(Pieces(rel))
  {
    hide Pieces, Body;
    var last := |root| - 1;
    if root[last] == '/' {
      var front := root[..last];
      assert root == front + "/" + "" && root + rel == front + "/" + rel;
      BodyOfJoined(front, "");
      BodyOfJoined(front, rel);
      EmptyBody();
    } else {
      BodyOfJoined(root, rel);
    }
  }

  lemma ComponentsOfJoined(root: string, rel: string)
    requires IsAbsolute(root)
    ensures IsAbsolute(Join(root, rel)) && Components(Join(root, rel)) == Components(root) + Body(Pieces(rel))
  {
    hide Pieces, Body;
    BodyOfRoot(root, rel);
  }

  /** A path inside the root and the same path written relative to the root are one portable path. */
  lemma JoinedIsRelative(root: string, rel: string)
    requires IsAbsolute(root) && !IsAbsolute(rel)
    ensures PortableNames(root, Join(root, rel)) == PortableNames(root, rel)
    ensures CachePath(root, Join(root, rel)) == CachePath(root, rel)
  {
    var path, prefix, body := Join(root, rel), Components(root), Body(Pieces(rel));
    ComponentsOfJoined(root, rel);
    assert (prefix + body)[..|prefix|] == prefix && (prefix + body)[|prefix|..] == body;
    assert Names([CurDir] + body) == Names(body) by {
      assert ([CurDir] + body)[1..] == body;
    }
    assert [] + body == body;
  }

  lemma NoDotsAfterTheRoot(path: string, k: nat)
    requires IsAbsolute(path) && 0 < k <= |Components(path)|
    ensures forall c :: c in Components(path)[k..] ==> !c.CurDir?
  {
    AreSegments(Pieces(path));
    var body := Body(Pieces(path));
    assert Components(path)[k..] == body[k - 1..];
  }

  /** An absolute path is portable exactly if it is the root followed by ordinary names. */
  lemma AbsolutePortable(root: string, path: string)
    requires IsAbsolute(root) && IsAbsolute(path)
    ensures CachePath(root, path).Some? <==> exists names :: Components(path) == Components(root) + Normals(names)
  {
    var c, p := Components(path), Components(root);
    assert |p| > 0;
    hide Components;
    if CachePath(root, path).Some? {
      var rest := c[|p|..];
      assert c == p + rest;
      NoDotsAfterTheRoot(path, |p|);
      OnlyNormals(rest);
    }
    if exists names :: c == p + Normals(names) {
      var names :| c == p + Normals(names);
      assert c[..|p|] == p && c[|p|..] == Normals(names);
      NamesOfNormals(names);
    }
  }

  lemma {:induction false} NamesOfNormals(names: seq<string>)
    ensures Names(Normals(names)) == Some(names)
  {
    if names != [] {
      assert Normals(names)[1..] == Normals(names[1..]);
      NamesOfNormals(names[1..]);
      assert names == [names[0]] + names[1..];
    }
  }

  lemma {:induction false} OnlyNormals(components: seq<Component>)
    requires Names(components).Some? && forall c :: c in components ==> !c.CurDir?
    ensures components == Normals(Names(components).value)
  {
    if components != [] {
      OnlyNormals(components[1..]);
      assert components == [components[0]] + components[1..];
    }
  }
}
