/** The marker that ties an executable to its native runtime: printed into the binary at build time, found at launch. */
module SeedMarker {
  import opened Options

  const PREFIX := "codestory-native-runtime-seed-v1|id="
  const SUFFIX := "|end"
  const ID_LENGTH: nat := 64

  predicate IsHexDigit(c: char) {
    '0' <= c <= '9' || 'a' <= c <= 'f' || 'A' <= c <= 'F'
  }

  predicate AllHex(text: string) {
    forall i :: 0 <= i < |text| ==> IsHexDigit(text[i])
  }

  predicate IsId(id: string) {
    |id| == ID_LENGTH && AllHex(id)
  }

  function Marker(id: string): string {
    PREFIX + id + SUFFIX
  }

  predicate OccursAt(bytes: string, k: int) {
    0 <= k && k + |PREFIX| <= |bytes| && bytes[k..k + |PREFIX|] == PREFIX
  }

  ghost predicate Occurs(bytes: string) {
    exists k :: OccursAt(bytes, k)
  }

  /** `bytes` is `pre`, the marker of `id`, `post`, and the marker's prefix occurs nowhere else. */
  ghost predicate MarkedBy(bytes: string, pre: string, id: string, post: string) {
    && bytes == pre + Marker(id) + post && IsId(id)
    && forall k :: OccursAt(bytes, k) ==> k == |pre|
  }

  ghost predicate Marked(bytes: string, id: string) {
    exists pre, post :: MarkedBy(bytes, pre, id, post)
  }

  /** The offsets below `n` where the prefix occurs. */
  function Matches(bytes: string, n: nat): (r: seq<nat>)
    ensures forall k: nat :: k in r <==> k < n && OccursAt(bytes, k)
    ensures forall i :: 0 <= i < |r| ==> r[i] < n
    ensures forall i, j :: 0 <= i < j < |r| ==> r[i] < r[j]
  {
    if n == 0 then [] else Matches(bytes, n - 1) + if OccursAt(bytes, n - 1) then [n - 1] else []
  }

  /** What the scanner answers. */
  function SeedId(bytes: string): Option<string> {
    var found := Matches(bytes, |bytes|);
    if |found| != 1 then None
    else
      var start := found[0] + |PREFIX|;
      var end := start + ID_LENGTH;
      if end + |SUFFIX| <= |bytes| && bytes[end..end + |SUFFIX|] == SUFFIX && AllHex(bytes[start..end])
      then Some(bytes[start..end]) else None
  }

  /** `seed_id_from_bytes`: looks at every window, collects the matches, takes the id behind the only one. */
  method SeedIdFromBytes(bytes: string) returns (id: Option<string>)
    ensures id == SeedId(bytes)
    ensures forall found :: id == Some(found) <==> Marked(bytes, found)
  {
    var found := [];
    for offset := 0 to |bytes|
      invariant found == Matches(bytes, offset)
    {
      if OccursAt(bytes, offset) {
        found := found + [offset];
      }
    }
    ScanFindsTheMarker(bytes);
    if |found| == 1 {
      var start := found[0] + |PREFIX|;
      var end := start + ID_LENGTH;
      if end + |SUFFIX| <= |bytes| && bytes[end..end + |SUFFIX|] == SUFFIX && AllHex(bytes[start..end]) {
        return Some(bytes[start..end]);
      }
    }
    return None;
  }

  /** The scanner finds an id exactly if the bytes hold its marker and no second prefix. */
  lemma ScanFindsTheMarker(bytes: string)
    ensures forall id :: SeedId(bytes) == Some(id) <==> Marked(bytes, id)
  {
    forall id
      ensures SeedId(bytes) == Some(id) <==> Marked(bytes, id)
    {
      if SeedId(bytes) == Some(id) {
        FoundIsMarked(bytes, id);
      }
      if Marked(bytes, id) {
        MarkedIsFound(bytes, id);
      }
    }
  }

  lemma FoundIsMarked(bytes: string, id: string)
    requires SeedId(bytes) == Some(id)
    ensures Marked(bytes, id)
  {
    var found := Matches(bytes, |bytes|);
    var k := found[0];
    assert k in found;
    var start := k + |PREFIX|;
    var end := start + ID_LENGTH;
    var pre, post := bytes[..k], bytes[end + |SUFFIX|..];
    Cut(bytes, k, start, end, end + |SUFFIX|);
    forall j | OccursAt(bytes, j)
      ensures j == k
    {
      assert j in found;
    }
    assert MarkedBy(bytes, pre, id, post);
  }

  lemma Cut(s: string, a: nat, b: nat, c: nat, d: nat)
    requires a <= b <= c <= d <= |s|
    ensures s == s[..a] + (s[a..b] + s[b..c] + s[c..d]) + s[d..]
  {
  }

  lemma {:induction false} SingleMatch(bytes: string, k: nat, n: nat)
    requires OccursAt(bytes, k) && forall j :: OccursAt(bytes, j) ==> j == k
    ensures Matches(bytes, n) == if k < n then [k] else []
  {
    if n > 0 {
      SingleMatch(bytes, k, n - 1);
    }
  }

  lemma MarkedIsFound(bytes: string, id: string)
    requires Marked(bytes, id)
    ensures SeedId(bytes) == Some(id)
  {
    var pre, post :| MarkedBy(bytes, pre, id, post);
    var found, k := Matches(bytes, |bytes|), |pre|;
    var start := k + |PREFIX|;
    var end := start + ID_LENGTH;
    Parts(pre, PREFIX, id, SUFFIX, post);
    SingleMatch(bytes, k, |bytes|);
    assert bytes[start..end] == id && bytes[end..end + |SUFFIX|] == SUFFIX;
  }

  lemma Parts(pre: string, a: string, b: string, c: string, post: string)
    ensures var s, k := pre + (a + b + c) + post, |pre|;
      s[k..k + |a|] == a && s[k + |a|..k + |a| + |b|] == b && s[k + |a| + |b|..k + |a| + |b| + |c|] == c
  {
  }

  // ---------------------------------------------------------------- printing, then scanning

  lemma PrefixLetters()
    ensures |PREFIX| == 36 && PREFIX[0] == 'c' && PREFIX[1] == 'o'
    ensures forall i :: 0 < i < |PREFIX| ==> PREFIX[i] != 'c'
  {
    assert PREFIX == "codestory-native-runtime-seed-v1|id=";
  }

  /** What letters an occurrence consists of. */
  lemma OccurrenceLetters(bytes: string, k: int)
    requires OccursAt(bytes, k)
    ensures bytes[k] == 'c' && bytes[k + 1] == 'o'
    ensures forall j :: k < j < k + |PREFIX| ==> bytes[j] != 'c'
  {
    PrefixLetters();
    assert forall j :: 0 <= j < |PREFIX| ==> bytes[k + j] == bytes[k..k + |PREFIX|][j] == PREFIX[j];
    assert forall j :: k < j < k + |PREFIX| ==> bytes[j] == PREFIX[j - k];
  }

  /** What letters a printed marker consists of. */
  lemma MarkerLetters(pre: string, id: string, post: string)
    requires AllHex(id)
    ensures var bytes, p := pre + Marker(id) + post, |pre| + |PREFIX|;
      && OccursAt(bytes, |pre|)
      && (forall i :: p <= i < p + |id| ==> IsHexDigit(bytes[i]))
      && (forall i :: p + |id| <= i < p + |id| + |SUFFIX| ==> bytes[i] != 'c' && bytes[i] != 'o')
  {
    var bytes, p := pre + Marker(id) + post, |pre| + |PREFIX|;
    Parts(pre, PREFIX, id, SUFFIX, post);
    assert forall i :: p <= i < p + |id| ==> bytes[i] == id[i - p];
    assert forall i :: p + |id| <= i < p + |id| + |SUFFIX| ==> bytes[i] == SUFFIX[i - p - |id|];
    assert SUFFIX == ['|', 'e', 'n', 'd'];
  }

  /** No occurrence straddles a border of the marker: the prefix shares no end with itself and cannot start in an id. */
  lemma NothingStraddles(pre: string, id: string, post: string, k: int)
    requires AllHex(id) && OccursAt(pre + Marker(id) + post, k)
    ensures k == |pre| || k + |PREFIX| <= |pre| || k >= |pre| + |Marker(id)|
  {
    MarkerLetters(pre, id, post);
    OccurrenceLetters(pre + Marker(id) + post, |pre|);
    OccurrenceLetters(pre + Marker(id) + post, k);
  }

  lemma OnlyOccurrence(pre: string, id: string, post: string, k: int)
    requires !Occurs(pre) && !Occurs(post) && AllHex(id)
    requires OccursAt(pre + Marker(id) + post, k)
    ensures k == |pre|
  {
    NothingStraddles(pre, id, post, k);
    Restricted(pre, Marker(id) + post, k);
    Restricted(pre + Marker(id), post, k);
    assert pre + (Marker(id) + post) == pre + Marker(id) + post;
  }

  lemma Restricted(a: string, b: string, k: int)
    ensures OccursAt(a + b, k) && k + |PREFIX| <= |a| ==> OccursAt(a, k)
    ensures OccursAt(a + b, k) && k >= |a| ==> OccursAt(b, k - |a|)
  {
    var s := a + b;
    assert 0 <= k && k + |PREFIX| <= |a| ==> s[k..k + |PREFIX|] == a[k..k + |PREFIX|];
    assert |a| <= k && k + |PREFIX| <= |s| ==> s[k..k + |PREFIX|] == b[k - |a|..k - |a| + |PREFIX|];
  }

  /** A marker printed between bytes without the prefix is read back. */
  lemma PrintedMarkerIsRead(pre: string, id: string, post: string)
    requires !Occurs(pre) && !Occurs(post) && IsId(id)
    ensures SeedId(pre + Marker(id) + post) == Some(id)
  {
    var bytes := pre + Marker(id) + post;
    forall k | OccursAt(bytes, k)
      ensures k == |pre|
    {
      OnlyOccurrence(pre, id, post, k);
    }
    assert MarkedBy(bytes, pre, id, post);
    MarkedIsFound(bytes, id);
  }

  /** A build without a native runtime prints an empty id, which no scan accepts, whatever surrounds it. */
  lemma EmptyIdIsRefused(pre: string, post: string)
    ensures SeedId(pre + Marker("") + post) == None
  {
    var bytes, found := pre + Marker("") + post, Matches(pre + Marker("") + post, |pre + Marker("") + post|);
    Parts(pre, PREFIX, "", SUFFIX, post);
    assert OccursAt(bytes, |pre|);
    assert |pre| in found;
    var start := |pre| + |PREFIX|;
    assert bytes[start..start + |SUFFIX|] == SUFFIX;
    assert bytes[start] == bytes[start..start + |SUFFIX|][0] == '|';
    assert start + ID_LENGTH <= |bytes| ==> !IsHexDigit(bytes[start..start + ID_LENGTH][0]);
  }
}
