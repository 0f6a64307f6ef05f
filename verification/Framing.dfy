/** Length-prefixed framing of fields before hashing: eight little-endian length bytes, then the field.
    Bytes are held as characters with codes below 256. */
module Framing {
  function Power256(k: nat): nat {
    if k == 0 then 1 else 256 * Power256(k - 1)
  }

  function LittleEndian(n: nat, k: nat): (bytes: string)
    ensures |bytes| == k
  {
    if k == 0 then "" else [(n % 256) as char] + LittleEndian(n / 256, k - 1)
  }

  /** `sha256_fields` and `ordered_contract_digest` feed the hasher exactly these bytes. */
  function Framed(fields: seq<string>): string {
    if fields == [] then "" else LittleEndian(|fields[0]|, 8) + fields[0] + Framed(fields[1..])
  }

  ghost predicate Framable(fields: seq<string>) {
    forall i :: 0 <= i < |fields| ==> |fields[i]| < Power256(8)
  }

  lemma {:induction false} LittleEndianInjective(n: nat, m: nat, k: nat)
    requires n < Power256(k) && m < Power256(k)
    requires LittleEndian(n, k) == LittleEndian(m, k)
    ensures n == m
  {
    if k > 0 {
      var s, t := LittleEndian(n, k), LittleEndian(m, k);
      assert s[0] == (n % 256) as char && t[0] == (m % 256) as char;
      assert s[1..] == LittleEndian(n / 256, k - 1) && t[1..] == LittleEndian(m / 256, k - 1);
      LittleEndianInjective(n / 256, m / 256, k - 1);
    }
  }

  /** The framing loses nothing: different field lists never hash the same bytes. */
  lemma {:induction false} FramedInjective(a: seq<string>, b: seq<string>)
    requires Framable(a) && Framable(b) && Framed(a) == Framed(b)
    ensures a == b
    decreases |a|
  {
    if a != [] && b != [] {
      var s, t := Framed(a), Framed(b);
      assert s[..8] == LittleEndian(|a[0]|, 8) && t[..8] == LittleEndian(|b[0]|, 8);
      LittleEndianInjective(|a[0]|, |b[0]|, 8);
      assert s[8..8 + |a[0]|] == a[0] && t[8..8 + |b[0]|] == b[0];
      assert s[8 + |a[0]|..] == Framed(a[1..]) && t[8 + |b[0]|..] == Framed(b[1..]);
      FramedInjective(a[1..], b[1..]);
      assert a == [a[0]] + a[1..] && b == [b[0]] + b[1..];
    }
  }

  /** A hash without collisions. */
  ghost predicate CollisionFree(h: string -> string) {
    forall x, y :: h(x) == h(y) ==> x == y
  }
}
