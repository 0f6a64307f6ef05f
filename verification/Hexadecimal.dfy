/** Powers of two and hexadecimal digits. */
module Hexadecimal {
  function Power2(k: nat): nat {
    if k == 0 then 1 else 2 * Power2(k - 1)
  }

  lemma Power2Plus4(k: nat)
    ensures Power2(k + 4) == 16 * Power2(k)
  {
    assert Power2(k + 2) == 4 * Power2(k);
  }

  lemma Power2Plus8(k: nat)
    ensures Power2(k + 8) == 256 * Power2(k)
  {
    Power2Plus4(k);
    Power2Plus4(k + 4);
  }

  function HexDigit(d: nat): (c: char)
    requires d < 16
    ensures '0' <= c <= '9' || 'a' <= c <= 'f'
  {
    if d < 10 then ('0' as int + d) as char else ('a' as int + d - 10) as char
  }

  /** The `k` low hexadecimal digits. */
  function Hex(n: nat, k: nat): (s: string)
    ensures |s| == k
    ensures forall i :: 0 <= i < k ==> '0' <= s[i] <= '9' || 'a' <= s[i] <= 'f'
  {
    if k == 0 then "" else Hex(n / 16, k - 1) + [HexDigit(n % 16)]
  }

  lemma {:induction false} HexInjective(a: nat, b: nat, k: nat)
    requires a < Power2(4 * k) && b < Power2(4 * k) && Hex(a, k) == Hex(b, k)
    ensures a == b
  {
    if k > 0 {
      var s, t := Hex(a, k), Hex(b, k);
      assert s[..k - 1] == Hex(a / 16, k - 1) && t[..k - 1] == Hex(b / 16, k - 1);
      assert s[k - 1] == HexDigit(a % 16) && t[k - 1] == HexDigit(b % 16);
      Power2Plus4(4 * (k - 1));
      HexInjective(a / 16, b / 16, k - 1);
    }
  }
}
