/** Decimal formatting of natural numbers, as Rust's `{}` prints an unsigned integer. */
module Decimals {
  function Digit(d: nat): (c: char)
    requires d < 10
    ensures '0' <= c <= '9'
  {
    ('0' as int + d) as char
  }

  function Decimal(n: nat): (s: string)
    ensures |s| > 0
    ensures forall i :: 0 <= i < |s| ==> '0' <= s[i] <= '9'
  {
    if n < 10 then [Digit(n)] else Decimal(n / 10) + [Digit(n % 10)]
  }

  lemma {:induction false} DecimalInjective(a: nat, b: nat)
    requires Decimal(a) == Decimal(b)
    ensures a == b
  {
    var s, t := Decimal(a), Decimal(b);
    assert s[|s| - 1] == t[|t| - 1];
    assert s[|s| - 1] == Digit(a % 10) && t[|t| - 1] == Digit(b % 10);
    if a >= 10 && b >= 10 {
      assert s[..|s| - 1] == Decimal(a / 10) && t[..|t| - 1] == Decimal(b / 10);
      DecimalInjective(a / 10, b / 10);
    }
  }

  /** A separator that is not a digit splits a text into its two sides in one way only. */
  lemma {:induction false} SplitUnique(a: string, b: string, c: string, d: string, sep: char)
    requires a + [sep] + b == c + [sep] + d
    requires sep !in a && sep !in c
    ensures a == c && b == d
  {
    var whole := a + [sep] + b;
    assert whole[|a|] == sep && whole[|c|] == sep;
    assert a == whole[..|a|] && c == whole[..|c|];
    assert |a| == |c|;
    assert b == whole[|a| + 1..] && d == whole[|c| + 1..];
  }

  /** Splitting at the last separator, when neither tail holds one. */
  lemma {:induction false} SplitUniqueAtLast(a: string, b: string, c: string, d: string, sep: char)
    requires a + [sep] + b == c + [sep] + d
    requires sep !in b && sep !in d
    ensures a == c && b == d
  {
    var whole := a + [sep] + b;
    assert whole[|a|] == sep && whole[|c|] == sep;
    assert b == whole[|a| + 1..] && d == whole[|c| + 1..];
    assert |a| == |c|;
    assert a == whole[..|a|] && c == whole[..|c|];
  }
}
