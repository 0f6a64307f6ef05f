/** FNV-1a with 64 bits: exclusive-or a byte into the state, multiply by the prime, wrap around. */
module Fnv {
  import opened Hexadecimal

  const TWO64 := 0x1_0000_0000_0000_0000
  const OFFSET_BASIS: Word := 0xcbf29ce484222325
  const PRIME := 0x00000100000001B3
  /** PRIME times this is one more than a multiple of TWO64. */
  const INVERSE := 0xce965057aff6957b

  type Word = n: nat | n < 0x1_0000_0000_0000_0000
  type Byte = n: nat | n < 256

  /** Exclusive or of the `k` low bits, bit by bit. */
  function Xor(a: nat, b: nat, k: nat): (r: nat)
    ensures r < Power2(k)
  {
    if k == 0 then 0 else 2 * Xor(a / 2, b / 2, k - 1) + (a + b) % 2
  }

  lemma WordBits()
    ensures Power2(64) == TWO64
  {
    Power2Plus8(0);
    Power2Plus8(8);
    Power2Plus8(16);
    Power2Plus8(24);
    Power2Plus8(32);
    Power2Plus8(40);
    Power2Plus8(48);
    Power2Plus8(56);
  }

  function XorByte(state: Word, byte: Byte): Word {
    WordBits();
    Xor(state, byte, 64)
  }

  function Times(state: Word): Word {
    state * PRIME % TWO64
  }

  function Mix(state: Word, bytes: seq<Byte>): Word
    decreases |bytes|
  {
    if bytes == [] then state else Mix(Times(XorByte(state, bytes[0])), bytes[1..])
  }

  /** Multiplying by the prime modulo 2^64 can be undone. */
  lemma TimesInjective(x: Word, y: Word)
    requires Times(x) == Times(y)
    ensures x == y
  {
    TimesUndone(x);
    TimesUndone(y);
  }

  lemma TimesUndone(x: Word)
    ensures Times(x) * INVERSE % TWO64 == x
  {
    var q, k := x * PRIME / TWO64, PRIME * INVERSE / TWO64;
    assert PRIME * INVERSE == 1 + k * TWO64;
    assert x * PRIME == q * TWO64 + Times(x);
    assert Times(x) * INVERSE == x + (k * x - q * INVERSE) * TWO64;
    Remainder(x, k * x - q * INVERSE);
  }

  lemma Remainder(x: Word, t: int)
    ensures (x + t * TWO64) % TWO64 == x
  {
  }

  lemma LowBit(x: nat, y: nat, a: nat, b: nat)
    requires (x + a) % 2 == (y + b) % 2
    ensures x % 2 == y % 2 <==> a % 2 == b % 2
  {
  }

  /** Exclusive or keeps two operands apart exactly when the other operands agree. */
  lemma {:induction false} XorInjective(x: nat, y: nat, a: nat, b: nat, k: nat)
    requires x < Power2(k) && y < Power2(k) && a < Power2(k) && b < Power2(k)
    requires Xor(x, a, k) == Xor(y, b, k)
    ensures x == y <==> a == b
  {
    if k > 0 {
      LowBit(x, y, a, b);
      assert Xor(x, a, k) / 2 == Xor(x / 2, a / 2, k - 1) && Xor(y, b, k) / 2 == Xor(y / 2, b / 2, k - 1);
      XorInjective(x / 2, y / 2, a / 2, b / 2, k - 1);
    }
  }

  lemma XorByteInjective(x: Word, y: Word, a: Byte, b: Byte)
    requires XorByte(x, a) == XorByte(y, b)
    ensures x == y <==> a == b
  {
    WordBits();
    XorInjective(x, y, a, b, 64);
  }

  /** `mix_bytes` works piece by piece or all at once. */
  lemma {:induction false} MixConcat(state: Word, a: seq<Byte>, b: seq<Byte>)
    ensures Mix(state, a + b) == Mix(Mix(state, a), b)
    decreases |a|
  {
    if a == [] {
      assert a + b == b;
    } else {
      assert (a + b)[1..] == a[1..] + b;
      MixConcat(Times(XorByte(state, a[0])), a[1..], b);
    }
  }

  /** No two states are merged by the same bytes. */
  lemma {:induction false} MixInjective(x: Word, y: Word, bytes: seq<Byte>)
    ensures Mix(x, bytes) == Mix(y, bytes) <==> x == y
    decreases |bytes|
  {
    if bytes != [] {
      var u, v := XorByte(x, bytes[0]), XorByte(y, bytes[0]);
      MixInjective(Times(u), Times(v), bytes[1..]);
      if Times(u) == Times(v) {
        TimesInjective(u, v);
        XorByteInjective(x, y, bytes[0], bytes[0]);
      }
    }
  }

  /** Changing exactly one byte changes the final state. */
  lemma {:induction false} OneByteChangesTheState(state: Word, pre: seq<Byte>, a: Byte, b: Byte, post: seq<Byte>)
    requires a != b
    ensures Mix(state, pre + [a] + post) != Mix(state, pre + [b] + post)
  {
    var s := Mix(state, pre);
    var u, v := XorByte(s, a), XorByte(s, b);
    MixConcat(state, pre, [a] + post);
    MixConcat(state, pre, [b] + post);
    assert pre + [a] + post == pre + ([a] + post) && pre + [b] + post == pre + ([b] + post);
    assert ([a] + post)[1..] == post && ([b] + post)[1..] == post;
    if u == v {
      XorByteInjective(s, s, a, b);
    }
    if Times(u) == Times(v) {
      TimesInjective(u, v);
    }
    MixInjective(Times(u), Times(v), post);
  }
}
