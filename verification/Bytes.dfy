/** Integers and keys as bytes, either end first, and the readers that take them off the front of a buffer. */
module Bytes {
  import opened Base

  function Pow256(n: nat): (p: nat)
    ensures p > 0
  {
    if n == 0 then 1 else 256 * Pow256(n - 1)
  }

  lemma {:induction false} PowAdd(a: nat, b: nat)
    ensures Pow256(a + b) == Pow256(a) * Pow256(b)
  {
    if a > 0 { PowAdd(a - 1, b); }
  }

  lemma Pow2()
    ensures Pow256(2) == 0x1_0000
  {
    assert Pow256(1) == 256;
  }

  lemma Pow8()
    ensures Pow256(8) == 0x1_0000_0000_0000_0000
  {
    Pow2();
    PowAdd(2, 2);
    PowAdd(4, 4);
  }

  lemma Pow32()
    ensures Pow256(32) == 0x1_0000_0000_0000_0000_0000_0000_0000_0000_0000_0000_0000_0000_0000_0000_0000_0000
  {
    Pow8();
    PowAdd(8, 8);
    PowAdd(16, 16);
  }

  /** Byte `i` of a number, lowest first. */
  function Digit(n: nat, i: nat): u8
    decreases i
  {
    if i == 0 then n % 256 else Digit(n / 256, i - 1)
  }

  /** `to_le_bytes`, at any width. */
  function ToLe(n: nat, width: nat): (r: seq<u8>)
    ensures |r| == width
  {
    seq(width, i requires 0 <= i < width => Digit(n, i))
  }

  /** `from_le_bytes`. */
  function FromLe(b: seq<u8>): (n: nat)
    ensures n < Pow256(|b|)
  {
    if b == [] then 0 else b[0] + 256 * FromLe(b[1..])
  }

  lemma {:induction false} LeRoundTrip(n: nat, width: nat)
    requires n < Pow256(width)
    ensures FromLe(ToLe(n, width)) == n
  {
    if width > 0 {
      LeRoundTrip(n / 256, width - 1);
      assert ToLe(n, width)[1..] == ToLe(n / 256, width - 1);
    }
  }

  lemma {:induction false} LeCanonical(b: seq<u8>)
    ensures ToLe(FromLe(b), |b|) == b
  {
    if b != [] {
      var n := FromLe(b);
      LeCanonical(b[1..]);
      assert n / 256 == FromLe(b[1..]) && n % 256 == b[0];
      forall i | 0 <= i < |b| ensures Digit(n, i) == b[i] {
        if i > 0 { assert ToLe(n / 256, |b| - 1)[i - 1] == b[1..][i - 1]; }
      }
    }
  }

  // ---- the widths in use ----

  function U16Bytes(n: u16): (r: seq<u8>)
    ensures |r| == 2
  {
    ToLe(n, 2)
  }

  function U64Bytes(n: u64): (r: seq<u8>)
    ensures |r| == 8
  {
    ToLe(n, 8)
  }

  function KeyBytes(k: Pubkey): (r: seq<u8>)
    ensures |r| == 32
  {
    ToLe(k, 32)
  }

  function U16Of(b: seq<u8>): (n: u16)
    requires |b| == 2
    ensures U16Bytes(n) == b
  {
    Pow2();
    LeCanonical(b);
    FromLe(b)
  }

  function U64Of(b: seq<u8>): (n: u64)
    requires |b| == 8
    ensures U64Bytes(n) == b
  {
    Pow8();
    LeCanonical(b);
    FromLe(b)
  }

  function KeyOf(b: seq<u8>): (k: Pubkey)
    requires |b| == 32
    ensures KeyBytes(k) == b
  {
    Pow32();
    LeCanonical(b);
    FromLe(b)
  }

  lemma U16Back(n: u16)
    ensures U16Of(U16Bytes(n)) == n
  {
    Pow2();
    LeRoundTrip(n, 2);
  }

  lemma U64Back(n: u64)
    ensures U64Of(U64Bytes(n)) == n
  {
    Pow8();
    LeRoundTrip(n, 8);
  }

  lemma KeyBack(k: Pubkey)
    ensures KeyOf(KeyBytes(k)) == k
  {
    Pow32();
    LeRoundTrip(k, 32);
  }

  // ---- most significant byte first ----

  /** `to_be_bytes`, at any width. */
  function BigEndian(n: nat, width: nat): (r: seq<u8>)
    ensures |r| == width
  {
    if width == 0 then [] else BigEndian(n / 256, width - 1) + [n % 256]
  }

  lemma Shift(p: nat, q: nat)
    ensures (256 * p) * q == 256 * (p * q)
  {}

  /** Dropping the leading bytes leaves the remainder. */
  lemma {:induction false} DropLeading(q: nat, r: nat, width: nat, d: nat)
    requires d <= width && r < Pow256(width - d)
    ensures BigEndian(Pow256(width - d) * q + r, width)[d..] == BigEndian(r, width - d)
    decreases width - d
  {
    var m := Pow256(width - d) * q + r;
    if d < width {
      var t := Pow256(width - d - 1) * q;
      Shift(Pow256(width - d - 1), q);
      assert m / 256 == t + r / 256 && m % 256 == r % 256;
      DropLeading(q, r / 256, width - 1, d);
      assert BigEndian(m, width)[d..] == BigEndian(m / 256, width - 1)[d..] + [m % 256];
    }
  }

  lemma {:induction false} BigEndianInjective(x: nat, y: nat, width: nat)
    requires x < Pow256(width) && y < Pow256(width) && BigEndian(x, width) == BigEndian(y, width)
    ensures x == y
  {
    if width > 0 {
      var xs, ys := BigEndian(x, width), BigEndian(y, width);
      assert xs[width - 1] == ys[width - 1] && xs[..width - 1] == ys[..width - 1];
      assert xs[..width - 1] == BigEndian(x / 256, width - 1) && ys[..width - 1] == BigEndian(y / 256, width - 1);
      BigEndianInjective(x / 256, y / 256, width - 1);
    }
  }
}
