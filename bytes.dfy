/**
 * Byte strings as the program sees them: `u8`, `u64`, 32-byte hashes,
 * Rust's ordering on byte arrays and the little-endian encoding that
 * `u64::to_le_bytes` produces for address seeds.
 */
module Bytes {

  type byte = x: int | 0 <= x < 256

  type u64 = x: int | 0 <= x < 0x1_0000_0000_0000_0000

  /** A `[u8; 32]`: a Keccak-256 digest, a Merkle root or a proof element. */
  type Hash = s: seq<byte> | |s| == 32 witness seq(32, _ => 0)

  function Pow256(n: nat): (r: nat)
    ensures r > 0
  {
    if n == 0 then 1 else 256 * Pow256(n - 1)
  }

  // ---------------------------------------------------------------------
  // Rust's `<=` on byte arrays and slices: lexicographic, and a proper
  // prefix is smaller than the longer sequence.
  // ---------------------------------------------------------------------

  predicate LexLe(a: seq<byte>, b: seq<byte>)
    decreases |a|
  {
    if |a| == 0 then true
    else if |b| == 0 then false
    else if a[0] != b[0] then a[0] < b[0]
    else LexLe(a[1..], b[1..])
  }

  lemma {:induction false} LexLeReflexive(a: seq<byte>)
    ensures LexLe(a, a)
  {
    if |a| > 0 {
      LexLeReflexive(a[1..]);
    }
  }

  /** Any two byte strings are comparable. */
  lemma {:induction false} LexLeTotal(a: seq<byte>, b: seq<byte>)
    ensures LexLe(a, b) || LexLe(b, a)
    decreases |a|
  {
    if |a| > 0 && |b| > 0 && a[0] == b[0] {
      LexLeTotal(a[1..], b[1..]);
    }
  }

  lemma {:induction false} LexLeAntisymmetric(a: seq<byte>, b: seq<byte>)
    requires LexLe(a, b) && LexLe(b, a)
    ensures a == b
    decreases |a|
  {
    if |a| > 0 {
      LexLeAntisymmetric(a[1..], b[1..]);
      assert a == [a[0]] + a[1..];
      assert b == [b[0]] + b[1..];
    }
  }

  lemma {:induction false} LexLeTransitive(a: seq<byte>, b: seq<byte>, c: seq<byte>)
    requires LexLe(a, b) && LexLe(b, c)
    ensures LexLe(a, c)
    decreases |a|
  {
    if |a| > 0 && |b| > 0 && |c| > 0 && a[0] == b[0] && b[0] == c[0] {
      LexLeTransitive(a[1..], b[1..], c[1..]);
    }
  }

  // ---------------------------------------------------------------------
  // On equal-length arrays the lexicographic order is the order of the
  // arrays read as big-endian unsigned integers.
  // ---------------------------------------------------------------------

  function BigEndian(s: seq<byte>): nat
  {
    if |s| == 0 then 0 else s[0] * Pow256(|s| - 1) + BigEndian(s[1..])
  }

  lemma {:induction false} BigEndianBound(s: seq<byte>)
    ensures BigEndian(s) < Pow256(|s|)
  {
    if |s| > 0 {
      BigEndianBound(s[1..]);
      var p := Pow256(|s| - 1);
      assert s[0] * p <= 255 * p by { MulLeft(s[0], 255, p); }
    }
  }

  lemma MulLeft(x: int, y: int, p: nat)
    requires x <= y
    ensures x * p <= y * p
  {
  }

  /** An array whose first byte is smaller is the smaller number. */
  lemma FirstByteDecides(a: seq<byte>, b: seq<byte>)
    requires |a| == |b| > 0 && a[0] < b[0]
    ensures BigEndian(a) < BigEndian(b)
  {
    var p := Pow256(|a| - 1);
    BigEndianBound(a[1..]);
    assert BigEndian(a) == a[0] * p + BigEndian(a[1..]);
    assert BigEndian(b) == b[0] * p + BigEndian(b[1..]);
    assert (a[0] + 1) * p == a[0] * p + p;
    MulLeft(a[0] + 1, b[0], p);
  }

  lemma {:induction false} LexLeIsBigEndianOrder(a: seq<byte>, b: seq<byte>)
    requires |a| == |b|
    ensures LexLe(a, b) <==> BigEndian(a) <= BigEndian(b)
    decreases |a|
  {
    if |a| > 0 {
      if a[0] == b[0] {
        LexLeIsBigEndianOrder(a[1..], b[1..]);
      } else if a[0] < b[0] {
        FirstByteDecides(a, b);
      } else {
        FirstByteDecides(b, a);
      }
    }
  }

  // ---------------------------------------------------------------------
  // `u64::to_le_bytes`, used for the numeric ids in address seeds.
  // ---------------------------------------------------------------------

  /** The `n` low-order bytes of `x`, least significant first. */
  function LittleEndian(x: nat, n: nat): (r: seq<byte>)
    ensures |r| == n
  {
    if n == 0 then [] else [x % 256] + LittleEndian(x / 256, n - 1)
  }

  function FromLittleEndian(s: seq<byte>): nat
  {
    if |s| == 0 then 0 else s[0] + 256 * FromLittleEndian(s[1..])
  }

  function ToLeBytes(x: u64): (r: seq<byte>)
    ensures |r| == 8
  {
    LittleEndian(x, 8)
  }

  lemma {:induction false} LittleEndianRoundTrip(x: nat, n: nat)
    requires x < Pow256(n)
    ensures FromLittleEndian(LittleEndian(x, n)) == x
  {
    if n > 0 {
      assert x / 256 < Pow256(n - 1);
      LittleEndianRoundTrip(x / 256, n - 1);
      var s := LittleEndian(x, n);
      assert s[1..] == LittleEndian(x / 256, n - 1);
    }
  }

  /** Decoding the eight bytes gives the id back. */
  lemma ToLeBytesRoundTrip(x: u64)
    ensures FromLittleEndian(ToLeBytes(x)) == x
  {
    assert Pow256(8) == 0x1_0000_0000_0000_0000;
    LittleEndianRoundTrip(x, 8);
  }

  /** Two ids give the same seed bytes only when they are equal. */
  lemma ToLeBytesInjective(x: u64, y: u64)
    ensures ToLeBytes(x) == ToLeBytes(y) <==> x == y
  {
    ToLeBytesRoundTrip(x);
    ToLeBytesRoundTrip(y);
  }
}
