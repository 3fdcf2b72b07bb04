/**
  Little-endian machine integers as byte sequences: the image that `memcpy` of an integer
  leaves in a buffer on the 64-bit little-endian targets the program is built for.
 */
module Bytes {
  type byte = x: int | 0 <= x < 256
  type uint32 = x: int | 0 <= x < 0x1_0000_0000
  type int64 = x: int | -0x8000_0000_0000_0000 <= x < 0x8000_0000_0000_0000

  const UINT32_LIMIT: nat := 0x1_0000_0000
  /** Bytes whose length fits a 32-bit field. */
  type sized = b: seq<byte> | |b| < UINT32_LIMIT

  const UINT64_LIMIT: nat := 0x1_0000_0000_0000_0000
  const INT64_MAX: int64 := 0x7FFF_FFFF_FFFF_FFFF

  function Pow256(n: nat): (p: nat)
    ensures p > 0
  {
    if n == 0 then 1 else 256 * Pow256(n - 1)
  }

  /** The low `n` bytes of `v`, least significant first; higher bytes are lost, as in a narrowing cast. */
  function LeBytes(v: nat, n: nat): (b: seq<byte>)
    ensures |b| == n
  {
    if n == 0 then [] else [v % 256] + LeBytes(v / 256, n - 1)
  }

  function LeValue(b: seq<byte>): nat {
    if b == [] then 0 else b[0] + 256 * LeValue(b[1..])
  }

  lemma {:induction false} LeValueBound(b: seq<byte>)
    ensures LeValue(b) < Pow256(|b|)
  {
    if b != [] { LeValueBound(b[1..]); }
  }

  lemma {:induction false} LeValueOfBytes(v: nat, n: nat)
    requires v < Pow256(n)
    ensures LeValue(LeBytes(v, n)) == v
  {
    if n > 0 {
      assert v / 256 < Pow256(n - 1);
      LeValueOfBytes(v / 256, n - 1);
      assert LeBytes(v, n)[1..] == LeBytes(v / 256, n - 1);
    }
  }

  lemma LowByte(low: byte, high: nat)
    ensures (low + 256 * high) % 256 == low && (low + 256 * high) / 256 == high
  {}

  lemma {:induction false} LeBytesOfValue(b: seq<byte>)
    ensures LeBytes(LeValue(b), |b|) == b
  {
    if b != [] {
      LeBytesOfValue(b[1..]);
      LowByte(b[0], LeValue(b[1..]));
    }
  }

  lemma Pow256Widths()
    ensures Pow256(4) == UINT32_LIMIT && Pow256(8) == UINT64_LIMIT
  {
    assert Pow256(2) == 0x1_0000;
    assert Pow256(4) == 0x1_0000_0000;
    assert Pow256(6) == 0x1_0000_0000_0000;
  }

  /** A `uint32_t` written from a wider count: the count is taken modulo 2^32. */
  function U32Bytes(v: nat): (b: seq<byte>)
    ensures |b| == 4
  {
    LeBytes(v, 4)
  }

  function U32Value(b: seq<byte>): (v: uint32)
    requires |b| == 4
  {
    LeValueBound(b); Pow256Widths();
    LeValue(b)
  }

  /** An `int64_t` in two's complement. */
  function I64Bytes(x: int64): (b: seq<byte>)
    ensures |b| == 8
  {
    LeBytes(if x >= 0 then x else x + UINT64_LIMIT, 8)
  }

  function I64Value(b: seq<byte>): (x: int64)
    requires |b| == 8
  {
    LeValueBound(b); Pow256Widths();
    var v := LeValue(b);
    if v <= INT64_MAX then v else v - UINT64_LIMIT
  }

  lemma U32RoundTrip(v: uint32)
    ensures U32Value(U32Bytes(v)) == v
  {
    Pow256Widths();
    LeValueOfBytes(v, 4);
  }

  lemma U32BytesOfValue(b: seq<byte>)
    requires |b| == 4
    ensures U32Bytes(U32Value(b)) == b
  {
    LeBytesOfValue(b);
  }

  lemma I64RoundTrip(x: int64)
    ensures I64Value(I64Bytes(x)) == x
  {
    Pow256Widths();
    LeValueOfBytes(if x >= 0 then x else x + UINT64_LIMIT, 8);
  }

  lemma I64BytesOfValue(b: seq<byte>)
    requires |b| == 8
    ensures I64Bytes(I64Value(b)) == b
  {
    Pow256Widths(); LeValueBound(b);
    LeBytesOfValue(b);
  }

  /** Byte `k` of a number is its digit in base 256 that counts `256^k`. */
  lemma {:induction false} ByteAt(v: nat, n: nat, k: nat)
    requires k < n
    ensures LeBytes(v, n)[k] == (v / Pow256(k)) % 256
  {
    if k > 0 {
      ByteAt(v / 256, n - 1, k - 1);
      DivTwice(v, Pow256(k - 1));
    }
  }

  lemma DivTwice(v: nat, d: nat)
    requires d > 0
    ensures v / 256 / d == v / (256 * d)
  {
    var q, r := v / 256, v % 256;
    var q', r' := q / d, q % d;
    assert v == 256 * (d * q' + r') + r == (256 * d) * q' + (256 * r' + r);
    assert 0 <= 256 * r' + r < 256 * d;
    Quotient(v, 256 * d, q', 256 * r' + r);
  }

  lemma Quotient(v: int, d: nat, q: int, r: int)
    requires d > 0 && v == d * q + r && 0 <= r < d
    ensures v / d == q
  {
    var k := v / d - q;
    assert d * k == r - v % d;
    assert (k >= 1 ==> d * k >= d) && (k <= -1 ==> d * k + d <= 0);
  }

  /** The four bytes of a 32-bit count, the least significant first. */
  lemma U32Layout(v: nat)
    ensures U32Bytes(v) == [v % 256, (v / 0x100) % 256, (v / 0x1_0000) % 256, (v / 0x100_0000) % 256]
  {
    var b := LeBytes(v, 4);
    ByteAt(v, 4, 0); ByteAt(v, 4, 1); ByteAt(v, 4, 2); ByteAt(v, 4, 3);
    assert Pow256(2) == 0x1_0000 && Pow256(3) == 0x100_0000;
    assert b == [b[0], b[1], b[2], b[3]];
  }

  /** The eight bytes of a 64-bit integer in two's complement, the least significant first. */
  lemma I64Layout(x: int64)
    ensures I64Bytes(x) == [x % 256, (x / 0x100) % 256, (x / 0x1_0000) % 256, (x / 0x100_0000) % 256,
                            (x / 0x1_0000_0000) % 256, (x / 0x100_0000_0000) % 256, (x / 0x1_0000_0000_0000) % 256,
                            (x / 0x100_0000_0000_0000) % 256]
  {
    var v := if x >= 0 then x else x + UINT64_LIMIT;
    var b := LeBytes(v, 8);
    Powers();
    forall k: nat | k < 8 ensures b[k] == (x / Pow256(k)) % 256 {
      ByteAt(v, 8, k);
      if x < 0 { Wraps(x, k); }
    }
    assert b == [b[0], b[1], b[2], b[3], b[4], b[5], b[6], b[7]];
  }

  /** Adding 2^64 does not change a byte below it. */
  lemma Wraps(x: int, k: nat)
    requires k < 8
    ensures ((x + UINT64_LIMIT) / Pow256(k)) % 256 == (x / Pow256(k)) % 256
  {
    Split(k);
    WrapsBy(x, Pow256(k), Pow256(7 - k));
  }

  lemma WrapsBy(x: int, d: nat, m: nat)
    requires d > 0 && d * (256 * m) == UINT64_LIMIT
    ensures ((x + UINT64_LIMIT) / d) % 256 == (x / d) % 256
  {
    assert d * (x / d + 256 * m) == d * (x / d) + d * (256 * m);
    Quotient(x + UINT64_LIMIT, d, x / d + 256 * m, x % d);
  }

  lemma Split(k: nat)
    requires k < 8
    ensures Pow256(k) * (256 * Pow256(7 - k)) == UINT64_LIMIT
  {
    Powers();
    if k < 4 { if k < 2 { if k == 0 {} else {} } else { if k == 2 {} else {} } }
    else { if k < 6 { if k == 4 {} else {} } else { if k == 6 {} else {} } }
  }

  lemma Powers()
    ensures Pow256(0) == 1 && Pow256(1) == 0x100 && Pow256(2) == 0x1_0000 && Pow256(3) == 0x100_0000
    ensures Pow256(4) == 0x1_0000_0000 && Pow256(5) == 0x100_0000_0000 && Pow256(6) == 0x1_0000_0000_0000
    ensures Pow256(7) == 0x100_0000_0000_0000
  {
    assert Pow256(2) == 256 * Pow256(1);
    assert Pow256(4) == 256 * Pow256(3);
    assert Pow256(6) == 256 * Pow256(5);
  }

  /** A 32-bit count at a place, the least significant byte first. */
  predicate CountAt(b: seq<byte>, at: nat, n: nat) {
    at + 4 <= |b| && b[at..at + 4] == [n % 256, (n / 0x100) % 256, (n / 0x1_0000) % 256, (n / 0x100_0000) % 256]
  }

  /** A 64-bit number in two's complement at a place, the least significant byte first. */
  predicate NumberAt(b: seq<byte>, at: nat, x: int64) {
    at + 8 <= |b|
    && b[at..at + 8] == [x % 256, (x / 0x100) % 256, (x / 0x1_0000) % 256, (x / 0x100_0000) % 256,
                         (x / 0x1_0000_0000) % 256, (x / 0x100_0000_0000) % 256, (x / 0x1_0000_0000_0000) % 256,
                         (x / 0x100_0000_0000_0000) % 256]
  }
}
