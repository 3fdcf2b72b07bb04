/** Appending to and reading from byte buffers (protocol/Codec.h). */
module Codec {
  import opened Bytes

  /** What is read from the front of some bytes, and the bytes after it. */
  datatype Taken<T> = Short | Got(value: T, rest: seq<byte>)

  /** A string on the wire: its 32-bit length, then its bytes. */
  function StrBytes(s: seq<byte>): seq<byte> {
    U32Bytes(|s|) + s
  }

  function TakeBytes(b: seq<byte>, n: nat): Taken<seq<byte>> {
    if |b| < n then Short else Got(b[..n], b[n..])
  }

  function TakeU32(b: seq<byte>): Taken<uint32> {
    if |b| < 4 then Short else Got(U32Value(b[..4]), b[4..])
  }

  function TakeI64(b: seq<byte>): Taken<int64> {
    if |b| < 8 then Short else Got(I64Value(b[..8]), b[8..])
  }

  function TakeStr(b: seq<byte>): Taken<seq<byte>> {
    match TakeU32(b)
    case Short => Short
    case Got(n, rest) => TakeBytes(rest, n)
  }

  lemma TakeI64Bytes(x: int64, tail: seq<byte>)
    ensures TakeI64(I64Bytes(x) + tail) == Got(x, tail)
  {
    I64RoundTrip(x);
    assert (I64Bytes(x) + tail)[..8] == I64Bytes(x) && (I64Bytes(x) + tail)[8..] == tail;
  }

  lemma TakeU32Bytes(n: uint32, tail: seq<byte>)
    ensures TakeU32(U32Bytes(n) + tail) == Got(n, tail)
  {
    U32RoundTrip(n);
    assert (U32Bytes(n) + tail)[..4] == U32Bytes(n) && (U32Bytes(n) + tail)[4..] == tail;
  }

  lemma TakeStrBytes(s: seq<byte>, tail: seq<byte>)
    requires |s| < UINT32_LIMIT
    ensures TakeStr(StrBytes(s) + tail) == Got(s, tail)
  {
    TakeU32Bytes(|s|, s + tail);
    assert StrBytes(s) + tail == U32Bytes(|s|) + (s + tail);
    assert (s + tail)[..|s|] == s && (s + tail)[|s|..] == tail;
  }

  lemma I64Taken(b: seq<byte>)
    requires TakeI64(b).Got?
    ensures b == I64Bytes(TakeI64(b).value) + TakeI64(b).rest
  {
    I64BytesOfValue(b[..8]);
  }

  lemma U32Taken(b: seq<byte>)
    requires TakeU32(b).Got?
    ensures b == U32Bytes(TakeU32(b).value) + TakeU32(b).rest
  {
    U32BytesOfValue(b[..4]);
  }

  lemma StrTaken(b: seq<byte>)
    requires TakeStr(b).Got?
    ensures b == StrBytes(TakeStr(b).value) + TakeStr(b).rest && |TakeStr(b).value| < UINT32_LIMIT
  {
    U32Taken(b);
    var n, rest := TakeU32(b).value, TakeU32(b).rest;
    assert rest == rest[..n] + rest[n..];
    assert |rest[..n]| == n;
  }

  /** The byte vector that is appended to. */
  class Writer {
    var out: seq<byte>

    constructor ()
      ensures out == []
    {
      out := [];
    }

    method Put(src: seq<byte>)
      modifies this
      ensures out == old(out) + src
    {
      out := out + src;
    }

    method PutStr(s: seq<byte>)
      modifies this
      ensures out == old(out) + StrBytes(s)
    {
      Put(U32Bytes(|s|));
      Put(s);
    }
  }

  /** A cursor over untrusted bytes; every read checks what is left first. */
  class Reader {
    const buf: seq<byte>
    var off: nat

    ghost predicate Valid() reads this {
      off <= |buf|
    }

    ghost function Rest(): seq<byte>
      reads this
      requires Valid()
    {
      buf[off..]
    }

    constructor (b: seq<byte>)
      ensures Valid() && buf == b && Rest() == b
    {
      buf := b;
      off := 0;
    }

    method Take(n: nat) returns (ok: bool, dst: seq<byte>)
      requires Valid()
      modifies this
      ensures Valid()
      ensures ok == TakeBytes(old(Rest()), n).Got?
      ensures ok ==> Got(dst, Rest()) == TakeBytes(old(Rest()), n)
      ensures !ok ==> off == old(off)
    {
      if off + n > |buf| { return false, []; }
      assert Rest()[..n] == buf[off..off + n] && Rest()[n..] == buf[off + n..];
      dst := buf[off..off + n];
      off := off + n;
      ok := true;
    }

    method TakeInt64() returns (ok: bool, x: int64)
      requires Valid()
      modifies this
      ensures Valid()
      ensures ok == TakeI64(old(Rest())).Got?
      ensures ok ==> Got(x, Rest()) == TakeI64(old(Rest()))
    {
      var dst;
      ok, dst := Take(8);
      x := if ok then I64Value(dst) else 0;
    }

    /** A string whose length is promised but whose bytes are missing is rejected after the length was consumed. */
    method TakeString() returns (ok: bool, s: seq<byte>)
      requires Valid()
      modifies this
      ensures Valid()
      ensures ok == TakeStr(old(Rest())).Got?
      ensures ok ==> Got(s, Rest()) == TakeStr(old(Rest()))
    {
      var dst;
      ok, dst := Take(4);
      if !ok { return false, []; }
      var n := U32Value(dst);
      if off + n > |buf| { return false, []; }
      assert Rest()[..n] == buf[off..off + n] && Rest()[n..] == buf[off + n..];
      s := buf[off..off + n];
      off := off + n;
    }

    method Remaining() returns (n: nat)
      requires Valid()
      ensures n == |Rest()|
    {
      n := |buf| - off;
    }
  }
}
