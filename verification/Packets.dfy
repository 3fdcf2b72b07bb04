/**
  Packets on the wire (protocol/Protocol.h): a one-byte header, a struct image and a body. The struct images are
  those of a 64-bit little-endian ABI, with padding bytes of any value.
 */
module Packets {
  import opened Bytes
  import opened Codec

  const PKT_REQUEST: byte := 1
  const PKT_RESPONSE: byte := 2
  const PKT_BROADCAST: byte := 3

  const HEADER_SIZE: nat := 1
  const REQUEST_SIZE: nat := 16
  const RESPONSE_SIZE: nat := 8
  const BROADCAST_SIZE: nat := 24

  datatype Request = Request(header: byte, room: int64, command: byte, pad: seq<byte>, body: seq<byte>)

  /** What the server sends. */
  datatype Packet =
    | Response(command: byte, status: byte, pad: seq<byte>, body: seq<byte>)
    | Broadcast(sender: int64, room: int64, event: byte, pad: seq<byte>, body: seq<byte>)

  predicate RequestFits(q: Request) {
    |q.pad| == 3 && |q.body| < UINT32_LIMIT
  }

  predicate PacketFits(p: Packet) {
    |p.pad| == (if p.Response? then 2 else 3) && |p.body| < UINT32_LIMIT
  }

  function RequestImage(q: Request): seq<byte> {
    I64Bytes(q.room) + U32Bytes(|q.body|) + [q.command] + q.pad
  }

  function PacketImage(p: Packet): seq<byte> {
    match p
    case Response(command, status, pad, body) => U32Bytes(|body|) + [command, status] + pad
    case Broadcast(sender, room, event, pad, body) =>
      I64Bytes(sender) + I64Bytes(room) + U32Bytes(|body|) + [event] + pad
  }

  function HeaderOf(p: Packet): byte {
    if p.Response? then PKT_RESPONSE else PKT_BROADCAST
  }

  function Framed(header: byte, image: seq<byte>, body: seq<byte>): seq<byte> {
    [header] + image + body
  }

  function RequestBytes(q: Request): seq<byte> {
    Framed(q.header, RequestImage(q), q.body)
  }

  function PacketBytes(p: Packet): seq<byte> {
    Framed(HeaderOf(p), PacketImage(p), p.body)
  }

  // ---- writing ----

  /** `memcpy` into the buffer at an offset. */
  method CopyInto(data: array<byte>, offset: nat, src: seq<byte>)
    requires offset + |src| <= data.Length
    modifies data
    ensures data[..] == old(data[..offset]) + src + old(data[offset + |src|..])
  {
    for i := 0 to |src|
      invariant data[..offset] == old(data[..offset]) && data[offset + |src|..] == old(data[offset + |src|..])
      invariant data[offset..offset + i] == src[..i]
    {
      data[offset + i] := src[i];
      assert data[offset..offset + i + 1] == data[offset..offset + i] + [src[i]];
    }
    assert data[..] == data[..offset] + data[offset..offset + |src|] + data[offset + |src|..];
  }

  /** `serialize_packet`: one buffer, filled at an advancing offset. */
  method SerializePacket(header: byte, image: seq<byte>, body: seq<byte>) returns (data: array<byte>)
    ensures fresh(data) && data[..] == Framed(header, image, body)
  {
    data := new byte[HEADER_SIZE + |image| + |body|](_ => 0);
    var offset := 0;
    CopyInto(data, offset, [header]);
    offset := offset + HEADER_SIZE;
    CopyInto(data, offset, image);
    assert data[..offset + |image|] == [header] + image;
    offset := offset + |image|;
    if body != [] { CopyInto(data, offset, body); }
    assert data[..] == data[..offset] + data[offset..];
  }

  // ---- reading ----

  /** The request at the front of some bytes; its header byte is copied and never checked. */
  function TakeRequest(b: seq<byte>): Taken<Request> {
    if |b| < HEADER_SIZE + REQUEST_SIZE then Short
    else
      var n := U32Value(b[9..13]);
      if |b| < 17 + n then Short
      else Got(Request(b[0], I64Value(b[1..9]), b[13], b[14..17], b[17..17 + n]), b[17 + n..])
  }

  /** A packet at the front of some bytes; `Alien` is a header the client does not know. */
  datatype Decoded = More | Alien | One(packet: Packet, rest: seq<byte>)

  function TakeResponse(b: seq<byte>): Decoded {
    if |b| < 9 then More
    else
      var n := U32Value(b[1..5]);
      if |b| < 9 + n then More else One(Response(b[5], b[6], b[7..9], b[9..9 + n]), b[9 + n..])
  }

  function TakeBroadcast(b: seq<byte>): Decoded {
    if |b| < 25 then More
    else
      var n := U32Value(b[17..21]);
      if |b| < 25 + n then More
      else One(Broadcast(I64Value(b[1..9]), I64Value(b[9..17]), b[21], b[22..25], b[25..25 + n]), b[25 + n..])
  }

  function TakePacket(b: seq<byte>): Decoded {
    if b == [] then More
    else if b[0] == PKT_RESPONSE then TakeResponse(b)
    else if b[0] == PKT_BROADCAST then TakeBroadcast(b)
    else Alien
  }

  lemma RequestParts(q: Request, tail: seq<byte>)
    requires |q.pad| == 3
    ensures var b := RequestBytes(q) + tail;
            && |b| == 17 + |q.body| + |tail|
            && b[0] == q.header && b[1..9] == I64Bytes(q.room) && b[9..13] == U32Bytes(|q.body|) && b[13] == q.command
            && b[14..17] == q.pad && b[17..17 + |q.body|] == q.body && b[17 + |q.body|..] == tail
  {
    hide I64Bytes, U32Bytes;
  }

  /** A request is read back, whatever follows, exactly when its body length fits the 32-bit field. */
  lemma RequestRoundTrip(q: Request, tail: seq<byte>)
    requires |q.pad| == 3
    ensures TakeRequest(RequestBytes(q) + tail) == Got(q, tail) <==> RequestFits(q)
  {
    hide RequestBytes;
    RequestParts(q, tail);
    I64RoundTrip(q.room);
    if RequestFits(q) { U32RoundTrip(|q.body|); }
  }

  /** Whatever is accepted re-serializes to the front of the input. */
  lemma RequestTaken(b: seq<byte>)
    requires TakeRequest(b).Got?
    ensures b == RequestBytes(TakeRequest(b).value) + TakeRequest(b).rest && RequestFits(TakeRequest(b).value)
  {
    var q, rest := TakeRequest(b).value, TakeRequest(b).rest;
    I64BytesOfValue(b[1..9]);
    U32BytesOfValue(b[9..13]);
    assert |q.body| == U32Value(b[9..13]);
    assert b == [b[0]] + b[1..9] + b[9..13] + [b[13]] + b[14..17] + b[17..17 + |q.body|] + b[17 + |q.body|..];
  }

  lemma ResponseParts(p: Packet, tail: seq<byte>)
    requires p.Response? && |p.pad| == 2
    ensures var b := PacketBytes(p) + tail;
            && |b| == 9 + |p.body| + |tail|
            && b[0] == PKT_RESPONSE && b[1..5] == U32Bytes(|p.body|) && b[5] == p.command && b[6] == p.status
            && b[7..9] == p.pad && b[9..9 + |p.body|] == p.body && b[9 + |p.body|..] == tail
  {
    hide U32Bytes;
  }

  lemma BroadcastParts(p: Packet, tail: seq<byte>)
    requires p.Broadcast? && |p.pad| == 3
    ensures var b := PacketBytes(p) + tail;
            && |b| == 25 + |p.body| + |tail|
            && b[0] == PKT_BROADCAST && b[1..9] == I64Bytes(p.sender) && b[9..17] == I64Bytes(p.room)
            && b[17..21] == U32Bytes(|p.body|) && b[21] == p.event
            && b[22..25] == p.pad && b[25..25 + |p.body|] == p.body && b[25 + |p.body|..] == tail
  {
    hide I64Bytes, U32Bytes;
  }

  /** A packet is read back with identical fields and body exactly when its body length fits the 32-bit field. */
  lemma PacketRoundTrip(p: Packet, tail: seq<byte>)
    requires |p.pad| == if p.Response? then 2 else 3
    ensures TakePacket(PacketBytes(p) + tail) == One(p, tail) <==> PacketFits(p)
  {
    hide PacketBytes;
    if PacketFits(p) { U32RoundTrip(|p.body|); }
    if p.Response? {
      ResponseParts(p, tail);
    } else {
      BroadcastParts(p, tail);
      I64RoundTrip(p.sender);
      I64RoundTrip(p.room);
    }
  }

  /** Of a packet that has not fully arrived nothing is decoded. */
  lemma PartialPacket(p: Packet, k: nat)
    requires PacketFits(p) && k < |PacketBytes(p)|
    ensures TakePacket(PacketBytes(p)[..k]) == More
  {
    hide PacketBytes, U32Bytes, I64Bytes;
    var full, b := PacketBytes(p), PacketBytes(p)[..k];
    assert full + [] == full;
    U32RoundTrip(|p.body|);
    if p.Response? {
      ResponseParts(p, []);
      if k >= 9 { assert b[1..5] == full[1..5]; }
    } else {
      BroadcastParts(p, []);
      if k >= 25 { assert b[17..21] == full[17..21]; }
    }
  }

  // ---- byte by byte ----

  /** A request: the byte 1, the room, the length of the body, the command, three bytes of padding, and the body. */
  lemma RequestLayout(q: Request)
    requires |q.pad| == 3 && q.header == PKT_REQUEST
    ensures var b := RequestBytes(q);
            && |b| == 17 + |q.body| && b[0] == 1 && NumberAt(b, 1, q.room) && CountAt(b, 9, |q.body|)
               && b[13] == q.command
            && b[17..] == q.body
  {
    RequestParts(q, []);
    assert RequestBytes(q) + [] == RequestBytes(q);
    hide RequestBytes;
    I64Layout(q.room);
    U32Layout(|q.body|);
  }

  /**
    A response: the byte 2, the length of the body, command, status, two bytes of padding, and the body. A broadcast:
    the byte 3, the sender, the room, the length of the body, the event, three bytes of padding, and the body.
   */
  lemma PacketLayout(p: Packet)
    requires |p.pad| == if p.Response? then 2 else 3
    ensures var b := PacketBytes(p);
            if p.Response? then
              && |b| == 9 + |p.body| && b[0] == 2 && CountAt(b, 1, |p.body|) && b[5] == p.command && b[6] == p.status
              && b[9..] == p.body
            else
              && |b| == 25 + |p.body| && b[0] == 3 && NumberAt(b, 1, p.sender) && NumberAt(b, 9, p.room)
              && CountAt(b, 17, |p.body|) && b[21] == p.event && b[25..] == p.body
  {
    assert PacketBytes(p) + [] == PacketBytes(p);
    U32Layout(|p.body|);
    if p.Response? {
      ResponseParts(p, []);
      hide PacketBytes;
    } else {
      BroadcastParts(p, []);
      I64Layout(p.sender);
      I64Layout(p.room);
      hide PacketBytes;
    }
  }
}
