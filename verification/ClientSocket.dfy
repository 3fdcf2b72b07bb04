/** The client's blocking socket and packet reader (client/src/Socket.cpp, client/src/Client.cpp). */
module ClientSocket {
  import opened Bytes
  import opened Packets

  /** One answer of the kernel to `send` or `recv`: up to so many bytes, an interruption, or an error. */
  datatype Answer = Moves(bytes: nat) | Interrupted | Failed

  /** How many of the answers move bytes. */
  function Movers(answers: seq<Answer>): nat {
    if answers == [] then 0 else (if answers[0].Moves? then 1 else 0) + Movers(answers[1..])
  }

  /** The kernel never fails and moves something at least `k` times, however little, and interrupted however often. */
  predicate Plenty(answers: seq<Answer>, k: nat) {
    (forall i | 0 <= i < |answers| :: answers[i].Interrupted? || (answers[i].Moves? && answers[i].bytes > 0))
    && Movers(answers) >= k
  }

  function Least(a: nat, b: nat): nat {
    if a < b then a else b
  }

  /**
    `incoming` is everything that will still arrive on the connection and `wire` everything the kernel took.
    `answers` is what the kernel answers next; when it runs out the connection is broken.
   */
  class Socket {
    var sendBuf: seq<byte>
    var wire: seq<byte>
    var incoming: seq<byte>
    var answers: seq<Answer>

    constructor (arriving: seq<byte>, script: seq<Answer>)
      ensures sendBuf == [] && wire == [] && incoming == arriving && answers == script
    {
      sendBuf, wire, incoming, answers := [], [], arriving, script;
    }

    method Pack(data: seq<byte>)
      modifies this`sendBuf
      ensures sendBuf == old(sendBuf) + data
    {
      sendBuf := sendBuf + data;
    }

    /** All of the data or, on failure, a part of it from the front. */
    method SendAll(data: seq<byte>) returns (ok: bool)
      modifies this`wire, this`answers
      ensures ok ==> wire == old(wire) + data
      ensures Plenty(old(answers), |data|) ==> ok
      ensures !ok ==> exists k :: 0 <= k < |data| && wire == old(wire) + data[..k]
    {
      var remaining := |data|;
      while remaining > 0
        invariant 0 <= remaining <= |data|
        invariant wire == old(wire) + data[..|data| - remaining]
        invariant Plenty(old(answers), |data|) ==> Plenty(answers, remaining)
        decreases |answers|
      {
        var at := |data| - remaining;
        var answer := if answers == [] then Failed else answers[0];
        if answers != [] { answers := answers[1..]; }
        match answer {
          case Moves(n) =>
            if n == 0 { assert at < |data|; return false; }
            var bytes := Least(n, remaining);
            wire := wire + data[at..at + bytes];
            remaining := remaining - bytes;
            assert data[..at] + data[at..at + bytes] == data[..at + bytes];
          case Interrupted =>
          case Failed => assert at < |data|; return false;
        }
      }
      assert data[..|data|] == data;
      ok := true;
    }

    /** The buffer is cleared whether or not it could be sent. */
    method Flush() returns (ok: bool)
      modifies this`sendBuf, this`wire, this`answers
      ensures sendBuf == []
      ensures ok ==> wire == old(wire) + old(sendBuf)
      ensures Plenty(old(answers), |old(sendBuf)|) ==> ok
      ensures !ok ==> exists k :: 0 <= k < |old(sendBuf)| && wire == old(wire) + old(sendBuf)[..k]
    {
      if sendBuf == [] { return true; }
      ok := SendAll(sendBuf);
      sendBuf := [];
    }

    /** Exactly the next `len` bytes of the stream, or a failure. */
    method RecvAll(len: nat) returns (ok: bool, buf: seq<byte>)
      modifies this`incoming, this`answers
      ensures ok ==> old(incoming) == buf + incoming && |buf| == len
      ensures Plenty(old(answers), |old(incoming)|) && len <= |old(incoming)| ==> ok && Plenty(answers, |incoming|)
    {
      var remaining := len;
      buf := [];
      while remaining > 0
        invariant 0 <= remaining <= len && |buf| == len - remaining
        invariant old(incoming) == buf + incoming
        invariant Plenty(old(answers), |old(incoming)|) ==> Plenty(answers, |incoming|)
        decreases |answers|
      {
        var answer := if answers == [] then Failed else answers[0];
        if answers != [] { answers := answers[1..]; }
        match answer {
          case Moves(n) =>
            var bytes := Least(Least(n, remaining), |incoming|);
            if bytes == 0 { return false, buf; }
            buf := buf + incoming[..bytes];
            incoming := incoming[bytes..];
            remaining := remaining - bytes;
          case Interrupted =>
          case Failed => return false, buf;
        }
      }
      ok := true;
    }
  }

  /** `send_request`: one request frame on the wire; nothing stays in the buffer even when the send fails. */
  method SendRequest(sock: Socket, q: Request) returns (ok: bool)
    requires sock.sendBuf == [] && q.header == PKT_REQUEST
    modifies sock
    ensures sock.sendBuf == [] && sock.incoming == old(sock.incoming)
    ensures ok ==> sock.wire == old(sock.wire) + RequestBytes(q)
    ensures Plenty(old(sock.answers), |RequestBytes(q)|) ==> ok
    ensures !ok ==> exists k :: 0 <= k < |RequestBytes(q)| && sock.wire == old(sock.wire) + RequestBytes(q)[..k]
  {
    sock.Pack([q.header]);
    sock.Pack(RequestImage(q));
    if q.body != [] { sock.Pack(q.body); }
    assert sock.sendBuf == RequestBytes(q);
    ok := sock.Flush();
  }

  // ---- reading packets ----

  method HandleResponse(sock: Socket, ghost all: seq<byte>) returns (ok: bool, packet: Packet)
    requires all == [PKT_RESPONSE] + sock.incoming
    modifies sock`incoming, sock`answers
    ensures ok ==> TakePacket(all) == One(packet, sock.incoming)
    ensures Plenty(old(sock.answers), |old(sock.incoming)|) && TakePacket(all).One?
            ==> ok && Plenty(sock.answers, |sock.incoming|)
  {
    packet := Response(0, 0, [], []);
    var image, body := [], [];
    ok, image := sock.RecvAll(RESPONSE_SIZE);
    if !ok { return; }
    var bodyLen := U32Value(image[..4]);
    assert all == [PKT_RESPONSE] + image + sock.incoming && all[1..5] == image[..4];
    if bodyLen > 0 {
      ok, body := sock.RecvAll(bodyLen);
      if !ok { return; }
    }
    packet := Response(image[4], image[5], image[6..], body);
    assert all == [PKT_RESPONSE] + image + body + sock.incoming;
    assert all[1..9] == image;
    assert all[1..5] == all[1..9][..4] && all[7..9] == all[1..9][6..];
    assert all[9..9 + bodyLen] == body && all[9 + bodyLen..] == sock.incoming;
  }

  method HandleBroadcast(sock: Socket, ghost all: seq<byte>) returns (ok: bool, packet: Packet)
    requires all == [PKT_BROADCAST] + sock.incoming
    modifies sock`incoming, sock`answers
    ensures ok ==> TakePacket(all) == One(packet, sock.incoming)
    ensures Plenty(old(sock.answers), |old(sock.incoming)|) && TakePacket(all).One?
            ==> ok && Plenty(sock.answers, |sock.incoming|)
  {
    packet := Response(0, 0, [], []);
    var image, body := [], [];
    ok, image := sock.RecvAll(BROADCAST_SIZE);
    if !ok { return; }
    var bodyLen := U32Value(image[16..20]);
    assert all == [PKT_BROADCAST] + image + sock.incoming && all[17..21] == image[16..20];
    if bodyLen > 0 {
      ok, body := sock.RecvAll(bodyLen);
      if !ok { return; }
    }
    packet := Broadcast(I64Value(image[..8]), I64Value(image[8..16]), image[20], image[21..], body);
    assert all == [PKT_BROADCAST] + image + body + sock.incoming;
    assert all[1..9] == image[..8] && all[9..17] == image[8..16] && all[17..21] == image[16..20];
    assert all[22..25] == image[21..] && all[25..25 + bodyLen] == body && all[25 + bodyLen..] == sock.incoming;
  }

  /** `handle_packet`: one packet off the stream; an unknown header ends the connection. */
  method HandlePacket(sock: Socket) returns (ok: bool, packet: Packet)
    modifies sock`incoming, sock`answers
    ensures ok ==> TakePacket(old(sock.incoming)) == One(packet, sock.incoming)
    ensures Plenty(old(sock.answers), |old(sock.incoming)|) && TakePacket(old(sock.incoming)).One?
            ==> ok && Plenty(sock.answers, |sock.incoming|)
  {
    packet := Response(0, 0, [], []);
    ghost var all := sock.incoming;
    var header := [];
    ok, header := sock.RecvAll(HEADER_SIZE);
    if !ok { return; }
    assert header == [header[0]];
    if header[0] == PKT_RESPONSE {
      ok, packet := HandleResponse(sock, all);
    } else if header[0] == PKT_BROADCAST {
      ok, packet := HandleBroadcast(sock, all);
    } else {
      ok := false;
    }
  }

  /** Every packet that can be decoded from some bytes. */
  function Decodes(b: seq<byte>): seq<Packet>
    decreases |b|
  {
    match TakePacket(b)
    case One(p, rest) => [p] + Decodes(rest)
    case _ => []
  }

  /**
    The packets the client handles before the connection ends are the first ones of the stream, in order; if the kernel
    never fails, all of them.
   */
  method ReadPackets(sock: Socket) returns (got: seq<Packet>)
    modifies sock`incoming, sock`answers
    ensures got <= Decodes(old(sock.incoming))
    ensures Plenty(old(sock.answers), |old(sock.incoming)|) ==> got == Decodes(old(sock.incoming))
  {
    hide TakePacket, Plenty;
    got := [];
    ghost var all := sock.incoming;
    ghost var seen := sock.incoming;
    var more, packet := HandlePacket(sock);
    assert got + Decodes(seen) == Decodes(all);
    ghost var plenty := Plenty(old(sock.answers), |all|);
    while more
      invariant more ==> TakePacket(seen) == One(packet, sock.incoming)
      invariant plenty && more ==> Plenty(sock.answers, |sock.incoming|)
      invariant plenty && !more ==> !TakePacket(seen).One?
      invariant got + Decodes(seen) == Decodes(all)
      decreases |seen|
    {
      Shorter(seen);
      assert got + ([packet] + Decodes(sock.incoming)) == (got + [packet]) + Decodes(sock.incoming);
      got := got + [packet];
      seen := sock.incoming;
      more, packet := HandlePacket(sock);
    }
  }

  lemma Shorter(b: seq<byte>)
    requires TakePacket(b).One?
    ensures |TakePacket(b).rest| < |b|
  {}
}
