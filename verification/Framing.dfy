/**
  How the server cuts a session's byte stream into requests (server/src/network/Session.cpp,
  server/src/server/Server.cpp).
 */
module Framing {
  import opened Bytes
  import opened Codec
  import opened Packets

  /** The complete requests at the front of some bytes, and the bytes after them. */
  datatype Drained = Drained(requests: seq<Request>, residue: seq<byte>)

  function Drain(b: seq<byte>): Drained
    decreases |b|
  {
    match TakeRequest(b)
    case Short => Drained([], b)
    case Got(q, rest) => var d := Drain(rest); Drained([q] + d.requests, d.residue)
  }

  function AllBytes(qs: seq<Request>): seq<byte> {
    if qs == [] then [] else RequestBytes(qs[0]) + AllBytes(qs[1..])
  }

  /** Drained requests and residue are the input, and the residue holds no complete request. */
  lemma {:induction false} DrainConserves(b: seq<byte>)
    decreases |b|
    ensures b == AllBytes(Drain(b).requests) + Drain(b).residue && TakeRequest(Drain(b).residue).Short?
    ensures forall i | 0 <= i < |Drain(b).requests| :: RequestFits(Drain(b).requests[i])
  {
    hide TakeRequest, RequestBytes;
    if TakeRequest(b).Got? {
      var q, rest := TakeRequest(b).value, TakeRequest(b).rest;
      RequestTaken(b);
      RequestNotEmpty(b);
      DrainConserves(rest);
      AllBytesCons(q, Drain(rest).requests);
      assert b == RequestBytes(q) + (AllBytes(Drain(rest).requests) + Drain(rest).residue);
      assert Drain(b) == Drained([q] + Drain(rest).requests, Drain(rest).residue);
      hide AllBytes, Drain;
    } else {
      assert AllBytes([]) == [];
    }
  }

  lemma AllBytesCons(q: Request, qs: seq<Request>)
    ensures AllBytes([q] + qs) == RequestBytes(q) + AllBytes(qs)
  {
    assert ([q] + qs)[1..] == qs;
  }

  lemma RequestNotEmpty(b: seq<byte>)
    requires TakeRequest(b).Got?
    ensures |TakeRequest(b).rest| < |b|
  {}

  /** Bytes that arrive later do not change a request that is already complete. */
  lemma TakeStable(b: seq<byte>, more: seq<byte>)
    requires TakeRequest(b).Got?
    ensures TakeRequest(b + more) == Got(TakeRequest(b).value, TakeRequest(b).rest + more)
  {
    hide RequestBytes, TakeRequest;
    RequestTaken(b);
    var q, rest := TakeRequest(b).value, TakeRequest(b).rest;
    assert b + more == RequestBytes(q) + (rest + more);
    RequestRoundTrip(q, rest + more);
  }

  /** Draining early and going on later gives what draining everything at once gives. */
  lemma {:induction false} DrainIncremental(b: seq<byte>, more: seq<byte>)
    decreases |b|
    ensures Drain(b + more) ==
            Drained(Drain(b).requests + Drain(Drain(b).residue + more).requests, Drain(Drain(b).residue + more).residue)
  {
    hide TakeRequest;
    if TakeRequest(b).Got? {
      var q, rest := TakeRequest(b).value, TakeRequest(b).rest;
      TakeStable(b, more);
      RequestNotEmpty(b);
      DrainIncremental(rest, more);
    }
  }

  function Concat(chunks: seq<seq<byte>>): seq<byte> {
    if chunks == [] then [] else Concat(chunks[..|chunks| - 1]) + chunks[|chunks| - 1]
  }

  /** What is dispatched, and left in the buffer, when the bytes come in these chunks. */
  function Fed(chunks: seq<seq<byte>>): Drained {
    if chunks == [] then Drained([], [])
    else
      var before := Fed(chunks[..|chunks| - 1]);
      var d := Drain(before.residue + chunks[|chunks| - 1]);
      Drained(before.requests + d.requests, d.residue)
  }

  /** The split of the bytes into reads does not matter. */
  lemma {:induction false} ChunkingIndependent(chunks: seq<seq<byte>>)
    ensures Fed(chunks) == Drain(Concat(chunks))
  {
    NothingTaken();
    hide TakeRequest;
    if chunks != [] {
      var before := chunks[..|chunks| - 1];
      ChunkingIndependent(before);
      DrainIncremental(Concat(before), chunks[|chunks| - 1]);
    }
  }

  lemma {:induction false} DrainAll(qs: seq<Request>, tail: seq<byte>)
    requires forall i | 0 <= i < |qs| :: RequestFits(qs[i])
    ensures Drain(AllBytes(qs) + tail) == Drained(qs + Drain(tail).requests, Drain(tail).residue)
  {
    hide TakeRequest, RequestBytes;
    if qs == [] {
      assert AllBytes(qs) + tail == tail;
    } else {
      assert AllBytes(qs) + tail == RequestBytes(qs[0]) + (AllBytes(qs[1..]) + tail);
      RequestRoundTrip(qs[0], AllBytes(qs[1..]) + tail);
      DrainAll(qs[1..], tail);
    }
  }

  /** Requests sent, in any chunks: exactly those are dispatched, in order, and nothing is left over. */
  lemma RequestsArrive(qs: seq<Request>, chunks: seq<seq<byte>>)
    requires (forall i | 0 <= i < |qs| :: RequestFits(qs[i])) && Concat(chunks) == AllBytes(qs)
    ensures Fed(chunks) == Drained(qs, [])
  {
    ChunkingIndependent(chunks);
    DrainAll(qs, []);
    assert AllBytes(qs) + [] == AllBytes(qs) && qs + [] == qs;
  }

  function Zeros(n: nat): (z: seq<byte>)
    ensures |z| == n
  {
    seq(n, _ => 0)
  }

  /** Bytes that hold no complete request are a proper prefix of one. */
  lemma ResidueIsPartial(b: seq<byte>) returns (q: Request)
    requires TakeRequest(b).Short?
    ensures RequestFits(q) && |b| < |RequestBytes(q)| && RequestBytes(q)[..|b|] == b
  {
    var head := if |b| < 17 then b + Zeros(17 - |b|) else b;
    var n := U32Value(head[9..13]);
    var full := head + Zeros(17 + n - |head|);
    assert full[9..13] == head[9..13];
    assert TakeRequest(full).Got? && TakeRequest(full).rest == [];
    RequestTaken(full);
    q := TakeRequest(full).value;
    assert full == RequestBytes(q);
  }

  /**
    Of any part of the stream of a client: a prefix of its requests is dispatched, and what is left is the start of
    the next.
   */
  lemma {:induction false} PartOfStream(qs: seq<Request>, got: seq<byte>)
    requires (forall i | 0 <= i < |qs| :: RequestFits(qs[i])) && got <= AllBytes(qs)
    ensures Drain(got).requests <= qs
    ensures var k, left := |Drain(got).requests|, Drain(got).residue;
            left == [] || (k < |qs| && left < RequestBytes(qs[k]))
  {
    hide TakeRequest, RequestBytes;
    if qs == [] {
      NothingTaken();
    } else {
      var q, full := qs[0], RequestBytes(qs[0]);
      assert AllBytes(qs) == full + AllBytes(qs[1..]);
      if |got| >= |full| {
        var rest := got[|full|..];
        assert got == full + rest && rest <= AllBytes(qs[1..]);
        RequestRoundTrip(q, rest);
        PartOfStream(qs[1..], rest);
      } else {
        assert got < full;
        PartialRequest(q, |got|);
        assert full[..|got|] == got;
      }
    }
  }

  lemma NothingTaken()
    ensures TakeRequest([]).Short?
  {}

  lemma PartialRequest(q: Request, k: nat)
    requires RequestFits(q) && k < |RequestBytes(q)|
    ensures TakeRequest(RequestBytes(q)[..k]).Short?
  {
    hide RequestBytes, U32Bytes, I64Bytes;
    var full, b := RequestBytes(q), RequestBytes(q)[..k];
    assert full + [] == full;
    RequestParts(q, []);
    U32RoundTrip(|q.body|);
    if k >= 17 { assert b[9..13] == full[9..13]; }
  }

  // ---- the session object ----

  /** One answer of `recv`. */
  datatype Recv = Chunk(bytes: seq<byte>) | Closed | WouldBlock | Interrupted | Failed

  /** The bytes of the chunks up to the first answer that ends the loop. */
  function ReadBytes(answers: seq<Recv>): seq<byte> {
    if answers == [] || answers[0].Closed? || answers[0].WouldBlock? || answers[0].Failed? then []
    else (if answers[0].Chunk? then answers[0].bytes else []) + ReadBytes(answers[1..])
  }

  /** Whether that answer is EAGAIN; no further answer means the socket has nothing more. */
  predicate ReadsOk(answers: seq<Recv>) {
    if answers == [] then true
    else match answers[0]
         case Closed => false
         case Failed => false
         case WouldBlock => true
         case _ => ReadsOk(answers[1..])
  }

  function BytesOf(answer: Recv): seq<byte> {
    if answer.Chunk? then answer.bytes else []
  }

  /** The loop reads past chunks and interruptions and ends with the first other answer; only EAGAIN is a success. */
  lemma {:induction false} ReadsUpToTheEnd(answers: seq<Recv>, n: nat)
    requires n <= |answers| && forall i | 0 <= i < n :: answers[i].Chunk? || answers[i].Interrupted?
    requires n < |answers| ==> !answers[n].Chunk? && !answers[n].Interrupted?
    ensures ReadBytes(answers) == Concat(seq(n, i requires 0 <= i < n => BytesOf(answers[i])))
    ensures ReadsOk(answers) <==> n == |answers| || answers[n].WouldBlock?
  {
    if n > 0 {
      var chunks := seq(n, i requires 0 <= i < n => BytesOf(answers[i]));
      var later := seq(n - 1, i requires 0 <= i < n - 1 => BytesOf(answers[1..][i]));
      ReadsUpToTheEnd(answers[1..], n - 1);
      assert chunks == [BytesOf(answers[0])] + later;
      ConcatCons(BytesOf(answers[0]), later);
    }
  }

  lemma {:induction false} ConcatCons(b: seq<byte>, chunks: seq<seq<byte>>)
    ensures Concat([b] + chunks) == b + Concat(chunks)
  {
    var all := [b] + chunks;
    if chunks == [] {
      assert all[..|all| - 1] == [] && all[|all| - 1] == b;
    } else {
      assert all[..|all| - 1] == [b] + chunks[..|chunks| - 1] && all[|all| - 1] == chunks[|chunks| - 1];
      ConcatCons(b, chunks[..|chunks| - 1]);
    }
  }

  class Session {
    var recvBuffer: seq<byte>
    var disconnecting: bool

    constructor ()
      ensures recvBuffer == [] && !disconnecting
    {
      recvBuffer := [];
      disconnecting := false;
    }

    /** `on_readable`: edge-triggered, so it reads until the socket has nothing more. */
    method OnReadable(answers: seq<Recv>) returns (ok: bool)
      modifies this
      ensures recvBuffer == old(recvBuffer) + ReadBytes(answers)
      ensures ok == ReadsOk(answers)
      ensures disconnecting == (old(disconnecting) || !ok)
    {
      var i := 0;
      while i < |answers|
        invariant 0 <= i <= |answers|
        invariant recvBuffer + ReadBytes(answers[i..]) == old(recvBuffer) + ReadBytes(answers)
        invariant ReadsOk(answers[i..]) == ReadsOk(answers) && disconnecting == old(disconnecting)
      {
        assert answers[i..][1..] == answers[i + 1..];
        match answers[i] {
          case Chunk(bytes) => recvBuffer := recvBuffer + bytes;
          case Closed => disconnecting := true; return false;
          case WouldBlock => return true;
          case Interrupted =>
          case Failed => disconnecting := true; return false;
        }
        i := i + 1;
      }
      ok := true;
    }

    /** `extract_packet`: takes one complete request off the buffer, or leaves the buffer alone. */
    method ExtractPacket() returns (ok: bool, packet: Request)
      modifies this`recvBuffer
      ensures ok == TakeRequest(old(recvBuffer)).Got?
      ensures ok ==> TakeRequest(old(recvBuffer)) == Got(packet, recvBuffer)
      ensures !ok ==> recvBuffer == old(recvBuffer)
    {
      packet := Request(0, 0, 0, [], []);
      ok := false;
      var offset := 0;
      if |recvBuffer| < HEADER_SIZE { return; }
      var header := recvBuffer[offset];
      offset := offset + HEADER_SIZE;
      if |recvBuffer| < offset + REQUEST_SIZE { return; }
      var image := recvBuffer[offset..offset + REQUEST_SIZE];
      var bodyLen := U32Value(image[8..12]);
      assert image[8..12] == recvBuffer[9..13] && image[..8] == recvBuffer[1..9] && image[13..] == recvBuffer[14..17];
      offset := offset + REQUEST_SIZE;
      var body := [];
      if bodyLen > 0 {
        if |recvBuffer| < offset + bodyLen { return; }
        body := recvBuffer[offset..offset + bodyLen];
        offset := offset + bodyLen;
      }
      assert body == recvBuffer[17..17 + bodyLen];
      packet := Request(header, I64Value(image[..8]), image[12], image[13..], body);
      recvBuffer := recvBuffer[offset..];
      ok := true;
    }
  }

  /** `handle_request`: reads, then dispatches every complete request; a failed read dispatches nothing. */
  method HandleRequest(session: Session, answers: seq<Recv>) returns (ok: bool, dispatched: seq<Request>)
    modifies session
    ensures ok == ReadsOk(answers)
    ensures ok ==> Drained(dispatched, session.recvBuffer) == Drain(old(session.recvBuffer) + ReadBytes(answers))
    ensures !ok ==> dispatched == []
  {
    dispatched := [];
    ok := session.OnReadable(answers);
    if !ok { return; }
    hide TakeRequest;
    ghost var all := session.recvBuffer;
    var more, packet := session.ExtractPacket();
    ghost var seen := all;
    DrainStart(all);
    while more
      invariant more == TakeRequest(seen).Got?
      invariant more ==> TakeRequest(seen) == Got(packet, session.recvBuffer)
      invariant !more ==> session.recvBuffer == seen
      invariant Drained(dispatched + Drain(seen).requests, Drain(seen).residue) == Drain(all)
      decreases |seen|
    {
      RequestNotEmpty(seen);
      DrainNext(dispatched, seen);
      dispatched := dispatched + [packet];
      seen := session.recvBuffer;
      more, packet := session.ExtractPacket();
    }
    assert dispatched + [] == dispatched;
  }

  lemma DrainStart(b: seq<byte>)
    ensures Drained([] + Drain(b).requests, Drain(b).residue) == Drain(b)
  {
    assert [] + Drain(b).requests == Drain(b).requests;
  }

  lemma DrainNext(done: seq<Request>, b: seq<byte>)
    requires TakeRequest(b).Got?
    ensures var d, e := Drain(b), Drain(TakeRequest(b).rest);
            d.residue == e.residue && done + d.requests == done + [TakeRequest(b).value] + e.requests
  {
    hide TakeRequest;
    assert done + ([TakeRequest(b).value] + Drain(TakeRequest(b).rest).requests) ==
           done + [TakeRequest(b).value] + Drain(TakeRequest(b).rest).requests;
  }
}
