/** From `pack` on the server to the packet the client decodes, over any partial writes and reads. */
module EndToEnd {
  import opened Bytes
  import opened Packets
  import opened ClientSocket
  import SendPath
  import Chat = ServerState
  import RoomEvents
  import Quiescence
  import Casting

  /** The buffers that packing these packets appends to the send queue. */
  function Buffers(ps: seq<Packet>): (bs: seq<seq<byte>>)
    ensures |bs| == |ps|
  {
    if ps == [] then [] else [PacketBytes(ps[0])] + Buffers(ps[1..])
  }

  predicate AllFit(ps: seq<Packet>) {
    forall i | 0 <= i < |ps| :: PacketFits(ps[i])
  }

  lemma {:induction false} JoinedCons(b: seq<byte>, bs: seq<seq<byte>>)
    ensures SendPath.Joined([b] + bs) == b + SendPath.Joined(bs)
  {
    if bs == [] {
      assert [b] + bs == [b] && [b][..0] == [];
      assert SendPath.Joined([b]) == SendPath.Joined([]) + b == b;
    } else {
      var front := bs[..|bs| - 1];
      assert ([b] + bs)[..|bs|] == [b] + front;
      JoinedCons(b, front);
    }
  }

  lemma DecodesOne(b: seq<byte>)
    ensures TakePacket(b).One? ==> Decodes(b) == [TakePacket(b).packet] + Decodes(TakePacket(b).rest)
    ensures !TakePacket(b).One? ==> Decodes(b) == []
    ensures Decodes([]) == []
  {
    hide TakePacket;
    NothingYet();
  }

  lemma NothingYet()
    ensures TakePacket([]) == More
  {}

  /** What is decoded from any part of the stream is the first packets, complete when the stream is. */
  lemma {:induction false} DecodesPrefix(ps: seq<Packet>, got: seq<byte>)
    requires AllFit(ps) && got <= SendPath.Joined(Buffers(ps))
    ensures Decodes(got) <= ps
    ensures got == SendPath.Joined(Buffers(ps)) ==> Decodes(got) == ps
  {
    DecodesOne(got);
    if ps != [] {
      var full, more := PacketBytes(ps[0]), SendPath.Joined(Buffers(ps[1..]));
      JoinedCons(full, Buffers(ps[1..]));
      assert SendPath.Joined(Buffers(ps)) == full + more;
      hide TakePacket, PacketBytes, Decodes, Buffers, SendPath.Joined;
      if |got| >= |full| {
        var rest := got[|full|..];
        assert got == full + rest && rest <= more;
        PacketRoundTrip(ps[0], rest);
        DecodesPrefix(ps[1..], rest);
        assert ps == [ps[0]] + ps[1..];
      } else {
        assert got == full[..|got|];
        PartialPacket(ps[0], |got|);
      }
    }
  }

  /**
    In every interleaving of the threads that pack and flush: whatever part of the wire has reached the client decodes
    to the first packets that were packed on its session; once everything is sent and received, to all of them.
   */
  lemma ClientDecodesWhatWasPacked(states: seq<SendPath.State>, moves: seq<SendPath.Move>, i: nat, ps: seq<Packet>,
                                   received: seq<byte>)
    requires SendPath.Run(states, moves) && i < |states|
    requires states[i].packed == Buffers(ps) && AllFit(ps) && received <= states[i].wire
    ensures Decodes(received) <= ps
    ensures states[i].queue == [] && received == states[i].wire ==> Decodes(received) == ps
  {
    hide SendPath.Run, Decodes, Buffers, SendPath.Joined;
    SendPath.BytesConserved(states, moves, i);
    DecodesPrefix(ps, received);
  }

  // ---- the chat packets ----

  const EVT_MESSAGE: byte := 1

  function CommandByte(c: RoomEvents.Command): byte {
    match c
    case CmdCreateRoom => 1
    case CmdJoinRoom => 2
    case CmdLeaveRoom => 3
    case CmdSendMessage => 4
    case CmdLoadMessage => 5
    case CmdOther(code) => code
  }

  function StatusByte(c: RoomEvents.Code): byte {
    match c
    case None => 0
    case Success => 1
    case RoomNotFound => 2
    case RoomAlreadyExists => 3
    case RoomFull => 4
    case UserNotFound => 5
    case DbNotFound => 6
    case DbError => 7
    case DbDuplicate => 8
  }

  predicate PadFits(p: Chat.Packet, pad: seq<byte>) {
    |pad| == if p.Response? then 2 else 3
  }

  /** `send_response` and `send_message`: the struct fields of a packet, with whatever padding. */
  function Image(p: Chat.Packet, pad: seq<byte>): Packet {
    match p
    case Response(command, status, body) => Response(CommandByte(command), StatusByte(status), pad, body)
    case Broadcast(sender, room, text, _) => Broadcast(sender, room, EVT_MESSAGE, pad, text)
  }

  function Images(ps: seq<Chat.Packet>, pads: seq<seq<byte>>): (ws: seq<Packet>)
    requires |pads| == |ps|
    ensures |ws| == |ps|
  {
    seq(|ps|, i requires 0 <= i < |ps| => Image(ps[i], pads[i]))
  }

  /** The bytes of an answer and of a broadcast message. */
  lemma ChatLayout(p: Chat.Packet, pad: seq<byte>)
    requires PadFits(p, pad)
    ensures var b := PacketBytes(Image(p, pad));
            if p.Response? then
              && |b| == 9 + |p.body| && b[0] == 2 && CountAt(b, 1, |p.body|) && b[9..] == p.body
              && (p.command.CmdCreateRoom? ==> b[5] == 1) && (p.command.CmdJoinRoom? ==> b[5] == 2)
              && (p.command.CmdLeaveRoom? ==> b[5] == 3) && (p.command.CmdSendMessage? ==> b[5] == 4)
              && (p.command.CmdLoadMessage? ==> b[5] == 5) && (p.command.CmdOther? ==> b[5] == p.command.code)
              && (p.status.None? <==> b[6] == 0) && (p.status.Success? <==> b[6] == 1)
              && (p.status.RoomNotFound? <==> b[6] == 2) && (p.status.RoomAlreadyExists? <==> b[6] == 3)
              && (p.status.RoomFull? <==> b[6] == 4) && (p.status.UserNotFound? <==> b[6] == 5)
              && (p.status.DbNotFound? <==> b[6] == 6) && (p.status.DbError? <==> b[6] == 7)
              && (p.status.DbDuplicate? <==> b[6] == 8)
            else
              && |b| == 25 + |p.text| && b[0] == 3 && NumberAt(b, 1, p.sender) && NumberAt(b, 9, p.room)
              && CountAt(b, 17, |p.text|) && b[21] == 1 && b[25..] == p.text
  {
    hide PacketBytes;
    PacketLayout(Image(p, pad));
  }

  predicate BodyFits(p: Chat.Packet) {
    |if p.Response? then p.body else p.text| < UINT32_LIMIT
  }

  /** What the client reads off a packet. */
  predicate Reads(w: Packet, p: Chat.Packet) {
    match p
    case Response(command, status, body) =>
      w.Response? && w.command == CommandByte(command) && w.status == StatusByte(status) && w.body == body
    case Broadcast(sender, room, text, _) =>
      w.Broadcast? && w.sender == sender && w.room == room && w.event == EVT_MESSAGE && w.body == text
  }

  /**
    The server has packed `Packed(srv[j], fd)` on a session, in any run of it; the threads of the send path, in any
    interleaving, have been given exactly these packets, with any padding. Then whatever part of the wire has reached
    the client decodes to the first of these responses and broadcasts, field by field, and a response is told from a
    broadcast and a success from a failure.
   */
  lemma ClientReadsTheChat(srv: seq<Chat.State>, chat: seq<Chat.Step>, workers: nat, j: nat, fd: RoomEvents.Fd,
                           states: seq<SendPath.State>, moves: seq<SendPath.Move>, i: nat, pads: seq<seq<byte>>,
                               received: seq<byte>)
    requires Chat.Run(srv, chat, workers) && j < |srv| && SendPath.Run(states, moves) && i < |states|
    requires var ps := Chat.Packed(srv[j], fd);
             && |pads| == |ps| && (forall k | 0 <= k < |ps| :: PadFits(ps[k], pads[k]) && BodyFits(ps[k]))
             && states[i].packed == Buffers(Images(ps, pads))
    requires received <= states[i].wire
    ensures var ps, ws := Chat.Packed(srv[j], fd), Decodes(received);
            && |ws| <= |ps| && (forall k | 0 <= k < |ws| :: Reads(ws[k], ps[k]))
            && (forall k | 0 <= k < |ws| && ws[k].Broadcast? ::
                  ps[k].serial < |srv[j].log.handled|
                  && srv[j].log.handled[ps[k].serial].room == ws[k].room
                     && srv[j].log.handled[ps[k].serial].text == ws[k].body
                  && srv[j].log.handled[ps[k].serial].fd != fd)
  {
    hide SendPath.Run, Decodes, Buffers, Chat.Next, Chat.Init;
    var ps := Chat.Packed(srv[j], fd);
    var ws := Images(ps, pads);
    assert AllFit(ws);
    ClientDecodesWhatWasPacked(states, moves, i, ws, received);
    Quiescence.RunStreams(srv, chat, workers, j);
    assert Casting.StreamOk(srv[j].log.handled, fd, ps);
  }
}
