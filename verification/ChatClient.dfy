/**
  The client object (client/src/Client.cpp): its state, its one open request and its history cursor, updated in
  place.
 */
module ChatClient {
  import opened Bytes
  import opened Codec
  import opened RoomEvents
  import opened MessageList
  import opened Flights
  import C = Clients
  import S = ServerState
  import P = Pagination
  import History

  /** The first word of a line of input, as the command tables know it; a join may lack a readable room number. */
  datatype Word = Create | Join(room: Option<RoomId>) | Load | Leave | Exit | Other

  class Client {
    var inRoom: bool
    var room: RoomId
    var pending: Option<C.Asked>
    var oldest: int64
    var running: bool
    var shown: seq<Message>

    ghost function View(): C.View
      reads this
    {
      if inRoom then C.InRoom(room) else C.AtLobby
    }

    /** The client as the reader of a room's history. */
    ghost function Reading(store: seq<History.Row>, load: P.Load): P.Reading
      reads this
    {
      P.Reading(store, room, oldest, shown, load)
    }

    constructor ()
      ensures View() == C.AtLobby && pending.Nothing? && oldest == 0 && shown == []
    {
      inRoom, room, pending, oldest, running, shown := false, 0, Nothing, 0, true, [];
    }

    /** `send_request`: only a request that could be sent is pending. */
    method SendRequest(cmd: Command, target: RoomId, body: sized, flushed: bool) returns (ok: bool)
      modifies this`pending
      ensures ok == flushed
      ensures pending == if ok then Some(C.Asked(cmd, target, body)) else old(pending)
    {
      if !flushed { return false; }
      pending := Some(C.Asked(cmd, target, body));
      ok := true;
    }

    /** `handle_input`: with a request open nothing is sent; otherwise only what the client's state allows. */
    method HandleInput(line: sized, word: Word, flushed: bool) returns (asked: Option<C.Asked>)
      modifies this`pending, this`running
      ensures View() == old(View()) && oldest == old(oldest)
      ensures asked.Some? ==> old(pending).Nothing? && C.MayAsk(View(), asked.value) && pending == asked
      ensures asked.Nothing? ==> pending == old(pending)
      ensures asked.Some? && !inRoom ==>
                asked.value == if word.Join? && word.room.Some? then C.Asked(CmdJoinRoom, word.room.value, [])
                               else C.Asked(CmdCreateRoom, 0, [])
      ensures asked.Some? && inRoom ==>
                asked.value == if word.Load? then C.Asked(CmdLoadMessage, room, I64Bytes(oldest))
                               else if word.Leave? then C.Asked(CmdLeaveRoom, room, [])
                               else C.Asked(CmdSendMessage, room, line)
      ensures asked.Some? <==>
                flushed && old(pending).Nothing? && line != []
                && (if inRoom then !word.Exit?
                    else word.Create? || (word.Join? && word.room.Some? && word.room.value != 0
                                          && word.room.value != LOBBY_ROOM_ID))
    {
      asked := Nothing;
      if pending.Some? { return; }
      if line == [] { return; }
      var ok := false;
      if !inRoom {
        match word {
          case Create => ok := SendRequest(CmdCreateRoom, 0, [], flushed);
          case Join(target) =>
            if target.Nothing? || target.value == 0 || target.value == LOBBY_ROOM_ID { return; }
            ok := SendRequest(CmdJoinRoom, target.value, [], flushed);
          case Exit => running := false;
          case _ =>
        }
      } else {
        match word {
          case Load => ok := SendRequest(CmdLoadMessage, room, I64Bytes(oldest), flushed);
          case Leave => ok := SendRequest(CmdLeaveRoom, room, [], flushed);
          case Exit => running := false;
          case _ => ok := SendRequest(CmdSendMessage, room, line, flushed);
        }
      }
      if ok { asked := pending; }
    }

    /**
      `print_history`: -1 for a body that does not parse, otherwise the number of messages; the cursor moves to the
      oldest.
     */
    method PrintHistory(body: seq<byte>) returns (n: int)
      modifies this`oldest, this`shown
      ensures n == match Parsed(body) case Short => -1 case Got(ms, _) => |ms|
      ensures forall store, load :: Reading(store, load) == P.Printed(old(Reading(store, load)), body)
    {
      var ok, ms := MessageList.Parse(body);
      if !ok { return -1; }
      if ms == [] { return 0; }
      shown := shown + ms;
      oldest := ms[|ms| - 1].id;
      n := |ms|;
    }

    /**
      `handle_response`. Entering or leaving a room resets the cursor; the page in a join's answer is the first page.
     */
    method HandleResponse(p: S.Packet)
      requires p.Response?
      modifies this
      ensures pending.Nothing?
      ensures forall read :: View() == C.ViewAfter(C.Client(old(View()), old(pending), Nothing, read), p)
      ensures var accepted := old(pending).Some? && old(pending).value.command == p.command && p.status == Success;
              if !accepted then oldest == old(oldest) && shown == old(shown)
              else match p.command
                   case CmdCreateRoom => |p.body| >= 8 ==> oldest == 0 && shown == []
                   case CmdLeaveRoom => oldest == 0 && shown == []
                   case CmdJoinRoom =>
                     forall store, load :: Reading(store, load) ==
                         P.Printed(P.Reading(store, old(pending).value.room, 0, [], load), p.body)
                   case CmdLoadMessage =>
                     forall store, load :: Reading(store, load) == P.Printed(old(Reading(store, load)), p.body)
                   case _ => oldest == old(oldest) && shown == old(shown)
    {
      hide Parsed;
      if pending.Nothing? { return; }
      var asked := pending.value;
      pending := Nothing;
      if asked.command != p.command { return; }
      if p.status != Success { return; }
      match asked.command
      case CmdCreateRoom =>
        if |p.body| < 8 { return; }
        room := I64Value(p.body[..8]);
        inRoom, oldest, shown := true, 0, [];
      case CmdJoinRoom =>
        room := asked.room;
        inRoom, oldest, shown := true, 0, [];
        var n := PrintHistory(p.body);
      case CmdLeaveRoom =>
        inRoom, room, oldest, shown := false, 0, 0, [];
      case CmdSendMessage =>
      case CmdLoadMessage =>
        var n := PrintHistory(p.body);
      case CmdOther(_) =>
    }

    /** `handle_broadcast`: shown exactly when the client is in the room it was sent to; nothing changes. */
    method HandleBroadcast(p: S.Packet) returns (show: bool)
      requires p.Broadcast?
      ensures show <==> View() == C.InRoom(p.room)
    {
      show := inRoom && p.room == room;
    }
  }
}
