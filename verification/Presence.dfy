/** Which rooms a session is in, over all workers, and how one step changes it. */
module Presence {
  import opened Bytes
  import opened RoomEvents
  import opened ServerState
  import opened History
  import opened Flights
  import opened Itinerary
  import opened Ownership
  import opened Requests
  import opened Talk
  import opened Places
  import opened Rooms

  function RoomsOf(s: State, fd: Fd): set<RoomId> {
    set k | k in s.rooms && fd in s.rooms[k].members :: k.room
  }

  /** Every room's counter is its number of members. */
  ghost predicate Exact(s: State) {
    forall k | k in s.rooms :: s.rooms[k].count == |s.rooms[k].members|
  }

  ghost predicate Distinct(s: State) {
    forall k, l | k in s.rooms && l in s.rooms && k.room == l.room :: k == l
  }

  datatype Change = Stays | Joined(room: RoomId) | Left(room: RoomId)

  function Changed(rooms: set<RoomId>, ch: Change): set<RoomId> {
    match ch
    case Stays => rooms
    case Joined(r) => rooms + {r}
    case Left(r) => rooms - {r}
  }

  function LeftAt(s: State, w: WorkerId, fd: Fd, room: RoomId): Change {
    if LeaveRoomCode(s, w, fd, room) == Success then Left(room) else Stays
  }

  /** What the next iteration on `w` does to the session of the event it executes. */
  function ChangeOf(s: State, w: WorkerId, found: RoomId): Change {
    if !Executes(s, w) then Stays
    else
      var e, a := s.running[w], ActionAt(s, w);
      match a.command
      case JoinRoom =>
        var c := JoinRoomCode(s, w, e.fd, a.room);
        if c == Success || c == UserNotFound then Joined(a.room) else Stays
      case LeaveRoom => LeftAt(s, w, e.fd, a.room)
      case DisconnectSession =>
        if LeaveRoomCode(s, w, e.fd, e.target) == Success then Left(e.target) else LeftAt(s, w, e.fd, found)
      case _ => Stays
  }

  /**
    The rooms of `fd` change by `ch`; nobody else moves, and no other worker's rooms change. Counters stay exact unless
    a session joins a room it is in.
   */
  ghost predicate Shifts(s: State, t: State, w: WorkerId, fd: Fd, ch: Change) {
    && (Exact(s) && (ch.Joined? ==> ch.room !in RoomsOf(s, fd)) ==> Exact(t))
    && (forall d :: RoomsOf(t, d) == if d == fd then Changed(RoomsOf(s, d), ch) else RoomsOf(s, d))
    && StaysHome(s, t, w)
    && t.users == (if ch.Joined? && fd in s.users then s.users[fd := s.users[fd].(room := ch.room)] else s.users)
  }

  lemma SameShifts(s: State, t: State, w: WorkerId, fd: Fd)
    requires t.rooms == s.rooms && t.users == s.users
    ensures Shifts(s, t, w, fd, Stays)
  {
    assert forall d :: RoomsOf(t, d) == RoomsOf(s, d);
  }

  lemma InRooms(s: State, k: Key, fd: Fd)
    requires k in s.rooms && fd in s.rooms[k].members
    ensures k.room in RoomsOf(s, fd)
  {}

  lemma CreateShifts(s: State, w: WorkerId, room: RoomId, fd: Fd)
    ensures Shifts(s, CreateRoomAt(s, w, room), w, fd, Stays)
  {
    var t := CreateRoomAt(s, w, room);
    if Key(w, room) !in s.rooms {
      forall d ensures RoomsOf(t, d) == RoomsOf(s, d) {
        forall k | k in s.rooms && d in s.rooms[k].members ensures k.room in RoomsOf(t, d) { InRooms(t, k, d); }
      }
    } else {
      SameShifts(s, t, w, fd);
    }
  }

  lemma JoinShifts(s: State, w: WorkerId, fd: Fd, room: RoomId)
    requires JoinRoomCode(s, w, fd, room) == Success || JoinRoomCode(s, w, fd, room) == UserNotFound
    ensures Shifts(s, JoinRoomAt(s, w, fd, room), w, fd, Joined(room))
  {
    var t := JoinRoomAt(s, w, fd, room);
    forall d ensures RoomsOf(t, d) == if d == fd then RoomsOf(s, d) + {room} else RoomsOf(s, d) {
      forall k | k in s.rooms && d in s.rooms[k].members ensures k.room in RoomsOf(t, d) { InRooms(t, k, d); }
      if d == fd { InRooms(t, Key(w, room), d); }
    }
    if fd in s.rooms[Key(w, room)].members { InRooms(s, Key(w, room), fd); }
    assert fd !in s.rooms[Key(w, room)].members
           ==> |t.rooms[Key(w, room)].members| == |s.rooms[Key(w, room)].members| + 1;
  }

  /** A counter is never below the members, so the room that goes held its last member only. */
  lemma EmptiesLast(s: State, w: WorkerId, fd: Fd, room: RoomId)
    requires Roomy(s) && LeaveRoomCode(s, w, fd, room) == Success && Empties(s, w, room)
    ensures s.rooms[Key(w, room)].members == {fd}
  {
    var m := s.rooms[Key(w, room)].members;
    assert m == {fd} + (m - {fd});
    assert |m| == 1 + |m - {fd}|;
  }

  /** With an exact counter the room goes exactly with its last member. */
  lemma LastMember(s: State, w: WorkerId, fd: Fd, room: RoomId)
    requires Exact(s) && LeaveRoomCode(s, w, fd, room) == Success
    ensures Empties(s, w, room) <==> w != LOBBY_WORKER_ID && s.rooms[Key(w, room)].members == {fd}
  {
    var m := s.rooms[Key(w, room)].members;
    assert m == {fd} + (m - {fd});
    assert |m| == 1 + |m - {fd}|;
  }

  lemma LeaveShifts(s: State, w: WorkerId, fd: Fd, room: RoomId)
    requires Roomy(s) && Distinct(s) && LeaveRoomCode(s, w, fd, room) == Success
    ensures Shifts(s, LeaveRoomAt(s, w, fd, room), w, fd, Left(room))
  {
    var t, k := LeaveRoomAt(s, w, fd, room), Key(w, room);
    if Empties(s, w, room) { EmptiesLast(s, w, fd, room); }
    forall d ensures RoomsOf(t, d) == if d == fd then RoomsOf(s, d) - {room} else RoomsOf(s, d) {
      forall l | l in s.rooms && d in s.rooms[l].members && (l != k || d != fd)
          ensures l.room in RoomsOf(t, d) { InRooms(t, l, d); }
    }
  }

  lemma LeftShifts(s: State, w: WorkerId, fd: Fd, room: RoomId)
    requires Roomy(s) && Distinct(s)
    ensures Shifts(s, LeaveRoomAt(s, w, fd, room), w, fd, LeftAt(s, w, fd, room))
  {
    hide LeaveRoomCode;
    if LeaveRoomCode(s, w, fd, room) == Success { LeaveShifts(s, w, fd, room); } else { SameShifts(s, s, w, fd); }
  }

  lemma ShiftsFrame(s: State, s': State, t: State, t': State, w: WorkerId, fd: Fd, ch: Change)
    requires Shifts(s, t, w, fd, ch)
    requires s'.rooms == s.rooms && s'.users == s.users && t'.rooms == t.rooms && t'.users == t.users
    ensures Shifts(s', t', w, fd, ch)
  {
    assert forall d :: RoomsOf(s', d) == RoomsOf(s, d) && RoomsOf(t', d) == RoomsOf(t, d);
  }

  lemma DisconnectShifts(s: State, w: WorkerId, fd: Fd, room: RoomId, found: RoomId)
    requires Roomy(s) && Distinct(s)
    ensures Shifts(s, DisconnectAt(s, w, fd, room, found), w, fd,
                   if LeaveRoomCode(s, w, fd, room) == Success then Left(room) else LeftAt(s, w, fd, found))
  {
    hide LeaveRoomCode, LeaveRoomAt, Shifts;
    LeftShifts(s, w, fd, room);
    LeftShifts(s, w, fd, found);
    if LeaveRoomCode(s, w, fd, room) == Success {} else {}
  }

  lemma EffectShifts(s: State, w: WorkerId, e: Event, a: Action, ch: Change)
    requires Roomy(s) && Distinct(s) && Local(a.command)
    requires ch == (match a.command
                    case JoinRoom =>
                      if JoinRoomCode(s, w, e.fd, a.room) == Success
                          || JoinRoomCode(s, w, e.fd, a.room) == UserNotFound then Joined(a.room) else Stays
                    case LeaveRoom => LeftAt(s, w, e.fd, a.room)
                    case _ => Stays)
    ensures Shifts(s, Effect(s, w, e, a), w, e.fd, ch)
  {
    hide Shifts, Roomy, Distinct, RoomsOf, LeaveRoomAt, CreateRoomAt;
    match a.command
    case CreateRoom => CreateShifts(s, w, a.room, e.fd);
    case JoinRoom =>
      if ch.Joined? { JoinShifts(s, w, e.fd, a.room); } else { SameShifts(s, JoinRoomAt(s, w, e.fd, a.room), w, e.fd); }
    case LeaveRoom => LeftShifts(s, w, e.fd, a.room);
    case SendMessage => SameShifts(s, BroadcastAt(s, w, e.fd, a.room, e.request, e.origin), w, e.fd);
  }

  lemma LocalShifts(s: State, w: WorkerId, found: RoomId)
    requires Roomy(s) && Distinct(s) && Executes(s, w) && Local(ActionAt(s, w).command)
    ensures Shifts(s, Act(s, w, found), w, s.running[w].fd, ChangeOf(s, w, found))
  {
    hide Shifts, Roomy, Distinct, RoomsOf, Effect, Settle, CodeAt, JoinRoomCode, LeaveRoomCode;
    var e, a := s.running[w].(cursor := s.running[w].cursor + 1), ActionAt(s, w);
    var u, t, ch := Effect(s, w, e, a), Act(s, w, found), ChangeOf(s, w, found);
    EffectShifts(s, w, e, a, ch);
    assert t == Settle(u, w, Marked(s, e, a), CodeAt(s, w, e, a));
    SettlePlaces(u, w, Marked(s, e, a), CodeAt(s, w, e, a));
    ShiftsFrame(s, s, u, t, w, e.fd, ch);
  }

  lemma PassShifts(s: State, w: WorkerId, found: RoomId)
    requires Executes(s, w) && !Local(ActionAt(s, w).command) && !ActionAt(s, w).command.DisconnectSession?
    ensures Shifts(s, Act(s, w, found), w, s.running[w].fd, Stays)
  {
    hide Shifts, Roomy, RoomsOf, Route, Submit, Respond, Hold, Release, Settle, Effect, UserIdOf;
    var e, a := s.running[w].(cursor := s.running[w].cursor + 1), ActionAt(s, w);
    var t := Act(s, w, found);
    RerouteSame(s, w, e.(target := a.room));
    PassPlaces(s, w, e, CreateJob(e));
    PassPlaces(s, w, e, LoadJob(e, a.room, CursorOf(e.request)));
    PassPlaces(s, w, e, SaveJob(a.room, UserIdOf(s, e.fd), e.request, e.mark));
    assert SamePlaces(s, t) by { hide SamePlaces; }
    SameShifts(s, t, w, e.fd);
  }

  lemma QuitShifts(s: State, w: WorkerId, found: RoomId)
    requires Roomy(s) && Distinct(s) && Executes(s, w) && ActionAt(s, w).command.DisconnectSession?
    ensures Shifts(s, Act(s, w, found), w, s.running[w].fd, ChangeOf(s, w, found))
  {
    hide Shifts, RoomsOf, LeaveRoomAt, Roomy;
    var e, u := s.running[w], Release(s, w);
    SameRoomy(s, u);
    DisconnectShifts(u, w, e.fd, e.target, found);
    ShiftsFrame(u, s, DisconnectAt(u, w, e.fd, e.target, found), Act(s, w, found), w, e.fd, ChangeOf(s, w, found));
  }

  /** One iteration of the action loop moves at most the session of its event. */
  lemma WorkShifts(s: State, w: WorkerId, found: RoomId)
    requires Roomy(s) && Distinct(s) && w in s.running
    ensures Shifts(s, Act(s, w, found), w, s.running[w].fd, ChangeOf(s, w, found))
  {
    hide Shifts, Roomy, Distinct, RoomsOf, Execute, Respond, Discard, Release, JoinRoomCode, LeaveRoomCode;
    if !Executes(s, w) {
      PassPlaces(s, w, s.running[w], CreateJob(s.running[w]));
      SameShifts(s, Act(s, w, found), w, s.running[w].fd);
    } else if Local(ActionAt(s, w).command) {
      LocalShifts(s, w, found);
    } else if ActionAt(s, w).command.DisconnectSession? {
      QuitShifts(s, w, found);
    } else {
      PassShifts(s, w, found);
    }
  }

  lemma OwnDistinct(s: State)
    requires Own(s)
    ensures Distinct(s)
  {}

  /** A session is in room `r` of exactly the worker `r` was bound to. */
  lemma RoomAtHome(s: State, fd: Fd, r: RoomId)
    requires Own(s) && r in RoomsOf(s, fd)
    ensures r in s.bindings && r in s.log.home && s.bindings[r] == s.log.home[r]
    ensures Key(s.log.home[r], r) in s.rooms && fd in s.rooms[Key(s.log.home[r], r)].members
  {
    var k :| k in s.rooms && fd in s.rooms[k].members && k.room == r;
  }
}
