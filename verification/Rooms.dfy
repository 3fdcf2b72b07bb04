/** One room (server/src/room/Room.cpp): its members and its counter, over every sequence of joins and exits. */
module Rooms {
  import opened RoomEvents
  import S = ServerState
  import opened Flights
  import opened Requests
  import opened Places
  import opened Talk
  import History

  datatype Op = Enter(fd: Fd) | Exit(fd: Fd)

  /** `join_session` and `exit_session` on the value of a room. */
  function Did(r: S.Room, op: Op): S.Room {
    match op
    case Enter(fd) => if r.count >= r.max then r else S.JoinSession(r, fd)
    case Exit(fd) => if fd in r.members then S.ExitSession(r, fd) else r
  }

  function After(r: S.Room, ops: seq<Op>): S.Room {
    if ops == [] then r else Did(After(r, ops[..|ops| - 1]), ops[|ops| - 1])
  }

  /** The accepted joins of a session that was already a member. */
  function Rejoins(r: S.Room, ops: seq<Op>): nat {
    if ops == [] then 0
    else
      var before, op := After(r, ops[..|ops| - 1]), ops[|ops| - 1];
      Rejoins(r, ops[..|ops| - 1])
          + (if op.Enter? && before.count < before.max && op.fd in before.members then 1 else 0)
  }

  lemma CardAdd(m: set<Fd>, fd: Fd)
    ensures |m + {fd}| == |m| + if fd in m then 0 else 1
    ensures fd in m ==> |m - {fd}| == |m| - 1
  {
    if fd in m { assert m + {fd} == m; }
  }

  /**
    Over every sequence of joins and exits: members <= counter <= capacity, and the counter exceeds the members by
    exactly the accepted re-joins. The counter comes back to zero exactly when the room is empty and had no re-join.
   */
  lemma {:induction false} CounterIsMembersAndRejoins(max: nat, ops: seq<Op>)
    ensures var r := After(S.Room({}, 0, max), ops);
            && r.max == max && |r.members| <= r.count <= max
            && r.count == |r.members| + Rejoins(S.Room({}, 0, max), ops)
            && (r.count == 0 <==> r.members == {} && Rejoins(S.Room({}, 0, max), ops) == 0)
  {
    if ops != [] {
      var before, op := ops[..|ops| - 1], ops[|ops| - 1];
      CounterIsMembersAndRejoins(max, before);
      CardAdd(After(S.Room({}, 0, max), before).members, op.fd);
    }
  }

  class RoomObject {
    const id: RoomId
    const max: int
    var sessions: set<Fd>
    var current: int

    ghost function Value(): S.Room
      reads this
    {
      S.Room(sessions, current, max)
    }

    constructor (room: RoomId, capacity: int)
      ensures id == room && Value() == S.Room({}, 0, capacity)
    {
      id, max, sessions, current := room, capacity, {}, 0;
    }

    method JoinSession(fd: Fd) returns (ok: bool)
      modifies this
      ensures Value() == Did(old(Value()), Enter(fd))
      ensures ok == (old(current) < max)
    {
      if current >= max { return false; }
      sessions := sessions + {fd};
      current := current + 1;
      ok := true;
    }

    method ExitSession(fd: Fd) returns (ok: bool)
      modifies this
      ensures Value() == Did(old(Value()), Exit(fd))
      ensures ok == (fd in old(sessions))
    {
      if fd !in sessions { return false; }
      sessions := sessions - {fd};
      current := current - 1;
      ok := true;
    }

    method FindSession(fd: Fd) returns (ok: bool)
      ensures ok == (fd in Value().members)
    {
      ok := fd in sessions;
    }
  }

  // ---- every room of every run, for any client input ----

  /** How many sessions a room holds: the lobby 999, any other five. */
  function Holds(k: S.Key): nat {
    if k == S.Key(1, 1) then 999 else 5
  }

  ghost predicate Roomy(s: S.State) {
    && S.Key(1, 1) in s.rooms
    && forall k | k in s.rooms :: |s.rooms[k].members| <= s.rooms[k].count <= s.rooms[k].max == Holds(k)
  }

  lemma JoinRoomy(s: S.State, w: WorkerId, fd: Fd, room: RoomId)
    requires Roomy(s)
    ensures Roomy(S.JoinRoomAt(s, w, fd, room))
  {
    var k := S.Key(w, room);
    if k in s.rooms { CardAdd(s.rooms[k].members, fd); }
  }

  lemma CreateRoomy(s: S.State, w: WorkerId, room: RoomId)
    requires Roomy(s)
    ensures Roomy(S.CreateRoomAt(s, w, room))
  {}

  lemma EffectRoomy(s: S.State, w: WorkerId, e: Event, a: Action)
    requires Roomy(s) && S.Local(a.command)
    ensures Roomy(S.Effect(s, w, e, a))
  {
    hide Roomy, S.CreateRoomAt, S.JoinRoomAt, S.LeaveRoomAt, S.BroadcastAt;
    match a.command
    case CreateRoom => CreateRoomy(s, w, a.room);
    case JoinRoom => JoinRoomy(s, w, e.fd, a.room);
    case LeaveRoom => LeaveRoomy(s, w, e.fd, a.room);
    case SendMessage =>
      BroadcastKeeps(s, w, e.fd, a.room, e.request, e.origin);
      SameRoomy(s, S.BroadcastAt(s, w, e.fd, a.room, e.request, e.origin));
  }

  lemma LeaveRoomy(s: S.State, w: WorkerId, fd: Fd, room: RoomId)
    requires Roomy(s)
    ensures Roomy(S.LeaveRoomAt(s, w, fd, room))
  {
    if S.LeaveRoomCode(s, w, fd, room) == Success { CardAdd(s.rooms[S.Key(w, room)].members, fd); }
  }

  lemma DisconnectRoomy(s: S.State, w: WorkerId, fd: Fd, room: RoomId, found: RoomId)
    requires Roomy(s)
    ensures Roomy(S.DisconnectAt(s, w, fd, room, found))
  {
    hide S.LeaveRoomAt, Roomy;
    LeaveRoomy(s, w, fd, room);
    LeaveRoomy(s, w, fd, found);
    if S.LeaveRoomCode(s, w, fd, room) == Success {} else {}
  }

  lemma SameRoomy(s: S.State, t: S.State)
    requires Roomy(s) && t.rooms == s.rooms
    ensures Roomy(t)
  {}

  lemma ExecuteRoomy(s: S.State, w: WorkerId, e: Event, a: Action, found: RoomId)
    requires Roomy(s)
    ensures Roomy(S.Execute(s, w, e, a, found))
  {
    hide Roomy, S.Route, S.DisconnectAt, S.Submit, S.Respond, S.Hold, S.Release, S.Settle, S.Effect, S.UserIdOf;
    var t := S.Execute(s, w, e, a, found);
    if S.Local(a.command) {
      EffectRoomy(s, w, e, a);
      var u := S.Effect(s, w, e, a);
      assert t == S.Settle(u, w, S.Marked(s, e, a), S.CodeAt(s, w, e, a));
      SettlePlaces(u, w, S.Marked(s, e, a), S.CodeAt(s, w, e, a));
      SameRoomy(u, t);
    } else if a.command.DisconnectSession? {
      ReleaseRooms(s, w);
      SameRoomy(s, S.Release(s, w));
      DisconnectRoomy(S.Release(s, w), w, e.fd, e.target, found);
    } else {
      RerouteSame(s, w, e.(target := a.room));
      PassPlaces(s, w, e, S.CreateJob(e));
      PassPlaces(s, w, e, S.LoadJob(e, a.room, History.CursorOf(e.request)));
      PassPlaces(s, w, e, S.SaveJob(a.room, S.UserIdOf(s, e.fd), e.request, e.mark));
      assert SamePlaces(s, t) by { hide SamePlaces; }
      SameRoomy(s, t);
    }
  }

  lemma ReleaseRooms(s: S.State, w: WorkerId)
    ensures S.Release(s, w).rooms == s.rooms
  {}

  lemma WorkRoomy(s: S.State, w: WorkerId, found: RoomId)
    requires Roomy(s) && w in s.running
    ensures Roomy(S.Act(s, w, found))
  {
    hide Roomy, S.Execute, S.Respond, S.Discard, S.Release;
    var e := s.running[w];
    PassPlaces(s, w, e, S.CreateJob(e));
    if e.cursor >= |e.actions| {
      SameRoomy(s, S.Act(s, w, found));
    } else if Failed(e.result) {
      SameRoomy(s, S.Act(s, w, found));
    } else {
      ExecuteRoomy(s, w, e.(cursor := e.cursor + 1), e.actions[e.cursor], found);
    }
  }

  lemma StepRoomy(s: S.State, step: S.Step)
    requires Roomy(s) && S.Enabled(s, step)
    ensures Roomy(S.Apply(s, step))
  {
    hide Roomy, S.Act, S.FinishJob, S.Route;
    var t := S.Apply(s, step);
    match step
    case Accept(_, _, _) => SameRoomy(s, t);
    case Ask(_, _, _, _) => SameRoomy(s, t);
    case Tick(fd, garbage) =>
      if fd in s.users { RoutePlaces(s, S.FlushEvent(fd, s.users[fd].room, garbage)); }
      SameRoomy(s, t);
    case Close(fd, garbage) =>
      var u := S.Route(s, S.DepartEvent(fd, s.users[fd].room, garbage));
      RoutePlaces(s, S.DepartEvent(fd, s.users[fd].room, garbage));
      RoutePlaces(u, S.DepartEvent(fd, LOBBY_ROOM_ID, garbage));
      if s.users[fd].room != LOBBY_ROOM_ID {} else {}
      SameRoomy(s, t);
    case Start(_, _) => SameRoomy(s, t);
    case Look(_, _) => SameRoomy(s, t);
    case Give(_) => SameRoomy(s, t);
    case Work(w, found) => WorkRoomy(s, w, found);
    case Query(o) => QueryPlaces(s, o); SameRoomy(s, t);
  }

  /** In any run, whatever clients do, no room is over capacity and no counter is below its members. */
  lemma {:induction false} CapacityHolds(states: seq<S.State>, steps: seq<S.Step>, n: nat, i: nat)
    requires S.Run(states, steps, n) && i < |states|
    ensures Roomy(states[i])
  {
    if i > 0 {
      hide Roomy, S.Enabled, S.Apply, S.Init;
      CapacityHolds(states, steps, n, i - 1);
      assert S.Next(states[i - 1], steps[i - 1], states[i]);
      StepRoomy(states[i - 1], steps[i - 1]);
    }
  }
}
