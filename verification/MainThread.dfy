/**
  The main thread's bookkeeping (server/src/server/Server.cpp, server/src/user/UserManager.cpp): sessions by
  descriptor, users by id, and the index from descriptor to id.
 */
module MainThread {
  import opened RoomEvents

  type UserId = nat

  datatype User = User(fd: Fd, id: UserId)

  /** The two maps are inverse to each other. */
  predicate Inverse(users: map<UserId, User>, index: map<Fd, UserId>) {
    && (forall id | id in users :: users[id].id == id && users[id].fd in index && index[users[id].fd] == id)
    && (forall fd | fd in index :: index[fd] in users && users[index[fd]].fd == fd)
  }

  class UserManager {
    var users: map<UserId, User>
    var index: map<Fd, UserId>

    ghost predicate Valid() reads this {
      Inverse(users, index)
    }

    constructor ()
      ensures Valid() && users == map[] && index == map[]
    {
      users, index := map[], map[];
    }

    /** `emplace` leaves an existing entry alone, in each map on its own. */
    method AddUser(user: User)
      modifies this
      ensures users == (if user.id in old(users) then old(users) else old(users)[user.id := user])
      ensures index == (if user.fd in old(index) then old(index) else old(index)[user.fd := user.id])
      ensures old(Valid()) ==> (Valid() <==> (user.id in old(users)) == (user.fd in old(index)))
    {
      if user.id !in users { users := users[user.id := user]; }
      if user.fd !in index { index := index[user.fd := user.id]; }
      assert old(Valid()) && user.id in old(users) && user.fd !in old(index) ==> users[index[user.fd]].fd != user.fd;
      assert old(Valid()) && user.id !in old(users) && user.fd in old(index)
             ==> users[user.id].fd in index && index[user.fd] != user.id;
    }

    method RemoveUser(id: UserId)
      requires Valid()
      modifies this
      ensures Valid()
      ensures users == old(users) - {id}
      ensures index == (if id in old(users) then old(index) - {old(users)[id].fd} else old(index))
    {
      if id !in users { return; }
      var user := users[id];
      index := index - {user.fd};
      users := users - {id};
    }

    method GetUser(id: UserId) returns (user: Option<User>)
      ensures user == if id in users then Some(users[id]) else Nothing
    {
      if id !in users { return Nothing; }
      user := Some(users[id]);
    }

    /** By descriptor: found exactly when some user has that descriptor, and then it is that user. */
    method GetUserByFd(fd: Fd) returns (user: Option<User>)
      ensures Valid() ==> (user.Some? <==> exists id :: id in users && users[id].fd == fd)
      ensures user.Some? && Valid() ==>
                user.value.fd == fd && user.value.id in users && users[user.value.id] == user.value
    {
      if fd !in index { return Nothing; }
      var id := index[fd];
      if id !in users { return Nothing; }
      user := Some(users[id]);
    }

    method GetUserId(fd: Fd) returns (id: UserId)
      ensures id == if fd in index then index[fd] else 0
    {
      if fd !in index { return 0; }
      id := index[fd];
    }
  }

  /** A request of a worker thread to the main thread. */
  datatype MainEvent = Disconnect(fd: Fd) | EnableEpollOut(fd: Fd) | DisableEpollOut(fd: Fd)

  /** The disconnect events handed to the room manager. */
  datatype Departing = Departing(fd: Fd, room: RoomId)

  /** What closing these descriptors, one after the other, leaves of the sessions. */
  function Remaining(sessions: set<Fd>, events: seq<MainEvent>): set<Fd> {
    if events == [] then sessions
    else Remaining(if events[0].Disconnect? then sessions - {events[0].fd} else sessions, events[1..])
  }

  /** The departures of a descriptor: from its current room and, to be safe, from the lobby. */
  function Goodbye(current: map<Fd, RoomId>, fd: Fd): seq<Departing> {
    if fd !in current then []
    else [Departing(fd, current[fd])] + if current[fd] != LOBBY_ROOM_ID then [Departing(fd, LOBBY_ROOM_ID)] else []
  }

  /** The departures that these events lead to: of every descriptor named for the first time, and connected. */
  function Goodbyes(current: map<Fd, RoomId>, events: seq<MainEvent>): seq<Departing> {
    if events == [] then []
    else if events[0].Disconnect? then
      Goodbye(current, events[0].fd) + Goodbyes(current - {events[0].fd}, events[1..])
    else Goodbyes(current, events[1..])
  }

  /** A descriptor is closed by these events exactly if one of them names it. */
  lemma {:induction false} RemainingIs(sessions: set<Fd>, events: seq<MainEvent>, fd: Fd)
    ensures fd in Remaining(sessions, events) <==> fd in sessions && Disconnect(fd) !in events
  {
    if events != [] {
      RemainingIs(if events[0].Disconnect? then sessions - {events[0].fd} else sessions, events[1..], fd);
      assert events == [events[0]] + events[1..];
    }
  }

  /** Departures are of connected descriptors that an event names, from their rooms, and of all of these. */
  lemma {:induction false} GoodbyesAre(current: map<Fd, RoomId>, events: seq<MainEvent>, fd: Fd, room: RoomId)
    ensures Departing(fd, room) in Goodbyes(current, events) <==>
              fd in current && Disconnect(fd) in events && (room == current[fd] || room == LOBBY_ROOM_ID)
  {
    if events != [] {
      assert events == [events[0]] + events[1..];
      GoodbyesAre(if events[0].Disconnect? then current - {events[0].fd} else current, events[1..], fd, room);
    }
  }

  class Server {
    const manager: UserManager
    var sessions: set<Fd>
    var total: nat
    var current: map<Fd, RoomId>
    var events: seq<MainEvent>
    var departures: seq<Departing>

    /**
      Users and index are inverse, their descriptors are the sessions', and every id handed out is below the counter.
     */
    ghost predicate Valid()
      reads this, manager
    {
      && manager.Valid() && manager.index.Keys == sessions && current.Keys == sessions
      && (forall id | id in manager.users :: 1 <= id <= total)
    }

    constructor ()
      ensures Valid() && sessions == {} && fresh(manager)
    {
      manager := new UserManager();
      sessions, total, current, events, departures := {}, 0, map[], [], [];
    }

    /** The kernel returns a descriptor that no session has. */
    method AcceptClient(fd: Fd)
      requires Valid() && fd !in sessions
      modifies this, manager
      ensures Valid() && sessions == old(sessions) + {fd} && total == old(total) + 1
      ensures manager.users == old(manager.users)[total := User(fd, total)]
              && manager.index == old(manager.index)[fd := total]
      ensures current == old(current)[fd := LOBBY_ROOM_ID]
      ensures events == old(events) && departures == old(departures)
    {
      sessions := sessions + {fd};
      total := total + 1;
      current := current[fd := LOBBY_ROOM_ID];
      manager.AddUser(User(fd, total));
    }

    /** A worker's JOIN sets the current room of a connected user. */
    method SetCurrentRoom(fd: Fd, room: RoomId)
      requires Valid()
      modifies this`current
      ensures Valid() && current == (if fd in sessions then old(current)[fd := room] else old(current))
    {
      if fd in current { current := current[fd := room]; }
    }

    /** The user of a session is always found, so `close_session` never follows a null pointer. */
    method CloseSession(fd: Fd)
      requires Valid()
      modifies this, manager
      ensures Valid() && sessions == old(sessions) - {fd} && total == old(total) && events == old(events)
      ensures manager.index == old(manager.index) - {fd} && current == old(current) - {fd}
      ensures departures == old(departures) + Goodbye(old(current), fd)
    {
      if fd !in sessions { return; }
      var user := manager.GetUserByFd(fd);
      assert manager.index[fd] in manager.users;
      var room := current[fd];
      departures := departures + [Departing(fd, room)];
      if room != LOBBY_ROOM_ID { departures := departures + [Departing(fd, LOBBY_ROOM_ID)]; }
      sessions := sessions - {fd};
      current := current - {fd};
      manager.RemoveUser(user.value.id);
    }

    /**
      `handle_events`: drains the queue of requests from worker threads; a second disconnect of a descriptor does
      nothing.
     */
    method HandleEvents()
      requires Valid()
      modifies this, manager
      ensures Valid() && events == [] && total == old(total)
      ensures sessions == Remaining(old(sessions), old(events))
      ensures departures == old(departures) + Goodbyes(old(current), old(events))
      ensures forall fd | fd in sessions ::
                && fd in old(sessions) && current[fd] == old(current)[fd]
                && manager.index[fd] == old(manager.index)[fd]
    {
      while events != []
        invariant Valid() && total == old(total)
        invariant sessions <= old(sessions) && Remaining(sessions, events) == Remaining(old(sessions), old(events))
        invariant departures + Goodbyes(current, events) == old(departures) + Goodbyes(old(current), old(events))
        invariant forall fd | fd in sessions ::
                    current[fd] == old(current)[fd] && manager.index[fd] == old(manager.index)[fd]
        decreases |events|
      {
        var event := events[0];
        events := events[1..];
        match event {
          case Disconnect(fd) => CloseSession(fd);
          case EnableEpollOut(_) =>
          case DisableEpollOut(_) =>
        }
      }
    }
  }
}
