/**
  The room manager and the room workers as one object whose methods update its fields in place
  (server/src/room/RoomManager.cpp, server/src/room/RoomWorker.cpp). The entry points of the threads keep a record of
  the steps taken, which is always a run of the transition system: whatever is proved of every run holds of the object
  after any sequence of calls.
 */
module RoomServer {
  import opened Bytes
  import opened RoomEvents
  import opened History
  import S = ServerState
  import EventBuilder
  import MessageList
  import Broadcasts
  import Casting
  import Ownership
  import Flights
  import Itinerary
  import Quiescence
  import Tokens

  class Server {
    const n: nat
    var queues: map<WorkerId, seq<Event>>
    var rooms: map<S.Key, S.Room>
    var bindings: map<RoomId, WorkerId>
    var users: map<Fd, S.User>
    var jobs: seq<S.Job>
    var store: seq<Row>
    var packed: map<Fd, seq<S.Packet>>
    var casts: map<WorkerId, S.Cast>
    var running: map<WorkerId, Event>
    var log: S.Log
    ghost var states: seq<S.State>
    ghost var steps: seq<S.Step>

    /** The record is a run, and the object is in its last state. */
    ghost predicate Valid()
      reads this
    {
      S.Run(states, steps, n) && states[|steps|] == View()
    }

    ghost function View(): S.State
      reads this
    {
      S.State(n, queues, running, rooms, bindings, users, jobs, store, packed, casts, log)
    }

    constructor (workers: nat)
      requires workers >= 1
      ensures Valid() && View() == S.Init(workers) && steps == []
    {
      n := workers;
      queues, running := map[], map[];
      rooms := map[S.Key(LOBBY_WORKER_ID, LOBBY_ROOM_ID) := S.Room({}, 0, S.LOBBY_CAPACITY)];
      bindings := map[LOBBY_ROOM_ID := LOBBY_WORKER_ID];
      users, jobs, store, packed, casts := map[], [], [], map[], map[];
      log := S.Init(workers).log;
      states, steps := [S.Init(workers)], [];
    }

    /** A step of the transition system was taken. */
    ghost method Record(s: S.State, step: S.Step)
      requires S.Run(states, steps, n) && states[|steps|] == s && S.Next(s, step, View())
      modifies this`states, this`steps
      ensures Valid() && steps == old(steps) + [step]
    {
      hide S.Next, S.Init;
      states, steps := states + [View()], steps + [step];
    }

    // ---- routing ----

    /** `find_worker`. */
    method BoundWorker(room: RoomId) returns (w: WorkerId)
      ensures w == S.FindWorker(View(), room)
    {
      if room !in bindings { return 0; }
      w := bindings[room];
    }

    method PostEvent(w: WorkerId, e: Event)
      modifies this`queues
      ensures View() == S.Post(old(View()), w, e)
    {
      queues := queues[w := (if w in queues then queues[w] else []) + [e]];
    }

    /** A given worker, or the one the target room is bound to; an unbound room is reported and nothing happens. */
    method RouteEvent(e: Event, worker: WorkerId) returns (code: Code)
      modifies this`queues
      ensures var w := if worker == 0 then S.FindWorker(old(View()), e.target) else worker;
              if w == 0 then code == RoomNotFound && View() == old(View())
              else code == Success && View() == S.Post(old(View()), w, e)
    {
      var w := worker;
      if w == 0 { w := BoundWorker(e.target); }
      if w == 0 { return RoomNotFound; }
      PostEvent(w, e);
      code := Success;
    }

    /** A re-route whose result the caller ignores. */
    method Reroute(e: Event)
      modifies this`queues, this`log
      ensures View() == S.Route(old(View()), e)
    {
      var code := RouteEvent(e.(hops := e.hops + 1), 0);
      if code != Success { log := S.Unanswered(log, e); }
    }

    method EraseRoomToWorker(room: RoomId)
      modifies this`bindings
      ensures bindings == old(bindings) - {room}
    {
      bindings := bindings - {room};
    }

    /** The chosen worker takes the room unless it is bound already. */
    method BindRoomWorker(room: RoomId, choice: WorkerId) returns (w: WorkerId)
      modifies this`bindings, this`log
      ensures View() == S.Bind(old(View()), room, choice) && w == choice
    {
      if room !in bindings { bindings := bindings[room := choice]; }
      if room !in log.home { log := log.(home := log.home[room := choice]); }
      w := choice;
    }

    /** The body of `dispatch_packet`: plan, route, and fall back to a rejection by the lobby worker. */
    method PlanAndRoute(fd: Fd, cmd: Command, room: RoomId, body: seq<byte>)
      modifies this`queues, this`log
      ensures View() == S.Dispatch(old(View()), fd, cmd, room, body)
    {
      var builder := EventBuilder.PlanRequest(cmd, room);
      var actions := builder.actions[..builder.actionLen];
      var number := log.issued;
      log := log.(issued := number + 1);
      var e := Event(actions, 0, builder.target, cmd, fd, body, [], None, Request(number), PlanOf(cmd, room), [], 0, 0);
      var code := RouteEvent(e, 0);
      if code != Success {
        code := RouteEvent(S.RejectEvent(fd, cmd, number), LOBBY_WORKER_ID);
      }
    }

    /** The body came off the wire with its length in 32 bits. */
    method DispatchPacket(fd: Fd, cmd: Command, room: RoomId, body: sized)
      requires Valid() && fd in users
      modifies this`queues, this`log, this`states, this`steps
      ensures Valid() && steps == old(steps) + [S.Ask(fd, cmd, room, body)]
      ensures View() == S.Dispatch(old(View()), fd, cmd, room, body)
    {
      hide S.Run, S.Dispatch;
      ghost var s := View();
      PlanAndRoute(fd, cmd, room, body);
      Record(s, S.Ask(fd, cmd, room, body));
    }

    /** `disconnect_session` of the manager. */
    method DisconnectSession(fd: Fd, room: RoomId, garbage: Command)
      modifies this`queues, this`log
      ensures View() == S.Route(old(View()), S.DepartEvent(fd, room, garbage))
    {
      Reroute(S.DepartEvent(fd, room, garbage));
    }

    method RequestFlush(fd: Fd, garbage: Command)
      requires Valid()
      modifies this`queues, this`log, this`states, this`steps
      ensures Valid() && steps == old(steps) + [S.Tick(fd, garbage)]
      ensures View() == S.RequestFlush(old(View()), fd, garbage)
    {
      hide S.Run, S.Route;
      ghost var s := View();
      if fd in users { Reroute(S.FlushEvent(fd, users[fd].room, garbage)); }
      Record(s, S.Tick(fd, garbage));
    }

    method AcceptClient(fd: Fd, id: int64, garbage: Command)
      requires Valid() && S.Unused(View(), fd)
      modifies this`queues, this`users, this`states, this`steps
      ensures Valid() && steps == old(steps) + [S.Accept(fd, id, garbage)]
      ensures View() == S.AcceptClient(old(View()), fd, id, garbage)
    {
      hide S.Run, S.Unused;
      ghost var s := View();
      users := users[fd := S.User(id, LOBBY_ROOM_ID)];
      var code := RouteEvent(S.ArrivalEvent(fd, garbage), LOBBY_WORKER_ID);
      Record(s, S.Accept(fd, id, garbage));
    }

    /** The body of `close_session`: disconnect events for the current room and the lobby, then the user is gone. */
    method LeaveEverywhere(fd: Fd, garbage: Command)
      requires fd in users
      modifies this`queues, this`log, this`users
      ensures View() == S.CloseSession(old(View()), fd, garbage)
    {
      hide S.Route;
      var room := users[fd].room;
      DisconnectSession(fd, room, garbage);
      if room != LOBBY_ROOM_ID { DisconnectSession(fd, LOBBY_ROOM_ID, garbage); }
      users := users - {fd};
    }

    method CloseSession(fd: Fd, garbage: Command)
      requires Valid() && fd in users
      modifies this`queues, this`log, this`users, this`states, this`steps
      ensures Valid() && steps == old(steps) + [S.Close(fd, garbage)]
      ensures View() == S.CloseSession(old(View()), fd, garbage)
    {
      hide S.Run, S.CloseSession;
      ghost var s := View();
      LeaveEverywhere(fd, garbage);
      Record(s, S.Close(fd, garbage));
    }

    // ---- the rooms of a worker ----

    method CreateRoom(w: WorkerId, room: RoomId) returns (code: Code)
      modifies this`rooms
      ensures View() == S.CreateRoomAt(old(View()), w, room) && code == S.CreateRoomCode(old(View()), w, room)
    {
      if S.Key(w, room) in rooms { return RoomAlreadyExists; }
      rooms := rooms[S.Key(w, room) := S.Room({}, 0, S.ROOM_CAPACITY)];
      code := Success;
    }

    /** The session enters before its user is looked up. */
    method JoinRoom(w: WorkerId, fd: Fd, room: RoomId) returns (code: Code)
      modifies this`rooms, this`users, this`log
      ensures View() == S.JoinRoomAt(old(View()), w, fd, room) && code == S.JoinRoomCode(old(View()), w, fd, room)
    {
      var k := S.Key(w, room);
      if k !in rooms { return RoomNotFound; }
      if rooms[k].count >= rooms[k].max { return RoomFull; }
      rooms := rooms[k := S.JoinSession(rooms[k], fd)];
      if fd !in users { return UserNotFound; }
      users := users[fd := users[fd].(room := room)];
      log := log.(since := log.since[fd := |log.handled|]);
      code := Success;
    }

    method LeaveRoom(w: WorkerId, fd: Fd, room: RoomId) returns (code: Code)
      modifies this`rooms, this`bindings
      ensures View() == S.LeaveRoomAt(old(View()), w, fd, room) && code == S.LeaveRoomCode(old(View()), w, fd, room)
    {
      var k := S.Key(w, room);
      if k !in rooms { return RoomNotFound; }
      if fd !in rooms[k].members { return UserNotFound; }
      ghost var was := rooms;
      rooms := rooms[k := S.ExitSession(rooms[k], fd)];
      if rooms[k].count <= 0 && w != LOBBY_WORKER_ID {
        EraseRoomToWorker(room);
        rooms := rooms - {k};
        assert rooms == was - {k};
      }
      code := Success;
    }

    method GetUserId(fd: Fd) returns (id: int64)
      ensures id == S.UserIdOf(View(), fd)
    {
      if fd !in users { return 0; }
      id := users[fd].id;
    }

    method SendPacket(fd: Fd, p: S.Packet)
      modifies this`packed
      ensures packed == S.PackedWith(old(packed), {fd}, p)
    {
      PackOne(packed, fd, p);
      packed := packed[fd := (if fd in packed then packed[fd] else []) + [p]];
    }

    /** `send_message` up to its loop: the packet is made and the members to go through are noted. */
    method SendMessage(w: WorkerId, e: Event, room: RoomId) returns (code: Code)
      modifies this`casts, this`log
      ensures View() == S.BroadcastAt(old(View()), w, e.fd, room, e.request, e.origin)
      ensures code == S.BroadcastCode(old(View()), w, room)
    {
      var k := S.Key(w, room);
      if k !in rooms { return RoomNotFound; }
      var sender := GetUserId(e.fd);
      var p := S.Broadcast(sender, room, e.request, |log.handled|);
      casts := S.WithCast(casts, w, S.Cast(rooms[k].members, Nothing, e.fd, room, p));
      log := log.(handled := log.handled + [S.Handled(room, e.fd, e.request, e.origin)]);
      code := Success;
    }

    /** One iteration of the loop of `send_message`, up to its test: skip the sender and whoever is elsewhere. */
    method LookNext(w: WorkerId, fd: Fd)
      requires Valid() && w in casts && casts[w].chosen.Nothing? && fd in casts[w].left
      modifies this`casts, this`states, this`steps
      ensures Valid() && steps == old(steps) + [S.Look(w, fd)] && running == old(running)
      ensures w in casts ==> CastLeft(casts[w]) > 0 && CastLeft(casts[w]) < CastLeft(old(casts)[w])
    {
      hide S.Run;
      ghost var s := View();
      var c := casts[w];
      var chosen := Nothing;
      if fd != c.sender && fd in users && users[fd].room == c.room { chosen := Some(fd); }
      casts := S.WithCast(casts, w, c.(left := c.left - {fd}, chosen := chosen));
      Record(s, S.Look(w, fd));
    }

    /** The rest of the iteration: the packet is packed on the session found. */
    method GiveNext(w: WorkerId)
      requires Valid() && w in casts && casts[w].chosen.Some?
      modifies this`packed, this`casts, this`states, this`steps
      ensures Valid() && steps == old(steps) + [S.Give(w)] && running == old(running)
      ensures w in casts ==> CastLeft(casts[w]) > 0 && CastLeft(casts[w]) < CastLeft(old(casts)[w])
    {
      hide S.Run, S.PackedWith;
      ghost var s := View();
      var c := casts[w];
      SendPacket(c.chosen.value, c.packet);
      casts := S.WithCast(casts, w, c.(chosen := Nothing));
      Record(s, S.Give(w));
    }

    method PostJob(j: S.Job)
      modifies this`jobs, this`log
      ensures View() == S.Submit(old(View()), j)
    {
      jobs := jobs + [j];
      log := log.(posted := log.posted + [j]);
    }

    method SaveMessage(e: Event, room: RoomId)
      modifies this`jobs, this`log
      ensures View() == S.Submit(old(View()), S.SaveJob(room, S.UserIdOf(old(View()), e.fd), e.request, e.mark))
    {
      var sender := GetUserId(e.fd);
      PostJob(S.SaveJob(room, sender, e.request, e.mark));
    }

    method RequestDbLoadMessage(e: Event, room: RoomId)
      modifies this`jobs, this`log
      ensures View() == S.Submit(old(View()), S.LoadJob(e, room, CursorOf(e.request)))
    {
      var last: int64 := 0;
      if |e.request| >= 8 { last := I64Value(e.request[..8]); }
      if last <= 0 { last := INT64_MAX; }
      PostJob(S.LoadJob(e, room, last));
    }

    method SendResponse(e: Event)
      modifies this`packed, this`log
      ensures View() == S.Respond(old(View()), e)
    {
      SendPacket(e.fd, S.ResponseTo(e));
      log := S.Answered(log, e);
    }

    /** `diconnect_session`: the named room, otherwise the rooms of this worker one by one until one has the session. */
    method DisconnectFrom(w: WorkerId, fd: Fd, room: RoomId) returns (ok: bool, found: RoomId)
      modifies this`rooms, this`bindings
      ensures View() == S.DisconnectAt(old(View()), w, fd, room, found)
      ensures S.FoundOk(old(View()), w, fd, found)
      ensures ok == exists k :: k in old(rooms) && k.worker == w && fd in old(rooms)[k].members
    {
      ghost var s := View();
      var code := LeaveRoom(w, fd, room);
      if code == Success {
        assert S.Key(w, room) in s.rooms && fd in s.rooms[S.Key(w, room)].members;
        return true, room;
      }
      found := Scan(w, fd);
      code := LeaveRoom(w, fd, found);
      ok := code == Success;
    }

    /** A room of the worker that has the session, if any. */
    method Scan(w: WorkerId, fd: Fd) returns (found: RoomId)
      ensures S.FoundOk(View(), w, fd, found)
    {
      found := 0;
      var left := rooms.Keys;
      while left != {}
        invariant left <= rooms.Keys
        invariant forall k | k in rooms && k !in left :: !(k.worker == w && fd in rooms[k].members)
        decreases |left|
      {
        assert (forall x :: x !in left) ==> left == {};
        var k :| k in left;
        if k.worker == w && fd in rooms[k].members { return k.room; }
        left := left - {k};
      }
    }

    // ---- processing an event ----

    /** An action that runs on the worker and reports a code. */
    method RunLocal(w: WorkerId, e: Event, a: Action) returns (code: Code)
      requires S.Local(a.command)
      modifies this`rooms, this`bindings, this`users, this`casts, this`log
      ensures View() == S.Effect(old(View()), w, e, a) && code == S.CodeAt(old(View()), w, e, a)
    {
      hide S.CreateRoomAt, S.JoinRoomAt, S.LeaveRoomAt, S.BroadcastAt, S.CreateRoomCode, S.JoinRoomCode,
           S.LeaveRoomCode, S.BroadcastCode;
      match a.command
      case CreateRoom => code := CreateRoom(w, a.room);
      case JoinRoom => code := JoinRoom(w, e.fd, a.room);
      case LeaveRoom => code := LeaveRoom(w, e.fd, a.room);
      case SendMessage => code := SendMessage(w, e, a.room);
    }

    /** The end of an iteration: on a failure, clean up, answer, and the event is gone. */
    method SettleEvent(w: WorkerId, e: Event, code: Code)
      modifies this`running, this`bindings, this`packed, this`log
      ensures View() == S.Settle(old(View()), w, e, code)
    {
      hide S.Respond;
      var e1 := S.Report(e, code);
      if code != Success {
        if e1.actions != [] && e1.actions[0].command.CreateRoom? { EraseRoomToWorker(e1.target); }
        running := running - {w};
        SendResponse(e1);
      } else {
        running := running[w := e1];
      }
    }

    /** The label a JOIN or SEND leaves on its event. */
    method Mark(e: Event, a: Action) returns (marked: Event)
      ensures marked == S.Marked(View(), e, a)
    {
      marked := e;
      if a.command.JoinRoom? || a.command.SendMessage? { marked := e.(mark := |log.handled|); }
    }

    /** The actions that end the event here or hand it on, and the store step of a send. */
    method HandOn(w: WorkerId, e: Event, a: Action) returns (ghost found: RoomId)
      requires !S.Local(a.command) && !a.command.SaveMessage?
      modifies this`queues, this`running, this`rooms, this`bindings, this`users, this`jobs, this`packed, this`casts,
          this`log
      ensures View() == S.Execute(old(View()), w, e, a, found)
      ensures a.command.DisconnectSession? ==> S.FoundOk(old(View()), w, e.fd, found)
    {
      hide S.Respond, S.Route, S.Effect, S.CodeAt, S.Settle, S.DisconnectAt, S.FoundOk, S.UserIdOf, S.Submit;
      found := 0;
      ghost var s := View();
      running := running - {w};
      match a.command
      case RequestDbCreateRoom => PostJob(S.CreateJob(e));
      case RequestJoinRoom => Reroute(e.(target := a.room));
      case RequestLeaveRoom => Reroute(e.(target := a.room));
      case RequestDbLoadMessage => RequestDbLoadMessage(e, a.room);
      case SendResponse => SendResponse(e);
      case Flush =>
      case DisconnectSession =>
        var ok, f := DisconnectFrom(w, e.fd, e.target);
        FoundSame(s, w, e.fd, f);
        found := f;
    }

    /** One action of the event, its cursor already advanced; `found` is the room a disconnect was carried out in. */
    method DoAction(w: WorkerId, e: Event, a: Action) returns (ghost found: RoomId)
      modifies this`queues, this`running, this`rooms, this`bindings, this`users, this`jobs, this`packed, this`casts,
          this`log
      ensures View() == S.Execute(old(View()), w, e, a, found)
      ensures a.command.DisconnectSession? ==> S.FoundOk(old(View()), w, e.fd, found)
    {
      hide S.Respond, S.Route, S.Effect, S.CodeAt, S.Settle, S.DisconnectAt, S.FoundOk, S.UserIdOf;
      found := 0;
      if S.Local(a.command) {
        var marked := Mark(e, a);
        var code := RunLocal(w, e, a);
        SettleEvent(w, marked, code);
      } else if a.command.SaveMessage? {
        SaveMessage(e, a.room);
        if e.result == Success {
          running := running[w := e];
        } else {
          running := running - {w};
          SendResponse(e);
        }
      } else {
        found := HandOn(w, e, a);
      }
    }

    /** One iteration of the loop is one `Work` step. */
    method Iterate(w: WorkerId) returns (ghost found: RoomId)
      requires Valid() && w in running && w !in casts && running[w].cursor < |running[w].actions|
      modifies this
      ensures Valid() && steps == old(steps) + [S.Work(w, found)] && S.Next(old(View()), S.Work(w, found), View())
      ensures w in running ==>
                running[w].actions == old(running)[w].actions && running[w].cursor == old(running)[w].cursor + 1
      ensures w in casts ==> CastLeft(casts[w]) > 0
    {
      hide S.Respond, S.Execute, S.FoundOk, S.Run;
      var event := running[w];
      ghost var s := View();
      found := AnyFound(s, w, event.fd);
      if Failed(event.result) {
        running := running - {w};
        SendResponse(event);
      } else {
        var action := event.actions[event.cursor];
        event := event.(cursor := event.cursor + 1);
        ghost var f := DoAction(w, event, action);
        found := if action.command.DisconnectSession? then f else found;
        FoundUnused(s, w, event, action, f, found);
        HoldsNext(s, w, event, action, found);
      }
      StartedCast(s, w, found);
      Record(s, S.Work(w, found));
    }

    /** The loop of `send_message` over the members, in any order. */
    method TellAll(w: WorkerId)
      requires Valid() && (w in casts ==> CastLeft(casts[w]) > 0)
      modifies this`packed, this`casts, this`states, this`steps
      ensures Valid() && w !in casts && running == old(running) && OnlyBy(old(steps), steps, w)
    {
      hide S.Run;
      while w in casts
        invariant Valid() && running == old(running) && OnlyBy(old(steps), steps, w)
        invariant w in casts ==> CastLeft(casts[w]) > 0
        decreases if w in casts then CastLeft(casts[w]) else 0
      {
        var left := casts[w].left;
        assert (forall x :: x !in left) ==> left == {};
        if casts[w].chosen.Some? {
          GiveNext(w);
        } else {
          var fd :| fd in left;
          LookNext(w, fd);
        }
      }
    }

    /** `process_event`: the event is worked on until it is answered, handed on or done, one step at a time. */
    method ProcessEvent(w: WorkerId)
      requires Valid() && w in running && w !in casts
      modifies this
      ensures Valid() && w !in running && w !in casts && OnlyBy(old(steps), steps, w)
    {
      hide S.Run, S.Next;
      while w in running && running[w].cursor < |running[w].actions|
        invariant Valid() && w !in casts && OnlyBy(old(steps), steps, w)
        decreases if w in running then |running[w].actions| - running[w].cursor + 1 else 0
      {
        ghost var f := Iterate(w);
        TellAll(w);
      }
      if w in running { EndEvent(w); }
    }

    /** The loop ends with the recipe: the event is dropped without an answer. */
    method EndEvent(w: WorkerId)
      requires Valid() && w in running && w !in casts && running[w].cursor >= |running[w].actions|
      modifies this`running, this`log, this`states, this`steps
      ensures Valid() && w !in running && OnlyBy(old(steps), steps, w)
    {
      hide S.Run;
      var event := running[w];
      ghost var s := View();
      ghost var found := AnyFound(s, w, event.fd);
      running := running - {w};
      log := S.Unanswered(log, event);
      Record(s, S.Work(w, found));
    }

    /** A worker takes an event off its queue. */
    method TakeEvent(w: WorkerId)
      requires Valid() && 1 <= w <= n && w !in running && w in queues && queues[w] != []
      modifies this`queues, this`running, this`states, this`steps
      ensures Valid() && w in running && steps == old(steps) + [S.Start(w, 0)]
    {
      hide S.Run;
      ghost var s := View();
      var event := queues[w][0];
      assert S.Without(queues[w], 0) == queues[w][1..];
      queues := queues[w := queues[w][1..]];
      running := running[w := event];
      Record(s, S.Start(w, 0));
    }

    /** The body of `thread_main`: take the head of the queue and process it. */
    method ServeHead(w: WorkerId)
      requires Valid() && 1 <= w <= n && w !in running && w !in casts && w in queues && queues[w] != []
      modifies this
      ensures Valid() && w !in running && w !in casts && OnlyBy(old(steps) + [S.Start(w, 0)], steps, w)
    {
      hide S.Run;
      TakeEvent(w);
      ProcessEvent(w);
    }

    // ---- the callbacks of the DB thread ----

    /**
      `db_create_room_on_result`, first half: bind the new room and go on with its event, or report the error to the
      lobby.
     */
    method DbCreateRoomOnResult(e: Event, o: S.DbOutcome)
      modifies this`queues, this`bindings, this`log, this`jobs
      ensures View() == if o.Created?
                        then S.Hand(S.Bind(old(View()), o.id, o.worker), S.HandJob(S.Resolved(e, o.id), o.worker))
                        else S.Post(old(View()), LOBBY_WORKER_ID, S.Report(e, DbError).(hops := e.hops + 1))
    {
      hide S.Bind;
      if !o.Created? {
        PostEvent(LOBBY_WORKER_ID, S.Report(e, DbError).(hops := e.hops + 1));
        return;
      }
      var resolved := S.Resolved(e, o.id);
      var w := BindRoomWorker(resolved.target, o.worker);
      jobs := [S.HandJob(resolved, w)] + jobs;
    }

    /** `db_load_messages_on_result`: the page or the code, then back to the worker of the room that was asked for. */
    method DbLoadMessagesOnResult(e: Event, code: Code, data: seq<byte>)
      requires 0 < e.cursor <= |e.actions|
      modifies this`queues, this`log
      ensures View() == S.Route(old(View()),
                                S.Report(e, code).(response := if code == Success then data
                                                   else e.response, target := S.LastRoom(e)))
    {
      var r := S.Report(e, code);
      if code == Success { r := r.(response := data); }
      r := r.(target := e.actions[e.cursor - 1].room);
      Reroute(r);
    }

    /** `process_job`: the effect of the job at the head of the queue and its callback. */
    method ProcessJob(o: S.DbOutcome)
      requires jobs != [] && (jobs[0].LoadJob? ==> 0 < jobs[0].event.cursor <= |jobs[0].event.actions|)
      modifies this`queues, this`bindings, this`jobs, this`store, this`log
      ensures View() == S.FinishJob(old(View()), o)
    {
      hide S.Route, S.Post, S.Bind, S.Hand, S.Resolved, Page, S.LastRoom, MessageList.Serialized;
      var job := jobs[0];
      jobs := jobs[1..];
      match job
      case SaveJob(room, sender, text, serial) =>
        if o.Saved? {
          store := store + [Row(room, MessageList.Message(o.id, sender, o.epoch, S.NICK, text), serial)];
        } else {
          log := log.(lost := log.lost + {serial});
        }
      case CreateJob(e) => DbCreateRoomOnResult(e, o);
      case HandJob(e, w) => PostEvent(w, e.(hops := e.hops + 1));
      case LoadJob(e, room, before) =>
        var code := if o.NotLoaded? then o.code else Success;
        var page := Page(store, room, before);
        var data := MessageList.Serialize(page);
        DbLoadMessagesOnResult(e, code, data);
    }

    /** The DB thread takes a step with the job at the head of its queue. */
    method FinishJob(o: S.DbOutcome)
      requires Valid() && jobs != [] && S.OutcomeOk(View(), jobs[0], o)
      modifies this`queues, this`bindings, this`jobs, this`store, this`log, this`states, this`steps
      ensures Valid() && steps == old(steps) + [S.Query(o)] && View() == S.FinishJob(old(View()), o)
    {
      hide S.Run, S.OutcomeOk, S.FinishJob;
      LoadInRange(states, steps, n);
      ghost var s := View();
      ProcessJob(o);
      Record(s, S.Query(o));
    }

    // ---- what holds of the object after any sequence of calls ----

    /**
      Every room is on the worker it is bound to, the lobby worker has exactly the lobby, bound rooms exist or are
      coming.
     */
    lemma Owned()
      requires Valid()
      ensures forall k, l | k in rooms && l in rooms && k.room == l.room :: k == l
      ensures forall k | k in rooms :: k.room in bindings && bindings[k.room] == k.worker
      ensures forall k | k in rooms :: k.worker == LOBBY_WORKER_ID <==> k.room == LOBBY_ROOM_ID
      ensures LOBBY_ROOM_ID in bindings && S.Key(LOBBY_WORKER_ID, LOBBY_ROOM_ID) in rooms
      ensures forall r | r in bindings :: S.Key(bindings[r], r) in rooms || Ownership.CreateComing(View(), r)
    {
      Ownership.RoomOwnership(states, steps, n, |steps|);
    }

    /**
      `find_worker` between steps: 0 exactly for a room nobody owns or will own; otherwise the one worker that can
      have it.
     */
    method OwnerOf(room: RoomId) returns (w: WorkerId)
      requires Valid()
      ensures w != 0 <==> S.Key(w, room) in rooms || (room in bindings && Ownership.CreateComing(View(), room))
      ensures forall k | k in rooms && k.room == room :: k.worker == w
    {
      Owned();
      BoundIsWorker(states, steps, n);
      w := BoundWorker(room);
    }

    /** Every request the object was ever given is in flight, answered or lost, and answered at most once. */
    lemma Accounted(tag: nat)
      requires Valid() && tag < log.issued
      ensures Tokens.IsInFlight(View(), tag) || Tokens.IsAnswered(View(), tag) || Tokens.IsLost(View(), tag)
      ensures !(Tokens.IsAnswered(View(), tag) && (Tokens.IsInFlight(View(), tag) || Tokens.IsLost(View(), tag)))
    {
      Quiescence.RequestsAreLinear(states, steps, n, |steps|, tag);
    }
  }

  lemma BoundIsWorker(states: seq<S.State>, steps: seq<S.Step>, n: nat)
    requires S.Run(states, steps, n)
    ensures forall r | r in states[|steps|].bindings :: states[|steps|].bindings[r] != 0
  {
    hide Ownership.Own, S.Next, S.Init;
    Ownership.RunOwns(states, steps, n, |steps|);
    Ownership.OwnBound(states[|steps|]);
  }

  /** The load at the head of the DB queue belongs to an event in the middle of its recipe. */
  lemma LoadInRange(states: seq<S.State>, steps: seq<S.Step>, n: nat)
    requires S.Run(states, steps, n)
    ensures var jobs := states[|steps|].jobs;
            jobs != [] && jobs[0].LoadJob? ==> 0 < jobs[0].event.cursor <= |jobs[0].event.actions|
  {
    var s := states[|steps|];
    if s.jobs != [] && s.jobs[0].LoadJob? {
      Ownership.RunOwns(states, steps, n, |steps|);
      hide S.Run, Ownership.Own;
      Itinerary.HeadIsIn(s);
      var f := Flights.Flight(Flights.AwaitsHistory(s.jobs[0].room, s.jobs[0].before), s.jobs[0].event);
      Ownership.OwnFlight(s, f);
    }
  }

  /** The record grew by steps of worker `w` only. */
  ghost predicate OnlyBy(before: seq<S.Step>, after: seq<S.Step>, w: WorkerId) {
    before <= after && forall i | |before| <= i < |after| :: By(after[i], w)
  }

  predicate By(step: S.Step, w: WorkerId) {
    (step.Work? || step.Look? || step.Give?) && step.w == w
  }

  /** How often the loop over the members still goes round, twice over. */
  function CastLeft(c: S.Cast): nat {
    2 * |c.left| + if c.chosen.Some? then 1 else 0
  }

  lemma StartedCast(s: S.State, w: WorkerId, found: RoomId)
    requires w in s.running && w !in s.casts
    ensures var t := S.Act(s, w, found); w in t.casts ==> CastLeft(t.casts[w]) > 0
  {
    Casting.WorkCasts(s, w, found);
    hide S.Act, S.UserIdOf;
  }

  ghost function AnyFound(s: S.State, w: WorkerId, fd: Fd): (found: RoomId)
    ensures S.FoundOk(s, w, fd, found)
  {
    if k :| k in s.rooms && k.worker == w && fd in s.rooms[k].members then k.room else 0
  }

  lemma FoundUnused(s: S.State, w: WorkerId, e: Event, a: Action, f: RoomId, g: RoomId)
    requires a.command.DisconnectSession? ==> f == g
    ensures S.Execute(s, w, e, a, f) == S.Execute(s, w, e, a, g)
  {
    hide S.Respond, S.Route, S.Effect, S.CodeAt, S.Settle, S.DisconnectAt, S.UserIdOf, S.Submit;
    match a.command
    case _ =>
  }

  /** If the worker still has the event, it is the same recipe at the advanced cursor. */
  lemma HoldsNext(s: S.State, w: WorkerId, e: Event, a: Action, found: RoomId)
    requires w in s.running
    ensures var t := S.Execute(s, w, e, a, found);
            w in t.running ==> t.running[w].actions == e.actions && t.running[w].cursor == e.cursor
  {
    hide S.Execute, S.CodeAt;
    if S.Local(a.command) { Broadcasts.LocalRuns(s, w, e, a, found); }
        else { Broadcasts.HandOnRuns(s, w, e, a, found); }
  }

  lemma FoundSame(s: S.State, w: WorkerId, fd: Fd, found: RoomId)
    requires S.FoundOk(S.Release(s, w), w, fd, found)
    ensures S.FoundOk(s, w, fd, found)
  {}

  lemma PackOne(packed: map<Fd, seq<S.Packet>>, fd: Fd, p: S.Packet)
    ensures packed[fd := (if fd in packed then packed[fd] else []) + [p]] == S.PackedWith(packed, {fd}, p)
    ensures packed == S.PackedWith(packed, {}, p)
  {
    var a, b := packed[fd := (if fd in packed then packed[fd] else []) + [p]], S.PackedWith(packed, {fd}, p);
    assert a.Keys == b.Keys;
    forall x | x in a ensures a[x] == b[x] {
      if x != fd { assert packed[x] + [] == packed[x]; }
    }
    var c := S.PackedWith(packed, {}, p);
    assert c.Keys == packed.Keys;
    forall x | x in packed ensures c[x] == packed[x] { assert packed[x] + [] == packed[x]; }
  }
}
