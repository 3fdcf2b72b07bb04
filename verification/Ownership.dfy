/**
  Room ownership, for any client input: every room lives on the worker it was bound to, a binding is never
  reassigned, and a bound room exists or its CREATE is on the way.
 */
module Ownership {
  import opened Bytes
  import opened RoomEvents
  import opened ServerState
  import opened Flights
  import opened Itinerary

  /** Every room is bound, to the worker that has it; the lobby always exists. */
  ghost predicate Housed(s: State) {
    && Key(LOBBY_WORKER_ID, LOBBY_ROOM_ID) in s.rooms
    && forall k | k in s.rooms :: k.room in s.bindings && s.bindings[k.room] == k.worker
  }

  ghost predicate CreateComing(s: State, r: RoomId) {
    exists f :: In(s, f) && Creating(f, r)
  }

  /** A bound room exists or exactly one event is about to create it, and never both. */
  ghost predicate Pending(s: State) {
    && (forall r | r in s.bindings :: Key(s.bindings[r], r) in s.rooms || CreateComing(s, r))
    && (forall f, r | In(s, f) && Creating(f, r) ::
          r in s.bindings && Key(s.bindings[r], r) !in s.rooms && Count(s, f) == 1)
    && (forall f, g, r | In(s, f) && In(s, g) && Creating(f, r) && Creating(g, r) :: f == g)
  }

  ghost predicate Own(s: State) {
    Bound(s) && AllOnCourse(s) && Housed(s) && Pending(s)
  }

  lemma OwnBound(s: State)
    requires Own(s)
    ensures Bound(s)
  {}

  predicate SameOwners(s: State, t: State) {
    t.n == s.n && t.bindings == s.bindings && t.log.home == s.log.home && Staffed(t)
  }

  /** One flight leaves and at most one comes. */
  ghost predicate Moved(s: State, t: State, gone: Option<Flight>, come: Option<Flight>) {
    forall f :: Count(t, f) == Count(s, f) - Opt(f, gone) + Opt(f, come)
  }

  predicate OptCreating(o: Option<Flight>, r: RoomId) {
    o.Some? && Creating(o.value, r)
  }

  ghost predicate QuietMove(s: State, t: State, gone: Option<Flight>, come: Option<Flight>) {
    && Own(s) && SameOwners(s, t) && t.rooms.Keys == s.rooms.Keys
    && Moved(s, t, gone, come)
    && (gone.Some? ==> In(s, gone.value))
    && (come.Some? ==> OnCourse(s.log.home, come.value))
    && (forall r :: OptCreating(gone, r) <==> OptCreating(come, r))
  }

  /** Where a creating flight was before the move. */
  lemma Traced(s: State, t: State, gone: Option<Flight>, come: Option<Flight>, f: Flight, r: RoomId)
    requires QuietMove(s, t, gone, come) && In(t, f) && Creating(f, r)
    ensures if come == Some(f) then OptCreating(gone, r) && In(s, gone.value)
            else gone != Some(f) && In(s, f)
    ensures r in s.bindings && Key(s.bindings[r], r) !in s.rooms && Count(t, f) == 1
  {
    hide Count;
    if come == Some(f) {
      assert OptCreating(come, r) && OptCreating(gone, r);
    }
  }

  lemma QuietOnCourse(s: State, t: State, gone: Option<Flight>, come: Option<Flight>)
    requires QuietMove(s, t, gone, come)
    ensures Bound(t) && AllOnCourse(t) && Housed(t)
  {
    hide Count;
    forall f | In(t, f) ensures OnCourse(t.log.home, f) {
      assert In(s, f) || come == Some(f);
    }
  }

  lemma QuietComing(s: State, t: State, gone: Option<Flight>, come: Option<Flight>, r: RoomId)
    requires QuietMove(s, t, gone, come) && CreateComing(s, r)
    ensures CreateComing(t, r)
  {
    hide Count;
    var f :| In(s, f) && Creating(f, r);
    if gone == Some(f) {
      assert OptCreating(gone, r) && OptCreating(come, r);
      assert In(t, come.value);
    } else {
      assert In(t, f);
    }
  }

  lemma QuietUnique(s: State, t: State, gone: Option<Flight>, come: Option<Flight>, f: Flight, g: Flight, r: RoomId)
    requires QuietMove(s, t, gone, come) && In(t, f) && In(t, g) && Creating(f, r) && Creating(g, r)
    ensures f == g
  {
    hide Count;
    Traced(s, t, gone, come, f, r);
    Traced(s, t, gone, come, g, r);
  }

  /** A step that only moves an event keeps ownership. */
  lemma QuietStep(s: State, t: State, gone: Option<Flight>, come: Option<Flight>)
    requires QuietMove(s, t, gone, come)
    ensures Own(t)
  {
    hide Count;
    QuietOnCourse(s, t, gone, come);
    forall r | CreateComing(s, r) ensures CreateComing(t, r) { QuietComing(s, t, gone, come, r); }
    forall f, r | In(t, f) && Creating(f, r)
      ensures r in t.bindings && Key(t.bindings[r], r) !in t.rooms && Count(t, f) == 1
    {
      Traced(s, t, gone, come, f, r);
    }
    forall f, g, r | In(t, f) && In(t, g) && Creating(f, r) && Creating(g, r) ensures f == g {
      QuietUnique(s, t, gone, come, f, g, r);
    }
  }

  // ---- the steps of the other threads ----

  /** Ownership does not read users, packets or the store. */
  lemma FrameStep(s: State, t: State)
    requires Own(s) && SameOwners(s, t) && t.rooms.Keys == s.rooms.Keys
    requires t.queues == s.queues && t.running == s.running && t.jobs == s.jobs
    ensures Own(t)
  {
    hide Own, OnCourse, Count;
    OwnBound(s);
    SameFlights(s, t);
    QuietStep(s, t, Nothing, Nothing);
  }

  lemma PostStep(s: State, w: WorkerId, e: Event)
    requires Own(s) && 1 <= w <= s.n && OnCourse(s.log.home, Flight(Queued(w), e))
    requires e.plan.PlanCreate? ==> e.cursor != 1 || e.plan.room == PENDING_ROOM_ID
    ensures Own(Post(s, w, e))
  {
    hide Own, OnCourse, Count;
    OwnBound(s);
    PostFlights(s, w, e);
    QuietStep(s, Post(s, w, e), Nothing, Some(Flight(Queued(w), e)));
  }

  lemma RouteStep(s: State, e: Event)
    requires Own(s)
    requires FindWorker(s, e.target) != 0
             ==> OnCourse(s.log.home, Flight(Queued(FindWorker(s, e.target)), e.(hops := e.hops + 1)))
    requires e.plan.PlanCreate? ==> e.cursor != 1 || e.plan.room == PENDING_ROOM_ID
    ensures Own(Route(s, e))
  {
    hide Own, OnCourse, Count;
    OwnBound(s);
    var w := FindWorker(s, e.target);
    if w == 0 {
      FrameStep(s, Discard(s, e));
    } else {
      assert 1 <= w <= s.n;
      PostStep(s, w, e.(hops := e.hops + 1));
    }
  }

  lemma AcceptStep(s: State, fd: Fd, id: int64, garbage: Command)
    requires Own(s)
    ensures Own(AcceptClient(s, fd, id, garbage))
  {
    hide Own, Count;
    OwnBound(s);
    var u := s.(users := s.users[fd := User(id, LOBBY_ROOM_ID)]);
    FrameStep(s, u);
    PostStep(u, LOBBY_WORKER_ID, ArrivalEvent(fd, garbage));
  }

  lemma RequestOnCourse(s: State, fd: Fd, cmd: Command, room: RoomId, body: seq<byte>)
    requires Bound(s)
    ensures var e, w := RequestEvent(fd, cmd, room, body, s.log.issued), FindWorker(s, FirstTarget(cmd, room));
            w != 0 ==> 1 <= w <= s.n && OnCourse(s.log.home, Flight(Queued(w), e))
    ensures OnCourse(s.log.home, Flight(Queued(LOBBY_WORKER_ID), RejectEvent(fd, cmd, s.log.issued)))
  {
    match cmd
    case CmdCreateRoom =>
    case CmdJoinRoom =>
    case CmdLeaveRoom =>
    case CmdSendMessage =>
    case CmdLoadMessage =>
    case CmdOther(_) =>
  }

  lemma AskStep(s: State, fd: Fd, cmd: Command, room: RoomId, body: seq<byte>)
    requires Own(s)
    ensures Own(Dispatch(s, fd, cmd, room, body))
  {
    hide Own, OnCourse, Count;
    OwnBound(s);
    var u := s.(log := s.log.(issued := s.log.issued + 1));
    FrameStep(s, u);
    RequestOnCourse(s, fd, cmd, room, body);
    var w := FindWorker(s, FirstTarget(cmd, room));
    if w == 0 {
      PostStep(u, LOBBY_WORKER_ID, RejectEvent(fd, cmd, s.log.issued));
    } else {
      PostStep(u, w, RequestEvent(fd, cmd, room, body, s.log.issued));
    }
  }

  lemma DepartStep(s: State, fd: Fd, room: RoomId, garbage: Command)
    requires Own(s)
    ensures Own(Route(s, DepartEvent(fd, room, garbage)))
  {
    hide Own, Count;
    OwnBound(s);
    RouteStep(s, DepartEvent(fd, room, garbage));
  }

  lemma UserGoes(s: State, fd: Fd)
    requires Own(s)
    ensures Own(s.(users := s.users - {fd}))
  {
    hide Own, OnCourse, Count;
    OwnBound(s);
    FrameStep(s, s.(users := s.users - {fd}));
  }

  lemma CloseStep(s: State, fd: Fd, garbage: Command)
    requires Own(s) && fd in s.users
    ensures Own(CloseSession(s, fd, garbage))
  {
    hide Own, Route;
    var room := s.users[fd].room;
    DepartStep(s, fd, room, garbage);
    var t := Route(s, DepartEvent(fd, room, garbage));
    if room != LOBBY_ROOM_ID {
      DepartStep(t, fd, LOBBY_ROOM_ID, garbage);
      UserGoes(Route(t, DepartEvent(fd, LOBBY_ROOM_ID, garbage)), fd);
    } else {
      UserGoes(t, fd);
    }
  }

  lemma TickStep(s: State, fd: Fd, garbage: Command)
    requires Own(s)
    ensures Own(RequestFlush(s, fd, garbage))
  {
    hide Own, Count, Route;
    OwnBound(s);
    if fd in s.users { RouteStep(s, FlushEvent(fd, s.users[fd].room, garbage)); }
  }

  lemma OwnFlight(s: State, f: Flight)
    requires Own(s) && In(s, f)
    ensures OnCourse(s.log.home, f)
  {}

  lemma TakenOnCourse(home: map<RoomId, WorkerId>, w: WorkerId, e: Event)
    requires OnCourse(home, Flight(Queued(w), e))
    ensures OnCourse(home, Flight(Running(w), e))
  {}

  lemma StartStep(s: State, w: WorkerId, k: nat)
    requires Own(s) && 1 <= w <= s.n && w !in s.running && k < |Queue(s, w)|
    ensures Own(Take(s, w, k))
  {
    hide Own, OnCourse, Count;
    OwnBound(s);
    var e := Queue(s, w)[k];
    TakeFlights(s, w, k);
    assert Count(Take(s, w, k), Flight(Queued(w), e)) >= 0;
    OwnFlight(s, Flight(Queued(w), e));
    TakenOnCourse(s.log.home, w, e);
    QuietStep(s, Take(s, w, k), Some(Flight(Queued(w), e)), Some(Flight(Running(w), e)));
  }

  // ---- the steps of a worker ----

  lemma EmptiesStep(s: State, w: WorkerId, fd: Fd, room: RoomId)
    requires Own(s) && LeaveRoomCode(s, w, fd, room) == Success && Empties(s, w, room)
    ensures Own(LeaveRoomAt(s, w, fd, room))
  {
    hide Count, OnCourse;
    var t := LeaveRoomAt(s, w, fd, room);
    SameFlights(s, t);
    assert forall f :: In(t, f) <==> In(s, f);
    assert forall r :: CreateComing(t, r) <==> CreateComing(s, r);
    assert Bound(t) && Housed(t);
    hide Bound, CreateComing;
    assert AllOnCourse(t);
    hide AllOnCourse;
    assert Pending(t);
  }

  lemma LeaveStep(s: State, w: WorkerId, fd: Fd, room: RoomId)
    requires Own(s)
    ensures Own(LeaveRoomAt(s, w, fd, room))
  {
    hide Own, Count;
    OwnBound(s);
    if LeaveRoomCode(s, w, fd, room) == Success {
      if Empties(s, w, room) { EmptiesStep(s, w, fd, room); } else { FrameStep(s, LeaveRoomAt(s, w, fd, room)); }
    }
  }

  /** The cleanup of a failed create is guarded by a test that no recipe passes. */
  lemma CleanUpNeverRuns(s: State, f: Flight)
    requires OnCourse(s.log.home, f)
    ensures CleanUp(s, f.event) == s
  {
    match f.event.plan
    case _ =>
  }

  lemma SettleStep(s: State, w: WorkerId, e: Event, c: Code)
    requires Own(s) && w in s.running && CleanUp(s, e) == s
    requires c == Success ==> OnCourse(s.log.home, Flight(Running(w), Report(e, c)))
    requires forall r :: !Creating(Flight(Running(w), s.running[w]), r)
    requires !e.plan.PlanCreate? || e.cursor != 1
    ensures Own(Settle(s, w, e, c))
  {
    hide Own, OnCourse, Count;
    OwnBound(s);
    SettleFlights(s, w, e, c);
    RunningIsIn(s, w);
    if c == Success {
      QuietStep(s, Settle(s, w, e, c), Some(Flight(Running(w), s.running[w])), Some(Flight(Running(w), Report(e, c))));
    } else {
      QuietStep(s, Settle(s, w, e, c), Some(Flight(Running(w), s.running[w])), Nothing);
    }
  }

  lemma ReleaseStep(s: State, w: WorkerId)
    requires Own(s) && w in s.running
    requires forall r :: !Creating(Flight(Running(w), s.running[w]), r)
    ensures Own(Release(s, w))
  {
    hide Own, OnCourse, Count;
    OwnBound(s);
    ReleaseFlights(s, w);
    RunningIsIn(s, w);
    QuietStep(s, Release(s, w), Some(Flight(Running(w), s.running[w])), Nothing);
  }

  lemma SubmitStep(s: State, j: Job)
    requires Own(s) && !j.SaveJob? && OnCourse(s.log.home, Flight(JobPlace(j), j.event))
    requires j.event.plan.PlanCreate? ==> j.event.cursor != 1 || j.event.plan.room == PENDING_ROOM_ID
    ensures Own(Submit(s, j))
  {
    hide Own, OnCourse, Count;
    OwnBound(s);
    SubmitFlights(s, j);
    QuietStep(s, Submit(s, j), Nothing, Some(Flight(JobPlace(j), j.event)));
  }

  lemma SaveStep(s: State, w: WorkerId, e: Event, a: Action, found: RoomId)
    requires Own(s) && w in s.running && a.command.SaveMessage? && s.running[w].plan.PlanSend?
    requires e.result == Success && e.plan.PlanSend? && OnCourse(s.log.home, Flight(Running(w), e))
    ensures Own(Execute(s, w, e, a, found))
  {
    hide Own, OnCourse, Count;
    OwnBound(s);
    SaveFlights(s, w, e, a, found);
    RunningIsIn(s, w);
    QuietStep(s, Execute(s, w, e, a, found), Some(Flight(Running(w), s.running[w])), Some(Flight(Running(w), e)));
  }

  /** While `f` is about to create `r`, whatever else is creating creates another room. */
  lemma OtherCreates(s: State, t: State, w: WorkerId, r: RoomId, g: Flight, q: RoomId)
    requires Own(s) && w in s.running && Creating(Flight(Running(w), s.running[w]), r)
    requires Moved(s, t, Some(Flight(Running(w), s.running[w])), NextFlight(s, w))
    requires NextFlight(s, w).Some? ==> NextFlight(s, w).value.event.cursor == 2
    requires In(t, g) && Creating(g, q)
    ensures q != r && In(s, g) && Count(t, g) == Count(s, g)
  {
    hide Count;
    RunningIsIn(s, w);
    var f := Flight(Running(w), s.running[w]);
    assert Count(s, f) == 1 && In(s, g);
    assert g != f;
  }

  lemma CreateMoves(s: State, w: WorkerId, r: RoomId, found: RoomId)
    requires Own(s) && w in s.running && Creating(Flight(Running(w), s.running[w]), r)
    ensures CreateRoomCode(s, w, r) == Success
    ensures var t := Act(s, w, found);
            && t.rooms == s.rooms[Key(w, r) := Room({}, 0, ROOM_CAPACITY)] && SameOwners(s, t) && r in s.bindings
               && s.bindings[r] == w
            && Moved(s, t, Some(Flight(Running(w), s.running[w])), NextFlight(s, w))
    ensures NextFlight(s, w).Some? && NextFlight(s, w).value.event.cursor == 2
            && OnCourse(s.log.home, NextFlight(s, w).value)
  {
    hide Count;
    RunningIsIn(s, w);
    var f := Flight(Running(w), s.running[w]);
    assert In(s, f) && OnCourse(s.log.home, f) && Creating(f, r);
    WorkFlights(s, w, found);
    NextOnCourse(s, w);
  }

  /** The one step that makes a room: its event is the only one about to, and it runs where the room is bound. */
  lemma CreateStep(s: State, w: WorkerId, r: RoomId, found: RoomId)
    requires Own(s) && w in s.running && Creating(Flight(Running(w), s.running[w]), r)
    ensures Own(Act(s, w, found))
  {
    hide Count, Act, NextFlight, OnCourse;
    CreateMoves(s, w, r, found);
    var t, f := Act(s, w, found), Flight(Running(w), s.running[w]);
    forall g | In(t, g) ensures OnCourse(t.log.home, g) { assert In(s, g) || NextFlight(s, w) == Some(g); }
    forall g, q | In(t, g) && Creating(g, q) ensures q != r && In(s, g) && Count(t, g) == Count(s, g) {
      OtherCreates(s, t, w, r, g, q);
    }
    forall q | q in t.bindings && Key(t.bindings[q], q) !in t.rooms ensures CreateComing(t, q) {
      var g :| In(s, g) && Creating(g, q);
      assert In(t, g);
    }
  }

  /** What ownership says about the event a worker is executing. */
  lemma OwnRunning(s: State, w: WorkerId)
    requires Own(s) && w in s.running
    ensures Moving(s, w)
  {
    hide Count;
    RunningIsIn(s, w);
    assert OnCourse(s.log.home, Flight(Running(w), s.running[w]));
  }

  lemma EffectStep(s: State, w: WorkerId, e: Event, a: Action)
    requires Own(s) && Local(a.command) && !a.command.CreateRoom?
    ensures var u := Effect(s, w, e, a); Own(u) && u.running == s.running && u.log.home == s.log.home
  {
    hide Own, OnCourse, Count, JoinRoomAt, LeaveRoomAt, BroadcastAt;
    OwnBound(s);
    match a.command
    case JoinRoom => JoinKeeps(s, w, e.fd, a.room); FrameStep(s, JoinRoomAt(s, w, e.fd, a.room));
    case LeaveRoom => LeaveKeeps(s, w, e.fd, a.room); LeaveStep(s, w, e.fd, a.room);
    case SendMessage =>
      BroadcastKeeps(s, w, e.fd, a.room, e.request, e.origin);
      FrameStep(s, BroadcastAt(s, w, e.fd, a.room, e.request, e.origin));
  }

  /** The event a worker executes is about to create a room exactly when its next action is CREATE. */
  lemma RunningCreates(s: State, w: WorkerId)
    requires Moving(s, w)
    ensures var e := s.running[w];
            e.cursor < |e.actions| && !Failed(e.result) && !e.actions[e.cursor].command.CreateRoom? ==>
              && (forall r :: !Creating(Flight(Running(w), e), r))
              && (e.plan.PlanCreate? ==> e.cursor != 0 || e.plan.room == PENDING_ROOM_ID)
              && (e.plan.PlanCreate? && Local(e.actions[e.cursor].command) ==> e.cursor != 0)
              && (e.actions[e.cursor].command.SaveMessage? ==> e.plan.PlanSend? && e.result == Success)
    ensures var e := s.running[w];
            e.cursor < |e.actions| && e.actions[e.cursor].command.CreateRoom? && !Failed(e.result) ==>
              e.plan.PlanCreate? && Creating(Flight(Running(w), e), e.plan.room)
    ensures var e := s.running[w];
            e.cursor >= |e.actions| || Failed(e.result) ==> forall r :: !Creating(Flight(Running(w), e), r)
  {
    match s.running[w].plan
    case PlanCreate(r) =>
      if s.running[w].cursor == 0 {} else if s.running[w].cursor == 1 {} else if s.running[w].cursor == 2 {}
    case _ =>
  }

  /** A reporting action other than CREATE: its effect keeps ownership, and then the event moves on or is answered. */
  lemma LocalStep(s: State, w: WorkerId, e: Event, a: Action, found: RoomId)
    requires Own(s) && w in s.running && Local(a.command) && !a.command.CreateRoom?
    requires e == s.running[w] && e.cursor < |e.actions| && a == e.actions[e.cursor] && !Failed(e.result)
    ensures Own(Execute(s, w, e.(cursor := e.cursor + 1), a, found))
  {
    hide Own, OnCourse, Bound, Effect, Settle, Creating;
    var e1 := e.(cursor := e.cursor + 1);
    OwnRunning(s, w);
    RunningCreates(s, w);
    NextOnCourse(s, w);
    EffectStep(s, w, e1, a);
    CleanUpNeverRuns(Effect(s, w, e1, a), Flight(Running(w), e));
    SettleStep(Effect(s, w, e1, a), w, Marked(s, e1, a), CodeAt(s, w, e1, a));
  }

  /** The actions that hand the event on. */
  lemma HandOnStep(s: State, w: WorkerId, e: Event, a: Action, found: RoomId)
    requires Own(s) && w in s.running && !Local(a.command) && !a.command.SaveMessage?
    requires e == s.running[w] && e.cursor < |e.actions| && a == e.actions[e.cursor] && !Failed(e.result)
    ensures Own(Execute(s, w, e.(cursor := e.cursor + 1), a, found))
  {
    hide Own, OnCourse, Bound, Creating, Post, Discard, LeaveRoomAt, LeaveRoomCode;
    var e1, u := e.(cursor := e.cursor + 1), Release(s, w);
    OwnRunning(s, w);
    RunningCreates(s, w);
    NextOnCourse(s, w);
    ReleaseStep(s, w);
    match a.command
    case RequestDbCreateRoom => SubmitStep(u, CreateJob(e1));
    case RequestDbLoadMessage => SubmitStep(u, LoadJob(e1, a.room, History.CursorOf(e1.request)));
    case RequestJoinRoom => RouteStep(u, e1.(target := a.room));
    case RequestLeaveRoom => RouteStep(u, e1.(target := a.room));
    case SendResponse => AnswerStep(u, e1);
    case Flush =>
    case DisconnectSession =>
      LeaveStep(u, w, e.fd, e.target);
      LeaveStep(u, w, e.fd, found);
  }

  lemma AnswerStep(s: State, e: Event)
    requires Own(s)
    ensures Own(Respond(s, e)) && Own(Discard(s, e))
  {
    hide Own, OnCourse, Count;
    OwnBound(s);
    FrameStep(s, Respond(s, e));
    FrameStep(s, Discard(s, e));
  }

  lemma WorkStep(s: State, w: WorkerId, found: RoomId)
    requires Own(s) && w in s.running
    ensures Own(Act(s, w, found))
  {
    hide Own, OnCourse, Bound, Creating, Execute, Discard, Respond;
    var e, u := s.running[w], Release(s, w);
    OwnRunning(s, w);
    RunningCreates(s, w);
    if e.cursor >= |e.actions| {
      ReleaseStep(s, w);
      AnswerStep(u, e);
    } else if Failed(e.result) {
      ReleaseStep(s, w);
      AnswerStep(u, e);
    } else {
      var e1, a := e.(cursor := e.cursor + 1), e.actions[e.cursor];
      if a.command.CreateRoom? {
        CreateStep(s, w, e.plan.room, found);
      } else if Local(a.command) {
        LocalStep(s, w, e, a, found);
      } else if a.command.SaveMessage? {
        NextOnCourse(s, w);
        SaveStep(s, w, e1, a, found);
      } else {
        HandOnStep(s, w, e, a, found);
      }
    }
  }

  // ---- the step of the DB thread ----

  ghost predicate Binding(s: State, id: RoomId, w: WorkerId, e: Event) {
    && Own(s) && id !in s.log.home && id != PENDING_ROOM_ID && LOBBY_WORKER_ID < w <= s.n
    && e.plan == PlanCreate(id) && e.cursor == 1
    && OnCourse(s.log.home[id := w], Flight(Crossing(w), e))
  }

  lemma BindMoves(s: State, id: RoomId, w: WorkerId, e: Event)
    requires Binding(s, id, w, e)
    ensures Moved(s, Hand(Bind(s, id, w), HandJob(e, w)), Nothing, Some(Flight(Crossing(w), e)))
    ensures Count(s, Flight(Crossing(w), e)) == 0
    ensures id !in s.bindings
  {
    hide Count;
    SameFlights(s, Bind(s, id, w));
    HandFlights(Bind(s, id, w), HandJob(e, w));
    NotYetCreating(s, Flight(Crossing(w), e), id);
  }

  lemma BindOnCourse(s: State, id: RoomId, w: WorkerId, e: Event)
    requires Binding(s, id, w, e)
    ensures var t := Hand(Bind(s, id, w), HandJob(e, w)); Bound(t) && AllOnCourse(t) && Housed(t)
  {
    hide Count, OnCourse, Pending;
    BindMoves(s, id, w, e);
    var t, f := Hand(Bind(s, id, w), HandJob(e, w)), Flight(Crossing(w), e);
    BindBound(s, id, w, e);
    hide Bound, Housed, Hand, Bind;
    forall g | In(t, g) ensures OnCourse(t.log.home, g) {
      if g != f { assert In(s, g); OnCourseGrows(s.log.home, t.log.home, g); }
    }
  }

  lemma BindBound(s: State, id: RoomId, w: WorkerId, e: Event)
    requires Bound(s) && Housed(s) && id !in s.log.home && id != PENDING_ROOM_ID && LOBBY_WORKER_ID < w <= s.n
    ensures var t := Hand(Bind(s, id, w), HandJob(e, w)); Bound(t) && Housed(t) && t.log.home == s.log.home[id := w]
  {}

  lemma BindCreates(s: State, id: RoomId, w: WorkerId, e: Event, g: Flight, q: RoomId)
    requires Binding(s, id, w, e) && In(Hand(Bind(s, id, w), HandJob(e, w)), g) && Creating(g, q)
    ensures Count(Hand(Bind(s, id, w), HandJob(e, w)), g) == 1
    ensures if g == Flight(Crossing(w), e) then q == id
            else In(s, g) && q != id && q in s.bindings && Key(s.bindings[q], q) !in s.rooms
  {
    hide Count;
    BindMoves(s, id, w, e);
    if g != Flight(Crossing(w), e) { assert In(s, g); }
  }

  lemma BindComing(s: State, id: RoomId, w: WorkerId, e: Event, q: RoomId)
    requires Binding(s, id, w, e) && (q == id || CreateComing(s, q))
    ensures CreateComing(Hand(Bind(s, id, w), HandJob(e, w)), q)
  {
    hide Count;
    BindMoves(s, id, w, e);
    var t := Hand(Bind(s, id, w), HandJob(e, w));
    if q == id {
      assert In(t, Flight(Crossing(w), e)) && Creating(Flight(Crossing(w), e), id);
    } else {
      var g :| In(s, g) && Creating(g, q);
      assert In(t, g);
    }
  }

  /** A fresh id is bound while its CREATE is still in the hands of the DB thread. */
  lemma BindStep(s: State, id: RoomId, w: WorkerId, e: Event)
    requires Binding(s, id, w, e)
    ensures Own(Hand(Bind(s, id, w), HandJob(e, w)))
  {
    hide Count;
    var t := Hand(Bind(s, id, w), HandJob(e, w));
    BindMoves(s, id, w, e);
    BindOnCourse(s, id, w, e);
    hide OnCourse, AllOnCourse, Bound, CreateComing;
    forall q | q == id || CreateComing(s, q) ensures CreateComing(t, q) { BindComing(s, id, w, e, q); }
    forall g, q | In(t, g) && Creating(g, q)
      ensures q in t.bindings && Key(t.bindings[q], q) !in t.rooms && Count(t, g) == 1
    {
      BindCreates(s, id, w, e, g, q);
    }
    forall g, h, q | In(t, g) && In(t, h) && Creating(g, q) && Creating(h, q) ensures g == h {
      BindCreates(s, id, w, e, g, q);
      BindCreates(s, id, w, e, h, q);
    }
  }

  lemma NotYetCreating(s: State, f: Flight, id: RoomId)
    requires Own(s) && Creating(f, id) && id !in s.log.home
    ensures Count(s, f) == 0
  {
    hide Count;
    assert In(s, f) ==> id in s.bindings;
  }

  lemma PopStep(s: State)
    requires Own(s) && s.jobs != []
    requires s.jobs[0].SaveJob? || !s.jobs[0].event.plan.PlanCreate? || s.jobs[0].event.plan.room == PENDING_ROOM_ID
    ensures Own(s.(jobs := s.jobs[1..]))
  {
    hide Own, OnCourse, Count;
    OwnBound(s);
    var t := s.(jobs := s.jobs[1..]);
    PopJobFlights(s);
    if s.jobs[0].SaveJob? {
      QuietStep(s, t, Nothing, Nothing);
    } else {
      HeadIsIn(s);
      QuietStep(s, t, Some(Flight(JobPlace(s.jobs[0]), s.jobs[0].event)), Nothing);
    }
  }

  lemma ResolvedOnCourse(home: map<RoomId, WorkerId>, e: Event, id: RoomId, w: WorkerId)
    requires OnCourse(home, Flight(AwaitsRoom, e)) && LOBBY_ROOM_ID in home
    requires id != PENDING_ROOM_ID && id != LOBBY_ROOM_ID
    ensures OnCourse(home[id := w], Flight(Crossing(w), Resolved(e, id)))
    ensures e.plan == PlanCreate(PENDING_ROOM_ID) && e.cursor == 1
  {
    ResolveCreate(id);
  }

  lemma RefusedOnCourse(s: State, e: Event)
    requires Bound(s) && OnCourse(s.log.home, Flight(AwaitsRoom, e))
    ensures OnCourse(s.log.home, Flight(Queued(LOBBY_WORKER_ID), Report(e, DbError).(hops := e.hops + 1)))
    ensures e.plan == PlanCreate(PENDING_ROOM_ID)
  {}

  lemma LoadedOnCourse(s: State, e: Event, room: RoomId, before: int64, o: DbOutcome)
    requires Bound(s) && OnCourse(s.log.home, Flight(AwaitsHistory(room, before), e))
    requires OutcomeOk(s, LoadJob(e, room, before), o)
    ensures var e' := LoadResult(s, e, room, before, o);
            && e'.target == room && e'.plan == e.plan && !e.plan.PlanCreate?
            && (FindWorker(s, room) != 0 ==>
                  OnCourse(s.log.home, Flight(Queued(FindWorker(s, room)), e'.(hops := e'.hops + 1))))
  {
    match e.plan
    case PlanJoin(_) =>
    case PlanLoad(_) =>
  }

  lemma FinishSave(s: State, o: DbOutcome)
    requires Own(s) && s.jobs != [] && s.jobs[0].SaveJob?
    ensures Own(FinishJob(s, o))
  {
    hide Own;
    OwnBound(s);
    PopStep(s);
    FrameStep(s.(jobs := s.jobs[1..]), FinishJob(s, o));
  }

  lemma FinishCreate(s: State, o: DbOutcome)
    requires Own(s) && s.jobs != [] && OutcomeOk(s, s.jobs[0], o) && s.jobs[0].CreateJob?
    ensures Own(FinishJob(s, o))
  {
    hide Own, OnCourse, Creating, Bind, Post, Hand, Report, Resolved, Count;
    var t, e := s.(jobs := s.jobs[1..]), s.jobs[0].event;
    OwnBound(s);
    HeadIsIn(s);
    OwnFlight(s, Flight(AwaitsRoom, e));
    RefusedOnCourse(s, e);
    PopStep(s);
    if o.Created? {
      FinishCreated(t, e, o.id, o.worker);
    } else {
      FinishRefused(t, e);
    }
  }

  lemma FinishCreated(s: State, e: Event, id: RoomId, w: WorkerId)
    requires Own(s) && OnCourse(s.log.home, Flight(AwaitsRoom, e))
    requires id !in s.log.home && id != PENDING_ROOM_ID && LOBBY_WORKER_ID < w <= s.n
    ensures Own(Hand(Bind(s, id, w), HandJob(Resolved(e, id), w)))
  {
    hide Own, OnCourse, Bind, Hand;
    OwnBound(s);
    ResolvedOnCourse(s.log.home, e, id, w);
    BindStep(s, id, w, Resolved(e, id));
  }

  lemma HandedOnCourse(s: State, w: WorkerId, e: Event)
    requires Bound(s) && OnCourse(s.log.home, Flight(Crossing(w), e))
    ensures 1 <= w <= s.n && OnCourse(s.log.home, Flight(Queued(w), e.(hops := e.hops + 1)))
  {}

  /** The CREATE of a bound room reaches the room's worker. */
  lemma FinishHand(s: State, o: DbOutcome)
    requires Own(s) && s.jobs != [] && s.jobs[0].HandJob?
    ensures Own(FinishJob(s, o))
  {
    hide Own, OnCourse, Count;
    var e, w := s.jobs[0].event, s.jobs[0].worker;
    var u, g := s.(jobs := s.jobs[1..]), Flight(Queued(w), e.(hops := e.hops + 1));
    OwnBound(s);
    HeadIsIn(s);
    OwnFlight(s, Flight(Crossing(w), e));
    HandedOnCourse(s, w, e);
    PopJobFlights(s);
    PostFlights(u, w, g.event);
    QuietStep(s, Post(u, w, g.event), Some(Flight(Crossing(w), e)), Some(g));
  }

  lemma FinishRefused(s: State, e: Event)
    requires Own(s) && OnCourse(s.log.home, Flight(AwaitsRoom, e))
    ensures Own(Post(s, LOBBY_WORKER_ID, Report(e, DbError).(hops := e.hops + 1)))
  {
    hide Own, OnCourse, Post;
    OwnBound(s);
    RefusedOnCourse(s, e);
    PostStep(s, LOBBY_WORKER_ID, Report(e, DbError).(hops := e.hops + 1));
  }

  lemma FinishLoad(s: State, o: DbOutcome)
    requires Own(s) && s.jobs != [] && OutcomeOk(s, s.jobs[0], o) && s.jobs[0].LoadJob?
    ensures Own(FinishJob(s, o))
  {
    hide Own, OnCourse, LoadResult, Route, Count, OutcomeOk;
    var e, room, before := s.jobs[0].event, s.jobs[0].room, s.jobs[0].before;
    OwnBound(s);
    HeadIsIn(s);
    OwnFlight(s, Flight(AwaitsHistory(room, before), e));
    LoadedOnCourse(s, e, room, before, o);
    PopStep(s);
    RouteStep(s.(jobs := s.jobs[1..]), LoadResult(s, e, room, before, o));
  }

  // ---- every run ----

  lemma InitOwn(n: nat)
    requires n >= 1
    ensures Own(Init(n))
  {
    forall f ensures Count(Init(n), f) == 0 { EmptyCount(Init(n), n, f); }
  }

  lemma {:induction false} EmptyCount(s: State, n: nat, f: Flight)
    requires s.running == map[] && forall w | w in s.queues :: s.queues[w] == []
    ensures WorkerCount(s, n, f) == 0
  {
    if n > 0 { EmptyCount(s, n - 1, f); }
  }

  lemma LookStep(s: State, w: WorkerId, fd: Fd)
    requires Own(s) && w in s.casts
    ensures Own(LookAt(s, w, fd))
  {
    hide Own, OnCourse, Count;
    OwnBound(s);
    FrameStep(s, LookAt(s, w, fd));
  }

  lemma GiveStep(s: State, w: WorkerId)
    requires Own(s) && w in s.casts && s.casts[w].chosen.Some?
    ensures Own(GiveTo(s, w))
  {
    hide Own, OnCourse, Count;
    OwnBound(s);
    FrameStep(s, GiveTo(s, w));
  }

  /** Every step of every thread, whatever clients ask for, keeps ownership. */
  lemma StepKeepsOwn(s: State, step: Step)
    requires Own(s) && Enabled(s, step)
    ensures Own(Apply(s, step))
  {
    hide Own, AcceptClient, Dispatch, RequestFlush, CloseSession, Take, Act, LookAt, GiveTo, FinishJob;
    match step
    case Accept(fd, id, garbage) => AcceptStep(s, fd, id, garbage);
    case Ask(fd, cmd, room, body) => AskStep(s, fd, cmd, room, body);
    case Tick(fd, garbage) => TickStep(s, fd, garbage);
    case Close(fd, garbage) => CloseStep(s, fd, garbage);
    case Start(w, k) => StartStep(s, w, k);
    case Work(w, found) => WorkStep(s, w, found);
    case Look(w, fd) => LookStep(s, w, fd);
    case Give(w) => GiveStep(s, w);
    case Query(o) =>
      match s.jobs[0] {
        case SaveJob(_, _, _, _) => FinishSave(s, o);
        case CreateJob(_) => FinishCreate(s, o);
        case HandJob(_, _) => FinishHand(s, o);
        case LoadJob(_, _, _) => FinishLoad(s, o);
      }
  }

  /** A worker only ever removes bindings. */
  predicate OnlyUnbinds(s: State, t: State) {
    && t.log.home == s.log.home && t.n == s.n
    && forall r | r in t.bindings :: r in s.bindings && t.bindings[r] == s.bindings[r]
  }

  lemma RouteUnbinds(s: State, e: Event)
    ensures OnlyUnbinds(s, Route(s, e))
  {
    if FindWorker(s, e.target) == 0 { assert Route(s, e) == Discard(s, e); }
    else { assert Route(s, e) == Post(s, FindWorker(s, e.target), e.(hops := e.hops + 1)); }
  }

  lemma EffectUnbinds(s: State, w: WorkerId, e: Event, a: Action)
    requires Local(a.command)
    ensures OnlyUnbinds(s, Effect(s, w, e, a))
  {
    hide CreateRoomAt, JoinRoomAt, LeaveRoomAt, BroadcastAt;
    CreateKeeps(s, w, a.room);
    JoinKeeps(s, w, e.fd, a.room);
    LeaveUnbinds(s, w, e.fd, a.room);
    BroadcastKeeps(s, w, e.fd, a.room, e.request, e.origin);
  }

  lemma SettleUnbinds(s: State, w: WorkerId, e: Event, c: Code)
    ensures OnlyUnbinds(s, Settle(s, w, e, c))
  {
    if c == Success {} else { assert OnlyUnbinds(s, CleanUp(s, e)); }
  }

  lemma LeaveUnbinds(s: State, w: WorkerId, fd: Fd, room: RoomId)
    ensures OnlyUnbinds(s, LeaveRoomAt(s, w, fd, room))
  {
    if LeaveRoomCode(s, w, fd, room) == Success {}
  }

  lemma LocalUnbinds(s: State, w: WorkerId, e: Event, a: Action, found: RoomId)
    requires Local(a.command)
    ensures OnlyUnbinds(s, Execute(s, w, e, a, found))
  {
    hide Settle, Effect;
    EffectUnbinds(s, w, e, a);
    SettleUnbinds(Effect(s, w, e, a), w, Marked(s, e, a), CodeAt(s, w, e, a));
  }

  lemma DisconnectUnbinds(s: State, w: WorkerId, fd: Fd, room: RoomId, found: RoomId)
    ensures OnlyUnbinds(s, DisconnectAt(s, w, fd, room, found))
  {
    hide LeaveRoomAt;
    LeaveUnbinds(s, w, fd, room);
    LeaveUnbinds(s, w, fd, found);
    if LeaveRoomCode(s, w, fd, room) == Success {} else {}
  }

  lemma SaveUnbinds(s: State, w: WorkerId, e: Event, j: Job)
    ensures OnlyUnbinds(s, Hold(Submit(s, j), w, e)) && OnlyUnbinds(s, Respond(Release(Submit(s, j), w), e))
    ensures OnlyUnbinds(s, Submit(Release(s, w), j)) && OnlyUnbinds(s, Respond(Release(s, w), e))
            && OnlyUnbinds(s, Release(s, w))
    ensures OnlyUnbinds(s, Discard(Release(s, w), e))
  {}

  lemma RerouteUnbinds(s: State, w: WorkerId, e: Event)
    ensures OnlyUnbinds(s, Route(Release(s, w), e))
  {
    hide Route;
    RouteUnbinds(Release(s, w), e);
  }

  lemma QuitUnbinds(s: State, w: WorkerId, e: Event, found: RoomId)
    ensures OnlyUnbinds(s, DisconnectAt(Release(s, w), w, e.fd, e.target, found))
  {
    hide DisconnectAt;
    DisconnectUnbinds(Release(s, w), w, e.fd, e.target, found);
  }

  lemma ExecuteUnbinds(s: State, w: WorkerId, e: Event, a: Action, found: RoomId)
    ensures OnlyUnbinds(s, Execute(s, w, e, a, found))
  {
    hide OnlyUnbinds, Route, DisconnectAt, Submit, Respond, Hold, Release, Settle, Effect, CodeAt, UserIdOf;
    if Local(a.command) {
      hide Execute;
      LocalUnbinds(s, w, e, a, found);
    } else {
      RerouteUnbinds(s, w, e.(target := a.room));
      QuitUnbinds(s, w, e, found);
      SaveUnbinds(s, w, e, SaveJob(a.room, UserIdOf(s, e.fd), e.request, e.mark));
      SaveUnbinds(s, w, e, CreateJob(e));
      SaveUnbinds(s, w, e, LoadJob(e, a.room, History.CursorOf(e.request)));
      match a.command
      case SaveMessage => if e.result == Success {} else {}
      case _ =>
    }
  }

  lemma WorkUnbinds(s: State, w: WorkerId, found: RoomId)
    requires w in s.running
    ensures OnlyUnbinds(s, Act(s, w, found))
  {
    hide Execute, OnlyUnbinds, Respond, Discard, Release;
    var e := s.running[w];
    SaveUnbinds(s, w, e, CreateJob(e));
    if e.cursor >= |e.actions| {
    } else if Failed(e.result) {
    } else {
      ExecuteUnbinds(s, w, e.(cursor := e.cursor + 1), e.actions[e.cursor], found);
    }
  }

  /** Bindings are write-once: kept, dropped for good, or new for an id that was never bound. */
  ghost predicate WriteOnce(s: State, t: State) {
    && t.n == s.n && Grows(s.log.home, t.log.home)
    && forall r | r in t.bindings :: (r in s.bindings && t.bindings[r] == s.bindings[r]) || r !in s.log.home
  }

  lemma QueryBinds(s: State, o: DbOutcome)
    requires s.jobs != [] && OutcomeOk(s, s.jobs[0], o)
    ensures WriteOnce(s, FinishJob(s, o))
  {
    hide Route;
    match s.jobs[0]
    case SaveJob(_, _, _, _) => if o.Saved? {} else {}
    case CreateJob(_) => if o.Created? {} else {}
    case HandJob(_, _) =>
    case LoadJob(e, room, before) => RouteUnbinds(s.(jobs := s.jobs[1..]), LoadResult(s, e, room, before, o));
  }

  lemma StepWritesOnce(s: State, step: Step)
    requires Enabled(s, step)
    ensures WriteOnce(s, Apply(s, step))
  {
    hide Act, FinishJob, Route;
    match step
    case Accept(_, _, _) =>
    case Ask(_, _, _, _) =>
    case Tick(fd, garbage) =>
      if fd in s.users { RouteUnbinds(s, FlushEvent(fd, s.users[fd].room, garbage)); }
    case Close(fd, garbage) =>
      var t := Route(s, DepartEvent(fd, s.users[fd].room, garbage));
      RouteUnbinds(s, DepartEvent(fd, s.users[fd].room, garbage));
      RouteUnbinds(t, DepartEvent(fd, LOBBY_ROOM_ID, garbage));
      if s.users[fd].room != LOBBY_ROOM_ID {}
    case Start(_, _) =>
    case Work(w, found) => WorkUnbinds(s, w, found);
    case Look(_, _) =>
    case Give(_) =>
    case Query(o) => QueryBinds(s, o);
  }

  lemma {:induction false} RunOwns(states: seq<State>, steps: seq<Step>, n: nat, i: nat)
    requires Run(states, steps, n) && i < |states|
    ensures Own(states[i])
  {
    hide Own, Enabled, Apply, Init;
    if i == 0 {
      InitOwn(n);
    } else {
      RunOwns(states, steps, n, i - 1);
      assert Next(states[i - 1], steps[i - 1], states[i]);
      StepKeepsOwn(states[i - 1], steps[i - 1]);
    }
  }

  lemma WriteOnceSelf(s: State)
    ensures WriteOnce(s, s)
  {}

  lemma WriteOnceTrans(s: State, t: State, u: State)
    requires WriteOnce(s, t) && WriteOnce(t, u) && Bound(t)
    ensures WriteOnce(s, u)
  {}

  lemma {:induction false} RunWritesOnce(states: seq<State>, steps: seq<Step>, n: nat, i: nat, j: nat)
    requires Run(states, steps, n) && i <= j < |states|
    ensures WriteOnce(states[i], states[j])
  {
    hide Own, Bound, WriteOnce, Enabled, Apply, Init;
    if i == j {
      WriteOnceSelf(states[i]);
    } else {
      RunWritesOnce(states, steps, n, i, j - 1);
      assert Next(states[j - 1], steps[j - 1], states[j]);
      StepWritesOnce(states[j - 1], steps[j - 1]);
      RunOwns(states, steps, n, j - 1);
      OwnBound(states[j - 1]);
      WriteOnceTrans(states[i], states[j - 1], states[j]);
    }
  }

  /**
    At any moment of any run: one owner per room, the lobby worker has the lobby and nothing else, bound rooms exist
    or are coming.
   */
  lemma RoomOwnership(states: seq<State>, steps: seq<Step>, n: nat, i: nat)
    requires Run(states, steps, n) && i < |states|
    ensures var s := states[i];
            && (forall k, l | k in s.rooms && l in s.rooms && k.room == l.room :: k == l)
            && (forall k | k in s.rooms :: k.room in s.bindings && s.bindings[k.room] == k.worker)
            && (forall k | k in s.rooms :: k.worker == LOBBY_WORKER_ID <==> k.room == LOBBY_ROOM_ID)
            && LOBBY_ROOM_ID in s.bindings && Key(LOBBY_WORKER_ID, LOBBY_ROOM_ID) in s.rooms
            && (forall r | r in s.bindings :: Key(s.bindings[r], r) in s.rooms || CreateComing(s, r))
  {
    RunOwns(states, steps, n, i);
  }

  /** Once made a binding is never changed, and once dropped it never comes back. */
  lemma BindingsWriteOnce(states: seq<State>, steps: seq<Step>, n: nat, i: nat, j: nat, r: RoomId)
    requires Run(states, steps, n) && i <= j < |states|
    requires r in states[i].log.home
    ensures r in states[j].bindings ==> r in states[i].bindings && states[j].bindings[r] == states[i].bindings[r]
    ensures r in states[i].bindings ==> states[i].bindings[r] == states[i].log.home[r]
  {
    RunWritesOnce(states, steps, n, i, j);
    RunOwns(states, steps, n, i);
    OwnBound(states[i]);
  }

  lemma LocalAtHome(home: map<RoomId, WorkerId>, w: WorkerId, e: Event)
    requires OnCourse(home, Flight(Running(w), e)) && e.cursor < |e.actions| && !Failed(e.result)
    requires Local(e.actions[e.cursor].command)
    ensures e.actions[e.cursor].room in home && home[e.actions[e.cursor].room] == w
  {
    match e.plan
    case PlanCreate(_) => if e.cursor == 1 {} else if e.cursor == 2 {} else {}
    case PlanJoin(_) => if e.cursor == 0 {} else {}
    case PlanLeave(_) => if e.cursor == 0 {} else {}
    case PlanSend(_) =>
    case PlanArrive =>
  }

  /** Whenever a worker is about to run a room action, it is the worker that room was bound to. */
  lemma ActionsRunAtHome(states: seq<State>, steps: seq<Step>, n: nat, i: nat, w: WorkerId)
    requires Run(states, steps, n) && i < |states|
    requires w in states[i].running
    requires var e := states[i].running[w];
             e.cursor < |e.actions| && !Failed(e.result) && Local(e.actions[e.cursor].command)
    ensures var e, s := states[i].running[w], states[i];
            var r := e.actions[e.cursor].room;
            r in s.log.home && s.log.home[r] == w
  {
    hide Own, OnCourse;
    RunOwns(states, steps, n, i);
    OwnRunning(states[i], w);
    LocalAtHome(states[i].log.home, w, states[i].running[w]);
  }

  /**
    In any run the undo of a failed create never happens: no recipe starts with CREATE_ROOM, so the test guarding it
    fails.
   */
  lemma CleanUpIsDead(states: seq<State>, steps: seq<Step>, n: nat, i: nat, w: WorkerId)
    requires Run(states, steps, n) && i < |states| && w in states[i].running
    ensures CleanUp(states[i], states[i].running[w]) == states[i]
  {
    hide Own, OnCourse, CleanUp;
    RunOwns(states, steps, n, i);
    OwnRunning(states[i], w);
    CleanUpNeverRuns(states[i], Flight(Running(w), states[i].running[w]));
  }
}
