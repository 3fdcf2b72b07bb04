/** A whole system of disciplined clients: counters are exact and rooms come and go with their members. */
module Community {
  import opened Bytes
  import opened RoomEvents
  import opened ServerState
  import opened History
  import opened Flights
  import opened Itinerary
  import opened Ownership
  import opened Requests
  import opened Tokens
  import opened Quiescence
  import opened Talk
  import opened Broadcasts
  import opened Places
  import opened Casting
  import opened Rooms
  import opened Presence
  import opened Footing
  import opened Clients
  import opened Membership

  ghost predicate NetOk(n: Net) {
    Ground(n.srv) && Exact(n.srv) && forall fd :: SoloOk(Of(n, fd), fd)
  }

  // ---- every step of the system is a step of each session ----

  /** What a step of the client of `d` is to another session. */
  function Seen(n: Net, d: Fd, step: SoloStep): Option<Step> {
    match step
    case Connect(id, garbage) => Some(Accept(d, id, garbage))
    case Deliver =>
      if d in n.clients && n.clients[d].wire.Some? then
        var a := n.clients[d].wire.value; Some(Ask(d, a.command, a.room, a.body))
      else Nothing
    case Leave(garbage) => Some(Close(d, garbage))
    case _ => Nothing
  }

  lemma SeenByOthers(n: Net, d: Fd, step: SoloStep, fd: Fd)
    requires NetEnabled(n, By(d, step)) && d != fd
    ensures var m := NetApply(n, By(d, step));
            if Seen(n, d, step).Some? then SoloNext(Of(n, fd), fd, Other(Seen(n, d, step).value), Of(m, fd))
            else Of(m, fd) == Of(n, fd)
  {
    hide CloseSession, Dispatch, AcceptClient, Unused, Arrived, Settled;
  }

  lemma OwnStep(n: Net, d: Fd, step: SoloStep)
    requires NetEnabled(n, By(d, step))
    ensures SoloNext(Of(n, d), d, step, Of(NetApply(n, By(d, step)), d))
  {
    hide CloseSession, Dispatch, AcceptClient, Unused, Arrived, Settled;
  }

  lemma ServedStep(n: Net, work: Step, fd: Fd)
    requires NetEnabled(n, Serve(work))
    ensures SoloNext(Of(n, fd), fd, Other(work), Of(NetApply(n, Serve(work)), fd))
  {
    hide Apply, Enabled;
  }

  lemma NextSoloOk(x: Solo, fd: Fd, step: SoloStep, y: Solo)
    requires SoloOk(x, fd) && SoloNext(x, fd, step, y)
    ensures SoloOk(y, fd)
  {
    hide SoloOk, SoloEnabled, SoloApply;
    StepKeepsSolo(x, fd, step);
  }

  lemma EverySession(n: Net, step: NetStep, fd: Fd)
    requires NetEnabled(n, step) && SoloOk(Of(n, fd), fd)
    ensures SoloOk(Of(NetApply(n, step), fd), fd)
  {
    hide SoloOk, SoloNext, NetEnabled, NetApply, Of, Seen;
    var m := NetApply(n, step);
    match step
    case By(d, ss) =>
      if d == fd {
        OwnStep(n, d, ss);
        NextSoloOk(Of(n, fd), fd, ss, Of(m, fd));
      } else {
        SeenByOthers(n, d, ss, fd);
        if Seen(n, d, ss).Some? { NextSoloOk(Of(n, fd), fd, Other(Seen(n, d, ss).value), Of(m, fd)); }
      }
    case Serve(work) =>
      ServedStep(n, work, fd);
      NextSoloOk(Of(n, fd), fd, Other(work), Of(m, fd));
  }

  // ---- counters ----

  /** No session enters a room it is already in. */
  lemma JoinsFresh(n: Net, w: WorkerId, found: RoomId)
    requires NetOk(n) && w in n.srv.running && ChangeOf(n.srv, w, found).Joined?
    ensures ChangeOf(n.srv, w, found).room !in RoomsOf(n.srv, n.srv.running[w].fd)
  {
    hide Ground, Own, Roomy, Distinct, NewRooms, TellsBroadcasts, Count, Exact, Unread, Fits, RoomsOf, OnCourse, Bound;
    hide ChangeOf, NextFlight, FateOf;
    var s, e := n.srv, n.srv.running[w];
    GroundOwns(s);
    assert SoloOk(Of(n, e.fd), e.fd);
    OwnRunning(s, w);
    OwnStaffed(s);
    RunningIsIn(s, w);
    if e.plan.PlanFlush? {
      FlushSilent(s, w, found);
    } else {
      var x, f := Of(n, e.fd), Flight(Running(w), e);
      WhoseFlight(s, e.fd, x.client, x.astray, f);
      if e.plan.PlanDepart? {
        DepartWalks(s, w, found);
      } else if e.plan.PlanArrive? && x.client.Nothing? {
        FleeWalks(s, w, found);
      } else if e.plan.PlanArrive? {
        ArriveWalks(s, w, found);
        ArrivalIsNoRequest(s, w);
      } else {
        Walk(s, w, x.client.value, x.astray, found);
      }
    }
  }

  lemma WorkExact(n: Net, w: WorkerId, found: RoomId)
    requires NetOk(n) && w in n.srv.running
    ensures Exact(Act(n.srv, w, found))
  {
    GroundOwns(n.srv);
    hide Ground, Own, Roomy, Distinct, Act, ChangeOf, RoomsOf, StaysHome;
    if ChangeOf(n.srv, w, found).Joined? { JoinsFresh(n, w, found); }
    WorkShifts(n.srv, w, found);
  }

  lemma ExactKept(n: Net, step: NetStep)
    requires NetOk(n) && NetEnabled(n, step)
    ensures Exact(NetApply(n, step).srv)
  {
    hide Ground, SoloOk, Act;
    if step.Serve? && step.work.Work? {
      WorkExact(n, step.work.w, step.work.found);
    } else {
      QuietRooms(n, step);
      hide NetApply;
    }
  }

  lemma QuietRooms(n: Net, step: NetStep)
    requires NetEnabled(n, step) && !(step.Serve? && step.work.Work?)
    ensures NetApply(n, step).srv.rooms == n.srv.rooms
    ensures forall w | w in n.srv.running ::
              w in NetApply(n, step).srv.running && NetApply(n, step).srv.running[w] == n.srv.running[w]
  {
    hide Route, FinishJob, Arrived, Settled, Unused, PackedWith;
    match step
    case By(fd, ss) =>
      match ss {
        case Connect(_, _) =>
        case Send(_) =>
        case Deliver =>
        case Receive =>
        case Leave(garbage) => CloseFields(n.srv, fd, garbage);
      }
    case Serve(st) =>
      match st {
        case Start(_, _) =>
        case Look(_, _) =>
        case Give(_) =>
        case Tick(fd, garbage) =>
          if fd in n.srv.users { RouteFields(n.srv, FlushEvent(fd, n.srv.users[fd].room, garbage)); }
        case Query(o) => QueryPlaces(n.srv, o); QueryRuns(n.srv, o);
      }
  }

  lemma CloseFields(s: State, fd: Fd, garbage: Command)
    requires fd in s.users
    ensures CloseSession(s, fd, garbage).rooms == s.rooms && CloseSession(s, fd, garbage).running == s.running
  {
    hide Route;
    var room := s.users[fd].room;
    RouteFields(s, DepartEvent(fd, room, garbage));
    RouteFields(Route(s, DepartEvent(fd, room, garbage)), DepartEvent(fd, LOBBY_ROOM_ID, garbage));
    if room != LOBBY_ROOM_ID {} else {}
  }

  lemma StepKeepsNet(n: Net, step: NetStep)
    requires NetOk(n) && NetEnabled(n, step)
    ensures NetOk(NetApply(n, step))
  {
    ExactKept(n, step);
    hide Exact, NetEnabled, NetApply, SessionOk, Ground, NoneLost;
    forall fd ensures SoloOk(Of(NetApply(n, step), fd), fd) { EverySession(n, step, fd); }
    assert SoloOk(Of(NetApply(n, step), 0), 0);
  }

  lemma InitNet(workers: nat)
    requires workers >= 1
    ensures NetOk(Net(Init(workers), map[], map[]))
  {
    InitGround(workers);
    hide Ground, SessionOk, NoneLost;
    forall fd ensures SoloOk(Of(Net(Init(workers), map[], map[]), fd), fd) { InitSolo(workers, fd); }
  }

  lemma {:induction false} RunNet(nets: seq<Net>, steps: seq<NetStep>, workers: nat, i: nat)
    requires NetRun(nets, steps, workers) && i < |nets|
    ensures NetOk(nets[i])
  {
    hide NetOk, NetEnabled, NetApply, Init;
    if i == 0 {
      InitNet(workers);
    } else {
      RunNet(nets, steps, workers, i - 1);
      assert NetNext(nets[i - 1], steps[i - 1], nets[i]);
      StepKeepsNet(nets[i - 1], steps[i - 1]);
    }
  }

  lemma NoneLostFor(n: Net, fd: Fd)
    requires NetOk(n)
    ensures NoneLost(n.srv, fd)
  {
    hide Ground, Exact, SessionOk, NoneLost;
    assert SoloOk(Of(n, fd), fd);
  }

  lemma NothingDropped(n: Net)
    requires NetOk(n)
    ensures n.srv.log.dropped == []
  {
    hide NetOk;
    if n.srv.log.dropped != [] { NoneLostFor(n, n.srv.log.dropped[0].fd); }
  }

  /** No request of anybody is ever lost: each is in flight or answered, and when no work is left answered. */
  lemma NobodyIsLost(nets: seq<Net>, steps: seq<NetStep>, workers: nat, i: nat, tag: nat)
    requires NetRun(nets, steps, workers) && i < |nets| && tag < nets[i].srv.log.issued
    ensures var s := nets[i].srv;
            && s.log.dropped == [] && (IsAnswered(s, tag) <==> !IsInFlight(s, tag))
            && (WorkLeft(s) == 0 ==> IsAnswered(s, tag))
  {
    RunNet(nets, steps, workers, i);
    var s := nets[i].srv;
    NothingDropped(nets[i]);
    hide Own, Tracked, Exact, NewRooms, NetRun, SoloOk, Count, Roomy;
    if WorkLeft(s) == 0 { AtRest(s); }
  }

  // ---- rooms come and go with their members ----

  /** The rooms there are after one iteration. */
  function KeysAfter(s: State, w: WorkerId, found: RoomId): set<Key> {
    var ch := ChangeOf(s, w, found);
    if Executes(s, w) && ActionAt(s, w).command.CreateRoom? then s.rooms.Keys + {Key(w, ActionAt(s, w).room)}
    else if ch.Left? && Key(w, ch.room) in s.rooms && Empties(s, w, ch.room) then s.rooms.Keys - {Key(w, ch.room)}
    else s.rooms.Keys
  }

  lemma LeaveKeys(s: State, w: WorkerId, fd: Fd, room: RoomId)
    ensures LeaveRoomAt(s, w, fd, room).rooms.Keys ==
            if LeaveRoomCode(s, w, fd, room) == Success && Empties(s, w, room) then s.rooms.Keys - {Key(w, room)}
                else s.rooms.Keys
  {
    if LeaveRoomCode(s, w, fd, room) == Success {}
  }

  lemma EffectKeys(s: State, w: WorkerId, e: Event, a: Action)
    requires Local(a.command)
    ensures Effect(s, w, e, a).rooms.Keys ==
            if a.command.CreateRoom? then s.rooms.Keys + {Key(w, a.room)}
            else if a.command.LeaveRoom? && LeaveRoomCode(s, w, e.fd, a.room) == Success && Empties(s, w, a.room)
            then s.rooms.Keys - {Key(w, a.room)}
            else s.rooms.Keys
  {
    hide CreateRoomAt, JoinRoomAt, LeaveRoomAt, BroadcastAt;
    CreateKeeps(s, w, a.room);
    JoinKeeps(s, w, e.fd, a.room);
    LeaveKeys(s, w, e.fd, a.room);
    BroadcastKeeps(s, w, e.fd, a.room, e.request, e.origin);
  }

  lemma LocalKeys(s: State, w: WorkerId, found: RoomId)
    requires Executes(s, w) && Local(ActionAt(s, w).command)
    ensures Act(s, w, found).rooms.Keys == KeysAfter(s, w, found)
  {
    hide Effect, Settle, CodeAt, JoinRoomCode;
    var e, a := s.running[w].(cursor := s.running[w].cursor + 1), ActionAt(s, w);
    EffectKeys(s, w, e, a);
    assert Act(s, w, found) == Settle(Effect(s, w, e, a), w, Marked(s, e, a), CodeAt(s, w, e, a));
    SettlePlaces(Effect(s, w, e, a), w, Marked(s, e, a), CodeAt(s, w, e, a));
  }

  lemma SameCodes(s: State, w: WorkerId, fd: Fd, room: RoomId, found: RoomId)
    ensures LeaveRoomCode(Release(s, w), w, fd, room) == LeaveRoomCode(s, w, fd, room)
    ensures LeaveRoomCode(Release(s, w), w, fd, found) == LeaveRoomCode(s, w, fd, found)
    ensures LeaveRoomCode(s, w, fd, room) == Success ==>
              Key(w, room) in s.rooms && Empties(Release(s, w), w, room) == Empties(s, w, room)
    ensures LeaveRoomCode(s, w, fd, found) == Success ==>
              Key(w, found) in s.rooms && Empties(Release(s, w), w, found) == Empties(s, w, found)
  {}

  lemma QuitKeys(s: State, w: WorkerId, found: RoomId)
    requires Executes(s, w) && ActionAt(s, w).command.DisconnectSession?
    ensures Act(s, w, found).rooms.Keys == KeysAfter(s, w, found)
  {
    hide LeaveRoomAt, LeaveRoomCode, Empties, Effect, Settle, CodeAt, Route, Submit, Respond, JoinRoomCode;
    var e, u := s.running[w], Release(s, w);
    SameCodes(s, w, e.fd, e.target, found);
    LeaveKeys(u, w, e.fd, e.target);
    LeaveKeys(u, w, e.fd, found);
    if LeaveRoomCode(u, w, e.fd, e.target) == Success {} else {}
  }

  lemma PassKeys(s: State, w: WorkerId, found: RoomId)
    requires Executes(s, w) && !Local(ActionAt(s, w).command) && !ActionAt(s, w).command.DisconnectSession?
    ensures Act(s, w, found).rooms == s.rooms && ChangeOf(s, w, found) == Stays
  {
    hide Route, Submit, Respond, Hold, Release, Settle, Effect, UserIdOf;
    var e, a := s.running[w].(cursor := s.running[w].cursor + 1), ActionAt(s, w);
    RerouteSame(s, w, e.(target := a.room));
    PassPlaces(s, w, e, CreateJob(e));
    PassPlaces(s, w, e, LoadJob(e, a.room, CursorOf(e.request)));
    PassPlaces(s, w, e, SaveJob(a.room, UserIdOf(s, e.fd), e.request, e.mark));
  }

  lemma WorkKeys(s: State, w: WorkerId, found: RoomId)
    requires w in s.running
    ensures Act(s, w, found).rooms.Keys == KeysAfter(s, w, found)
  {
    hide Execute, Respond, Discard, Release, JoinRoomCode, LeaveRoomCode;
    if !Executes(s, w) {
      PassPlaces(s, w, s.running[w], CreateJob(s.running[w]));
    } else if Local(ActionAt(s, w).command) {
      LocalKeys(s, w, found);
    } else if ActionAt(s, w).command.DisconnectSession? {
      QuitKeys(s, w, found);
    } else {
      PassKeys(s, w, found);
    }
  }

  lemma LeftIsMember(s: State, w: WorkerId, found: RoomId)
    requires w in s.running && ChangeOf(s, w, found).Left?
    ensures LeaveRoomCode(s, w, s.running[w].fd, ChangeOf(s, w, found).room) == Success
    ensures var k := Key(w, ChangeOf(s, w, found).room); k in s.rooms && s.running[w].fd in s.rooms[k].members
    ensures Executes(s, w) && !ActionAt(s, w).command.CreateRoom?
  {}

  /** The step takes the last member out of room `k`. */
  predicate LastLeaves(s: State, step: NetStep, k: Key) {
    && step.Serve? && step.work.Work? && step.work.w == k.worker && k.worker in s.running && k in s.rooms
    && ChangeOf(s, k.worker, step.work.found) == Left(k.room) && s.rooms[k].members == {s.running[k.worker].fd}
  }

  lemma RunStep(nets: seq<Net>, steps: seq<NetStep>, workers: nat, i: nat)
    requires NetRun(nets, steps, workers) && i < |steps|
    ensures NetNext(nets[i], steps[i], nets[i + 1])
    ensures steps[i].Serve? && steps[i].work.Work? ==>
              steps[i].work.w in nets[i].srv.running && nets[i + 1].srv ==
                  Act(nets[i].srv, steps[i].work.w, steps[i].work.found)
  {
    hide Act, FinishJob, Take, CloseSession, Dispatch, RequestFlush, AcceptClient;
    assert NetNext(nets[i], steps[i], nets[i + 1]);
  }

  /** Counters are exact, and an ordinary room is erased by exactly the step that takes its last member out. */
  lemma ErasedWithLastMember(nets: seq<Net>, steps: seq<NetStep>, workers: nat, i: nat, k: Key)
    requires NetRun(nets, steps, workers) && i < |steps| && k in nets[i].srv.rooms
    ensures nets[i].srv.rooms[k].count == |nets[i].srv.rooms[k].members|
    ensures k.worker != LOBBY_WORKER_ID ==> (k !in nets[i + 1].srv.rooms <==> LastLeaves(nets[i].srv, steps[i], k))
    ensures k.worker == LOBBY_WORKER_ID ==> k in nets[i + 1].srv.rooms
  {
    hide Ground, SoloOk, ChangeOf, NetEnabled, NetApply, Act, LeaveRoomCode, Init;
    RunNet(nets, steps, workers, i);
    RunStep(nets, steps, workers, i);
    var s, step := nets[i].srv, steps[i];
    if step.Serve? && step.work.Work? {
      var w, found := step.work.w, step.work.found;
      WorkKeys(s, w, found);
      var ch := ChangeOf(s, w, found);
      if ch.Left? {
        LeftIsMember(s, w, found);
        LastMember(s, w, s.running[w].fd, ch.room);
      }
    } else {
      QuietRooms(nets[i], step);
    }
  }

  /** An ordinary room without members is one whose creator is about to enter it. */
  ghost predicate Inhabited(s: State) {
    forall k | k in s.rooms && k.worker != LOBBY_WORKER_ID && s.rooms[k].members == {} ::
      k.worker in s.running && s.running[k.worker].plan == PlanCreate(k.room) && s.running[k.worker].cursor == 2
  }

  lemma CreatorEnters(s: State, w: WorkerId, found: RoomId)
    requires Moving(s, w) && NewRooms(s) && s.running[w].fd in s.users
    requires s.running[w].plan.PlanCreate? && s.running[w].cursor == 2
    ensures ChangeOf(s, w, found) == Joined(s.running[w].plan.room)
  {}

  lemma Anyone(m: set<Fd>) returns (d: Fd)
    requires m != {}
    ensures d in m
  {
    assert (forall x :: x !in m) ==> m == {};
    d :| d in m;
  }

  lemma Another(m: set<Fd>, fd: Fd) returns (d: Fd)
    requires fd in m && m != {fd}
    ensures d in m && d != fd
  {
    assert (forall x | x in m :: x == fd) ==> m == {fd};
    d :| d in m && d != fd;
  }

  lemma MemberIn(t: State, d: Fd, k: Key)
    requires Own(t) && k.room in RoomsOf(t, d) && k in t.rooms
    ensures d in t.rooms[k].members
  {
    hide Own;
    RoomAtHome(t, d, k.room);
    OwnDistinct(t);
  }

  lemma CreatorIsUser(n: Net, w: WorkerId)
    requires NetOk(n) && w in n.srv.running && n.srv.running[w].plan.PlanCreate?
    ensures n.srv.running[w].fd in n.srv.users
  {
    var s, fd := n.srv, n.srv.running[w].fd;
    GroundOwns(s);
    var x := Of(n, fd);
    assert SoloOk(x, fd);
    hide Ground, Own, Roomy, Distinct, Count, Exact, Arriving, Flying, Gone, ClientOk;
    OwnStaffed(s);
    RunningIsIn(s, w);
    WhoseFlight(s, fd, x.client, x.astray, Flight(Running(w), s.running[w]));
  }

  lemma StillInhabited(n: Net, w: WorkerId, found: RoomId, k: Key)
    requires NetOk(n) && w in n.srv.running && Inhabited(n.srv) && Own(Act(n.srv, w, found))
    requires k in Act(n.srv, w, found).rooms && k in n.srv.rooms && k.worker == w && w != LOBBY_WORKER_ID
    ensures Act(n.srv, w, found).rooms[k].members != {}
  {
    hide Ground, Own, Roomy, Distinct, NewRooms, TellsBroadcasts, SoloOk, ChangeOf, Act, OnCourse, Bound, LeaveRoomCode;
    hide RoomsOf, StaysHome, KeysAfter;
    var s, t, e := n.srv, Act(n.srv, w, found), n.srv.running[w];
    GroundOwns(s);
    OwnRunning(s, w);
    WorkShifts(s, w, found);
    var ch := ChangeOf(s, w, found);
    if s.rooms[k].members == {} {
      CreatorIsUser(n, w);
      CreatorEnters(s, w, found);
      MemberIn(t, e.fd, k);
    } else if ch == Left(k.room) {
      LeftIsMember(s, w, found);
      NotLast(s, w, found);
      var d := Another(s.rooms[k].members, e.fd);
      InRooms(s, k, d);
      MemberIn(t, d, k);
    } else {
      var d := Anyone(s.rooms[k].members);
      InRooms(s, k, d);
      assert k.room in RoomsOf(t, d);
      MemberIn(t, d, k);
    }
  }

  /** A room that outlives a departure had another member. */
  lemma NotLast(s: State, w: WorkerId, found: RoomId)
    requires Exact(s) && w in s.running && w != LOBBY_WORKER_ID && ChangeOf(s, w, found).Left?
    requires Key(w, ChangeOf(s, w, found).room) in Act(s, w, found).rooms
    ensures Key(w, ChangeOf(s, w, found).room) in s.rooms
    ensures s.rooms[Key(w, ChangeOf(s, w, found).room)].members != {s.running[w].fd}
  {
    hide Act, ChangeOf, LeaveRoomCode;
    WorkKeys(s, w, found);
    LeftIsMember(s, w, found);
    LastMember(s, w, s.running[w].fd, ChangeOf(s, w, found).room);
  }

  lemma CreateStarts(s: State, w: WorkerId)
    requires Moving(s, w) && Executes(s, w) && ActionAt(s, w).command.CreateRoom?
    ensures s.running[w].plan == PlanCreate(ActionAt(s, w).room) && s.running[w].cursor == 1
  {
    match s.running[w].plan
    case PlanCreate(_) => if s.running[w].cursor == 0 {} else {}
    case _ =>
  }

  lemma JustCreated(s: State, w: WorkerId)
    requires Own(s) && Moving(s, w) && Executes(s, w) && ActionAt(s, w).command.CreateRoom?
    ensures w in RunningAfter(s, w)
    ensures RunningAfter(s, w)[w].plan == PlanCreate(ActionAt(s, w).room) && RunningAfter(s, w)[w].cursor == 2
  {
    hide Own, Act, OnCourse, Bound, Creating;
    RunningCreates(s, w);
    CreateStarts(s, w);
    CreateMoves(s, w, s.running[w].plan.room, 0);
  }

  lemma WorkInhabited(n: Net, w: WorkerId, found: RoomId)
    requires NetOk(n) && w in n.srv.running && Inhabited(n.srv) && Own(Act(n.srv, w, found))
    ensures Inhabited(Act(n.srv, w, found))
  {
    hide Ground, Own, Roomy, Distinct, NewRooms, TellsBroadcasts, SoloOk, ChangeOf, Act, NextFlight, OnCourse, Bound,
         Exact;
    var s, t := n.srv, Act(n.srv, w, found);
    GroundOwns(s);
    OwnRunning(s, w);
    WorkStaysHome(s, w, found);
    WorkKeys(s, w, found);
    if Executes(s, w) && ActionAt(s, w).command.SaveMessage? { SaveSucceeds(s, w); }
    WorkRuns(s, w, found);
    forall k | k in t.rooms && k.worker != LOBBY_WORKER_ID && t.rooms[k].members == {}
      ensures k.worker in t.running && t.running[k.worker].plan == PlanCreate(k.room) && t.running[k.worker].cursor == 2
    {
      if k.worker != w {
        assert k in s.rooms;
      } else if k in s.rooms {
        StillInhabited(n, w, found, k);
      } else {
        JustCreated(s, w);
      }
    }
  }

  lemma InitInhabited(workers: nat)
    ensures Inhabited(Init(workers))
  {}

  lemma NetOwns(n: Net)
    requires NetOk(n)
    ensures Own(n.srv)
  {
    hide Roomy, NewRooms, TellsBroadcasts, Exact, SoloOk;
  }

  lemma QuietInhabited(n: Net, step: NetStep, m: Net)
    requires NetNext(n, step, m) && !(step.Serve? && step.work.Work?) && Inhabited(n.srv)
    ensures Inhabited(m.srv)
  {
    QuietRooms(n, step);
    hide NetEnabled, NetApply;
  }

  lemma {:induction false} RunInhabited(nets: seq<Net>, steps: seq<NetStep>, workers: nat, i: nat)
    requires NetRun(nets, steps, workers) && i < |nets|
    ensures Inhabited(nets[i].srv)
  {
    hide NetOk, Own, Inhabited, NetNext, NetEnabled, NetApply, Act, Init;
    if i == 0 {
      InitInhabited(workers);
    } else {
      RunInhabited(nets, steps, workers, i - 1);
      RunNet(nets, steps, workers, i - 1);
      RunNet(nets, steps, workers, i);
      RunStep(nets, steps, workers, i - 1);
      var n, step := nets[i - 1], steps[i - 1];
      if step.Serve? && step.work.Work? {
        NetOwns(nets[i]);
        WorkInhabited(n, step.work.w, step.work.found);
      } else {
        QuietInhabited(n, step, nets[i]);
      }
    }
  }

  /** Ordinary rooms are never left over: one without members is being entered by its creator. */
  lemma NoEmptyRooms(nets: seq<Net>, steps: seq<NetStep>, workers: nat, i: nat, k: Key)
    requires NetRun(nets, steps, workers) && i < |nets| && k in nets[i].srv.rooms && k.worker != LOBBY_WORKER_ID
    ensures var s := nets[i].srv;
            s.rooms[k].members != {}
            || (k.worker in s.running && s.running[k.worker].plan == PlanCreate(k.room)
                && s.running[k.worker].cursor == 2)
  {
    hide NetRun;
    RunInhabited(nets, steps, workers, i);
  }
}
