/** What a disciplined client and the server agree on, in every run, whatever other clients do. */
module Agreement {
  import opened Bytes
  import opened RoomEvents
  import opened ServerState
  import opened History
  import opened Flights
  import opened Itinerary
  import opened Ownership
  import opened Requests
  import opened Tokens
  import opened Quiescence
  import opened Talk
  import opened Broadcasts
  import opened Places
  import opened Casting
  import opened Rooms
  import opened Presence
  import opened Footing
  import opened Clients
  import opened Membership
  import opened Lines

  /** The rooms, worker by worker, that have the session as a member. */
  function Seats(s: State, fd: Fd): set<Key> {
    set k | k in s.rooms && fd in s.rooms[k].members
  }

  lemma SeatsOf(s: State, fd: Fd, r: RoomId)
    requires Own(s) && RoomsOf(s, fd) == {r}
    ensures r in s.bindings && Seats(s, fd) == {Key(s.bindings[r], r)}
  {
    hide Own;
    RoomAtHome(s, fd, r);
    OwnDistinct(s);
    forall k | k in Seats(s, fd) ensures k == Key(s.bindings[r], r) { assert k.room in RoomsOf(s, fd); }
  }

  /** The client has been connected from moment `j` to moment `i`. */
  predicate Present(xs: seq<Solo>, j: nat, i: nat)
    requires i < |xs|
  {
    forall k | j <= k <= i :: xs[k].client.Some?
  }

  /** Once let in, a session stays in some room as long as its client is connected. */
  lemma {:induction false} StaysSettled(xs: seq<Solo>, steps: seq<SoloStep>, fd: Fd, workers: nat, j: nat, i: nat)
    requires SoloRun(xs, steps, fd, workers) && j <= i < |xs| && Present(xs, j, i) && Settled(xs[j].srv, fd)
    ensures Settled(xs[i].srv, fd) && Seated(xs[i].srv, fd, xs[i].client.value, xs[i].astray)
  {
    hide Ground, Seated, Settled, SoloEnabled, SoloApply, Init, NoneLost;
    RunSolo(xs, steps, fd, workers, i);
    if j < i {
      StaysSettled(xs, steps, fd, workers, j, i - 1);
      RunSolo(xs, steps, fd, workers, i - 1);
      assert SoloNext(xs[i - 1], fd, steps[i - 1], xs[i]);
      NoLeave(xs[i - 1], fd, steps[i - 1], xs[i]);
      StepKeepsSolo(xs[i - 1], fd, steps[i - 1]);
    }
    SettledIsSeated(xs[i].srv, fd, xs[i].client.value, xs[i].astray);
  }

  lemma NoLeave(x: Solo, fd: Fd, step: SoloStep, y: Solo)
    requires SoloNext(x, fd, step, y) && y.client.Some?
    ensures !step.Leave?
  {
    hide CloseSession, Dispatch, AcceptClient, Apply;
  }

  /**
    From the moment a session has been let in, whenever its client has no open request and was not led astray, the
    session is in exactly one room of all workers: its user's current room and the client's own view.
   */
  lemma IdleAgreement(xs: seq<Solo>, steps: seq<SoloStep>, fd: Fd, workers: nat, j: nat, i: nat)
    requires SoloRun(xs, steps, fd, workers) && j <= i < |xs| && Present(xs, j, i) && Settled(xs[j].srv, fd)
    requires xs[i].client.value.pending.Nothing? && xs[i].astray.Nothing?
    ensures var s, r := xs[i].srv, RoomOf(xs[i].client.value.view);
            && r in s.bindings && Seats(s, fd) == {Key(s.bindings[r], r)}
            && fd in s.users && s.users[fd].room == r
  {
    RunSolo(xs, steps, fd, workers, i);
    GroundOwns(xs[i].srv);
    StaysSettled(xs, steps, fd, workers, j, i);
    hide Ground, Own, Roomy, Distinct, SoloRun, Settled, NoFlights, Unread, MayAsk, RoomsOf;
    assert Resting(xs[i].srv, fd, xs[i].client.value, xs[i].astray);
    SeatsOf(xs[i].srv, fd, RoomOf(xs[i].client.value.view));
  }

  /** The event has done its JOIN and still has its LEAVE to do. */
  predicate BetweenJoinAndLeave(e: Event) {
    exists i, j ::
      0 <= i < e.cursor <= j < |e.actions| && e.actions[i].command.JoinRoom? && e.actions[j].command.LeaveRoom?
  }

  lemma BetweenSpot(home: map<RoomId, WorkerId>, f: Flight, v: View, a: Asked, astray: Option<RoomId>)
    requires OnCourse(home, f) && Fits(f.event, v, a, astray) && ViewOk(v)
    ensures var spot := SpotOf(f.event, v);
            && spot.current in spot.rooms
            && if BetweenJoinAndLeave(f.event) then |spot.rooms| == 2 && LOBBY_ROOM_ID in spot.rooms
               else |spot.rooms| == 1
  {
    var e := f.event;
    match e.plan
    case PlanCreate(r) =>
      if 3 <= e.cursor <= 4 { assert e.actions[2].command.JoinRoom? && e.actions[4].command.LeaveRoom?; }
    case PlanJoin(r) =>
      if 1 <= e.cursor <= 2 { assert e.actions[0].command.JoinRoom? && e.actions[2].command.LeaveRoom?; }
    case PlanLeave(r) =>
      if 1 <= e.cursor <= 2 { assert e.actions[0].command.JoinRoom? && e.actions[2].command.LeaveRoom?; }
    case _ =>
  }

  /** The session's own event is in the middle of a move. */
  ghost predicate MidMove(s: State, fd: Fd) {
    exists f :: In(s, f) && Mine(f, fd) && BetweenJoinAndLeave(f.event)
  }

  /**
    From the moment a session has been let in it is in one or two rooms in every state, its current room is one of
    them, and it is in two exactly between the JOIN and the LEAVE of its own move.
   */
  lemma AlwaysPlaced(xs: seq<Solo>, steps: seq<SoloStep>, fd: Fd, workers: nat, j: nat, i: nat)
    requires SoloRun(xs, steps, fd, workers) && j <= i < |xs| && Present(xs, j, i) && Settled(xs[j].srv, fd)
    ensures var s := xs[i].srv;
            && fd in s.users && s.users[fd].room in RoomsOf(s, fd) && 1 <= |RoomsOf(s, fd)| <= 2
            && (|RoomsOf(s, fd)| == 2 <==> MidMove(s, fd))
  {
    RunSolo(xs, steps, fd, workers, i);
    GroundOwns(xs[i].srv);
    StaysSettled(xs, steps, fd, workers, j, i);
    hide Ground, Own, Roomy, Distinct, SoloRun, Settled;
    SeatedPlaced(xs[i].srv, fd, xs[i].client.value, xs[i].astray);
  }

  lemma SeatedPlaced(s: State, fd: Fd, c: Client, a: Option<RoomId>)
    requires Own(s) && Attached(s, fd, c) && Seated(s, fd, c, a)
    ensures fd in s.users && s.users[fd].room in RoomsOf(s, fd) && 1 <= |RoomsOf(s, fd)| <= 2
    ensures |RoomsOf(s, fd)| == 2 <==> MidMove(s, fd)
  {
    hide Own, RoomsOf, Count, OnCourse, Fits, SpotOf, Unread, MayAsk, BetweenJoinAndLeave;
    if f :| Flying(s, fd, c, a, f) {
      assert In(s, f);
      OwnFlight(s, f);
      BetweenSpot(s.log.home, f, c.view, c.pending.value, a);
      assert forall g | In(s, g) && Mine(g, fd) :: g == f;
    } else {
      assert forall g | In(s, g) :: !Mine(g, fd);
    }
  }

  /**
    No request of the client is ever lost. While it has one open that has left the wire, there is exactly one event of
    it or one unread answer, and when no work is left the answer is there.
   */
  lemma NothingIsLost(xs: seq<Solo>, steps: seq<SoloStep>, fd: Fd, workers: nat, i: nat)
    requires SoloRun(xs, steps, fd, workers) && i < |xs|
    ensures forall k | 0 <= k < |xs[i].srv.log.dropped| :: xs[i].srv.log.dropped[k].fd != fd
    ensures WorkLeft(xs[i].srv) == 0 && xs[i].client.Some? ==>
              var c := xs[i].client.value;
              c.pending.Some? && c.wire.Nothing? ==> |Unread(xs[i].srv, fd, c.read)| == 1
  {
    RunSolo(xs, steps, fd, workers, i);
    hide Ground, SoloRun, Count, RoomsOf, Unread, Fits, SpotOf;
    if WorkLeft(xs[i].srv) == 0 {
      AtRest(xs[i].srv);
      hide WorkLeft;
      if xs[i].client.Some? && xs[i].client.value.pending.Some? {
        NoFlightAtRest(xs[i].srv, fd, xs[i].client.value, xs[i].astray);
      }
    }
  }

  lemma NoFlightAtRest(s: State, fd: Fd, c: Client, a: Option<RoomId>)
    requires ClientOk(s, fd, c, a) && c.pending.Some? && forall f :: !In(s, f)
    ensures Resting(s, fd, c, a) || Replying(s, fd, c, a)
  {
    hide Count, RoomsOf, Unread, Fits, SpotOf;
    forall f ensures !Flying(s, fd, c, a, f) && !Arriving(s, fd, c, a, f) { assert !In(s, f); }
  }

  /**
    A client with an open request waits for exactly one thing: the request on the wire, one event, or one unread
    answer.
   */
  lemma OneThingOpen(xs: seq<Solo>, steps: seq<SoloStep>, fd: Fd, workers: nat, i: nat)
    requires SoloRun(xs, steps, fd, workers) && i < |xs| && xs[i].client.Some? && xs[i].client.value.pending.Some?
    ensures var s, c := xs[i].srv, xs[i].client.value;
            var unread, cmd := Unread(s, fd, c.read), c.pending.value.command;
            || (c.wire == c.pending && NoFlights(s, fd) && unread == [])
            || (c.wire.Nothing? && unread == [] && exists f :: OnlyFlight(s, fd, f) && f.event.initial == cmd)
            || (c.wire.Nothing? && NoFlights(s, fd) && |unread| == 1 && unread[0].Response? && unread[0].command == cmd)
  {
    RunSolo(xs, steps, fd, workers, i);
    hide Ground, SoloRun, ClientOk, InFile, Unread, NoFlights, OnlyFlight;
    OneOpen(xs[i].srv, fd, xs[i].client.value, xs[i].astray);
  }

  lemma OneOpen(s: State, fd: Fd, c: Client, a: Option<RoomId>)
    requires ClientOk(s, fd, c, a) && c.pending.Some?
    ensures var unread, cmd := Unread(s, fd, c.read), c.pending.value.command;
            || (c.wire == c.pending && NoFlights(s, fd) && unread == [])
            || (c.wire.Nothing? && unread == [] && exists f :: OnlyFlight(s, fd, f) && f.event.initial == cmd)
            || (c.wire.Nothing? && NoFlights(s, fd) && |unread| == 1 && unread[0].Response? && unread[0].command == cmd)
  {
    hide Unread, NoFlights, OnlyFlight, ComesLast, RoomsOf, Stands, MayAsk, ViewAfter;
    forall f ensures !Arriving(s, fd, c, a, f) {}
  }

  /**
    Once the disconnect events of a session that was closed with no request open are processed it is in no room of any
    worker, even if it was closed before the accept-time JOIN had let it in.
   */
  lemma GoneForGood(xs: seq<Solo>, steps: seq<SoloStep>, fd: Fd, workers: nat, i: nat)
    requires SoloRun(xs, steps, fd, workers) && i < |xs| && xs[i].client.Nothing?
    requires forall f | In(xs[i].srv, f) :: !(f.event.fd == fd && f.event.plan.PlanDepart?)
    ensures Seats(xs[i].srv, fd) == {} && fd !in xs[i].srv.users
  {
    RunSolo(xs, steps, fd, workers, i);
    hide Ground, SoloRun, Count, Away, Trailed, Departs;
    GroundOwns(xs[i].srv);
    AwayIsOut(xs[i].srv, fd);
  }

  lemma AwayIsOut(s: State, fd: Fd)
    requires Own(s) && Away(s, fd) && Trailed(s, fd)
    requires forall f | In(s, f) :: !(f.event.fd == fd && f.event.plan.PlanDepart?)
    ensures Seats(s, fd) == {} && fd !in s.users
  {
    hide Own, Count, Gone, Fleeing, Trailed;
    if Gone(s, fd) {
      GoneIsOut(s, fd);
    } else {
      var f :| Fleeing(s, fd, f);
      FleeingIsFollowed(s, fd, f);
    }
  }

  lemma GoneIsOut(s: State, fd: Fd)
    requires Gone(s, fd) && forall f | In(s, f) :: !(f.event.fd == fd && f.event.plan.PlanDepart?)
    ensures Seats(s, fd) == {} && fd !in s.users
  {
    hide Count;
    forall k | k in s.rooms ensures k !in Seats(s, fd) {
      if k in Seats(s, fd) { InRooms(s, k, fd); }
    }
  }

  /** While the accept-time JOIN of a closed session is in flight a disconnect event is, too. */
  lemma FleeingIsFollowed(s: State, fd: Fd, f: Flight)
    requires Own(s) && Fleeing(s, fd, f) && Trailed(s, fd)
    ensures exists g :: In(s, g) && g.event.fd == fd && g.event.plan.PlanDepart?
  {
    hide Own, Count, RoomsOf, Queue;
    OwnFlight(s, f);
    LobbyOpen(s);
    ArrivalPlace(s.log.home, f);
    OwnStaffed(s);
    var q := Queue(s, LOBBY_WORKER_ID);
    if f.place.Queued? {
      QueuedIs(s, f);
      var i :| 0 <= i < |q| && q[i] == f.event;
      assert Arrives(q[i], fd);
      var j :| 0 <= j < |q[i + 1..]| && Departs(q[i + 1..][j], fd);
      QueuedIn(s, LOBBY_WORKER_ID, i + 1 + j);
      assert q[i + 1 + j] == q[i + 1..][j];
    } else {
      RunningIs(s, f);
      var j :| 0 <= j < |q| && Departs(q[j], fd);
      QueuedIn(s, LOBBY_WORKER_ID, j);
    }
  }

  // ---- a join and its history load ----

  /** A join of the session into `r` has moved it and come back from the database: only its answer is left to do. */
  ghost predicate Landed(s: State, fd: Fd, r: RoomId) {
    && RoomsOf(s, fd) == {r}
    && (forall f | In(s, f) && Mine(f, fd) ::
          f.event.plan == PlanJoin(r) && f.event.cursor == 4 && (f.place.Queued? || f.place.Running?))
  }

  lemma SparedLanded(s: State, t: State, fd: Fd, r: RoomId)
    requires Landed(s, fd, r) && Spared(s, t, fd)
    ensures Landed(t, fd, r)
  {
    hide Count, RoomsOf, NoReplies;
  }

  /** At its answer a join moves nobody and is gone. */
  lemma AnswerStays(s: State, w: WorkerId, found: RoomId)
    requires Moving(s, w) && s.running[w].plan.PlanJoin? && s.running[w].cursor == 4
    ensures ChangeOf(s, w, found) == Stays && NextFlight(s, w).Nothing?
  {}

  lemma WorkLanded(s: State, w: WorkerId, found: RoomId, fd: Fd, r: RoomId)
    requires Ground(s) && w in s.running && Landed(s, fd, r)
    ensures Landed(Act(s, w, found), fd, r)
  {
    hide Ground, Act, Count, RoomsOf, OnCourse, Bound, ChangeOf, NextFlight, Says, Fated, Exact, StaysHome, Spared;
    var t, f := Act(s, w, found), Flight(Running(w), s.running[w]);
    WorkIsWorked(s, w, found);
    if Mine(f, fd) {
      AnswerStays(s, w, found);
      forall g | In(t, g) && Mine(g, fd) ensures g.event.plan == PlanJoin(r) && g.event.cursor == 4
          && (g.place.Queued? || g.place.Running?) {
        assert In(s, g);
      }
    } else {
      WorkSpares(s, t, w, found, fd);
      SparedLanded(s, t, fd, r);
    }
  }

  lemma StartLanded(s: State, w: WorkerId, k: nat, fd: Fd, r: RoomId)
    requires 1 <= w <= s.n && w !in s.running && k < |Queue(s, w)| && Landed(s, fd, r)
    ensures Landed(Take(s, w, k), fd, r)
  {
    hide Count, RoomsOf;
    var t, e := Take(s, w, k), Queue(s, w)[k];
    StartMoves(s, w, k);
    SameRooms(s, t, fd);
    forall g | In(t, g) && Mine(g, fd) ensures g.event.plan == PlanJoin(r) && g.event.cursor == 4
        && (g.place.Queued? || g.place.Running?) {
      if In(s, g) {} else { assert In(s, Flight(Queued(w), e)); }
    }
  }

  lemma NoLoadLeft(s: State, fd: Fd, r: RoomId)
    requires Landed(s, fd, r) && Own(s) && s.jobs != [] && !s.jobs[0].SaveJob?
    ensures s.jobs[0].event.fd != fd
  {
    hide Count, RoomsOf, OnCourse;
    HeadIsIn(s);
    var f := Flight(JobPlace(s.jobs[0]), s.jobs[0].event);
    OwnFlight(s, f);
    assert f.event.fd == fd ==> Mine(f, fd) || f.event.plan.PlanFlush?;
    Waiting(s.log.home, f);
  }

  /** Nothing the server or the others do moves the session before its client has been answered. */
  lemma OtherLanded(s: State, step: Step, fd: Fd, r: RoomId)
    requires Ground(s) && Enabled(s, step) && !ActsFor(step, fd) && Landed(s, fd, r)
    ensures Landed(Apply(s, step), fd, r) && !FailsJoin(s, step, fd)
  {
    GroundOwns(s);
    hide Ground, Own, Roomy, Distinct, Landed, Spared;
    if step.Start? {
      hide Take;
      StartLanded(s, step.w, step.k, fd, r);
    } else if step.Work? {
      hide Act;
      WorkLanded(s, step.w, step.found, fd, r);
    } else if step.Query? {
      hide FinishJob;
      if !s.jobs[0].SaveJob? { NoLoadLeft(s, fd, r); }
      QuerySpares(s, step.outcome, fd);
      SparedLanded(s, FinishJob(s, step.outcome), fd, r);
    } else {
      hide Apply, Enabled;
      OthersSpare(s, step, fd);
      SparedLanded(s, Apply(s, step), fd, r);
    }
  }

  /** The step is neither a new request nor the end of the session. */
  predicate WaitsOn(step: SoloStep) {
    step.Other? || step.Receive? || step.Deliver?
  }

  lemma StepLanded(x: Solo, fd: Fd, step: SoloStep, r: RoomId)
    requires SoloOk(x, fd) && SoloEnabled(x, fd, step) && WaitsOn(step) && x.client.Some?
             && x.client.value.wire.Nothing?
    requires Landed(x.srv, fd, r)
    ensures var y := SoloApply(x, fd, step);
            Landed(y.srv, fd, r) && y.astray == x.astray && y.client.Some? && y.client.value.wire.Nothing?
  {
    hide Ground, Landed, Apply, SessionOk, NoneLost;
    if step.Other? { OtherLanded(x.srv, step.step, fd, r); }
  }

  /** While its history load is in the DB thread's hands, the session of a join waits in the room it asked for. */
  lemma LoadWaits(s: State, fd: Fd, c: Client, astray: Option<RoomId>)
    requires Ground(s) && ClientOk(s, fd, c, astray) && OwnJoinLoad(s, fd)
    ensures var e := s.jobs[0].event; var f := Flight(AwaitsHistory(s.jobs[0].room, s.jobs[0].before), e);
            && OnlyFlight(s, fd, f) && RoomsOf(s, fd) == {e.plan.room} && e.plan.room != LOBBY_ROOM_ID
            && astray.Nothing? && c.wire.Nothing? && FindWorker(s, LastRoom(e)) != 0
            && e.cursor == 4 && LastRoom(e) == e.plan.room && e.plan.room in s.log.home
  {
    GroundOwns(s);
    hide Ground, Own, Roomy, Distinct, NewRooms, TellsBroadcasts, Count, RoomsOf, Unread, ClientOk, Attached,
         Straggling;
    var e := s.jobs[0].event;
    var f := Flight(AwaitsHistory(s.jobs[0].room, s.jobs[0].before), e);
    HeadIsIn(s);
    OwnFlight(s, f);
    hide OnlyFlight;
    Waiting(s.log.home, f);
    WhoseFlight(s, fd, Some(c), astray, f);
    LoadFound(s, c, astray, e, s.jobs[0].room, s.jobs[0].before);
  }

  /** The history load of a join comes back: the session is in the room it asked for and in no other. */
  lemma LoadLands(s: State, fd: Fd, c: Client, astray: Option<RoomId>, o: DbOutcome)
    requires Ground(s) && ClientOk(s, fd, c, astray) && OwnJoinLoad(s, fd) && OutcomeOk(s, s.jobs[0], o)
    ensures var r := s.jobs[0].event.plan.room;
            Landed(FinishJob(s, o), fd, r) && r != LOBBY_ROOM_ID && astray.Nothing? && c.wire.Nothing?
  {
    GroundOwns(s);
    LoadWaits(s, fd, c, astray);
    hide Ground, Own, Roomy, Distinct, NewRooms, TellsBroadcasts, Count, RoomsOf, OnCourse, FinishJob, QueryCome,
         OutcomeOk, ClientOk, OnlyFlight;
    QueryMoves(s, o);
    QueryPlaces(s, o);
    SameRooms(s, FinishJob(s, o), fd);
    LoadComes(s, o);
    OnlyOneComes(s, FinishJob(s, o), fd, Flight(AwaitsHistory(s.jobs[0].room, s.jobs[0].before), s.jobs[0].event),
                 QueryCome(s, o));
  }

  lemma OnlyOneComes(s: State, t: State, fd: Fd, f: Flight, come: Option<Flight>)
    requires OnlyFlight(s, fd, f) && Moved(s, t, Some(f), come)
    ensures forall g | In(t, g) && Mine(g, fd) :: come == Some(g)
  {
    hide Count;
    forall g | In(t, g) && Mine(g, fd) ensures come == Some(g) {
      assert come == Some(g) || (In(s, g) && g != f);
    }
  }

  /** The DB thread is about to answer the history load inside a join of `fd`. */
  predicate OwnJoinLoad(s: State, fd: Fd) {
    s.jobs != [] && s.jobs[0].LoadJob? && s.jobs[0].event.plan.PlanJoin? && s.jobs[0].event.fd == fd
  }

  lemma LoadReturns(x: Solo, fd: Fd, o: DbOutcome, y: Solo)
    requires SoloOk(x, fd) && x.client.Some? && OwnJoinLoad(x.srv, fd) && SoloNext(x, fd, Other(Query(o)), y)
    ensures var r := x.srv.jobs[0].event.plan.room;
            && Landed(y.srv, fd, r) && y.astray == (if o.Loaded? then Nothing else Some(r))
            && y.client == x.client && y.client.value.wire.Nothing?
  {
    hide Ground, FinishJob, Landed, ClientOk, NoneLost, OutcomeOk;
    LoadAnswers(x.srv, o);
    LoadLands(x.srv, fd, x.client.value, x.astray, o);
  }

  lemma LoadAnswers(s: State, o: DbOutcome)
    requires s.jobs != [] && s.jobs[0].LoadJob? && OutcomeOk(s, s.jobs[0], o)
    ensures o.Loaded? != o.NotLoaded?
  {}

  lemma LoadComes(s: State, o: DbOutcome)
    requires s.jobs != [] && s.jobs[0].LoadJob?
    ensures QueryGone(s) == Some(Flight(AwaitsHistory(s.jobs[0].room, s.jobs[0].before), s.jobs[0].event))
    ensures QueryCome(s, o).Some? ==>
              var g := QueryCome(s, o).value;
              g.place.Queued? && g.event.plan == s.jobs[0].event.plan && g.event.cursor == s.jobs[0].event.cursor
  {
    hide FindWorker;
  }

  /** From moment `i` to moment `j` the client neither asks for anything nor leaves. */
  predicate Waits(steps: seq<SoloStep>, i: nat, j: nat)
    requires j <= |steps|
  {
    forall k | i <= k < j :: WaitsOn(steps[k])
  }

  lemma {:induction false} StaysLanded(xs: seq<Solo>, steps: seq<SoloStep>, fd: Fd, workers: nat, i: nat, j: nat,
                                       r: RoomId)
    requires SoloRun(xs, steps, fd, workers) && i <= j < |xs| && Waits(steps, i, j)
    requires Landed(xs[i].srv, fd, r) && xs[i].client.Some? && xs[i].client.value.wire.Nothing?
    ensures Landed(xs[j].srv, fd, r) && xs[j].astray == xs[i].astray && xs[j].client.Some?
            && xs[j].client.value.wire.Nothing?
  {
    hide SoloOk, Landed, SoloEnabled, SoloApply, Init, WaitsOn;
    if i < j {
      StaysLanded(xs, steps, fd, workers, i, j - 1, r);
      RunSolo(xs, steps, fd, workers, j - 1);
      assert SoloNext(xs[j - 1], fd, steps[j - 1], xs[j]);
      assert WaitsOn(steps[j - 1]);
      StepLanded(xs[j - 1], fd, steps[j - 1], r);
    }
  }

  /**
    The history load of a join returns at step `i`, and by moment `j` the client has read the answer and asked for
    nothing more: the session is in the room it joined and in no other, as its current one, and the client believes so
    if and only if the load succeeded.
   */
  lemma JoinAgreesIffLoaded(xs: seq<Solo>, steps: seq<SoloStep>, fd: Fd, workers: nat, i: nat, j: nat, o: DbOutcome)
    requires SoloRun(xs, steps, fd, workers) && i < j < |xs| && steps[i] == Other(Query(o)) && xs[i].client.Some?
    requires OwnJoinLoad(xs[i].srv, fd) && Waits(steps, i + 1, j)
    requires xs[j].client.Some? ==> xs[j].client.value.pending.Nothing?
    ensures var s, r := xs[j].srv, xs[i].srv.jobs[0].event.plan.room;
            && xs[j].client.Some? && r in s.bindings && Seats(s, fd) == {Key(s.bindings[r], r)}
            && fd in s.users && s.users[fd].room == r
            && (RoomOf(xs[j].client.value.view) == r <==> o.Loaded?)
  {
    var r := xs[i].srv.jobs[0].event.plan.room;
    JoinLands(xs, steps, fd, workers, i, j, o);
    hide SoloRun, OwnJoinLoad, Waits, Landed, SoloOk, Seats;
    JoinRests(xs[j], fd, r);
  }

  /** From the return of the load until the client asks again, the session has landed. */
  lemma JoinLands(xs: seq<Solo>, steps: seq<SoloStep>, fd: Fd, workers: nat, i: nat, j: nat, o: DbOutcome)
    requires SoloRun(xs, steps, fd, workers) && i < j < |xs| && steps[i] == Other(Query(o)) && xs[i].client.Some?
    requires OwnJoinLoad(xs[i].srv, fd) && Waits(steps, i + 1, j)
    ensures var r := xs[i].srv.jobs[0].event.plan.room;
            && SoloOk(xs[j], fd) && xs[j].client.Some? && Landed(xs[j].srv, fd, r)
            && xs[j].astray == if o.Loaded? then Nothing else Some(r)
  {
    hide SoloNext, Init, SoloOk, Landed, Waits;
    RunSolo(xs, steps, fd, workers, i);
    RunSolo(xs, steps, fd, workers, j);
    assert SoloNext(xs[i], fd, steps[i], xs[i + 1]);
    LoadReturns(xs[i], fd, o, xs[i + 1]);
    hide SoloRun;
    StaysLanded(xs, steps, fd, workers, i + 1, j, xs[i].srv.jobs[0].event.plan.room);
  }

  /** A landed session at rest is in the room, and its client believes so unless it was led astray. */
  lemma JoinRests(x: Solo, fd: Fd, r: RoomId)
    requires SoloOk(x, fd) && x.client.Some? && x.client.value.pending.Nothing? && Landed(x.srv, fd, r)
    requires x.astray.Some? ==> x.astray.value == r
    ensures var s := x.srv;
            && r in s.bindings && Seats(s, fd) == {Key(s.bindings[r], r)} && fd in s.users && s.users[fd].room == r
            && (RoomOf(x.client.value.view) == r <==> x.astray.Nothing?)
  {
    GroundOwns(x.srv);
    hide Ground, Own, Roomy, Distinct, NewRooms, TellsBroadcasts, InFile, ClientOk, Landed, Seats, NoneLost;
    LandedRests(x.srv, fd, x.client.value, x.astray, r);
    LandedThere(x.srv, fd, r);
  }

  lemma LandedThere(s: State, fd: Fd, r: RoomId)
    requires Own(s) && Landed(s, fd, r)
    ensures r in s.bindings && Seats(s, fd) == {Key(s.bindings[r], r)}
  {
    hide Own, Count;
    SeatsOf(s, fd, r);
  }

  lemma LandedRests(s: State, fd: Fd, c: Client, a: Option<RoomId>, r: RoomId)
    requires ClientOk(s, fd, c, a) && Landed(s, fd, r) && c.pending.Nothing? && (a.Some? ==> a.value == r)
    ensures fd in s.users && s.users[fd].room == r && (RoomOf(c.view) == r <==> a.Nothing?)
  {
    hide Count, RoomsOf, Unread, Fits;
    forall f ensures !Arriving(s, fd, c, a, f) { assert In(s, f) && Mine(f, fd) ==> !f.event.plan.PlanArrive?; }
    assert Resting(s, fd, c, a);
  }
}
