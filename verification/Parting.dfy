/**
  A session closed at any moment, whatever request it has open: it leaves every room for good, if and only if no event
  of it still lets it into an ordinary room.
 */
module Parting {
  import opened Bytes
  import opened RoomEvents
  import opened ServerState
  import opened History
  import opened Flights
  import opened Itinerary
  import opened Ownership
  import opened Requests
  import opened Tokens
  import opened Talk
  import opened Broadcasts
  import opened Places
  import opened Casting
  import opened Rooms
  import opened Presence
  import opened Footing
  import opened Clients
  import opened Lines
  import opened Membership
  import opened Agreement

  /** The JOIN of the room it is about is still to do. */
  predicate WillEnter(e: Event) {
    (e.plan.PlanCreate? && e.cursor <= 2) || (e.plan.PlanJoin? && e.cursor == 0)
  }

  /** The event will take the session out of `r` itself. */
  predicate Clears(e: Event, fd: Fd, r: RoomId) {
    e.fd == fd && e.plan == PlanLeave(r) && 1 <= e.cursor <= 2
  }

  ghost predicate Clearing(s: State, fd: Fd, r: RoomId) {
    exists f :: In(s, f) && Clears(f.event, fd, r)
  }

  /** One event of the session lets it into a room; the others are disconnect events for the lobby. */
  ghost predicate Alone(s: State, fd: Fd, f: Flight) {
    Count(s, f) == 1 && forall g | In(s, g) && Mine(g, fd) :: g == f || Stale(g, fd)
  }

  /**
    The user is gone, and whatever room the session is in, an event that takes it out is on the way; nothing in flight
    lets it into the lobby but with a disconnect event behind it, and nothing into another room if it is `calm`.
   */
  ghost predicate Leaving(s: State, fd: Fd, calm: bool) {
    && fd !in s.users && Trailed(s, fd)
    && (forall r | r in RoomsOf(s, fd) :: Departing(s, fd, r) || Clearing(s, fd, r))
    && (forall f | In(s, f) && Mine(f, fd) && WillEnter(f.event) :: !calm && Alone(s, fd, f))
    && (forall f | In(s, f) && Mine(f, fd) :: f.event.plan != PlanJoin(LOBBY_ROOM_ID))
  }

  /** The session is in an ordinary room, and nothing in flight will take it out. */
  ghost predicate Haunts(s: State, fd: Fd, r: RoomId) {
    && fd !in s.users && r in RoomsOf(s, fd) && r != LOBBY_ROOM_ID
    && forall f | In(s, f) && Mine(f, fd) :: Stale(f, fd)
  }

  /** The step lets the session into an ordinary room. */
  predicate LetsIn(s: State, step: Step, fd: Fd) {
    && step.Work? && step.w in s.running && s.running[step.w].fd == fd
    && ChangeOf(s, step.w, step.found).Joined? && ChangeOf(s, step.w, step.found).room != LOBBY_ROOM_ID
  }

  // ---- steps that do not concern the session ----

  lemma SparedClears(s: State, t: State, fd: Fd, r: RoomId)
    requires SameMine(s, t, fd)
    ensures Departing(s, fd, r) ==> Departing(t, fd, r)
    ensures Clearing(s, fd, r) ==> Clearing(t, fd, r)
  {
    hide Count;
    if Departing(s, fd, r) {
      var f :| In(s, f) && f.event.fd == fd && f.event.plan == PlanDepart(r);
      assert Mine(f, fd) && In(t, f);
    }
    if Clearing(s, fd, r) {
      var f :| In(s, f) && Clears(f.event, fd, r);
      assert Mine(f, fd) && In(t, f);
    }
  }

  lemma SparedLeaving(s: State, t: State, fd: Fd, calm: bool)
    requires Leaving(s, fd, calm) && Spared(s, t, fd) && Trailed(t, fd)
    ensures Leaving(t, fd, calm)
  {
    hide Count, RoomsOf, NoReplies, Trailed, Departing, Clearing;
    forall r | r in RoomsOf(t, fd) ensures Departing(t, fd, r) || Clearing(t, fd, r) { SparedClears(s, t, fd, r); }
    forall f | In(t, f) && Mine(f, fd) && WillEnter(f.event) ensures !calm && Alone(t, fd, f) { assert In(s, f); }
  }

  lemma SparedHaunts(s: State, t: State, fd: Fd, r: RoomId)
    requires Haunts(s, fd, r) && Spared(s, t, fd)
    ensures Haunts(t, fd, r)
  {
    hide Count, RoomsOf, NoReplies;
  }

  // ---- an event of the session moves ----

  /** What stays of an event of the session that moves on. */
  predicate Kin(f: Flight, g: Flight) {
    && g.event.fd == f.event.fd && g.event.plan.PlanFlush? == f.event.plan.PlanFlush?
    && (f.event.plan.PlanDepart? || g.event.plan.PlanDepart? ==> g.event.plan == f.event.plan)
    && (WillEnter(g.event) ==> WillEnter(f.event))
    && (g.event.plan.PlanJoin? ==> f.event.plan == g.event.plan)
  }

  /** And without being executed. */
  predicate Carried(f: Flight, g: Flight) {
    Kin(f, g) && (f.event.plan.PlanLeave? ==> g.event.plan == f.event.plan && g.event.cursor == f.event.cursor)
  }

  lemma CarriedLeaving(s: State, t: State, fd: Fd, f: Flight, come: Option<Flight>, calm: bool)
    requires Leaving(s, fd, calm) && In(s, f) && Mine(f, fd) && Moved(s, t, Some(f), come)
             && RoomsOf(t, fd) == RoomsOf(s, fd)
    requires t.users == s.users && Trailed(t, fd)
    requires if come.Some? then Carried(f, come.value) else !f.event.plan.PlanDepart? && !f.event.plan.PlanLeave?
    ensures Leaving(t, fd, calm)
  {
    hide Count, RoomsOf, Trailed, WillEnter;
    forall r | r in RoomsOf(t, fd) ensures Departing(t, fd, r) || Clearing(t, fd, r) {
      if Departing(s, fd, r) {
        var g :| In(s, g) && g.event.fd == fd && g.event.plan == PlanDepart(r);
        assert g == f ==> In(t, come.value);
        assert g != f ==> In(t, g);
      } else {
        var g :| In(s, g) && Clears(g.event, fd, r);
        assert g == f ==> In(t, come.value);
        assert g != f ==> In(t, g);
      }
    }
    forall g | In(t, g) && Mine(g, fd) && WillEnter(g.event) ensures !calm && Alone(t, fd, g) {
      CarriedAlone(s, t, fd, f, come, g, calm);
    }
    forall g | In(t, g) && Mine(g, fd) ensures g.event.plan != PlanJoin(LOBBY_ROOM_ID) {
      assert In(s, g) || come == Some(g);
    }
  }

  lemma CarriedAlone(s: State, t: State, fd: Fd, f: Flight, come: Option<Flight>, g: Flight, calm: bool)
    requires In(s, f) && Mine(f, fd) && Moved(s, t, Some(f), come) && (come.Some? ==> Kin(f, come.value))
    requires forall h | In(s, h) && Mine(h, fd) && WillEnter(h.event) :: !calm && Alone(s, fd, h)
    requires In(t, g) && Mine(g, fd) && WillEnter(g.event)
    ensures !calm && Alone(t, fd, g)
  {
    hide Count;
    var h := if come == Some(g) then f else g;
    assert In(s, h) && Mine(h, fd) && WillEnter(h.event);
    assert Alone(s, fd, h);
    assert come == Some(g) && g != f ==> !In(s, g);
    forall k | In(t, k) && Mine(k, fd) ensures k == g || Stale(k, fd) { assert come == Some(k) || In(s, k); }
  }

  lemma CarriedHaunts(s: State, t: State, fd: Fd, r: RoomId, f: Flight, come: Option<Flight>)
    requires Haunts(s, fd, r) && In(s, f) && Mine(f, fd) && Moved(s, t, Some(f), come)
             && RoomsOf(t, fd) == RoomsOf(s, fd)
    requires t.users == s.users && (come.Some? ==> Carried(f, come.value))
    ensures Haunts(t, fd, r)
  {
    hide Count, RoomsOf;
    forall g | In(t, g) && Mine(g, fd) ensures Stale(g, fd) { assert come == Some(g) || In(s, g); }
  }

  // ---- a worker executes an event of the session ----

  /** What one iteration on an event of a session without a user can do to its rooms. */
  predicate PartsWay(s: State, w: WorkerId, found: RoomId)
    requires w in s.running
  {
    var e, ch, next := s.running[w], ChangeOf(s, w, found), NextFlight(s, w);
    && (ch.Joined? ==> next.Nothing? && if ch.room == LOBBY_ROOM_ID then w == LOBBY_WORKER_ID && Enters(e, e.fd)
                                        else WillEnter(e))
    && (next.Some? ==> next.value.event.cursor == e.cursor + 1)
  }

  ghost predicate UserGoneAt(s: State, w: WorkerId) {
    Moving(s, w) && s.running[w].fd !in s.users
  }

  /** A JOIN without a user is the end of the event. */
  lemma JoinEnds(s: State, w: WorkerId)
    requires w in s.running && Executes(s, w) && ActionAt(s, w).command.JoinRoom? && s.running[w].fd !in s.users
    ensures NextFlight(s, w).Nothing?
  {}

  lemma Advances(s: State, w: WorkerId)
    requires w in s.running
    ensures NextFlight(s, w).Some? ==> NextFlight(s, w).value.event.cursor == s.running[w].cursor + 1
    ensures forall found :: ChangeOf(s, w, found).Joined? ==>
              Executes(s, w) && ActionAt(s, w).command.JoinRoom? && ChangeOf(s, w, found).room == ActionAt(s, w).room
  {
    hide CodeAt, FindWorker, JoinRoomCode, LeaveRoomCode;
  }

  /** Which JOINs the recipes have. */
  lemma JoinsOf(s: State, w: WorkerId)
    requires Moving(s, w) && Executes(s, w) && ActionAt(s, w).command.JoinRoom? && !s.running[w].plan.PlanFlush?
    ensures var e, r := s.running[w], ActionAt(s, w).room;
            if r == LOBBY_ROOM_ID then (w == LOBBY_WORKER_ID && Enters(e, e.fd)) || e.plan == PlanJoin(LOBBY_ROOM_ID)
            else WillEnter(e)
  {
    match s.running[w].plan
    case PlanCreate(_) => if s.running[w].cursor == 2 {} else {}
    case PlanJoin(_) =>
    case PlanLeave(_) =>
    case PlanArrive =>
    case _ =>
  }

  lemma PartWalks(s: State, w: WorkerId, found: RoomId)
    requires UserGoneAt(s, w) && !s.running[w].plan.PlanFlush? && s.running[w].plan != PlanJoin(LOBBY_ROOM_ID)
    ensures PartsWay(s, w, found)
  {
    hide ChangeOf, NextFlight, OnCourse, Bound;
    Advances(s, w);
    if ChangeOf(s, w, found).Joined? {
      JoinEnds(s, w);
      JoinsOf(s, w);
    }
  }

  /** A LEAVE on the way out takes the session out, or goes on to the worker that will. */
  lemma ClearsOn(s: State, w: WorkerId, found: RoomId, r: RoomId)
    requires Own(s) && Moving(s, w) && Clears(s.running[w], s.running[w].fd, r) && r in RoomsOf(s, s.running[w].fd)
    ensures ChangeOf(s, w, found) == Left(r)
            || (NextFlight(s, w).Some? && Clears(NextFlight(s, w).value.event, s.running[w].fd, r))
  {
    Standing(s, w, s.running[w].fd, r);
    hide Own, RoomsOf;
    if s.running[w].cursor == 1 {} else {}
  }

  /** A disconnect event in the lobby worker's queue is for the lobby. */
  lemma LobbyOnly(s: State, j: nat, fd: Fd)
    requires Own(s) && j < |Queue(s, LOBBY_WORKER_ID)| && Departs(Queue(s, LOBBY_WORKER_ID)[j], fd)
    ensures var g := Flight(Queued(LOBBY_WORKER_ID), Queue(s, LOBBY_WORKER_ID)[j]);
            In(s, g) && g.event.fd == fd && g.event.plan == PlanDepart(LOBBY_ROOM_ID)
  {
    OwnBound(s);
    QueuedIn(s, LOBBY_WORKER_ID, j);
    OwnFlight(s, Flight(Queued(LOBBY_WORKER_ID), Queue(s, LOBBY_WORKER_ID)[j]));
    hide Own, Count, Queue;
  }

  /** A session that enters the lobby without a user finds a disconnect event on the way. */
  lemma EntersLobby(s: State, t: State, w: WorkerId, fd: Fd)
    requires Own(s) && Trailed(s, fd) && LOBBY_WORKER_ID in s.running && Enters(s.running[LOBBY_WORKER_ID], fd)
    requires Moved(s, t, Some(Flight(Running(LOBBY_WORKER_ID), s.running[LOBBY_WORKER_ID])), Nothing)
    ensures Departing(t, fd, LOBBY_ROOM_ID)
  {
    hide Own, Count, Queue;
    var q := Queue(s, LOBBY_WORKER_ID);
    var j :| 0 <= j < |q| && Departs(q[j], fd);
    LobbyOnly(s, j, fd);
    assert In(t, Flight(Queued(LOBBY_WORKER_ID), q[j]));
  }

  lemma NextKin(s: State, w: WorkerId)
    requires w in s.running
    ensures NextFlight(s, w).Some? ==> Kin(Flight(Running(w), s.running[w]), NextFlight(s, w).value)
  {
    hide NextFlight;
    NextMine(s, w);
    Advances(s, w);
  }

  /** A room the session is still in after the iteration has its way out. */
  lemma WorkClears(s: State, t: State, w: WorkerId, found: RoomId, r: RoomId, calm: bool)
    requires Own(s) && Worked(s, t, w, found) && Leaving(s, s.running[w].fd, calm) && !s.running[w].plan.PlanFlush?
    requires !LetsIn(s, Work(w, found), s.running[w].fd) && r in RoomsOf(t, s.running[w].fd)
    ensures Departing(t, s.running[w].fd, r) || Clearing(t, s.running[w].fd, r)
  {
    hide Own, Count, RoomsOf, Exact, ChangeOf, NextFlight, Says, OnCourse, Bound, FateOf, StaysHome, Trailed, WillEnter;
    var e, fd, ch := s.running[w], s.running[w].fd, ChangeOf(s, w, found);
    var f := Flight(Running(w), e);
    PartWalks(s, w, found);
    if ch == Joined(r) && r !in RoomsOf(s, fd) {
      EntersLobby(s, t, w, fd);
    } else if Departing(s, fd, r) {
      var g :| In(s, g) && g.event.fd == fd && g.event.plan == PlanDepart(r);
      if e.plan == PlanDepart(r) {
        DepartWalks(s, w, found);
        Standing(s, w, fd, r);
      }
      assert In(t, g);
    } else {
      var g :| In(s, g) && Clears(g.event, fd, r);
      if g == f { ClearsOn(s, w, found, r); assert In(t, NextFlight(s, w).value); } else { assert In(t, g); }
    }
  }

  lemma WorkLeaving(s: State, t: State, w: WorkerId, found: RoomId, calm: bool)
    requires Own(s) && Worked(s, t, w, found) && Leaving(s, s.running[w].fd, calm) && !s.running[w].plan.PlanFlush?
    requires !LetsIn(s, Work(w, found), s.running[w].fd) && Trailed(t, s.running[w].fd)
    ensures Leaving(t, s.running[w].fd, calm)
  {
    hide Own, Count, RoomsOf, Exact, ChangeOf, NextFlight, Says, OnCourse, Bound, FateOf, StaysHome, Trailed, WillEnter,
         Departing, Clearing, LetsIn;
    var fd, f := s.running[w].fd, Flight(Running(w), s.running[w]);
    NextKin(s, w);
    forall r | r in RoomsOf(t, fd) ensures Departing(t, fd, r) || Clearing(t, fd, r) {
      WorkClears(s, t, w, found, r, calm);
    }
    forall g | In(t, g) && Mine(g, fd) && WillEnter(g.event) ensures !calm && Alone(t, fd, g) {
      CarriedAlone(s, t, fd, f, NextFlight(s, w), g, calm);
    }
    forall g | In(t, g) && Mine(g, fd) ensures g.event.plan != PlanJoin(LOBBY_ROOM_ID) {
      assert In(s, g) || NextFlight(s, w) == Some(g);
    }
  }

  /** Once it has been let into an ordinary room, nothing is left that would take it out. */
  lemma WorkLetsIn(s: State, t: State, w: WorkerId, found: RoomId, calm: bool)
    requires Own(s) && Worked(s, t, w, found) && Leaving(s, s.running[w].fd, calm) && !s.running[w].plan.PlanFlush?
    requires LetsIn(s, Work(w, found), s.running[w].fd)
    ensures Haunts(t, s.running[w].fd, ChangeOf(s, w, found).room) && !calm
  {
    hide Own, Count, RoomsOf, Exact, ChangeOf, NextFlight, Says, OnCourse, Bound, FateOf, StaysHome, Trailed;
    var fd, f := s.running[w].fd, Flight(Running(w), s.running[w]);
    PartWalks(s, w, found);
    assert Alone(s, fd, f);
    forall g | In(t, g) && Mine(g, fd) ensures Stale(g, fd) { assert In(s, g) && g != f; }
  }

  lemma WorkHaunts(s: State, t: State, w: WorkerId, found: RoomId, r: RoomId)
    requires Own(s) && Worked(s, t, w, found) && Haunts(s, s.running[w].fd, r) && !s.running[w].plan.PlanFlush?
    ensures Haunts(t, s.running[w].fd, r)
  {
    hide Own, Count, RoomsOf, Exact, ChangeOf, NextFlight, Says, OnCourse, Bound, FateOf, StaysHome;
    var fd, f := s.running[w].fd, Flight(Running(w), s.running[w]);
    assert Stale(f, fd);
    DepartWalks(s, w, found);
    if LOBBY_ROOM_ID in RoomsOf(s, fd) { Standing(s, w, fd, LOBBY_ROOM_ID); }
    forall g | In(t, g) && Mine(g, fd) ensures Stale(g, fd) { assert In(s, g); }
  }

  // ---- every step ----

  lemma StartCarries(s: State, w: WorkerId, k: nat, fd: Fd)
    requires 1 <= w <= s.n && w !in s.running && k < |Queue(s, w)|
    ensures var t, f, g := Take(s, w, k), Flight(Queued(w), Queue(s, w)[k]), Flight(Running(w), Queue(s, w)[k]);
            && In(s, f) && Moved(s, t, Some(f), Some(g)) && Carried(f, g)
            && t.users == s.users && RoomsOf(t, fd) == RoomsOf(s, fd)
  {
    hide Count;
    StartMoves(s, w, k);
    SameRooms(s, Take(s, w, k), fd);
  }

  lemma QueryCarries(s: State, o: DbOutcome, fd: Fd)
    requires Own(s) && s.jobs != [] && OutcomeOk(s, s.jobs[0], o) && !s.jobs[0].SaveJob? && s.jobs[0].event.fd == fd
    ensures var t, gone, come := FinishJob(s, o), QueryGone(s), QueryCome(s, o);
            && gone.Some? && In(s, gone.value) && Mine(gone.value, fd) && Moved(s, t, gone, come)
            && (if come.Some? then Carried(gone.value, come.value)
                else !gone.value.event.plan.PlanDepart? && !gone.value.event.plan.PlanLeave?)
            && t.users == s.users && RoomsOf(t, fd) == RoomsOf(s, fd)
  {
    hide Own, Count, FinishJob, OutcomeOk, OnCourse, FindWorker, Resolve, LoadResult;
    QueryMoves(s, o);
    QueryPlaces(s, o);
    SameRooms(s, FinishJob(s, o), fd);
    OwnFlight(s, QueryGone(s).value);
    Waiting(s.log.home, QueryGone(s).value);
    match s.jobs[0]
    case LoadJob(e, room, before) => LoadKeeps(s, e, room, before, o);
    case _ =>
  }

  lemma OnlyWork(s: State, step: Step, fd: Fd)
    ensures LetsIn(s, step, fd) ==> step.Work?
  {}

  lemma NotAsked(s: State, step: Step, fd: Fd)
    requires Enabled(s, step) && fd !in s.users
    ensures step.Ask? || step.Close? ==> step.fd != fd
  {}

  /** A step that does not let the session in leaves it on its way out; one that does leaves it there. */
  lemma StepLeaving(s: State, step: Step, fd: Fd, calm: bool) returns (r: RoomId)
    requires Ground(s) && Leaving(s, fd, calm) && Enabled(s, step) && !(step.Accept? && step.fd == fd)
    ensures if LetsIn(s, step, fd) then Haunts(Apply(s, step), fd, r) && !calm else Leaving(Apply(s, step), fd, calm)
  {
    r := 0;
    GroundOwns(s);
    GroundAccounts(s);
    NotAsked(s, step, fd);
    StepTrailed(s, step, fd);
    hide Ground, Account, Own, Roomy, Distinct, NewRooms, TellsBroadcasts, Leaving, Haunts, Spared, Take, Act,
         FinishJob, Trailed, FoundOk, OutcomeOk, InTurn, LetsIn, AcceptClient, Dispatch, CloseSession, RequestFlush,
         LookAt, GiveTo;
    if !step.Work? { assert !LetsIn(s, step, fd) by { OnlyWork(s, step, fd); } }
    if step.Work? {
      r := WorkParts(s, step.w, step.found, fd, calm);
    } else if step.Start? {
      StartParts(s, step.w, step.k, fd, calm);
    } else if step.Query? {
      QueryParts(s, step.outcome, fd, calm);
    } else {
      OthersSpare(s, step, fd);
      SparedLeaving(s, Apply(s, step), fd, calm);
    }
  }

  lemma WorkParts(s: State, w: WorkerId, found: RoomId, fd: Fd, calm: bool) returns (r: RoomId)
    requires Ground(s) && Leaving(s, fd, calm) && w in s.running && Trailed(Act(s, w, found), fd)
    ensures if LetsIn(s, Work(w, found), fd) then Haunts(Act(s, w, found), fd, r) && !calm
            else Leaving(Act(s, w, found), fd, calm)
  {
    r := 0;
    GroundOwns(s);
    WorkIsWorked(s, w, found);
    hide Ground, Own, Roomy, Distinct, NewRooms, TellsBroadcasts, Leaving, Haunts, Spared, Act, Worked, Trailed,
         LetsIn, ChangeOf, NoneLost;
    var e, t := s.running[w], Act(s, w, found);
    if e.fd != fd || e.plan.PlanFlush? {
      WorkSpares(s, t, w, found, fd);
      SparedLeaving(s, t, fd, calm);
      NotLetIn(s, w, found, fd);
    } else if LetsIn(s, Work(w, found), fd) {
      r := ChangeOf(s, w, found).room;
      WorkLetsIn(s, t, w, found, calm);
    } else {
      WorkLeaving(s, t, w, found, calm);
    }
  }

  lemma NotLetIn(s: State, w: WorkerId, found: RoomId, fd: Fd)
    requires Own(s) && w in s.running && (s.running[w].fd != fd || s.running[w].plan.PlanFlush?)
    ensures !LetsIn(s, Work(w, found), fd)
  {
    OwnRunning(s, w);
    hide Own;
    if s.running[w].plan.PlanFlush? { FlushSilent(s, w, found); }
  }

  lemma StartParts(s: State, w: WorkerId, k: nat, fd: Fd, calm: bool)
    requires Leaving(s, fd, calm) && 1 <= w <= s.n && w !in s.running && k < |Queue(s, w)| && Trailed(Take(s, w, k), fd)
    ensures Leaving(Take(s, w, k), fd, calm)
  {
    hide Own, Roomy, Distinct, NewRooms, TellsBroadcasts, Leaving, Spared, Take, Trailed, InTurn, Says, Count;
    var f, g := Flight(Queued(w), Queue(s, w)[k]), Flight(Running(w), Queue(s, w)[k]);
    StartCarries(s, w, k, fd);
    if Mine(f, fd) {
      CarriedLeaving(s, Take(s, w, k), fd, f, Some(g), calm);
    } else {
      TakeSpares(s, w, k, fd);
      SparedLeaving(s, Take(s, w, k), fd, calm);
    }
  }

  lemma TakeSpares(s: State, w: WorkerId, k: nat, fd: Fd)
    requires 1 <= w <= s.n && w !in s.running && k < |Queue(s, w)| && !Mine(Flight(Queued(w), Queue(s, w)[k]), fd)
    ensures Spared(s, Take(s, w, k), fd)
  {
    hide Says, Count, RoomsOf, Spared;
    StartMoves(s, w, k);
    SilentSays(s, Take(s, w, k), {});
    MovesSpare(s, Take(s, w, k), Some(Flight(Queued(w), Queue(s, w)[k])), Some(Flight(Running(w), Queue(s, w)[k])), fd);
  }

  lemma QueryParts(s: State, o: DbOutcome, fd: Fd, calm: bool)
    requires Own(s) && Leaving(s, fd, calm) && s.jobs != [] && OutcomeOk(s, s.jobs[0], o)
             && Trailed(FinishJob(s, o), fd)
    ensures Leaving(FinishJob(s, o), fd, calm)
  {
    hide Own, Roomy, Distinct, NewRooms, TellsBroadcasts, Leaving, Spared, FinishJob, Trailed, OutcomeOk, Count,
         QueryGone, QueryCome, Moved, Carried, Mine, RoomsOf, In;
    if s.jobs[0].SaveJob? || s.jobs[0].event.fd != fd {
      QuerySpares(s, o, fd);
      SparedLeaving(s, FinishJob(s, o), fd, calm);
    } else {
      QueryCarries(s, o, fd);
      CarriedLeaving(s, FinishJob(s, o), fd, QueryGone(s).value, QueryCome(s, o), calm);
    }
  }

  /** Nothing takes it out any more, and its descriptor is not handed out again. */
  lemma StepHaunts(s: State, step: Step, fd: Fd, r: RoomId)
    requires Ground(s) && Haunts(s, fd, r) && Enabled(s, step)
    ensures Haunts(Apply(s, step), fd, r)
  {
    GroundOwns(s);
    NotAsked(s, step, fd);
    NotHandedOut(s, step, fd, r);
    hide Ground, Own, Roomy, Distinct, NewRooms, TellsBroadcasts, Haunts, Spared, Take, Act, FinishJob, Count, FoundOk,
         OutcomeOk, InTurn, AcceptClient, Dispatch, CloseSession, RequestFlush, LookAt, GiveTo;
    if step.Work? {
      WorkStays(s, step.w, step.found, fd, r);
    } else if step.Start? {
      StartStays(s, step.w, step.k, fd, r);
    } else if step.Query? {
      QueryStays(s, step.outcome, fd, r);
    } else {
      OthersSpare(s, step, fd);
      SparedHaunts(s, Apply(s, step), fd, r);
    }
  }

  lemma NotHandedOut(s: State, step: Step, fd: Fd, r: RoomId)
    requires Haunts(s, fd, r) && Enabled(s, step)
    ensures !(step.Accept? && step.fd == fd)
  {
    hide Count;
    var k :| k in s.rooms && k.room == r && fd in s.rooms[k].members;
  }

  lemma WorkStays(s: State, w: WorkerId, found: RoomId, fd: Fd, r: RoomId)
    requires Ground(s) && Haunts(s, fd, r) && w in s.running
    ensures Haunts(Act(s, w, found), fd, r)
  {
    GroundOwns(s);
    WorkIsWorked(s, w, found);
    hide Ground, Own, Roomy, Distinct, NewRooms, TellsBroadcasts, Haunts, Spared, Act, Worked, NoneLost;
    var e, t := s.running[w], Act(s, w, found);
    if e.fd != fd || e.plan.PlanFlush? {
      WorkSpares(s, t, w, found, fd);
      SparedHaunts(s, t, fd, r);
    } else {
      WorkHaunts(s, t, w, found, r);
    }
  }

  lemma StartStays(s: State, w: WorkerId, k: nat, fd: Fd, r: RoomId)
    requires Haunts(s, fd, r) && 1 <= w <= s.n && w !in s.running && k < |Queue(s, w)|
    ensures Haunts(Take(s, w, k), fd, r)
  {
    hide Haunts, Spared, Take, InTurn, Count;
    var f, g := Flight(Queued(w), Queue(s, w)[k]), Flight(Running(w), Queue(s, w)[k]);
    StartCarries(s, w, k, fd);
    if Mine(f, fd) {
      CarriedHaunts(s, Take(s, w, k), fd, r, f, Some(g));
    } else {
      TakeSpares(s, w, k, fd);
      SparedHaunts(s, Take(s, w, k), fd, r);
    }
  }

  lemma QueryStays(s: State, o: DbOutcome, fd: Fd, r: RoomId)
    requires Own(s) && Haunts(s, fd, r) && s.jobs != [] && OutcomeOk(s, s.jobs[0], o)
    ensures Haunts(FinishJob(s, o), fd, r)
  {
    hide Own, Roomy, Distinct, NewRooms, TellsBroadcasts, Haunts, Spared, FinishJob, OutcomeOk, Count, QueryGone,
         QueryCome, Moved, Carried, Mine, RoomsOf, In;
    if s.jobs[0].SaveJob? || s.jobs[0].event.fd != fd {
      QuerySpares(s, o, fd);
      SparedHaunts(s, FinishJob(s, o), fd, r);
    } else {
      QueryCarries(s, o, fd);
      CarriedHaunts(s, FinishJob(s, o), fd, r, QueryGone(s).value, QueryCome(s, o));
    }
  }

  // ---- the session is closed ----

  /** Where a session can be when it is closed. */
  ghost predicate Closable(s: State, fd: Fd) {
    && fd in s.users
    && (forall r | r in RoomsOf(s, fd) :: r == LOBBY_ROOM_ID || r == s.users[fd].room || Clearing(s, fd, r))
    && (forall f | In(s, f) && Mine(f, fd) && WillEnter(f.event) ::
          Alone(s, fd, f) && s.users[fd].room == LOBBY_ROOM_ID)
    && (forall f | In(s, f) && Mine(f, fd) :: f.event.plan != PlanJoin(LOBBY_ROOM_ID))
  }

  lemma FlyingClosable(s: State, fd: Fd, c: Client, a: Option<RoomId>, f: Flight)
    requires Flying(s, fd, c, a, f) && ViewOk(c.view)
    ensures Closable(s, fd)
  {
    hide Count, RoomsOf, Unread, MayAsk;
    var e := f.event;
    assert In(s, f);
    forall r | r in RoomsOf(s, fd) ensures r == LOBBY_ROOM_ID || r == s.users[fd].room || Clearing(s, fd, r) {
      if e.plan.PlanLeave? && 1 <= e.cursor <= 2 && r == e.plan.room { assert Clears(e, fd, r); }
    }
    forall g | In(s, g) && Mine(g, fd) ensures g == f {}
  }

  lemma ClientClosable(s: State, fd: Fd, c: Client, a: Option<RoomId>)
    requires ClientOk(s, fd, c, a)
    ensures Closable(s, fd)
  {
    hide Count, RoomsOf, Unread, MayAsk, Fits, Clearing, ViewAfter;
    if f :| Flying(s, fd, c, a, f) {
      FlyingClosable(s, fd, c, a, f);
    } else if f :| Arriving(s, fd, c, a, f) {
      assert forall g | In(s, g) && Mine(g, fd) :: g == f || Stale(g, fd);
    } else {
      assert NoFlights(s, fd);
    }
  }

  /** What routing a disconnect event for `room` leaves and adds. */
  lemma DepartAdds(s: State, fd: Fd, room: RoomId, garbage: Command)
    requires Staffed(s)
    ensures var u := Route(s, DepartEvent(fd, room, garbage));
            && (forall f | In(u, f) :: In(s, f) || (f.event.fd == fd && f.event.plan == PlanDepart(room)))
            && (forall f | In(s, f) :: In(u, f) && (!f.event.plan.PlanDepart? ==> Count(u, f) == Count(s, f)))
  {
    hide Count, Route, FindWorker, Staffed;
    RouteFlights(s, DepartEvent(fd, room, garbage));
  }

  lemma KeptClearing(s: State, u: State, fd: Fd, r: RoomId)
    requires Clearing(s, fd, r) && forall f | In(s, f) :: In(u, f)
    ensures Clearing(u, fd, r)
  {
    hide Count;
    var f :| In(s, f) && Clears(f.event, fd, r);
    assert In(u, f);
  }

  /** A disconnect event for the room or for the lobby. */
  predicate PartsFrom(f: Flight, fd: Fd, room: RoomId) {
    f.event.fd == fd && (f.event.plan == PlanDepart(LOBBY_ROOM_ID) || f.event.plan == PlanDepart(room))
  }

  /** The two disconnect events, or one for a session in the lobby. */
  lemma Departed(s: State, fd: Fd, garbage: Command) returns (v: State)
    requires Own(s) && Closable(s, fd)
    ensures CloseSession(s, fd, garbage) == v.(users := v.users - {fd}) && v.rooms == s.rooms
    ensures Departing(v, fd, LOBBY_ROOM_ID)
    ensures s.users[fd].room in RoomsOf(s, fd) ==> Departing(v, fd, s.users[fd].room)
    ensures forall f | In(v, f) :: In(s, f) || PartsFrom(f, fd, s.users[fd].room)
    ensures forall f | In(s, f) :: In(v, f) && (!f.event.plan.PlanDepart? ==> Count(v, f) == Count(s, f))
  {
    hide Own, Count, Route, Spared, Departing, FindWorker, RoomsOf, Staffed, Alone, Clearing, WillEnter;
    OwnStaffed(s);
    LobbyOpen(s);
    var room := s.users[fd].room;
    var u := Route(s, DepartEvent(fd, room, garbage));
    DepartRouted(s, fd, room, garbage);
    DepartAdds(s, fd, room, garbage);
    RouteFinds(s, DepartEvent(fd, room, garbage));
    if room in RoomsOf(s, fd) { Standing(s, 0, fd, room); }
    if room == LOBBY_ROOM_ID {
      v := u;
    } else {
      v := Route(u, DepartEvent(fd, LOBBY_ROOM_ID, garbage));
      SameFinds(s, u, LOBBY_ROOM_ID);
      DepartRouted(u, fd, LOBBY_ROOM_ID, garbage);
      DepartAdds(u, fd, LOBBY_ROOM_ID, garbage);
    }
  }

  lemma SameFinds(s: State, t: State, r: RoomId)
    requires t.bindings == s.bindings
    ensures FindWorker(t, r) == FindWorker(s, r)
  {}

  /** A closed session is on its way out, but for the room that an event may still let it into. */
  lemma CloseLeaves(s: State, fd: Fd, garbage: Command, calm: bool)
    requires Own(s) && Closable(s, fd) && (calm ==> Calm(s, fd))
    ensures Leaving(CloseSession(s, fd, garbage), fd, calm)
  {
    hide Own, Count, CloseSession, RoomsOf, Trailed, Departing, Clearing, WillEnter;
    LeaveTrailed(s, fd, garbage);
    var v := Departed(s, fd, garbage);
    var t := CloseSession(s, fd, garbage);
    SameFlights(v, t);
    SameRooms(s, t, fd);
    forall r | r in RoomsOf(t, fd) ensures Departing(t, fd, r) || Clearing(t, fd, r) {
      if r == LOBBY_ROOM_ID || r == s.users[fd].room {
        DepartingKept(v, t, fd, r);
      } else {
        KeptClearing(s, v, fd, r);
        KeptClearing(v, t, fd, r);
      }
    }
    forall f | In(t, f) && Mine(f, fd) && WillEnter(f.event) ensures !calm && Alone(t, fd, f) {
      StillAlone(s, v, t, fd, f);
    }
    forall f | In(t, f) && Mine(f, fd) ensures f.event.plan != PlanJoin(LOBBY_ROOM_ID) { assert In(v, f); }
  }

  lemma StillAlone(s: State, v: State, t: State, fd: Fd, f: Flight)
    requires Closable(s, fd) && forall g :: Count(t, g) == Count(v, g)
    requires forall g | In(v, g) :: In(s, g) || PartsFrom(g, fd, s.users[fd].room)
    requires forall g | In(s, g) :: In(v, g) && (!g.event.plan.PlanDepart? ==> Count(v, g) == Count(s, g))
    requires In(t, f) && Mine(f, fd) && WillEnter(f.event)
    ensures Alone(t, fd, f) && In(s, f)
  {
    hide Count, RoomsOf, Clearing;
    assert In(s, f) && Alone(s, fd, f);
    forall g | In(t, g) && Mine(g, fd) ensures g == f || Stale(g, fd) { assert In(v, g); }
  }

  // ---- what becomes of it ----

  /** Nothing in flight is still to let the session into a room it asked to enter. */
  ghost predicate Calm(s: State, fd: Fd) {
    forall f | In(s, f) && Mine(f, fd) :: !WillEnter(f.event)
  }

  /** The main thread closes the session in state `s`, the server goes on, and the descriptor is not connected again. */
  ghost predicate GoesOn(states: seq<State>, steps: seq<Step>, s: State, fd: Fd, garbage: Command) {
    && fd in s.users && |states| == |steps| + 1 && states[0] == CloseSession(s, fd, garbage)
    && forall i {:trigger steps[i]} | 0 <= i < |steps| ::
         Next(states[i], steps[i], states[i + 1]) && !(steps[i].Accept? && steps[i].fd == fd)
  }

  ghost predicate LetInBy(states: seq<State>, steps: seq<Step>, fd: Fd, i: nat)
    requires i < |states| && |states| == |steps| + 1
  {
    exists k :: 0 <= k < i && LetsIn(states[k], steps[k], fd)
  }

  lemma {:induction false} GoesOnGround(states: seq<State>, steps: seq<Step>, s: State, fd: Fd, garbage: Command,
                                        i: nat)
    requires GoesOn(states, steps, s, fd, garbage) && Ground(states[0]) && i < |states|
    ensures Ground(states[i])
  {
    hide Ground, Enabled, Apply, CloseSession;
    if i > 0 {
      GoesOnGround(states, steps, s, fd, garbage, i - 1);
      assert Next(states[i - 1], steps[i - 1], states[i]);
      StepKeepsGround(states[i - 1], steps[i - 1]);
    }
  }

  lemma {:induction false} LeavesOrHaunts(states: seq<State>, steps: seq<Step>, s: State, fd: Fd, garbage: Command,
                                          calm: bool, i: nat) returns (r: RoomId)
    requires GoesOn(states, steps, s, fd, garbage) && Ground(states[0]) && Leaving(states[0], fd, calm) && i < |states|
    ensures if LetInBy(states, steps, fd, i) then Haunts(states[i], fd, r) && !calm else Leaving(states[i], fd, calm)
  {
    hide Ground, Enabled, Apply, Leaving, Haunts, LetsIn, CloseSession;
    r := 0;
    if i > 0 {
      r := LeavesOrHaunts(states, steps, s, fd, garbage, calm, i - 1);
      GoesOnGround(states, steps, s, fd, garbage, i - 1);
      assert Next(states[i - 1], steps[i - 1], states[i]);
      if LetInBy(states, steps, fd, i - 1) {
        StepHaunts(states[i - 1], steps[i - 1], fd, r);
        assert LetInBy(states, steps, fd, i);
      } else {
        r := StepLeaving(states[i - 1], steps[i - 1], fd, calm);
        assert LetInBy(states, steps, fd, i) <==> LetsIn(states[i - 1], steps[i - 1], fd);
      }
    }
  }

  /**
    A client is closed at any moment of a run, whatever it has asked for. Once none of its events is in flight, the
    session is in no room of any worker if and only if no step since has let it into an ordinary room; otherwise it is a
    member of one for ever, and its descriptor is not handed out again.
   */
  lemma GoneUnlessLetIn(xs: seq<Solo>, solos: seq<SoloStep>, fd: Fd, workers: nat, c: nat, garbage: Command,
                        states: seq<State>, steps: seq<Step>, i: nat)
    requires SoloRun(xs, solos, fd, workers) && c < |xs| && xs[c].client.Some? && i < |states|
    requires GoesOn(states, steps, xs[c].srv, fd, garbage)
    requires forall f | In(states[i], f) :: !Mine(f, fd)
    ensures Seats(states[i], fd) == {} <==> !LetInBy(states, steps, fd, i)
    ensures LetInBy(states, steps, fd, i) ==>
              forall j | i <= j < |states| :: Seats(states[j], fd) != {} && !Unused(states[j], fd)
  {
    RunSolo(xs, solos, fd, workers, c);
    ClientCloses(xs[c], fd, garbage, false);
    hide SoloRun, Ground, Leaving, Haunts, LetsIn, Seats, Unused, Count, CloseSession, Next, Calm, SoloOk;
    var r := LeavesOrHaunts(states, steps, xs[c].srv, fd, garbage, false, i);
    if LetInBy(states, steps, fd, i) {
      forall j | i <= j < |states| ensures Seats(states[j], fd) != {} && !Unused(states[j], fd) {
        var q := LeavesOrHaunts(states, steps, xs[c].srv, fd, garbage, false, j);
        HauntsSeat(states[j], fd, q);
      }
    } else {
      LeftAtRest(states[i], fd, false);
    }
  }

  /**
    A client that is closed while it has no create and no join in flight that still has its JOIN to do is out of every
    room once none of its events is in flight.
   */
  lemma ClosedWhenCalm(xs: seq<Solo>, solos: seq<SoloStep>, fd: Fd, workers: nat, c: nat, garbage: Command,
                       states: seq<State>, steps: seq<Step>, i: nat)
    requires SoloRun(xs, solos, fd, workers) && c < |xs| && xs[c].client.Some? && i < |states|
    requires GoesOn(states, steps, xs[c].srv, fd, garbage) && Calm(xs[c].srv, fd)
    requires forall f | In(states[i], f) :: !Mine(f, fd)
    ensures Seats(states[i], fd) == {}
  {
    RunSolo(xs, solos, fd, workers, c);
    ClientCloses(xs[c], fd, garbage, true);
    hide SoloRun, Ground, Leaving, Haunts, LetsIn, Seats, Count, CloseSession, Next, Calm, SoloOk;
    var r := LeavesOrHaunts(states, steps, xs[c].srv, fd, garbage, true, i);
    LeftAtRest(states[i], fd, true);
  }

  lemma CloseGround(s: State, fd: Fd, garbage: Command)
    requires Ground(s) && fd in s.users
    ensures Ground(CloseSession(s, fd, garbage))
  {
    hide Ground, CloseSession;
    StepKeepsGround(s, Close(fd, garbage));
  }

  lemma ClientCloses(x: Solo, fd: Fd, garbage: Command, calm: bool)
    requires SoloOk(x, fd) && x.client.Some? && (calm ==> Calm(x.srv, fd))
    ensures fd in x.srv.users
    ensures Ground(CloseSession(x.srv, fd, garbage)) && Leaving(CloseSession(x.srv, fd, garbage), fd, calm)
  {
    GroundOwns(x.srv);
    hide Ground, Own, Roomy, Distinct, NewRooms, TellsBroadcasts, ClientOk, Leaving, CloseSession, Closable, Calm,
         InFile, NoneLost;
    ClientClosable(x.srv, fd, x.client.value, x.astray);
    ClosableUser(x.srv, fd);
    CloseLeaves(x.srv, fd, garbage, calm);
    CloseGround(x.srv, fd, garbage);
  }

  lemma ClosableUser(s: State, fd: Fd)
    requires Closable(s, fd)
    ensures fd in s.users
  {}

  lemma HauntsSeat(s: State, fd: Fd, r: RoomId)
    requires Haunts(s, fd, r)
    ensures Seats(s, fd) != {} && !Unused(s, fd)
  {
    hide Count;
    var k :| k in s.rooms && k.room == r && fd in s.rooms[k].members;
    assert k in Seats(s, fd);
  }

  lemma LeftAtRest(s: State, fd: Fd, calm: bool)
    requires Leaving(s, fd, calm) && forall f | In(s, f) :: !Mine(f, fd)
    ensures Seats(s, fd) == {}
  {
    hide Count;
    forall k | k in s.rooms ensures k !in Seats(s, fd) {
      if k in Seats(s, fd) { InRooms(s, k, fd); }
    }
  }
}
