/** The order within a worker's queue: what every step adds at its end, and who cannot be overtaken. */
module Lines {
  import opened Bytes
  import opened RoomEvents
  import opened ServerState
  import opened History
  import opened Flights
  import opened Itinerary
  import opened Ownership
  import opened Requests
  import opened Tokens
  import Talk
  import Broadcasts

  function Coming(come: Option<Flight>, w: WorkerId): seq<Event> {
    if come.Some? && come.value.place == Queued(w) then [come.value.event] else []
  }

  /** Every queue grows by what comes to it. */
  ghost predicate Grow(s: State, t: State, come: Option<Flight>) {
    forall w :: Queue(t, w) == Queue(s, w) + Coming(come, w)
  }

  lemma SameLines(s: State, t: State, come: Option<Flight>)
    requires t.queues == s.queues && (come.Some? ==> !come.value.place.Queued?)
    ensures Grow(s, t, come)
  {}

  lemma PostGrows(s: State, w: WorkerId, e: Event)
    ensures Grow(s, Post(s, w, e), Some(Flight(Queued(w), e)))
  {}

  lemma RouteGrows(s: State, e: Event)
    ensures Grow(s, Route(s, e), if FindWorker(s, e.target) == 0 then Nothing
                                 else Some(Flight(Queued(FindWorker(s, e.target)), e.(hops := e.hops + 1))))
  {
    var w := FindWorker(s, e.target);
    if w == 0 { SameLines(s, Discard(s, e), Nothing); } else { PostGrows(s, w, e.(hops := e.hops + 1)); }
  }

  // ---- the threads ----

  lemma LeaveLines(s: State, w: WorkerId, fd: Fd, room: RoomId)
    ensures LeaveRoomAt(s, w, fd, room).queues == s.queues
  {
    if LeaveRoomCode(s, w, fd, room) == Success {}
  }

  lemma QuitLines(s: State, w: WorkerId, fd: Fd, room: RoomId, found: RoomId)
    ensures DisconnectAt(s, w, fd, room, found).queues == s.queues
  {
    hide LeaveRoomAt;
    LeaveLines(s, w, fd, room);
    LeaveLines(s, w, fd, found);
    if LeaveRoomCode(s, w, fd, room) == Success {} else {}
  }

  lemma SettleLines(s: State, w: WorkerId, e: Event, c: Code)
    ensures Settle(s, w, e, c).queues == s.queues
  {
    if c == Success {} else {}
  }

  lemma PassLines(s: State, w: WorkerId, e: Event, j: Job)
    ensures Submit(Release(s, w), j).queues == s.queues
    ensures Hold(Submit(s, j), w, e).queues == s.queues && Respond(Release(Submit(s, j), w), e).queues == s.queues
    ensures Respond(Release(s, w), e).queues == s.queues && Discard(Release(s, w), e).queues == s.queues
  {}

  lemma LocalLines(s: State, w: WorkerId, e: Event, a: Action, found: RoomId)
    requires Local(a.command)
    ensures Execute(s, w, e, a, found).queues == s.queues
  {
    hide Settle, Effect;
    EffectFlights(s, w, e, a);
    SettleLines(Effect(s, w, e, a), w, Marked(s, e, a), CodeAt(s, w, e, a));
  }

  lemma MoveLines(s: State, w: WorkerId, e: Event, room: RoomId)
    ensures var v := FindWorker(s, room);
            Grow(s, Route(Release(s, w), e.(target := room)),
                 if v == 0 then Nothing else Some(Flight(Queued(v), e.(target := room, hops := e.hops + 1))))
  {
    hide Route;
    RouteGrows(Release(s, w), e.(target := room));
  }

  lemma StayLines(s: State, w: WorkerId, e: Event, a: Action, found: RoomId)
    requires !Local(a.command) && !a.command.RequestJoinRoom? && !a.command.RequestLeaveRoom?
    ensures Execute(s, w, e, a, found).queues == s.queues
  {
    hide Route, DisconnectAt, Submit, Respond, Hold, Settle, Effect, CodeAt, UserIdOf, CursorOf;
    match a.command
    case RequestDbCreateRoom => PassLines(s, w, e, CreateJob(e));
    case RequestDbLoadMessage => PassLines(s, w, e, LoadJob(e, a.room, CursorOf(e.request)));
    case SaveMessage =>
      PassLines(s, w, e, SaveJob(a.room, UserIdOf(s, e.fd), e.request, e.mark));
      if e.result == Success {} else {}
    case SendResponse => PassLines(s, w, e, CreateJob(e));
    case Flush =>
    case DisconnectSession => QuitLines(Release(s, w), w, e.fd, e.target, found);
  }

  lemma NextPlace(s: State, w: WorkerId)
    requires w in s.running && s.running[w].cursor < |s.running[w].actions| && !Failed(s.running[w].result)
    ensures var e := s.running[w]; var a := e.actions[e.cursor]; var next := NextFlight(s, w);
            var v := FindWorker(s, a.room);
            if a.command.RequestJoinRoom? || a.command.RequestLeaveRoom? then
              next == if v == 0 then Nothing
                      else Some(Flight(Queued(v), e.(cursor := e.cursor + 1, target := a.room, hops := e.hops + 1)))
            else next.Some? ==> !next.value.place.Queued?
  {
    hide CodeAt, FindWorker;
  }

  lemma MoveIsRoute(s: State, w: WorkerId, e: Event, a: Action, found: RoomId)
    requires a.command.RequestJoinRoom? || a.command.RequestLeaveRoom?
    ensures Execute(s, w, e, a, found) == Route(Release(s, w), e.(target := a.room))
  {}

  lemma ExecuteGrows(s: State, w: WorkerId, found: RoomId)
    requires w in s.running && s.running[w].cursor < |s.running[w].actions| && !Failed(s.running[w].result)
    ensures var e := s.running[w];
            Grow(s, Execute(s, w, e.(cursor := e.cursor + 1), e.actions[e.cursor], found), NextFlight(s, w))
  {
    hide Execute, Grow, Route, NextFlight, Local, Release;
    var e, a := s.running[w].(cursor := s.running[w].cursor + 1), s.running[w].actions[s.running[w].cursor];
    NextPlace(s, w);
    if a.command.RequestJoinRoom? || a.command.RequestLeaveRoom? {
      MoveIsRoute(s, w, e, a, found);
      MoveLines(s, w, e, a.room);
    } else {
      if Local(a.command) { LocalLines(s, w, e, a, found); } else { StayLines(s, w, e, a, found); }
      SameLines(s, Execute(s, w, e, a, found), NextFlight(s, w));
    }
  }

  lemma WorkGrows(s: State, w: WorkerId, found: RoomId)
    requires w in s.running
    ensures Grow(s, Act(s, w, found), NextFlight(s, w))
  {
    hide Execute, Respond, Discard, Release, Grow, NextFlight;
    var e := s.running[w];
    PassLines(s, w, e, CreateJob(e));
    if e.cursor < |e.actions| && !Failed(e.result) {
      ExecuteGrows(s, w, found);
    } else {
      Ends(s, w);
      SameLines(s, Act(s, w, found), NextFlight(s, w));
    }
  }

  lemma Ends(s: State, w: WorkerId)
    requires w in s.running && (s.running[w].cursor >= |s.running[w].actions| || Failed(s.running[w].result))
    ensures NextFlight(s, w).Nothing?
  {}

  lemma QueryGrows(s: State, o: DbOutcome)
    requires s.jobs != []
    ensures Grow(s, FinishJob(s, o), QueryCome(s, o))
  {
    hide Grow, Post, Hand, Route, LoadResult, Resolved, Report, Bind;
    var t := s.(jobs := s.jobs[1..]);
    match s.jobs[0]
    case SaveJob(_, _, _, _) => SameLines(s, FinishJob(s, o), Nothing);
    case CreateJob(e) =>
      if o.Created? {
        CreateLines(t, o.id, o.worker, HandJob(Resolved(e, o.id), o.worker));
        SameLines(s, FinishJob(s, o), QueryCome(s, o));
      } else {
        PostGrows(t, LOBBY_WORKER_ID, Report(e, DbError).(hops := e.hops + 1));
        GrowFrom(s, t, FinishJob(s, o), QueryCome(s, o));
      }
    case HandJob(e, w) =>
      PostGrows(t, w, e.(hops := e.hops + 1));
      GrowFrom(s, t, FinishJob(s, o), QueryCome(s, o));
    case LoadJob(e, room, before) =>
      RouteGrows(t, LoadResult(s, e, room, before, o));
      GrowFrom(s, t, FinishJob(s, o), QueryCome(s, o));
  }

  lemma GrowFrom(s: State, u: State, t: State, come: Option<Flight>)
    requires u.queues == s.queues && Grow(u, t, come)
    ensures Grow(s, t, come)
  {
    forall w ensures Queue(t, w) == Queue(s, w) + Coming(come, w) {
      assert Queue(u, w) == Queue(s, w);
    }
  }

  lemma CreateLines(s: State, id: RoomId, w: WorkerId, j: Job)
    ensures Hand(Bind(s, id, w), j).queues == s.queues
  {}

  lemma AskGrows(s: State, fd: Fd, cmd: Command, room: RoomId, body: seq<byte>)
    ensures Grow(s, Dispatch(s, fd, cmd, room, body), Some(AskCome(s, fd, cmd, room, body)))
  {}

  lemma AcceptGrows(s: State, fd: Fd, id: int64, garbage: Command)
    ensures Grow(s, AcceptClient(s, fd, id, garbage), Some(Flight(Queued(LOBBY_WORKER_ID), ArrivalEvent(fd, garbage))))
  {}

  // ---- a disconnect event never waits behind a later accept-time JOIN of its descriptor ----

  predicate Arrives(e: Event, fd: Fd) {
    e.fd == fd && e.plan.PlanArrive?
  }

  predicate Departs(e: Event, fd: Fd) {
    e.fd == fd && e.plan.PlanDepart?
  }

  predicate Sorted(q: seq<Event>, fd: Fd) {
    forall i, j | 0 <= i < j < |q| && Arrives(q[i], fd) :: !Departs(q[j], fd)
  }

  /** In the lobby worker's queue no disconnect event of the descriptor follows an accept-time JOIN of it. */
  predicate Lined(s: State, fd: Fd) {
    Sorted(Queue(s, LOBBY_WORKER_ID), fd)
  }

  predicate Departure(come: Option<Flight>, fd: Fd) {
    come.Some? && Departs(come.value.event, fd)
  }

  lemma GrowLined(s: State, t: State, come: Option<Flight>, fd: Fd)
    requires Lined(s, fd) && Grow(s, t, come)
    requires Departure(come, fd) ==> forall i | 0 <= i < |Queue(s, LOBBY_WORKER_ID)| ::
             !Arrives(Queue(s, LOBBY_WORKER_ID)[i], fd)
    ensures Lined(t, fd)
  {
    assert Queue(t, LOBBY_WORKER_ID) == Queue(s, LOBBY_WORKER_ID) + Coming(come, LOBBY_WORKER_ID);
  }

  lemma WithoutSorted(q: seq<Event>, k: nat, fd: Fd)
    requires Sorted(q, fd) && k < |q|
    ensures Sorted(Without(q, k), fd)
  {
    var r := Without(q, k);
    forall i, j | 0 <= i < j < |r| && Arrives(r[i], fd) ensures !Departs(r[j], fd) {
      assert r[i] == q[if i < k then i else i + 1] && r[j] == q[if j < k then j else j + 1];
    }
  }

  lemma TakeLined(s: State, w: WorkerId, k: nat, fd: Fd)
    requires Lined(s, fd) && k < |Queue(s, w)|
    ensures Lined(Take(s, w, k), fd)
  {
    if w == LOBBY_WORKER_ID { WithoutSorted(Queue(s, w), k, fd); }
  }

  /** The lobby worker can only take the accept-time JOIN when no disconnect event of the descriptor is queued. */
  lemma ArrivalLast(q: seq<Event>, k: nat, fd: Fd)
    requires Sorted(q, fd) && k < |q| && InTurn(q, k) && Arrives(q[k], fd) && !q[k].origin.Request?
    requires forall i | 0 <= i < |q| && Departs(q[i], fd) :: !q[i].origin.Request?
    ensures forall i | 0 <= i < |q| :: !Departs(q[i], fd)
  {
    forall i | 0 <= i < |q| ensures !Departs(q[i], fd) {
      if i < k { assert !FromMain(q[i]); }
    }
  }

  lemma NeverDeparts(s: State, w: WorkerId, fd: Fd)
    requires Moving(s, w)
    ensures !Departure(NextFlight(s, w), fd)
  {
    hide CodeAt, FindWorker, Bound;
    match s.running[w].plan
    case PlanDepart(_) =>
    case _ =>
  }

  lemma QueryNeverDeparts(s: State, o: DbOutcome, fd: Fd)
    requires Own(s) && s.jobs != []
    ensures !Departure(QueryCome(s, o), fd)
  {
    hide Own, Count, FindWorker, Resolve;
    if !s.jobs[0].SaveJob? {
      HeadIsIn(s);
      OwnFlight(s, Flight(JobPlace(s.jobs[0]), s.jobs[0].event));
    }
  }

  predicate NoArrival(s: State, fd: Fd) {
    forall i | 0 <= i < |Queue(s, LOBBY_WORKER_ID)| :: !Arrives(Queue(s, LOBBY_WORKER_ID)[i], fd)
  }

  lemma RouteLined(s: State, e: Event, fd: Fd)
    requires Lined(s, fd) && (Departs(e, fd) ==> NoArrival(s, fd)) && !Arrives(e, fd)
    ensures Lined(Route(s, e), fd) && (NoArrival(s, fd) ==> NoArrival(Route(s, e), fd))
  {
    hide Route, Sorted;
    RouteGrows(s, e);
    var w := FindWorker(s, e.target);
    var come := if w == 0 then Nothing else Some(Flight(Queued(w), e.(hops := e.hops + 1)));
    GrowLined(s, Route(s, e), come, fd);
    assert Queue(Route(s, e), LOBBY_WORKER_ID) == Queue(s, LOBBY_WORKER_ID) + Coming(come, LOBBY_WORKER_ID);
  }

  lemma CloseLined(s: State, d: Fd, garbage: Command, fd: Fd)
    requires Lined(s, fd) && d in s.users && (d == fd ==> NoArrival(s, fd))
    ensures Lined(CloseSession(s, d, garbage), fd)
  {
    hide Route, Lined, NoArrival;
    var room := s.users[d].room;
    var t := Route(s, DepartEvent(d, room, garbage));
    RouteLined(s, DepartEvent(d, room, garbage), fd);
    RouteLined(t, DepartEvent(d, LOBBY_ROOM_ID, garbage), fd);
    var u := if room != LOBBY_ROOM_ID then Route(t, DepartEvent(d, LOBBY_ROOM_ID, garbage)) else t;
    SameLined(u, u.(users := u.users - {d}), fd);
  }

  lemma SameLined(s: State, t: State, fd: Fd)
    requires Lined(s, fd) && t.queues == s.queues
    ensures Lined(t, fd)
  {
    assert Queue(t, LOBBY_WORKER_ID) == Queue(s, LOBBY_WORKER_ID);
  }

  /** Only closing a session whose accept-time JOIN is still queued could break the order. */
  lemma StepLined(s: State, step: Step, fd: Fd)
    requires Own(s) && Lined(s, fd) && Enabled(s, step) && (step.Close? && step.fd == fd ==> NoArrival(s, fd))
    ensures Lined(Apply(s, step), fd)
  {
    hide Own, Lined, NoArrival, Grow, AcceptClient, Dispatch, CloseSession, Take, Act, FinishJob, Unused, OutcomeOk,
         FoundOk, InTurn, Route, NextFlight, QueryCome;
    match step
    case Accept(d, id, garbage) =>
      AcceptGrows(s, d, id, garbage);
      GrowLined(s, Apply(s, step), Some(Flight(Queued(LOBBY_WORKER_ID), ArrivalEvent(d, garbage))), fd);
    case Ask(d, cmd, room, body) =>
      AskGrows(s, d, cmd, room, body);
      GrowLined(s, Apply(s, step), Some(AskCome(s, d, cmd, room, body)), fd);
    case Tick(d, garbage) =>
      if d in s.users { RouteLined(s, FlushEvent(d, s.users[d].room, garbage), fd); }
    case Close(d, garbage) => CloseLined(s, d, garbage, fd);
    case Start(w, k) => TakeLined(s, w, k, fd);
    case Work(w, found) =>
      WorkGrows(s, w, found);
      OwnRunning(s, w);
      NeverDeparts(s, w, fd);
      GrowLined(s, Apply(s, step), NextFlight(s, w), fd);
    case Look(w, d) => SameLined(s, LookAt(s, w, d), fd);
    case Give(w) => SameLined(s, GiveTo(s, w), fd);
    case Query(o) =>
      QueryGrows(s, o);
      QueryNeverDeparts(s, o, fd);
      GrowLined(s, Apply(s, step), QueryCome(s, o), fd);
  }

  // ---- a closed session has a disconnect event behind whatever still lets it into the lobby ----

  /** An accept-time JOIN, or a LEAVE request that has yet to begin with its JOIN of the lobby. */
  predicate Enters(e: Event, fd: Fd) {
    e.fd == fd && (e.plan.PlanArrive? || (e.plan.PlanLeave? && e.cursor == 0))
  }

  predicate HasDeparture(q: seq<Event>, fd: Fd) {
    exists j :: 0 <= j < |q| && Departs(q[j], fd)
  }

  predicate Trailing(q: seq<Event>, fd: Fd) {
    forall i | 0 <= i < |q| && Enters(q[i], fd) :: HasDeparture(q[i + 1..], fd)
  }

  /**
    Behind every event that will let the session into the lobby, queued or executing, there is a disconnect event of
    it.
   */
  predicate Trailed(s: State, fd: Fd) {
    && Trailing(Queue(s, LOBBY_WORKER_ID), fd)
    && (LOBBY_WORKER_ID in s.running && Enters(s.running[LOBBY_WORKER_ID], fd) ==>
          HasDeparture(Queue(s, LOBBY_WORKER_ID), fd))
  }

  predicate Arrival(come: Option<Flight>, fd: Fd) {
    come.Some? && come.value.place.Queued? && Enters(come.value.event, fd)
  }

  lemma MoreDeparture(q: seq<Event>, x: Event, fd: Fd)
    requires HasDeparture(q, fd) || Departs(x, fd)
    ensures HasDeparture(q + [x], fd)
  {
    if Departs(x, fd) { assert Departs((q + [x])[|q|], fd); } else {
      var j :| 0 <= j < |q| && Departs(q[j], fd);
      assert Departs((q + [x])[j], fd);
    }
  }

  lemma TrailingMore(q: seq<Event>, x: Event, fd: Fd)
    requires (Trailing(q, fd) && !Enters(x, fd)) || Departs(x, fd)
    ensures Trailing(q + [x], fd)
  {
    var r := q + [x];
    forall i | 0 <= i < |r| && Enters(r[i], fd) ensures HasDeparture(r[i + 1..], fd) {
      assert r[i + 1..] == q[i + 1..] + [x];
      MoreDeparture(q[i + 1..], x, fd);
    }
  }

  lemma GrowTrailed(s: State, t: State, come: Option<Flight>, fd: Fd)
    requires Trailed(s, fd) && Grow(s, t, come) && !Arrival(come, fd)
    requires LOBBY_WORKER_ID in t.running && Enters(t.running[LOBBY_WORKER_ID], fd) ==>
               LOBBY_WORKER_ID in s.running && Enters(s.running[LOBBY_WORKER_ID], fd)
    ensures Trailed(t, fd)
  {
    hide Trailing, HasDeparture;
    var q, more := Queue(s, LOBBY_WORKER_ID), Coming(come, LOBBY_WORKER_ID);
    assert Queue(t, LOBBY_WORKER_ID) == q + more;
    if more == [] {
      assert q + more == q;
    } else {
      TrailingMore(q, more[0], fd);
      if HasDeparture(q, fd) { MoreDeparture(q, more[0], fd); }
    }
  }

  lemma WithoutTrailing(q: seq<Event>, k: nat, fd: Fd)
    requires Trailing(q, fd) && k < |q| && InTurn(q, k)
    requires forall i | 0 <= i < |q| && (Departs(q[i], fd) || Enters(q[i], fd)) :: FromMain(q[i])
    ensures Trailing(Without(q, k), fd) && (Enters(q[k], fd) ==> HasDeparture(Without(q, k), fd))
  {
    var r := Without(q, k);
    forall i | 0 <= i < |r| && Enters(r[i], fd) ensures HasDeparture(r[i + 1..], fd) {
      var x := if i < k then i else i + 1;
      assert r[i] == q[x];
      var j :| 0 <= j < |q[x + 1..]| && Departs(q[x + 1..][j], fd);
      var y := x + 1 + j;
      assert Departs(q[y], fd) && FromMain(q[y]) && FromMain(q[x]);
      assert y != k;
      var z := if y < k then y else y - 1;
      assert r[z] == q[y] && r[i + 1..][z - (i + 1)] == r[z];
    }
    if Enters(q[k], fd) {
      var j :| 0 <= j < |q[k + 1..]| && Departs(q[k + 1..][j], fd);
      assert r[k + j] == q[k + 1 + j];
    }
  }

  lemma NeverEnters(s: State, w: WorkerId, fd: Fd)
    requires Moving(s, w)
    ensures !Arrival(NextFlight(s, w), fd)
    ensures NextFlight(s, w).Some? ==> (Enters(NextFlight(s, w).value.event, fd) ==> Enters(s.running[w], fd))
  {
    hide CodeAt, FindWorker, Bound;
    match s.running[w].plan
    case PlanArrive =>
    case PlanLeave(_) => if s.running[w].cursor == 0 {} else if s.running[w].cursor == 1 {} else {}
    case _ =>
  }

  lemma QueryNeverEnters(s: State, o: DbOutcome, fd: Fd)
    requires Own(s) && s.jobs != []
    ensures !Arrival(QueryCome(s, o), fd)
  {
    hide Own, Count, FindWorker, Resolve;
    if !s.jobs[0].SaveJob? {
      HeadIsIn(s);
      OwnFlight(s, Flight(JobPlace(s.jobs[0]), s.jobs[0].event));
    }
  }

  /** The main thread sent them, and nobody has handed them on. */
  lemma SentByMain(s: State, w: WorkerId, fd: Fd)
    requires Account(s) && 1 <= w <= s.n
    ensures var q := Queue(s, w);
            forall i | 0 <= i < |q| && (Departs(q[i], fd) || Enters(q[i], fd)) :: FromMain(q[i])
  {
    hide Own, Linear, Count, Queue;
    var q := Queue(s, w);
    forall i | 0 <= i < |q| && (Departs(q[i], fd) || Enters(q[i], fd)) ensures FromMain(q[i]) {
      QueuedIn(s, w, i);
      OwnFlight(s, Flight(Queued(w), q[i]));
      assert TrailOk(Flight(Queued(w), q[i]));
    }
  }

  lemma TakeTrailed(s: State, w: WorkerId, k: nat, fd: Fd)
    requires Account(s) && Trailed(s, fd) && 1 <= w <= s.n && w !in s.running && k < |Queue(s, w)|
             && InTurn(Queue(s, w), k)
    ensures Trailed(Take(s, w, k), fd)
  {
    SentByMain(s, w, fd);
    hide Account, Trailing, HasDeparture, InTurn;
    if w == LOBBY_WORKER_ID { WithoutTrailing(Queue(s, w), k, fd); }
  }

  lemma RouteTrailed(s: State, e: Event, fd: Fd)
    requires !Enters(e, fd)
    ensures Trailed(s, fd) ==> Trailed(Route(s, e), fd)
  {
    hide Route, Trailed, Grow;
    RouteGrows(s, e);
    Broadcasts.RouteRuns(s, e);
    var w := FindWorker(s, e.target);
    var come := if w == 0 then Nothing else Some(Flight(Queued(w), e.(hops := e.hops + 1)));
    if Trailed(s, fd) { GrowTrailed(s, Route(s, e), come, fd); }
  }

  lemma SameTrailed(s: State, t: State, fd: Fd)
    requires Trailed(s, fd) && t.queues == s.queues && t.running == s.running
    ensures Trailed(t, fd)
  {
    assert Queue(t, LOBBY_WORKER_ID) == Queue(s, LOBBY_WORKER_ID);
  }

  lemma CloseTrailed(s: State, d: Fd, garbage: Command, fd: Fd)
    requires d in s.users && Trailed(s, fd)
    ensures Trailed(CloseSession(s, d, garbage), fd)
  {
    hide Route, Trailed;
    var room := s.users[d].room;
    var t := Route(s, DepartEvent(d, room, garbage));
    RouteTrailed(s, DepartEvent(d, room, garbage), fd);
    RouteTrailed(t, DepartEvent(d, LOBBY_ROOM_ID, garbage), fd);
    var u := if room != LOBBY_ROOM_ID then Route(t, DepartEvent(d, LOBBY_ROOM_ID, garbage)) else t;
    SameTrailed(u, u.(users := u.users - {d}), fd);
  }

  /** The disconnect event for the lobby goes to the end of the lobby worker's queue. */
  lemma LobbyDeparture(s: State, fd: Fd, garbage: Command)
    requires FindWorker(s, LOBBY_ROOM_ID) == LOBBY_WORKER_ID
    ensures var t := Route(s, DepartEvent(fd, LOBBY_ROOM_ID, garbage));
            Trailed(t, fd) && FindWorker(t, LOBBY_ROOM_ID) == LOBBY_WORKER_ID
  {
    var e := DepartEvent(fd, LOBBY_ROOM_ID, garbage);
    var q, x := Queue(s, LOBBY_WORKER_ID), e.(hops := e.hops + 1);
    assert Route(s, e) == Post(s, LOBBY_WORKER_ID, x);
    assert Queue(Route(s, e), LOBBY_WORKER_ID) == q + [x];
    TrailingMore(q, x, fd);
    MoreDeparture(q, x, fd);
  }

  /** A session that is closed has a disconnect event behind whatever it has in the lobby worker's queue. */
  lemma LeaveTrailed(s: State, fd: Fd, garbage: Command)
    requires Own(s) && fd in s.users
    ensures Trailed(CloseSession(s, fd, garbage), fd)
  {
    OwnBound(s);
    hide Own, Route, Trailed;
    var room := s.users[fd].room;
    var t := Route(s, DepartEvent(fd, room, garbage));
    RouteUnbinds(s, DepartEvent(fd, room, garbage));
    RouteFinds(s, DepartEvent(fd, room, garbage));
    LobbyDeparture(if room == LOBBY_ROOM_ID then s else t, fd, garbage);
    var u := if room != LOBBY_ROOM_ID then Route(t, DepartEvent(fd, LOBBY_ROOM_ID, garbage)) else t;
    SameTrailed(u, u.(users := u.users - {fd}), fd);
  }

  lemma RouteFinds(s: State, e: Event)
    ensures Route(s, e).bindings == s.bindings
  {
    if FindWorker(s, e.target) == 0 {} else {}
  }

  /** Only the session's own client could leave such an event without a disconnect event behind it. */
  lemma StepTrailed(s: State, step: Step, fd: Fd)
    requires Account(s) && Trailed(s, fd) && Enabled(s, step) && !((step.Accept? || step.Ask?) && step.fd == fd)
    ensures Trailed(Apply(s, step), fd)
  {
    OwnStaffed(s);
    hide Account, Trailed, Grow, AcceptClient, Dispatch, CloseSession, Take, Act, LookAt, GiveTo, FinishJob, Unused,
         OutcomeOk, FoundOk, InTurn, Route;
    match step
    case Accept(_, _, _) => InputTrailed(s, step, fd);
    case Ask(_, _, _, _) => InputTrailed(s, step, fd);
    case Tick(d, garbage) =>
      if d in s.users { RouteTrailed(s, FlushEvent(d, s.users[d].room, garbage), fd); }
    case Close(d, garbage) => CloseTrailed(s, d, garbage, fd);
    case Start(w, k) => TakeTrailed(s, w, k, fd);
    case Work(w, found) => WorkTrailed(s, w, found, fd);
    case Look(_, _) => LoopTrailed(s, step, fd);
    case Give(_) => LoopTrailed(s, step, fd);
    case Query(o) => QueryTrailed(s, o, fd);
  }

  lemma LoopTrailed(s: State, step: Step, fd: Fd)
    requires Trailed(s, fd) && Enabled(s, step) && (step.Look? || step.Give?)
    ensures Trailed(Apply(s, step), fd)
  {
    hide Trailed;
    SameTrailed(s, Apply(s, step), fd);
  }

  lemma QueryTrailed(s: State, o: DbOutcome, fd: Fd)
    requires Account(s) && Trailed(s, fd) && s.jobs != [] && OutcomeOk(s, s.jobs[0], o)
    ensures Trailed(FinishJob(s, o), fd)
  {
    OwnStaffed(s);
    hide Account, Trailed, Grow, FinishJob, OutcomeOk, QueryCome;
    QueryGrows(s, o);
    QueryNeverEnters(s, o, fd);
    Broadcasts.QueryRuns(s, o);
    GrowTrailed(s, FinishJob(s, o), QueryCome(s, o), fd);
  }

  lemma InputTrailed(s: State, step: Step, fd: Fd)
    requires Trailed(s, fd) && Enabled(s, step) && (step.Accept? || step.Ask?) && step.fd != fd
    ensures Trailed(Apply(s, step), fd)
  {
    hide Trailed, Grow, AcceptClient, Dispatch, Unused;
    InputRuns(s, step);
    match step
    case Accept(d, id, garbage) =>
      AcceptGrows(s, d, id, garbage);
      GrowTrailed(s, Apply(s, step), Some(Flight(Queued(LOBBY_WORKER_ID), ArrivalEvent(d, garbage))), fd);
    case Ask(d, cmd, room, body) =>
      AskGrows(s, d, cmd, room, body);
      GrowTrailed(s, Apply(s, step), Some(AskCome(s, d, cmd, room, body)), fd);
  }

  lemma InputRuns(s: State, step: Step)
    requires Enabled(s, step) && (step.Accept? || step.Ask?)
    ensures Apply(s, step).running == s.running
  {}

  lemma WorkTrailed(s: State, w: WorkerId, found: RoomId, fd: Fd)
    requires Own(s) && Trailed(s, fd) && w in s.running
    ensures Trailed(Act(s, w, found), fd)
  {
    hide Own, Trailed, Grow, Act, NextFlight, Bound, OnCourse;
    WorkGrows(s, w, found);
    OwnRunning(s, w);
    NeverEnters(s, w, fd);
    if Talk.Executes(s, w) && Talk.ActionAt(s, w).command.SaveMessage? { SaveSucceeds(s, w); }
    Broadcasts.WorkRuns(s, w, found);
    GrowTrailed(s, Act(s, w, found), NextFlight(s, w), fd);
  }

  // ---- what is in flight at a worker is in its queue ----

  lemma {:induction false} NotQueued(w: WorkerId, q: seq<Event>, f: Flight)
    requires f.place != Queued(w) || f.event !in q
    ensures QueueCount(w, q, f) == 0
  {
    if q != [] { NotQueued(w, q[1..], f); }
  }

  lemma {:induction false} NotWorked(s: State, n: nat, f: Flight)
    requires f.place.Queued? && f.event !in Queue(s, f.place.worker)
    ensures WorkerCount(s, n, f) == 0
  {
    if n > 0 {
      NotWorked(s, n - 1, f);
      NotQueued(n, Queue(s, n), f);
    }
  }

  lemma {:induction false} NotAwaited(jobs: seq<Job>, f: Flight)
    requires f.place.Queued?
    ensures JobCount(jobs, f) == 0
  {
    if jobs != [] { NotAwaited(jobs[1..], f); }
  }

  lemma QueuedIs(s: State, f: Flight)
    requires In(s, f) && f.place.Queued?
    ensures f.event in Queue(s, f.place.worker)
  {
    if f.event !in Queue(s, f.place.worker) {
      NotWorked(s, s.n, f);
      NotAwaited(s.jobs, f);
    }
  }

  lemma {:induction false} OneQueued(w: WorkerId, q: seq<Event>, k: nat)
    requires k < |q|
    ensures QueueCount(w, q, Flight(Queued(w), q[k])) > 0
  {
    if k > 0 { OneQueued(w, q[1..], k - 1); }
  }

  lemma {:induction false} OneWorked(s: State, n: nat, w: WorkerId, k: nat)
    requires 1 <= w <= n && k < |Queue(s, w)|
    ensures WorkerCount(s, n, Flight(Queued(w), Queue(s, w)[k])) > 0
  {
    if n == w { OneQueued(w, Queue(s, w), k); } else { OneWorked(s, n - 1, w, k); }
  }

  lemma QueuedIn(s: State, w: WorkerId, k: nat)
    requires 1 <= w <= s.n && k < |Queue(s, w)|
    ensures In(s, Flight(Queued(w), Queue(s, w)[k]))
  {
    OneWorked(s, s.n, w, k);
  }

  lemma {:induction false} NotHeld(s: State, n: nat, f: Flight)
    requires f.place.Running? && (f.place.worker in s.running ==> s.running[f.place.worker] != f.event)
    ensures WorkerCount(s, n, f) == 0
  {
    if n > 0 {
      NotHeld(s, n - 1, f);
      NotQueued(n, Queue(s, n), f);
    }
  }

  lemma {:induction false} NotInJobs(jobs: seq<Job>, f: Flight)
    requires f.place.Running?
    ensures JobCount(jobs, f) == 0
  {
    if jobs != [] { NotInJobs(jobs[1..], f); }
  }

  lemma RunningIs(s: State, f: Flight)
    requires In(s, f) && f.place.Running?
    ensures f.place.worker in s.running && s.running[f.place.worker] == f.event
  {
    if !(f.place.worker in s.running && s.running[f.place.worker] == f.event) {
      NotHeld(s, s.n, f);
      NotInJobs(s.jobs, f);
    }
  }
}
