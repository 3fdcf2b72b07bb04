/** Who is in which room, and how each step changes it, for any client input. */
module Places {
  import opened Bytes
  import opened RoomEvents
  import opened ServerState
  import opened History
  import opened Flights
  import opened Itinerary
  import opened Ownership
  import opened Requests
  import opened Tokens
  import opened Talk
  import opened Broadcasts

  /** The session is in the room and that room is its user's current one. */
  predicate Here(s: State, k: Key, fd: Fd) {
    k in s.rooms && fd in s.rooms[k].members && fd in s.users && s.users[fd].room == k.room
  }

  // ---- who is where after a step ----

  predicate SamePlaces(s: State, t: State) {
    t.rooms == s.rooms && t.users == s.users && t.log.since == s.log.since
  }

  /** Whoever is somewhere after the step was there before, since the same JOIN. */
  ghost predicate NobodyJoins(s: State, t: State) {
    forall k, fd | Here(t, k, fd) :: Here(s, k, fd)
        && (fd in s.log.since ==> fd in t.log.since && t.log.since[fd] == s.log.since[fd])
  }

  lemma SamePlacesStay(s: State, t: State)
    requires SamePlaces(s, t)
    ensures NobodyJoins(s, t)
  {}

  lemma LeaveStays(s: State, w: WorkerId, fd: Fd, room: RoomId)
    ensures NobodyJoins(s, LeaveRoomAt(s, w, fd, room))
  {
    if LeaveRoomCode(s, w, fd, room) == Success {
      if Empties(s, w, room) {} else {}
    }
  }

  lemma CreateStays(s: State, w: WorkerId, room: RoomId)
    ensures NobodyJoins(s, CreateRoomAt(s, w, room))
  {
    if CreateRoomCode(s, w, room) == Success {} else {}
  }

  lemma FailedJoinStays(s: State, w: WorkerId, fd: Fd, room: RoomId)
    requires JoinRoomCode(s, w, fd, room) != Success
    ensures NobodyJoins(s, JoinRoomAt(s, w, fd, room))
  {
    if JoinRoomCode(s, w, fd, room) == UserNotFound {} else {}
  }

  /** A successful JOIN: the joiner is there since now, nobody else changes. */
  ghost predicate Joins(s: State, t: State, joiner: Key, who: Fd) {
    && who in t.log.since && t.log.since[who] == |s.log.handled| == |t.log.handled|
    && forall k, fd | Here(t, k, fd) ::
         if fd == who then k.room == joiner.room
         else Here(s, k, fd) && (fd in s.log.since ==> fd in t.log.since && t.log.since[fd] == s.log.since[fd])
  }

  lemma JoinJoins(s: State, w: WorkerId, fd: Fd, room: RoomId)
    requires JoinRoomCode(s, w, fd, room) == Success
    ensures Joins(s, JoinRoomAt(s, w, fd, room), Key(w, room), fd)
  {}

  lemma SettlePlaces(s: State, w: WorkerId, e: Event, c: Code)
    ensures SamePlaces(s, Settle(s, w, e, c)) && Settle(s, w, e, c).log.handled == s.log.handled
  {
    if c == Success {} else if e.origin.Request? {} else {}
  }

  lemma RoutePlaces(s: State, e: Event)
    ensures SamePlaces(s, Route(s, e))
  {
    if FindWorker(s, e.target) == 0 { assert Route(s, e) == Discard(s, e); if e.origin.Request? {} else {} } else {}
  }

  lemma PassPlaces(s: State, w: WorkerId, e: Event, j: Job)
    ensures SamePlaces(s, Submit(Release(s, w), j)) && SamePlaces(s, Hold(Submit(s, j), w, e))
    ensures SamePlaces(s, Respond(Release(s, w), e)) && SamePlaces(s, Discard(Release(s, w), e))
            && SamePlaces(s, Release(s, w))
    ensures SamePlaces(s, Respond(Release(Submit(s, j), w), e))
  {
    if e.origin.Request? {} else {}
  }

  lemma DisconnectStays(s: State, w: WorkerId, e: Event, found: RoomId)
    ensures NobodyJoins(s, DisconnectAt(Release(s, w), w, e.fd, e.target, found))
  {
    var u := Release(s, w);
    LeaveStays(u, w, e.fd, e.target);
    LeaveStays(u, w, e.fd, found);
    hide LeaveRoomAt;
    assert forall k, fd :: Here(u, k, fd) == Here(s, k, fd);
    if LeaveRoomCode(u, w, e.fd, e.target) == Success {} else {}
  }

  lemma StaysThen(s: State, u: State, t: State)
    requires NobodyJoins(s, u) && SamePlaces(u, t)
    ensures NobodyJoins(s, t)
  {
    forall k, fd | Here(t, k, fd) ensures Here(s, k, fd)
        && (fd in s.log.since ==> fd in t.log.since && t.log.since[fd] == s.log.since[fd]) {
      assert Here(u, k, fd);
    }
  }

  lemma JoinsThen(s: State, u: State, t: State, k: Key, fd: Fd)
    requires Joins(s, u, k, fd) && SamePlaces(u, t) && t.log.handled == u.log.handled
    ensures Joins(s, t, k, fd)
  {
    forall l, g | Here(t, l, g) ensures Here(u, l, g) {}
  }

  predicate JoinsNow(s: State, w: WorkerId) {
    Executes(s, w) && ActionAt(s, w).command.JoinRoom?
        && JoinRoomCode(s, w, s.running[w].fd, ActionAt(s, w).room) == Success
  }

  lemma LocalPlaces(s: State, w: WorkerId, e: Event, a: Action, found: RoomId)
    requires Local(a.command)
    ensures var t := Execute(s, w, e, a, found);
            if a.command.JoinRoom? && JoinRoomCode(s, w, e.fd, a.room) == Success then Joins(s, t, Key(w, a.room), e.fd)
            else NobodyJoins(s, t)
  {
    hide Settle, NobodyJoins, Joins;
    var u, t := Effect(s, w, e, a), Execute(s, w, e, a, found);
    SettlePlaces(u, w, Marked(s, e, a), CodeAt(s, w, e, a));
    assert SamePlaces(u, t);
    match a.command
    case CreateRoom => CreateStays(s, w, a.room); StaysThen(s, u, t);
    case LeaveRoom => LeaveStays(s, w, e.fd, a.room); StaysThen(s, u, t);
    case SendMessage =>
      if BroadcastCode(s, w, a.room) == Success { SamePlacesStay(s, u); } else { SamePlacesStay(s, u); }
      StaysThen(s, u, t);
    case JoinRoom =>
      if JoinRoomCode(s, w, e.fd, a.room) ==
          Success { JoinJoins(s, w, e.fd, a.room); JoinsThen(s, u, t, Key(w, a.room), e.fd); }
      else { FailedJoinStays(s, w, e.fd, a.room); StaysThen(s, u, t); }
  }

  lemma ExecutePlaces(s: State, w: WorkerId, found: RoomId)
    requires Executes(s, w) && !Local(ActionAt(s, w).command)
    ensures NobodyJoins(s, Execute(s, w, s.running[w].(cursor := s.running[w].cursor + 1), ActionAt(s, w), found))
  {
    hide NobodyJoins, SamePlaces, Route, DisconnectAt, Submit, Respond, Hold, Release, Settle, Effect, UserIdOf;
    var e, a := s.running[w].(cursor := s.running[w].cursor + 1), ActionAt(s, w);
    var t := Execute(s, w, e, a, found);
    if a.command.DisconnectSession? {
      DisconnectStays(s, w, e, found);
    } else {
      RerouteSame(s, w, e.(target := a.room));
      PassPlaces(s, w, e, CreateJob(e));
      PassPlaces(s, w, e, LoadJob(e, a.room, CursorOf(e.request)));
      PassPlaces(s, w, e, SaveJob(a.room, UserIdOf(s, e.fd), e.request, e.mark));
      assert SamePlaces(s, t);
      SamePlacesStay(s, t);
    }
  }

  lemma RerouteSame(s: State, w: WorkerId, e: Event)
    ensures SamePlaces(s, Route(Release(s, w), e))
  {
    hide Route;
    RoutePlaces(Release(s, w), e);
  }

  lemma WorkPlaces(s: State, w: WorkerId, found: RoomId)
    requires w in s.running
    ensures if JoinsNow(s, w) then Joins(s, Act(s, w, found), Key(w, ActionAt(s, w).room), s.running[w].fd)
            else NobodyJoins(s, Act(s, w, found))
  {
    hide NobodyJoins, Joins, Execute, SamePlaces, Respond, Discard, Release, JoinRoomCode;
    var e, t := s.running[w], Act(s, w, found);
    if !Executes(s, w) {
      PassPlaces(s, w, e, CreateJob(e));
      SamePlacesStay(s, t);
    } else if Local(ActionAt(s, w).command) {
      LocalPlaces(s, w, e.(cursor := e.cursor + 1), ActionAt(s, w), found);
    } else {
      ExecutePlaces(s, w, found);
    }
  }

  lemma QuietPlaces(s: State, step: Step)
    requires Enabled(s, step) && !step.Work?
    ensures NobodyJoins(s, Apply(s, step))
  {
    hide NobodyJoins, Route, FinishJob;
    var t := Apply(s, step);
    match step
    case Accept(fd, id, garbage) => AcceptPlaces(s, fd, id, garbage);
    case Ask(_, _, _, _) => SamePlacesStay(s, t);
    case Tick(fd, garbage) =>
      if fd in s.users { RoutePlaces(s, FlushEvent(fd, s.users[fd].room, garbage)); }
      SamePlacesStay(s, t);
    case Close(fd, garbage) => ClosePlaces(s, fd, garbage);
    case Start(_, _) => SamePlacesStay(s, t);
    case Look(_, _) => SamePlacesStay(s, t);
    case Give(_) => SamePlacesStay(s, t);
    case Query(o) => QueryPlaces(s, o); SamePlacesStay(s, t);
  }

  lemma AcceptPlaces(s: State, fd: Fd, id: int64, garbage: Command)
    requires Unused(s, fd)
    ensures NobodyJoins(s, AcceptClient(s, fd, id, garbage))
  {}

  lemma ClosePlaces(s: State, fd: Fd, garbage: Command)
    requires fd in s.users
    ensures NobodyJoins(s, CloseSession(s, fd, garbage))
  {
    hide Route;
    var room := s.users[fd].room;
    RoutePlaces(s, DepartEvent(fd, room, garbage));
    RoutePlaces(Route(s, DepartEvent(fd, room, garbage)), DepartEvent(fd, LOBBY_ROOM_ID, garbage));
    if room != LOBBY_ROOM_ID {} else {}
  }

  predicate SameFields(s: State, t: State) {
    t.rooms == s.rooms && t.users == s.users && t.log.since == s.log.since && t.casts == s.casts
        && t.running == s.running
  }

  lemma PostFields(s: State, w: WorkerId, e: Event)
    ensures SameFields(s, Post(s, w, e))
  {}

  /** Both halves of the create callback. */
  lemma CallbackFields(s: State, e: Event, o: DbOutcome)
    ensures o.Created? ==> SameFields(s, Hand(Bind(s, o.id, o.worker), HandJob(Resolved(e, o.id), o.worker)))
    ensures SameFields(s, Post(s, LOBBY_WORKER_ID, Report(e, DbError).(hops := e.hops + 1)))
  {
    hide Resolved, Report;
  }

  lemma QueryPlaces(s: State, o: DbOutcome)
    requires s.jobs != []
    ensures SamePlaces(s, FinishJob(s, o))
  {
    hide Route, LoadResult, Post, Hand, Bind, Resolved, Report;
    var t := s.(jobs := s.jobs[1..]);
    match s.jobs[0]
    case SaveJob(_, _, _, _) => if o.Saved? {} else {}
    case CreateJob(e) => CallbackFields(t, e, o);
    case HandJob(e, w) => PostFields(t, w, e.(hops := e.hops + 1));
    case LoadJob(e, room, before) => RoutePlaces(t, LoadResult(s, e, room, before, o));
  }

  // ---- what a worker's step leaves alone ----

  /** Other workers' rooms. */
  ghost predicate StaysHome(s: State, t: State, w: WorkerId) {
    forall k: Key | k.worker != w :: (k in t.rooms <==> k in s.rooms) && (k in s.rooms ==> t.rooms[k] == s.rooms[k])
  }

  lemma SameStaysHome(s: State, t: State, w: WorkerId)
    requires SamePlaces(s, t)
    ensures StaysHome(s, t, w)
  {}

  lemma StaysHomeThen(s: State, u: State, t: State, w: WorkerId)
    requires StaysHome(s, u, w) && SamePlaces(u, t)
    ensures StaysHome(s, t, w)
  {}

  lemma LeaveStaysHome(s: State, w: WorkerId, fd: Fd, room: RoomId)
    ensures StaysHome(s, LeaveRoomAt(s, w, fd, room), w)
  {
    if LeaveRoomCode(s, w, fd, room) == Success { if Empties(s, w, room) {} else {} }
  }

  lemma JoinStaysHome(s: State, w: WorkerId, fd: Fd, room: RoomId)
    ensures StaysHome(s, JoinRoomAt(s, w, fd, room), w)
  {}

  lemma CreateStaysHome(s: State, w: WorkerId, room: RoomId)
    ensures StaysHome(s, CreateRoomAt(s, w, room), w)
  {}

  lemma EffectStaysHome(s: State, w: WorkerId, e: Event, a: Action)
    requires Local(a.command)
    ensures StaysHome(s, Effect(s, w, e, a), w)
  {
    hide CreateRoomAt, JoinRoomAt, LeaveRoomAt, BroadcastAt;
    match a.command
    case CreateRoom => CreateStaysHome(s, w, a.room);
    case JoinRoom => JoinStaysHome(s, w, e.fd, a.room);
    case LeaveRoom => LeaveStaysHome(s, w, e.fd, a.room);
    case SendMessage => BroadcastKeeps(s, w, e.fd, a.room, e.request, e.origin);
  }

  lemma LocalStaysHome(s: State, w: WorkerId, found: RoomId)
    requires Executes(s, w) && Local(ActionAt(s, w).command)
    ensures StaysHome(s, Act(s, w, found), w)
  {
    hide StaysHome, Effect, Settle, CodeAt;
    var e, a := s.running[w].(cursor := s.running[w].cursor + 1), ActionAt(s, w);
    var u, t := Effect(s, w, e, a), Act(s, w, found);
    EffectStaysHome(s, w, e, a);
    SettlePlaces(u, w, Marked(s, e, a), CodeAt(s, w, e, a));
    assert t == Settle(u, w, Marked(s, e, a), CodeAt(s, w, e, a));
    StaysHomeThen(s, u, t, w);
  }

  lemma QuitStaysHome(s: State, w: WorkerId, e: Event, found: RoomId)
    ensures StaysHome(s, DisconnectAt(Release(s, w), w, e.fd, e.target, found), w)
  {
    hide LeaveRoomAt, LeaveRoomCode;
    var u := Release(s, w);
    LeaveStaysHome(u, w, e.fd, e.target);
    LeaveStaysHome(u, w, e.fd, found);
    if LeaveRoomCode(u, w, e.fd, e.target) == Success {} else {}
  }

  lemma WorkStaysHome(s: State, w: WorkerId, found: RoomId)
    requires w in s.running
    ensures StaysHome(s, Act(s, w, found), w)
  {
    hide StaysHome, SamePlaces, Route, DisconnectAt, Submit, Respond, Discard, Hold, Release, Settle, Effect,
         UserIdOf, CodeAt;
    var t := Act(s, w, found);
    if !Executes(s, w) {
      hide Execute;
      PassPlaces(s, w, s.running[w], CreateJob(s.running[w]));
      SameStaysHome(s, t, w);
    } else if Local(ActionAt(s, w).command) {
      LocalStaysHome(s, w, found);
    } else {
      var e, a := s.running[w].(cursor := s.running[w].cursor + 1), ActionAt(s, w);
      if a.command.DisconnectSession? {
        QuitStaysHome(s, w, e, found);
      } else {
        RerouteSame(s, w, e.(target := a.room));
        PassPlaces(s, w, e, CreateJob(e));
        PassPlaces(s, w, e, LoadJob(e, a.room, CursorOf(e.request)));
        PassPlaces(s, w, e, SaveJob(a.room, UserIdOf(s, e.fd), e.request, e.mark));
        SameStaysHome(s, t, w);
      }
    }
  }
}
