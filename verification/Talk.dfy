/** What one step says: messages handled, DB jobs posted, packets packed. */
module Talk {
  import opened Bytes
  import opened RoomEvents
  import opened ServerState
  import opened History
  import opened Flights
  import opened Requests

  /** The message log, the job log and every session's packets grow by these and nothing else. */
  ghost predicate Says(s: State, t: State, said: seq<Handled>, jobs: seq<Job>, hearers: set<Fd>, packets: seq<Packet>) {
    && t.log.handled == s.log.handled + said
    && t.log.posted == s.log.posted + jobs
    && forall fd :: Packed(t, fd) == Packed(s, fd) + (if fd in hearers then packets else [])
  }

  predicate Executes(s: State, w: WorkerId) {
    w in s.running && s.running[w].cursor < |s.running[w].actions| && !Failed(s.running[w].result)
  }

  function ActionAt(s: State, w: WorkerId): Action
    requires Executes(s, w)
  {
    s.running[w].actions[s.running[w].cursor]
  }

  /** The worker's next action broadcasts. */
  predicate Speaks(s: State, w: WorkerId) {
    Executes(s, w) && ActionAt(s, w).command.SendMessage? && BroadcastCode(s, w, ActionAt(s, w).room) == Success
  }

  function SaidBy(s: State, w: WorkerId): seq<Handled> {
    if Speaks(s, w) then [Handled(ActionAt(s, w).room, s.running[w].fd, s.running[w].request, s.running[w].origin)]
        else []
  }

  function JobsBy(s: State, w: WorkerId): seq<Job> {
    if !Executes(s, w) then []
    else
      var e, a := s.running[w].(cursor := s.running[w].cursor + 1), ActionAt(s, w);
      match a.command
      case RequestDbCreateRoom => [CreateJob(e)]
      case RequestDbLoadMessage => [LoadJob(e, a.room, CursorOf(e.request))]
      case SaveMessage => [SaveJob(a.room, UserIdOf(s, e.fd), e.request, e.mark)]
      case _ => []
  }

  function HearersOf(s: State, w: WorkerId): set<Fd>
    requires w in s.running
  {
    if FateOf(s, w).Replied? then {FateOf(s, w).event.fd}
    else {}
  }

  function PacketsOf(s: State, w: WorkerId): seq<Packet>
    requires w in s.running
  {
    if FateOf(s, w).Replied? then [ResponseTo(FateOf(s, w).event)]
    else []
  }

  lemma PackSays(s: State, t: State, fds: set<Fd>, p: Packet)
    requires t.packed == PackedWith(s.packed, fds, p)
    ensures forall fd :: Packed(t, fd) == Packed(s, fd) + (if fd in fds then [p] else [])
  {}

  lemma RespondSays(s: State, e: Event)
    ensures Says(s, Respond(s, e), [], [], {e.fd}, [ResponseTo(e)])
  {
    PackSays(s, Respond(s, e), {e.fd}, ResponseTo(e));
    if e.origin.Request? {} else {}
  }

  lemma SilentSays(s: State, t: State, fds: set<Fd>)
    requires t.packed == s.packed && t.log.handled == s.log.handled && t.log.posted == s.log.posted
    ensures Says(s, t, [], [], fds, [])
  {}

  lemma RouteSays(s: State, e: Event, fds: set<Fd>)
    ensures Says(s, Route(s, e), [], [], fds, [])
  {
    if FindWorker(s, e.target) == 0 {
      assert Route(s, e) == Discard(s, e);
      if e.origin.Request? { SilentSays(s, Discard(s, e), fds); } else { SilentSays(s, Discard(s, e), fds); }
    } else {
      SilentSays(s, Post(s, FindWorker(s, e.target), e.(hops := e.hops + 1)), fds);
    }
  }

  lemma LeaveSays(s: State, w: WorkerId, fd: Fd, room: RoomId, fds: set<Fd>)
    ensures Says(s, LeaveRoomAt(s, w, fd, room), [], [], fds, [])
  {
    if LeaveRoomCode(s, w, fd, room) == Success {}
    SilentSays(s, LeaveRoomAt(s, w, fd, room), fds);
  }

  lemma DisconnectSays(s: State, w: WorkerId, fd: Fd, room: RoomId, found: RoomId, fds: set<Fd>)
    ensures Says(s, DisconnectAt(s, w, fd, room, found), [], [], fds, [])
  {
    hide Says, LeaveRoomAt;
    LeaveSays(s, w, fd, room, fds);
    LeaveSays(s, w, fd, found, fds);
    if LeaveRoomCode(s, w, fd, room) == Success {} else {}
  }

  /** Changes elsewhere before or after do not matter. */
  lemma SaysFrame(s: State, s': State, t: State, t': State, said: seq<Handled>, jobs: seq<Job>, fds: set<Fd>,
                  ps: seq<Packet>)
    requires Says(s, t, said, jobs, fds, ps)
    requires s'.packed == s.packed && s'.log.handled == s.log.handled && s'.log.posted == s.log.posted
    requires t'.packed == t.packed && t'.log.handled == t.log.handled && t'.log.posted == t.log.posted
    ensures Says(s', t', said, jobs, fds, ps)
  {
    assert forall fd :: Packed(s', fd) == Packed(s, fd) && Packed(t', fd) == Packed(t, fd);
  }

  lemma QuietEffect(s: State, w: WorkerId, e: Event, a: Action)
    requires Local(a.command) && !a.command.SendMessage?
    ensures var t := Effect(s, w, e, a);
            && t.packed == s.packed && t.log.handled == s.log.handled
            && t.log.posted == s.log.posted
  {
    match a.command
    case CreateRoom =>
    case JoinRoom => if JoinRoomCode(s, w, e.fd, a.room) == Success {} else {}
    case LeaveRoom => if LeaveRoomCode(s, w, e.fd, a.room) == Success {}
  }

  lemma SettleSays(s: State, w: WorkerId, e: Event, c: Code, fds: set<Fd>)
    ensures c == Success ==> Says(s, Settle(s, w, e, c), [], [], fds, [])
    ensures c != Success ==> Says(s, Settle(s, w, e, c), [], [], {e.fd}, [ResponseTo(Report(e, c))])
  {
    hide Says, Respond;
    if c == Success {
      SilentSays(s, Hold(s, w, Report(e, c)), fds);
    } else {
      var u := Release(CleanUp(s, e), w);
      RespondSays(u, Report(e, c));
      SaysFrame(u, s, Respond(u, Report(e, c)), Settle(s, w, e, c), [], [], {e.fd}, [ResponseTo(Report(e, c))]);
    }
  }

  lemma QuietLocalSays(s: State, w: WorkerId, e: Event, a: Action, found: RoomId, fds: set<Fd>)
    requires Local(a.command) && !a.command.SendMessage?
    ensures CodeAt(s, w, e, a) == Success ==> Says(s, Execute(s, w, e, a, found), [], [], fds, [])
    ensures CodeAt(s, w, e, a) != Success ==>
              Says(s, Execute(s, w, e, a, found), [], [], {e.fd},
                   [ResponseTo(Report(Marked(s, e, a), CodeAt(s, w, e, a)))])
  {
    hide Says, Settle, Effect;
    var t, c, m := Effect(s, w, e, a), CodeAt(s, w, e, a), Marked(s, e, a);
    QuietEffect(s, w, e, a);
    SettleSays(t, w, m, c, fds);
    var u := Execute(s, w, e, a, found);
    if c == Success { SaysFrame(t, s, u, u, [], [], fds, []); }
    else { SaysFrame(t, s, u, u, [], [], {e.fd}, [ResponseTo(Report(m, c))]); }
  }

  lemma SpeakSays(s: State, w: WorkerId, e: Event, room: RoomId)
    requires BroadcastCode(s, w, room) == Success
    ensures Says(s, BroadcastAt(s, w, e.fd, room, e.request, e.origin), [Handled(room, e.fd, e.request, e.origin)],
                 [], {}, [])
  {}

  /** Looking where a member is says nothing; the packet is said to the member found. */
  lemma LookSays(s: State, w: WorkerId, fd: Fd)
    requires w in s.casts
    ensures Says(s, LookAt(s, w, fd), [], [], {}, [])
  {}

  lemma GiveSays(s: State, w: WorkerId)
    requires w in s.casts && s.casts[w].chosen.Some?
    ensures Says(s, GiveTo(s, w), [], [], {s.casts[w].chosen.value}, [s.casts[w].packet])
  {
    PackSays(s, GiveTo(s, w), {s.casts[w].chosen.value}, s.casts[w].packet);
  }

  lemma SendSays(s: State, w: WorkerId, e: Event, a: Action, found: RoomId)
    requires a.command.SendMessage?
    ensures var t := Execute(s, w, e, a, found);
            if BroadcastCode(s, w, a.room) == Success then
              Says(s, t, [Handled(a.room, e.fd, e.request, e.origin)], [], {}, [])
            else Says(s, t, [], [], {e.fd}, [ResponseTo(Report(Marked(s, e, a), RoomNotFound))])
  {
    hide Says, Respond, UserIdOf;
    var t := Execute(s, w, e, a, found);
    if BroadcastCode(s, w, a.room) == Success {
      var u := BroadcastAt(s, w, e.fd, a.room, e.request, e.origin);
      SpeakSays(s, w, e, a.room);
      assert t == Hold(u, w, Report(Marked(s, e, a), Success));
      SaysFrame(s, s, u, t, [Handled(a.room, e.fd, e.request, e.origin)], [], {}, []);
    } else {
      hide Settle;
      SettleSays(s, w, Marked(s, e, a), RoomNotFound, {});
      assert t == Settle(s, w, Marked(s, e, a), RoomNotFound);
    }
  }

  lemma PassSays(s: State, w: WorkerId, e: Event, j: Job, fds: set<Fd>)
    ensures Says(s, Submit(Release(s, w), j), [], [j], fds, [])
    ensures Says(s, Hold(Submit(s, j), w, e), [], [j], fds, [])
    ensures Says(s, Release(s, w), [], [], fds, [])
    ensures Says(s, Respond(Release(s, w), e), [], [], {e.fd}, [ResponseTo(e)])
    ensures Says(s, Discard(Release(s, w), e), [], [], fds, [])
  {
    hide Respond;
    RespondSays(Release(s, w), e);
    if e.origin.Request? {} else {}
  }

  lemma RerouteSays(s: State, w: WorkerId, e: Event, fds: set<Fd>)
    ensures Says(s, Route(Release(s, w), e), [], [], fds, [])
  {
    hide Route;
    RouteSays(Release(s, w), e, fds);
  }

  lemma QuitSays(s: State, w: WorkerId, e: Event, found: RoomId, fds: set<Fd>)
    ensures Says(s, DisconnectAt(Release(s, w), w, e.fd, e.target, found), [], [], fds, [])
  {
    hide DisconnectAt;
    DisconnectSays(Release(s, w), w, e.fd, e.target, found, fds);
  }

  lemma ExecuteSays(s: State, w: WorkerId, e: Event, a: Action, found: RoomId)
    requires Executes(s, w) && e == s.running[w].(cursor := s.running[w].cursor + 1) && a == ActionAt(s, w)
    requires a.command.SaveMessage? ==> e.result == Success
    ensures Says(s, Execute(s, w, e, a, found), SaidBy(s, w), JobsBy(s, w), HearersOf(s, w), PacketsOf(s, w))
  {
    hide Says, Route, DisconnectAt, Submit, Respond, Hold, Release, Settle, Effect, UserIdOf;
    match a.command
    case RequestDbCreateRoom => PassSays(s, w, e, CreateJob(e), {});
    case RequestDbLoadMessage => PassSays(s, w, e, LoadJob(e, a.room, CursorOf(e.request)), {});
    case RequestJoinRoom => RerouteSays(s, w, e.(target := a.room), {});
    case RequestLeaveRoom => RerouteSays(s, w, e.(target := a.room), {});
    case SaveMessage => PassSays(s, w, e, SaveJob(a.room, UserIdOf(s, e.fd), e.request, e.mark), {});
    case SendResponse => PassSays(s, w, e, CreateJob(e), {});
    case Flush => PassSays(s, w, e, CreateJob(e), {});
    case DisconnectSession => QuitSays(s, w, e, found, {});
    case SendMessage => SendSays(s, w, e, a, found);
    case _ => QuietLocalSays(s, w, e, a, found, {});
  }

  /** One iteration of the action loop says exactly what its action says. */
  lemma WorkSays(s: State, w: WorkerId, found: RoomId)
    requires w in s.running
    requires Executes(s, w) && ActionAt(s, w).command.SaveMessage? ==> s.running[w].result == Success
    ensures Says(s, Act(s, w, found), SaidBy(s, w), JobsBy(s, w), HearersOf(s, w), PacketsOf(s, w))
  {
    hide Says, Execute, Respond, Discard, Release;
    var e := s.running[w];
    if e.cursor >= |e.actions| {
      PassSays(s, w, e, CreateJob(e), {});
    } else if Failed(e.result) {
      PassSays(s, w, e, CreateJob(e), {});
    } else {
      ExecuteSays(s, w, e.(cursor := e.cursor + 1), e.actions[e.cursor], found);
    }
  }

  lemma SavedSays(s: State, o: DbOutcome)
    requires s.jobs != [] && s.jobs[0].SaveJob?
    ensures Says(s, FinishJob(s, o), [], [], {}, [])
  {
    hide Says, Route, LoadResult, Post, Bind;
    if o.Saved? { SilentSays(s, FinishJob(s, o), {}); } else { SilentSays(s, FinishJob(s, o), {}); }
  }

  lemma CreatedSays(s: State, o: DbOutcome)
    requires s.jobs != [] && s.jobs[0].CreateJob?
    ensures Says(s, FinishJob(s, o), [], [], {}, [])
  {
    hide Says, Route, LoadResult;
    if o.Created? { SilentSays(s, FinishJob(s, o), {}); } else { SilentSays(s, FinishJob(s, o), {}); }
  }

  lemma HandedSays(s: State, o: DbOutcome)
    requires s.jobs != [] && s.jobs[0].HandJob?
    ensures Says(s, FinishJob(s, o), [], [], {}, [])
  {
    hide Says, Route, LoadResult, Bind;
    SilentSays(s, FinishJob(s, o), {});
  }

  lemma LoadedSays(s: State, e: Event)
    requires s.jobs != []
    ensures Says(s, Route(s.(jobs := s.jobs[1..]), e), [], [], {}, [])
  {
    hide Route;
    RouteSays(s.(jobs := s.jobs[1..]), e, {});
  }

  lemma QuerySays(s: State, o: DbOutcome)
    requires s.jobs != []
    ensures Says(s, FinishJob(s, o), [], [], {}, [])
  {
    hide Says, Route, LoadResult, Post, Hand, Bind, Resolved, Report;
    match s.jobs[0]
    case SaveJob(_, _, _, _) => SavedSays(s, o);
    case CreateJob(_) => CreatedSays(s, o);
    case HandJob(_, _) => HandedSays(s, o);
    case LoadJob(e, room, before) => LoadedSays(s, LoadResult(s, e, room, before, o));
  }

  lemma CloseSays(s: State, fd: Fd, garbage: Command)
    requires fd in s.users
    ensures Says(s, CloseSession(s, fd, garbage), [], [], {}, [])
  {
    hide Route;
    var room := s.users[fd].room;
    var t := Route(s, DepartEvent(fd, room, garbage));
    RouteSays(s, DepartEvent(fd, room, garbage), {});
    if room != LOBBY_ROOM_ID {
      var u := Route(t, DepartEvent(fd, LOBBY_ROOM_ID, garbage));
      RouteSays(t, DepartEvent(fd, LOBBY_ROOM_ID, garbage), {});
    }
  }

  /** Steps of the main and DB threads, and taking an event from the queue, say nothing. */
  lemma SilentStep(s: State, step: Step)
    requires Enabled(s, step) && !step.Work? && !step.Give?
    ensures Says(s, Apply(s, step), [], [], {}, [])
  {
    hide Says, CloseSession, FinishJob, Route, Post;
    match step
    case Accept(fd, id, garbage) =>
      assert AcceptClient(s, fd, id, garbage) ==
             Post(s.(users := s.users[fd := User(id, LOBBY_ROOM_ID)]), LOBBY_WORKER_ID, ArrivalEvent(fd, garbage));
      PostSays(s.(users := s.users[fd := User(id, LOBBY_ROOM_ID)]), LOBBY_WORKER_ID, ArrivalEvent(fd, garbage));
      SaysFrame(s.(users := s.users[fd := User(id, LOBBY_ROOM_ID)]), s, Apply(s, step), Apply(s, step), [], [], {}, []);
    case Ask(fd, cmd, room, body) => AskSays(s, fd, cmd, room, body);
    case Tick(fd, garbage) =>
      if fd in s.users { RouteSays(s, FlushEvent(fd, s.users[fd].room, garbage), {}); } else { SilentSays(s, s, {}); }
    case Close(fd, garbage) => CloseSays(s, fd, garbage);
    case Start(w, k) => SilentSays(s, Take(s, w, k), {});
    case Look(w, fd) => LookSays(s, w, fd);
    case Query(o) => QuerySays(s, o);
  }

  lemma PostSays(s: State, w: WorkerId, e: Event)
    ensures Says(s, Post(s, w, e), [], [], {}, [])
  {
    SilentSays(s, Post(s, w, e), {});
  }

  lemma AskSays(s: State, fd: Fd, cmd: Command, room: RoomId, body: seq<byte>)
    ensures Says(s, Dispatch(s, fd, cmd, room, body), [], [], {}, [])
  {
    SilentSays(s, Dispatch(s, fd, cmd, room, body), {});
  }
}
