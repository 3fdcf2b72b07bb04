/**
  Requests, for any client input: every dispatched request is at exactly one place, is answered at most once,
  and the answer says what happened to its recipe.
 */
module Requests {
  import opened Bytes
  import opened RoomEvents
  import opened ServerState
  import opened History
  import opened Flights
  import opened Itinerary
  import opened Ownership

  // ---- what becomes of the event a worker executes ----

  datatype Fate = Onward | Replied(event: Event) | Lost(event: Event) | Over

  /** The event after one iteration of the loop: handed on, answered, lost without an answer, or over. */
  function FateOf(s: State, w: WorkerId): Fate
    requires w in s.running
  {
    var e := s.running[w];
    if e.cursor >= |e.actions| then Lost(e)
    else if Failed(e.result) then Replied(e)
    else
      var a := e.actions[e.cursor];
      var e1 := e.(cursor := e.cursor + 1);
      match a.command
      case RequestDbCreateRoom => Onward
      case RequestDbLoadMessage => Onward
      case RequestJoinRoom => if FindWorker(s, a.room) == 0 then Lost(e1.(target := a.room)) else Onward
      case RequestLeaveRoom => if FindWorker(s, a.room) == 0 then Lost(e1.(target := a.room)) else Onward
      case SaveMessage => if e.result == Success then Onward else Replied(e1)
      case SendResponse => Replied(e1)
      case Flush => Over
      case DisconnectSession => Over
      case _ =>
        assert Local(a.command);
        var c := CodeAt(s, w, e, a);
        if c == Success then Onward else Replied(Report(Marked(s, e1, a), c))
  }

  function AnswersOf(l: Log, fate: Fate): seq<Event> {
    l.answers + if fate.Replied? && fate.event.origin.Request? then [fate.event] else []
  }

  function DroppedOf(l: Log, fate: Fate): seq<Event> {
    l.dropped + if fate.Lost? && fate.event.origin.Request? then [fate.event] else []
  }

  /** The logs of answered and lost requests grow by exactly the fate of the event. */
  ghost predicate Fated(s: State, t: State, fate: Fate) {
    && t.log.issued == s.log.issued
    && t.log.answers == AnswersOf(s.log, fate)
    && t.log.dropped == DroppedOf(s.log, fate)
  }

  predicate SameTally(s: State, t: State) {
    t.log.issued == s.log.issued && t.log.answers == s.log.answers && t.log.dropped == s.log.dropped
  }

  lemma RouteTally(s: State, e: Event)
    ensures Fated(s, Route(s, e), if FindWorker(s, e.target) == 0 then Lost(e) else Onward)
  {
    if FindWorker(s, e.target) == 0 { assert Route(s, e) == Discard(s, e); }
    else { assert Route(s, e) == Post(s, FindWorker(s, e.target), e.(hops := e.hops + 1)); }
  }

  lemma EffectTally(s: State, w: WorkerId, e: Event, a: Action)
    requires Local(a.command)
    ensures SameTally(s, Effect(s, w, e, a))
  {
    hide WithCast, UserIdOf;
    match a.command
    case CreateRoom =>
    case JoinRoom => if JoinRoomCode(s, w, e.fd, a.room) == Success {}
    case LeaveRoom => if LeaveRoomCode(s, w, e.fd, a.room) == Success {}
    case SendMessage => if BroadcastCode(s, w, a.room) == Success {}
  }

  lemma SettleTally(s: State, w: WorkerId, e: Event, c: Code)
    ensures Fated(s, Settle(s, w, e, c), if c == Success then Onward else Replied(Report(e, c)))
  {
    if c == Success {} else {}
  }

  lemma LocalTally(s: State, w: WorkerId, e: Event, a: Action, found: RoomId)
    requires Local(a.command)
    ensures var c := CodeAt(s, w, e, a);
            Fated(s, Execute(s, w, e, a, found), if c == Success then Onward else Replied(Report(Marked(s, e, a), c)))
  {
    hide Settle, Effect, Fated;
    EffectTally(s, w, e, a);
    SettleTally(Effect(s, w, e, a), w, Marked(s, e, a), CodeAt(s, w, e, a));
    FatedFrame(s, Effect(s, w, e, a), Execute(s, w, e, a, found),
               if CodeAt(s, w, e, a) == Success then Onward else Replied(Report(Marked(s, e, a), CodeAt(s, w, e, a))));
  }

  lemma FatedFrame(s: State, u: State, t: State, fate: Fate)
    requires SameTally(s, u) && Fated(u, t, fate)
    ensures Fated(s, t, fate)
  {}

  lemma LeaveTally(s: State, w: WorkerId, fd: Fd, room: RoomId)
    ensures SameTally(s, LeaveRoomAt(s, w, fd, room))
  {
    if LeaveRoomCode(s, w, fd, room) == Success {}
  }

  lemma DisconnectTally(s: State, w: WorkerId, fd: Fd, room: RoomId, found: RoomId)
    ensures SameTally(s, DisconnectAt(s, w, fd, room, found))
  {
    hide LeaveRoomAt;
    LeaveTally(s, w, fd, room);
    LeaveTally(s, w, fd, found);
    if LeaveRoomCode(s, w, fd, room) == Success {} else {}
  }

  /** The plain ways of passing an event on. */
  lemma PassTally(s: State, w: WorkerId, e: Event, j: Job)
    ensures Fated(s, Submit(Release(s, w), j), Onward)
    ensures Fated(s, Hold(Submit(s, j), w, e), Onward)
    ensures Fated(s, Respond(Release(Submit(s, j), w), e), Replied(e))
    ensures Fated(s, Respond(Release(s, w), e), Replied(e))
    ensures Fated(s, Discard(Release(s, w), e), Lost(e))
    ensures Fated(s, Release(s, w), Over)
  {}

  lemma RerouteTally(s: State, w: WorkerId, e: Event, room: RoomId)
    ensures Fated(s, Route(Release(s, w), e.(target := room)), if FindWorker(s, room) == 0
                  then Lost(e.(target := room)) else Onward)
  {
    hide Route;
    RouteTally(Release(s, w), e.(target := room));
  }

  lemma QuitTally(s: State, w: WorkerId, e: Event, found: RoomId)
    ensures Fated(s, DisconnectAt(Release(s, w), w, e.fd, e.target, found), Over)
  {
    hide DisconnectAt;
    DisconnectTally(Release(s, w), w, e.fd, e.target, found);
  }

  lemma ExecuteTally(s: State, w: WorkerId, e: Event, a: Action, found: RoomId)
    requires w in s.running && e == s.running[w].(cursor := s.running[w].cursor + 1) && !Failed(e.result)
    requires s.running[w].cursor < |s.running[w].actions| && a == s.running[w].actions[s.running[w].cursor]
    ensures Fated(s, Execute(s, w, e, a, found), FateOf(s, w))
  {
    hide Fated, Route, DisconnectAt, Submit, Respond, Hold, Release, Settle, Effect, UserIdOf;
    match a.command
    case RequestDbCreateRoom => PassTally(s, w, e, CreateJob(e));
    case RequestDbLoadMessage => PassTally(s, w, e, LoadJob(e, a.room, CursorOf(e.request)));
    case RequestJoinRoom => RerouteTally(s, w, e, a.room);
    case RequestLeaveRoom => RerouteTally(s, w, e, a.room);
    case SaveMessage =>
      PassTally(s, w, e, SaveJob(a.room, UserIdOf(s, e.fd), e.request, e.mark)); if e.result == Success {} else {}
    case SendResponse => PassTally(s, w, e, CreateJob(e));
    case Flush => PassTally(s, w, e, CreateJob(e));
    case DisconnectSession => QuitTally(s, w, e, found);
    case _ => LocalTally(s, w, e, a, found);
  }

  lemma WorkTally(s: State, w: WorkerId, found: RoomId)
    requires w in s.running
    ensures Fated(s, Act(s, w, found), FateOf(s, w))
  {
    hide Execute, Fated, Discard, Respond, Release;
    var e := s.running[w];
    PassTally(s, w, e, CreateJob(e));
    if e.cursor >= |e.actions| {
    } else if Failed(e.result) {
    } else {
      ExecuteTally(s, w, e.(cursor := e.cursor + 1), e.actions[e.cursor], found);
    }
  }

  // ---- the trail an event leaves ----

  predicate Waits(p: Place) {
    p.AwaitsRoom? || p.AwaitsHistory?
  }

  /** Codes reported so far: successes, then the code in force. */
  predicate WellReported(outcomes: seq<Code>, result: Code) {
    && (outcomes == [] ==> result == None)
    && (outcomes != [] ==> result == outcomes[|outcomes| - 1] && result != None)
    && forall i | 0 <= i < |outcomes| - 1 :: outcomes[i] == Success
  }

  /** Only an issued room id or a loaded page is ever in the body. */
  predicate BodyOk(e: Event) {
    e.response == [] || (e.plan.PlanCreate? && e.plan.room != PENDING_ROOM_ID)
    || ((e.plan.PlanJoin? || e.plan.PlanLoad?) && e.result == Success && e.cursor + 1 == |e.actions|)
  }

  predicate TrailOk(f: Flight) {
    var e := f.event;
    var waits := if Waits(f.place) then 1 else 0;
    && e.cursor <= |e.actions|
    && WellReported(e.outcomes, e.result)
    && (e.origin.Request? ==> e.hops + (if f.place.Crossing? then 1 else waits) <= e.cursor)
    && (if e.plan.PlanReject? then e.outcomes == [RoomNotFound]
        else |e.outcomes| + waits == ReportCount(e.actions, e.cursor))
    && BodyOk(e) && (Waits(f.place) ==> e.response == [])
  }

  predicate AllSucceeded(e: Event) {
    && |e.outcomes| == ReportCount(e.actions, |e.actions|)
    && forall i | 0 <= i < |e.outcomes| :: e.outcomes[i] == Success
  }

  /**
    What an answer says: Success exactly when every reporting step of the recipe succeeded, otherwise the code of
    the first failing step, never None; the event changed hands at most once per action; a failure carries a body only
    when a create failed after its room id had been issued; a rejection says that there is no such room, and a request
    without a recipe is not answered.
   */
  predicate AnswerOk(e: Event) {
    && e.outcomes != [] && WellReported(e.outcomes, e.result)
    && (e.result == Success <==> AllSucceeded(e))
    && (e.origin.Request? ==> e.hops <= |e.actions|)
    && (e.result != Success ==> (e.response != [] <==> e.plan.PlanCreate? && e.outcomes[0] == Success))
    && (e.plan.PlanReject? ==> e.outcomes == [RoomNotFound]) && !e.plan.PlanIgnore?
  }

  lemma AtResponse(home: map<RoomId, WorkerId>, f: Flight)
    requires OnCourse(home, f) && !Waits(f.place) && f.event.cursor < |f.event.actions| && !Failed(f.event.result)
    requires f.event.actions[f.event.cursor].command.SendResponse?
    ensures f.event.result == Success && f.event.cursor + 1 == |f.event.actions| && !f.event.plan.PlanReject?
  {
    match f.event.plan
    case PlanCreate(_) => assert f.event.cursor == 5;
    case PlanJoin(_) => assert f.event.cursor == 4;
    case PlanLeave(_) => assert f.event.cursor == 3;
    case PlanSend(_) => assert f.event.cursor == 2;
    case PlanLoad(_) => assert f.event.cursor == 1;
    case _ =>
  }

  /** A create fails with its id issued exactly when its first step, the insert, had succeeded. */
  lemma FailureBody(home: map<RoomId, WorkerId>, f: Flight, e: Event)
    requires OnCourse(home, f) && TrailOk(f) && !Waits(f.place)
    requires e.plan == f.event.plan && e.response == f.event.response && WellReported(e.outcomes, e.result)
             && Failed(e.result)
    requires || (e.outcomes == f.event.outcomes && e.result == f.event.result)
             || (f.event.cursor < |f.event.actions| && Local(f.event.actions[f.event.cursor].command)
                 && e.outcomes == f.event.outcomes + [e.result])
    ensures e.response != [] <==> e.plan.PlanCreate? && e.outcomes[0] == Success
  {
    match e.plan
    case PlanCreate(r) =>
      if r == PENDING_ROOM_ID {
        assert ReportCount(f.event.actions, 1) == 1;
        if f.event.cursor == 0 {} else {}
      } else {
        assert |I64Bytes(r)| == 8;
        assert f.event.result == Success;
      }
    case PlanJoin(_) => if f.event.cursor == 4 {} else {}
    case PlanLoad(_) =>
    case _ =>
  }

  lemma ReportOk(outcomes: seq<Code>, result: Code, c: Code)
    requires WellReported(outcomes, result) && !Failed(result) && c != None
    ensures WellReported(outcomes + [c], c)
  {}

  predicate Proceeds(w: WorkerId, e: Event) {
    && TrailOk(Flight(Running(w), e)) && e.cursor < |e.actions| && !Failed(e.result)
    && !e.plan.PlanReject? && BodyOk(e.(cursor := e.cursor + 1))
  }

  lemma ReportedTrail(w: WorkerId, e: Event, mark: nat)
    requires Proceeds(w, e) && Reports(e.actions[e.cursor].command)
    requires e.response == [] || e.plan.PlanCreate?
    ensures TrailOk(Flight(Running(w), Report(e.(cursor := e.cursor + 1, mark := mark), Success)))
  {
    ReportOk(e.outcomes, e.result, Success);
  }

  lemma WaitingTrail(w: WorkerId, e: Event, p: Place)
    requires Proceeds(w, e) && Reports(e.actions[e.cursor].command) && Waits(p) && e.response == []
    ensures TrailOk(Flight(p, e.(cursor := e.cursor + 1)))
  {}

  lemma PassedTrail(w: WorkerId, e: Event, p: Place, target: RoomId)
    requires Proceeds(w, e) && !Reports(e.actions[e.cursor].command) && !Waits(p) && !p.Crossing?
    ensures TrailOk(Flight(p, e.(cursor := e.cursor + 1)))
    ensures TrailOk(Flight(p, e.(cursor := e.cursor + 1, target := target, hops := e.hops + 1)))
  {}

  /** An event that goes on keeps a truthful trail. */
  lemma OnwardTrail(s: State, w: WorkerId)
    requires Moving(s, w) && TrailOk(Flight(Running(w), s.running[w])) && NextFlight(s, w).Some?
    ensures TrailOk(NextFlight(s, w).value)
  {
    hide OnCourse, Bound, CodeAt, CursorOf, FindWorker;
    var e := s.running[w];
    var a := e.actions[e.cursor];
    OnwardBody(s, w);
    hide TrailOk;
    if Local(a.command) {
      ReportedTrail(w, e, |s.log.handled|);
      ReportedTrail(w, e, e.mark);
    } else if a.command.RequestDbCreateRoom? {
      WaitingTrail(w, e, AwaitsRoom);
    } else if a.command.RequestDbLoadMessage? {
      WaitingTrail(w, e, AwaitsHistory(a.room, CursorOf(e.request)));
    } else if a.command.SaveMessage? {
      PassedTrail(w, e, Running(w), 0);
    } else {
      PassedTrail(w, e, Queued(FindWorker(s, a.room)), a.room);
    }
  }

  lemma OnwardBody(s: State, w: WorkerId)
    requires Moving(s, w) && TrailOk(Flight(Running(w), s.running[w])) && NextFlight(s, w).Some?
    ensures !s.running[w].plan.PlanReject? && (s.running[w].response == [] || s.running[w].plan.PlanCreate?)
    ensures Proceeds(w, s.running[w])
    ensures var e := s.running[w]; var c := e.actions[e.cursor].command;
            c.RequestDbCreateRoom? || c.RequestDbLoadMessage? ==> e.response == []
  {
    var e := s.running[w];
    match e.plan
    case PlanCreate(_) => if e.cursor == 0 {} else {}
    case PlanJoin(_) => if e.cursor == 4 {} else {}
    case PlanLoad(_) => if e.cursor == 1 {} else {}
    case _ =>
  }

  lemma FailedReply(home: map<RoomId, WorkerId>, f: Flight, e: Event)
    requires OnCourse(home, f) && TrailOk(f) && !Waits(f.place)
    requires e.plan == f.event.plan && e.response == f.event.response && WellReported(e.outcomes, e.result)
             && Failed(e.result)
    requires e.hops == f.event.hops && e.actions == f.event.actions && e.origin == f.event.origin
    requires || (e.outcomes == f.event.outcomes && e.result == f.event.result)
             || (f.event.cursor < |f.event.actions| && Local(f.event.actions[f.event.cursor].command)
                 && e.outcomes == f.event.outcomes + [e.result])
    ensures AnswerOk(e)
  {
    FailureBody(home, f, e);
    hide OnCourse;
    assert e.outcomes[|e.outcomes| - 1] != Success;
  }

  lemma FinalReply(home: map<RoomId, WorkerId>, f: Flight)
    requires OnCourse(home, f) && TrailOk(f) && !Waits(f.place)
    requires f.event.cursor < |f.event.actions| && !Failed(f.event.result)
    requires f.event.actions[f.event.cursor].command.SendResponse?
    ensures AnswerOk(f.event.(cursor := f.event.cursor + 1))
  {
    AtResponse(home, f);
    hide OnCourse;
    assert ReportCount(f.event.actions, |f.event.actions|) == ReportCount(f.event.actions, f.event.cursor);
  }

  /** The answer a worker gives is truthful. */
  lemma ReplyOk(s: State, w: WorkerId)
    requires Moving(s, w) && TrailOk(Flight(Running(w), s.running[w])) && FateOf(s, w).Replied?
    ensures AnswerOk(FateOf(s, w).event)
  {
    hide OnCourse, Bound, AnswerOk, CodeAt;
    var e, f := s.running[w], Flight(Running(w), s.running[w]);
    if Failed(e.result) {
      FailedReply(s.log.home, f, e);
    } else {
      var a := e.actions[e.cursor];
      if a.command.SendResponse? {
        FinalReply(s.log.home, f);
      } else if a.command.SaveMessage? {
        SaveSucceeds(s, w);
      } else {
        var e' := FateOf(s, w).event;
        CodeNotNone(s, w, e, a);
        ReportOk(e.outcomes, e.result, e'.result);
        FailedReply(s.log.home, f, e');
      }
    }
  }

  lemma CodeNotNone(s: State, w: WorkerId, e: Event, a: Action)
    requires Local(a.command)
    ensures CodeAt(s, w, e, a) != None
  {}

  lemma SaveSucceeds(s: State, w: WorkerId)
    requires Moving(s, w) && s.running[w].cursor < |s.running[w].actions|
    requires s.running[w].actions[s.running[w].cursor].command.SaveMessage?
    ensures s.running[w].result == Success
  {
    RunningCreates(s, w);
  }

  // ---- how the other steps move events ----

  function AskCome(s: State, fd: Fd, cmd: Command, room: RoomId, body: seq<byte>): Flight {
    var w := FindWorker(s, FirstTarget(cmd, room));
    if w == 0 then Flight(Queued(LOBBY_WORKER_ID), RejectEvent(fd, cmd, s.log.issued))
    else Flight(Queued(w), RequestEvent(fd, cmd, room, body, s.log.issued))
  }

  lemma AskMoves(s: State, fd: Fd, cmd: Command, room: RoomId, body: seq<byte>)
    requires Staffed(s)
    ensures Moved(s, Dispatch(s, fd, cmd, room, body), Nothing, Some(AskCome(s, fd, cmd, room, body)))
  {
    hide Count;
    var u := s.(log := s.log.(issued := s.log.issued + 1));
    SameFlights(s, u);
    var w := FindWorker(s, FirstTarget(cmd, room));
    if w == 0 {
      PostFlights(u, LOBBY_WORKER_ID, RejectEvent(fd, cmd, s.log.issued));
    } else {
      PostFlights(u, w, RequestEvent(fd, cmd, room, body, s.log.issued));
    }
  }

  lemma AcceptMoves(s: State, fd: Fd, id: int64, garbage: Command)
    requires Staffed(s)
    ensures Moved(s, AcceptClient(s, fd, id, garbage), Nothing,
                  Some(Flight(Queued(LOBBY_WORKER_ID), ArrivalEvent(fd, garbage))))
  {
    hide Count;
    var u := s.(users := s.users[fd := User(id, LOBBY_ROOM_ID)]);
    SameFlights(s, u);
    PostFlights(u, LOBBY_WORKER_ID, ArrivalEvent(fd, garbage));
  }

  lemma WorkMoves(s: State, w: WorkerId, found: RoomId)
    requires Staffed(s) && w in s.running
    ensures Moved(s, Act(s, w, found), Some(Flight(Running(w), s.running[w])), NextFlight(s, w))
    ensures In(s, Flight(Running(w), s.running[w]))
  {
    hide Count, Act, NextFlight;
    WorkFlights(s, w, found);
    RunningIsIn(s, w);
  }

  lemma StartMoves(s: State, w: WorkerId, k: nat)
    requires 1 <= w <= s.n && w !in s.running && k < |Queue(s, w)|
    ensures Moved(s, Take(s, w, k), Some(Flight(Queued(w), Queue(s, w)[k])), Some(Flight(Running(w), Queue(s, w)[k])))
    ensures In(s, Flight(Queued(w), Queue(s, w)[k]))
  {
    hide Count;
    TakeFlights(s, w, k);
    assert Count(Take(s, w, k), Flight(Queued(w), Queue(s, w)[k])) >= 0;
  }

  function QueryGone(s: State): Option<Flight>
    requires s.jobs != []
  {
    if s.jobs[0].SaveJob? then Nothing else Some(Flight(JobPlace(s.jobs[0]), s.jobs[0].event))
  }

  function QueryCome(s: State, o: DbOutcome): Option<Flight>
    requires s.jobs != []
  {
    match s.jobs[0]
    case SaveJob(_, _, _, _) => Nothing
    case CreateJob(e) =>
      if o.Created? then Some(Flight(Crossing(o.worker), Resolved(e, o.id)))
      else Some(Flight(Queued(LOBBY_WORKER_ID), Report(e, DbError).(hops := e.hops + 1)))
    case HandJob(e, w) => Some(Flight(Queued(w), e.(hops := e.hops + 1)))
    case LoadJob(e, room, before) =>
      var e' := LoadResult(s, e, room, before, o);
      if FindWorker(s, e'.target) == 0 then Nothing
      else Some(Flight(Queued(FindWorker(s, e'.target)), e'.(hops := e'.hops + 1)))
  }

  lemma QueryMoves(s: State, o: DbOutcome)
    requires Own(s) && s.jobs != [] && OutcomeOk(s, s.jobs[0], o)
    ensures Moved(s, FinishJob(s, o), QueryGone(s), QueryCome(s, o))
    ensures QueryGone(s).Some? ==> In(s, QueryGone(s).value)
  {
    hide Own, OnCourse, Count, Post, Hand, Bind, Route, LoadResult, Resolved, Report, JobPlace;
    var t := s.(jobs := s.jobs[1..]);
    OwnBound(s);
    PopJobFlights(s);
    match s.jobs[0]
    case SaveJob(_, _, _, _) => SameFlights(t, FinishJob(s, o));
    case CreateJob(e) =>
      HeadIsIn(s);
      if o.Created? {
        BindFlights(t, o.id, o.worker);
        HandFlights(Bind(t, o.id, o.worker), HandJob(Resolved(e, o.id), o.worker));
        CrossingPlace(Resolved(e, o.id), o.worker);
      } else {
        PostFlights(t, LOBBY_WORKER_ID, Report(e, DbError).(hops := e.hops + 1));
      }
    case HandJob(e, w) =>
      HeadIsIn(s);
      CrossingPlace(e, w);
      OwnFlight(s, Flight(Crossing(w), e));
      HandedOnCourse(s, w, e);
      PostFlights(t, w, e.(hops := e.hops + 1));
    case LoadJob(e, room, before) =>
      HeadIsIn(s);
      RouteFlights(t, LoadResult(s, e, room, before, o));
  }

  lemma CrossingPlace(e: Event, w: WorkerId)
    ensures JobPlace(HandJob(e, w)) == Crossing(w)
  {}

  lemma BindFlights(s: State, room: RoomId, w: WorkerId)
    ensures forall f :: Count(Bind(s, room, w), f) == Count(s, f)
    ensures Bind(s, room, w).n == s.n
  {
    SameFlights(s, Bind(s, room, w));
  }

  /** The DB callbacks report the code of the step the event was waiting for. */
  lemma QueryTrail(s: State, o: DbOutcome)
    requires Bound(s) && s.jobs != [] && OutcomeOk(s, s.jobs[0], o) && QueryGone(s).Some? && QueryCome(s, o).Some?
    requires OnCourse(s.log.home, QueryGone(s).value) && TrailOk(QueryGone(s).value)
    ensures TrailOk(QueryCome(s, o).value)
  {
    hide Bound, FindWorker, OnCourse, TrailOk, LoadResult, Resolved, Report;
    var e := s.jobs[0].event;
    if s.jobs[0].CreateJob? {
      if o.Created? { ResolvedTrail(s.log.home, e, o.id, o.worker); } else { RefusedTrail(s.log.home, e); }
    } else if s.jobs[0].HandJob? {
      HandedTrail(s.log.home, e, s.jobs[0].worker);
    } else {
      var room, before := s.jobs[0].room, s.jobs[0].before;
      LoadedTrail(s, e, room, before, o, FindWorker(s, LoadResult(s, e, room, before, o).target));
    }
  }

  lemma ResolvedTrail(home: map<RoomId, WorkerId>, e: Event, id: RoomId, w: WorkerId)
    requires OnCourse(home, Flight(AwaitsRoom, e)) && TrailOk(Flight(AwaitsRoom, e)) && id != PENDING_ROOM_ID
    ensures TrailOk(Flight(Crossing(w), Resolved(e, id)))
  {
    ResolveCreate(id);
    assert ReportCount(e.actions, 1) == 1 && ReportCount(Actions(PlanCreate(id)), 1) == 1;
    ReportOk(e.outcomes, e.result, Success);
  }

  lemma HandedTrail(home: map<RoomId, WorkerId>, e: Event, w: WorkerId)
    requires OnCourse(home, Flight(Crossing(w), e)) && TrailOk(Flight(Crossing(w), e))
    ensures TrailOk(Flight(Queued(w), e.(hops := e.hops + 1)))
  {}

  lemma RefusedTrail(home: map<RoomId, WorkerId>, e: Event)
    requires OnCourse(home, Flight(AwaitsRoom, e)) && TrailOk(Flight(AwaitsRoom, e))
    ensures TrailOk(Flight(Queued(LOBBY_WORKER_ID), Report(e, DbError).(hops := e.hops + 1)))
  {
    ReportOk(e.outcomes, e.result, DbError);
  }

  lemma LoadedTrail(s: State, e: Event, room: RoomId, before: int64, o: DbOutcome, w: WorkerId)
    requires OnCourse(s.log.home, Flight(AwaitsHistory(room, before), e))
             && TrailOk(Flight(AwaitsHistory(room, before), e))
    requires OutcomeOk(s, LoadJob(e, room, before), o)
    ensures var e' := LoadResult(s, e, room, before, o); TrailOk(Flight(Queued(w), e'.(hops := e'.hops + 1)))
  {
    ReportOk(e.outcomes, e.result, if o.NotLoaded? then o.code else Success);
    match e.plan
    case PlanJoin(_) =>
    case PlanLoad(_) =>
  }

  /** A load whose room is no longer bound is lost; every other callback hands its event on. */
  function QueryFate(s: State, o: DbOutcome): Fate
    requires s.jobs != []
  {
    match s.jobs[0]
    case LoadJob(e, room, before) =>
      var e' := LoadResult(s, e, room, before, o);
      if FindWorker(s, e'.target) == 0 then Lost(e') else Onward
    case _ => Onward
  }

  lemma QueryTally(s: State, o: DbOutcome)
    requires s.jobs != []
    ensures QueryGone(s).Some? ==> Fated(s, FinishJob(s, o), QueryFate(s, o))
    ensures QueryGone(s).Nothing? ==> SameTally(s, FinishJob(s, o))
  {
    hide Route, LoadResult, Post, Hand, Bind, JobPlace, Resolved, Report, Fated, SameTally;
    match s.jobs[0]
    case SaveJob(_, _, _, _) => SaveTally(s, o);
    case CreateJob(_) => CreateTally(s, o);
    case HandJob(_, _) => HandTally(s, o);
    case LoadJob(e, room, before) => LoadTally(s, LoadResult(s, e, room, before, o));
  }

  lemma SaveTally(s: State, o: DbOutcome)
    requires s.jobs != [] && s.jobs[0].SaveJob?
    ensures SameTally(s, FinishJob(s, o))
  {
    hide Route, LoadResult, Post, Bind;
    if o.Saved? {} else {}
  }

  lemma CreateTally(s: State, o: DbOutcome)
    requires s.jobs != [] && s.jobs[0].CreateJob?
    ensures Fated(s, FinishJob(s, o), Onward)
  {
    hide Route, LoadResult;
    if o.Created? {} else {}
  }

  lemma HandTally(s: State, o: DbOutcome)
    requires s.jobs != [] && s.jobs[0].HandJob?
    ensures Fated(s, FinishJob(s, o), Onward)
  {
    hide Route, LoadResult, Bind;
  }

  lemma LoadTally(s: State, e: Event)
    requires s.jobs != []
    ensures Fated(s, Route(s.(jobs := s.jobs[1..]), e), if FindWorker(s, e.target) == 0 then Lost(e) else Onward)
  {
    hide Route;
    RouteTally(s.(jobs := s.jobs[1..]), e);
  }

  lemma LoadKeeps(s: State, e: Event, room: RoomId, before: int64, o: DbOutcome)
    ensures var e' := LoadResult(s, e, room, before, o);
            e'.origin == e.origin && e'.plan == e.plan && e'.fd == e.fd && e'.cursor == e.cursor
                && e'.target == LastRoom(e)
            && e'.mark == e.mark && e'.request == e.request && e'.initial == e.initial
  {}
}
