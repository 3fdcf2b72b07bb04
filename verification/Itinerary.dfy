/**
  Where an event may be at each step of its recipe, for any client input: the actions that touch a room
  are only ever at the cursor on the worker that room was bound to.
 */
module Itinerary {
  import opened Bytes
  import opened RoomEvents
  import opened ServerState
  import opened History
  import opened Flights

  /** At the worker of `room`, executing if `started`. */
  predicate AtHome(home: map<RoomId, WorkerId>, f: Flight, room: RoomId, started: bool) {
    room in home && (f.place == Running(home[room]) || (!started && f.place == Queued(home[room])))
  }

  predicate CreateOnCourse(home: map<RoomId, WorkerId>, f: Flight, r: RoomId) {
    var e := f.event;
    e.initial == CmdCreateRoom &&
    if r == PENDING_ROOM_ID then
      || (e.cursor == 0 && AtHome(home, f, LOBBY_ROOM_ID, false) && e.result == None)
      || (e.cursor == 1 && f.place == AwaitsRoom && e.result == None)
      || (e.cursor == 1 && AtHome(home, f, LOBBY_ROOM_ID, false) && e.result == DbError)
    else
      && r != LOBBY_ROOM_ID && r in home && e.result == Success && e.response == I64Bytes(r)
      && ( || (e.cursor == 1 && f.place == Crossing(home[r]))
           || (1 <= e.cursor <= 3 && AtHome(home, f, r, e.cursor > 1))
           || (4 <= e.cursor <= 5 && AtHome(home, f, LOBBY_ROOM_ID, e.cursor > 4)))
  }

  predicate JoinOnCourse(home: map<RoomId, WorkerId>, f: Flight, r: RoomId) {
    var e := f.event;
    e.initial == CmdJoinRoom && r in home &&
    ( || (e.cursor == 0 && AtHome(home, f, r, false) && e.result == None)
      || (e.cursor == 1 && AtHome(home, f, r, true) && e.result == Success)
      || (2 <= e.cursor <= 3 && AtHome(home, f, LOBBY_ROOM_ID, e.cursor > 2) && e.result == Success)
      || (e.cursor == 4 && f.place == AwaitsHistory(r, CursorOf(e.request)) && e.result == Success)
      || (e.cursor == 4 && AtHome(home, f, r, false) && e.result != None))
  }

  predicate LeaveOnCourse(home: map<RoomId, WorkerId>, f: Flight, r: RoomId) {
    var e := f.event;
    e.initial == CmdLeaveRoom &&
    ( || (e.cursor == 0 && AtHome(home, f, LOBBY_ROOM_ID, false) && e.result == None)
      || (e.cursor == 1 && AtHome(home, f, LOBBY_ROOM_ID, true) && e.result == Success)
      || (2 <= e.cursor <= 3 && AtHome(home, f, r, e.cursor > 2) && e.result == Success))
  }

  predicate SendOnCourse(home: map<RoomId, WorkerId>, f: Flight, r: RoomId) {
    var e := f.event;
    e.initial == CmdSendMessage &&
    ( || (e.cursor == 0 && AtHome(home, f, r, false) && e.result == None)
      || (1 <= e.cursor <= 2 && AtHome(home, f, r, true) && e.result == Success))
  }

  predicate LoadOnCourse(home: map<RoomId, WorkerId>, f: Flight, r: RoomId) {
    var e := f.event;
    e.initial == CmdLoadMessage &&
    ( || (e.cursor == 0 && AtHome(home, f, r, false) && e.result == None)
      || (e.cursor == 1 && f.place == AwaitsHistory(r, CursorOf(e.request)) && e.result == None)
      || (e.cursor == 1 && AtHome(home, f, r, false) && e.result != None))
  }

  /** The event follows its recipe and is where that recipe says. */
  predicate OnCourse(home: map<RoomId, WorkerId>, f: Flight) {
    var e := f.event;
    && e.actions == Actions(e.plan)
    && (e.origin.Request? <==> !(e.plan.PlanArrive? || e.plan.PlanFlush? || e.plan.PlanDepart?))
    && match e.plan
       case PlanCreate(r) => CreateOnCourse(home, f, r)
       case PlanJoin(r) => JoinOnCourse(home, f, r)
       case PlanLeave(r) => LeaveOnCourse(home, f, r)
       case PlanSend(r) => SendOnCourse(home, f, r)
       case PlanLoad(r) => LoadOnCourse(home, f, r)
       case PlanReject => e.cursor == 0 && AtHome(home, f, LOBBY_ROOM_ID, false) && e.result == RoomNotFound
       case PlanIgnore => e.cursor == 0 && e.initial.CmdOther? && (f.place.Queued? || f.place.Running?)
       case PlanArrive =>
         e.cursor <= 1 && AtHome(home, f, LOBBY_ROOM_ID, e.cursor > 0)
             && e.result == (if e.cursor == 0 then None else Success)
       case PlanFlush => e.cursor == 0 && (f.place.Queued? || f.place.Running?) && e.result == None
       case PlanDepart(r) => e.cursor == 0 && AtHome(home, f, r, false) && e.result == None && e.target == r
  }

  /** An event whose next action creates room `r`. */
  predicate Creating(f: Flight, r: RoomId) {
    f.event.plan == PlanCreate(r) && f.event.cursor == 1 && r != PENDING_ROOM_ID
  }

  predicate Grows(home: map<RoomId, WorkerId>, later: map<RoomId, WorkerId>) {
    forall r | r in home :: r in later && later[r] == home[r]
  }

  /** The bindings in force and every binding ever made. */
  ghost predicate Bound(s: State) {
    && Staffed(s)
    && LOBBY_ROOM_ID in s.bindings && PENDING_ROOM_ID !in s.log.home
    && (forall r | r in s.bindings :: r in s.log.home && s.bindings[r] == s.log.home[r])
    && (forall r | r in s.log.home ::
          1 <= s.log.home[r] <= s.n && (s.log.home[r] == LOBBY_WORKER_ID <==> r == LOBBY_ROOM_ID))
  }

  ghost predicate AllOnCourse(s: State) {
    forall f | In(s, f) :: OnCourse(s.log.home, f)
  }

  lemma OnCourseGrows(home: map<RoomId, WorkerId>, later: map<RoomId, WorkerId>, f: Flight)
    requires OnCourse(home, f) && Grows(home, later)
    ensures OnCourse(later, f)
  {}

  lemma RunningIsIn(s: State, w: WorkerId)
    requires 1 <= w <= s.n && w in s.running
    ensures In(s, Flight(Running(w), s.running[w]))
  {
    ReleaseFlights(s, w);
    assert Count(Release(s, w), Flight(Running(w), s.running[w])) >= 0;
  }

  lemma HeadIsIn(s: State)
    requires s.jobs != [] && !s.jobs[0].SaveJob?
    ensures In(s, Flight(JobPlace(s.jobs[0]), s.jobs[0].event))
  {
    PopJobFlights(s);
    assert Count(s.(jobs := s.jobs[1..]), Flight(JobPlace(s.jobs[0]), s.jobs[0].event)) >= 0;
  }

  ghost predicate Moving(s: State, w: WorkerId) {
    Bound(s) && w in s.running && OnCourse(s.log.home, Flight(Running(w), s.running[w]))
  }

  lemma NextCreate(s: State, w: WorkerId)
    requires Moving(s, w) && s.running[w].plan.PlanCreate?
    ensures NextFlight(s, w).Some? ==> OnCourse(s.log.home, NextFlight(s, w).value)
  {
    if s.running[w].cursor == 0 { return; }
    if s.running[w].cursor == 1 { return; }
    if s.running[w].cursor == 2 { return; }
    if s.running[w].cursor == 3 { return; }
    if s.running[w].cursor == 4 { return; }
  }

  lemma NextJoin(s: State, w: WorkerId)
    requires Moving(s, w) && s.running[w].plan.PlanJoin?
    ensures NextFlight(s, w).Some? ==> OnCourse(s.log.home, NextFlight(s, w).value)
  {
    if s.running[w].cursor == 0 { return; }
    if s.running[w].cursor == 1 { return; }
    if s.running[w].cursor == 2 { return; }
    if s.running[w].cursor == 3 { return; }
  }

  lemma NextLeave(s: State, w: WorkerId)
    requires Moving(s, w) && s.running[w].plan.PlanLeave?
    ensures NextFlight(s, w).Some? ==> OnCourse(s.log.home, NextFlight(s, w).value)
  {
    if s.running[w].cursor == 0 { return; }
    if s.running[w].cursor == 1 { return; }
    if s.running[w].cursor == 2 { return; }
  }

  lemma NextSend(s: State, w: WorkerId)
    requires Moving(s, w) && s.running[w].plan.PlanSend?
    ensures NextFlight(s, w).Some? ==> OnCourse(s.log.home, NextFlight(s, w).value)
  {
    if s.running[w].cursor == 0 { return; }
    if s.running[w].cursor == 1 { return; }
  }

  lemma NextLoad(s: State, w: WorkerId)
    requires Moving(s, w) && s.running[w].plan.PlanLoad?
    ensures NextFlight(s, w).Some? ==> OnCourse(s.log.home, NextFlight(s, w).value)
  {
    if s.running[w].cursor == 0 { return; }
  }

  /** One iteration of the action loop takes an event on course to a place on course. */
  lemma NextOnCourse(s: State, w: WorkerId)
    requires Moving(s, w)
    ensures NextFlight(s, w).Some? ==> OnCourse(s.log.home, NextFlight(s, w).value)
  {
    match s.running[w].plan
    case PlanCreate(_) => NextCreate(s, w);
    case PlanJoin(_) => NextJoin(s, w);
    case PlanLeave(_) => NextLeave(s, w);
    case PlanSend(_) => NextSend(s, w);
    case PlanLoad(_) => NextLoad(s, w);
    case _ =>
  }
}
