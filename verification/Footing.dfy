/** What every step of the server keeps, for any client input, that the place of a single session rests on. */
module Footing {
  import opened Bytes
  import opened RoomEvents
  import opened ServerState
  import opened History
  import opened Flights
  import opened Itinerary
  import opened Ownership
  import opened Requests
  import opened Tokens
  import opened Talk
  import opened Broadcasts
  import opened Places
  import opened Casting
  import opened Rooms
  import opened Presence

  /** Between CREATE and JOIN the new room is empty: no other event runs on its worker. */
  ghost predicate NewRooms(s: State) {
    forall w | w in s.running && s.running[w].plan.PlanCreate? && s.running[w].cursor == 2 ::
      && Key(w, s.running[w].plan.room) in s.rooms
      && s.rooms[Key(w, s.running[w].plan.room)] == Room({}, 0, ROOM_CAPACITY)
  }

  /** Workers only ever tell members broadcasts. */
  predicate TellsBroadcasts(s: State) {
    forall w | w in s.casts :: s.casts[w].packet.Broadcast?
  }

  ghost predicate Ground(s: State) {
    Account(s) && Roomy(s) && NewRooms(s) && TellsBroadcasts(s)
  }

  lemma GroundOwns(s: State)
    requires Ground(s)
    ensures Own(s) && Roomy(s) && Distinct(s) && NewRooms(s) && TellsBroadcasts(s)
  {
    hide Linear, Tracked;
    OwnDistinct(s);
  }

  // ---- what one iteration does, in every respect ----

  ghost predicate Worked(s: State, t: State, w: WorkerId, found: RoomId) {
    && Moving(s, w)
    && Moved(s, t, Some(Flight(Running(w), s.running[w])), NextFlight(s, w))
    && In(s, Flight(Running(w), s.running[w]))
    && Shifts(s, t, w, s.running[w].fd, ChangeOf(s, w, found))
    && Says(s, t, SaidBy(s, w), JobsBy(s, w), HearersOf(s, w), PacketsOf(s, w))
    && Fated(s, t, FateOf(s, w))
  }

  lemma WorkIsWorked(s: State, w: WorkerId, found: RoomId)
    requires Ground(s) && w in s.running
    ensures Worked(s, Act(s, w, found), w, found)
  {
    GroundOwns(s);
    hide Ground, Own, Roomy, Distinct, Count, OnCourse, Bound, ChangeOf, NextFlight, FateOf, Act, Shifts, Says, Fated;
    hide SaidBy, JobsBy, HearersOf, PacketsOf;
    OwnRunning(s, w);
    OwnStaffed(s);
    WorkMoves(s, w, found);
    WorkTally(s, w, found);
    WorkShifts(s, w, found);
    if Executes(s, w) && ActionAt(s, w).command.SaveMessage? { SaveSucceeds(s, w); }
    WorkSays(s, w, found);
  }

  lemma WorkNewRooms(s: State, w: WorkerId, found: RoomId)
    requires Ground(s) && w in s.running
    ensures NewRooms(Act(s, w, found))
  {
    GroundOwns(s);
    hide Own, Linear, Tracked, Roomy, Distinct, OnCourse, Bound, Act, NextFlight, NewRooms, StaysHome, TellsBroadcasts,
         RunningAfter;
    OwnRunning(s, w);
    WorkStaysHome(s, w, found);
    if Executes(s, w) && ActionAt(s, w).command.SaveMessage? { SaveSucceeds(s, w); }
    WorkRuns(s, w, found);
    if w in RunningAfter(s, w) && AboutToEnter(RunningAfter(s, w)[w]) { FreshRoom(s, w, found); }
    OthersEmpty(s, Act(s, w, found), w);
  }

  predicate AboutToEnter(e: Event) {
    e.plan.PlanCreate? && e.cursor == 2
  }

  lemma OthersEmpty(s: State, t: State, w: WorkerId)
    requires NewRooms(s) && w in s.running && t.running == RunningAfter(s, w) && StaysHome(s, t, w)
    requires w in t.running && AboutToEnter(t.running[w]) ==>
               var k := Key(w, t.running[w].plan.room); k in t.rooms && t.rooms[k] == Room({}, 0, ROOM_CAPACITY)
    ensures NewRooms(t)
  {
    hide NextFlight;
    forall v | v in t.running && t.running[v].plan.PlanCreate? && t.running[v].cursor == 2
      ensures && Key(v, t.running[v].plan.room) in t.rooms
              && t.rooms[Key(v, t.running[v].plan.room)] == Room({}, 0, ROOM_CAPACITY)
    {
      if v != w { assert v in s.running && t.running[v] == s.running[v]; }
    }
  }

  lemma FreshRoom(s: State, w: WorkerId, found: RoomId)
    requires Own(s) && Moving(s, w) && w in RunningAfter(s, w)
    requires RunningAfter(s, w)[w].plan.PlanCreate? && RunningAfter(s, w)[w].cursor == 2
    ensures var k := Key(w, RunningAfter(s, w)[w].plan.room);
            k in Act(s, w, found).rooms && Act(s, w, found).rooms[k] == Room({}, 0, ROOM_CAPACITY)
  {
    hide Own, Count, Act, CodeAt, FindWorker, Bound;
    var e := s.running[w];
    assert e.plan.PlanCreate? && e.cursor == 1 && e.plan.room != PENDING_ROOM_ID;
    CreateMoves(s, w, e.plan.room, found);
  }

  lemma WorkGround(s: State, w: WorkerId, found: RoomId)
    requires Ground(s) && w in s.running
    ensures NewRooms(Act(s, w, found)) && TellsBroadcasts(Act(s, w, found))
  {
    hide Account, Roomy, NewRooms, Act, UserIdOf;
    WorkNewRooms(s, w, found);
    WorkCasts(s, w, found);
  }

  // ---- the other steps ----

  lemma QueuedCreate(home: map<RoomId, WorkerId>, f: Flight)
    requires OnCourse(home, f) && f.place.Queued?
    ensures f.event.plan.PlanCreate? ==> f.event.cursor != 2
  {}

  lemma StartGround(s: State, w: WorkerId, k: nat)
    requires Ground(s) && 1 <= w <= s.n && w !in s.running && k < |Queue(s, w)|
    ensures NewRooms(Take(s, w, k)) && TellsBroadcasts(Take(s, w, k))
  {
    GroundOwns(s);
    hide Own, Linear, Tracked, Roomy, Count, OnCourse;
    var f := Flight(Queued(w), Queue(s, w)[k]);
    StartMoves(s, w, k);
    OwnFlight(s, f);
    QueuedCreate(s.log.home, f);
  }

  lemma SameGround(s: State, t: State)
    requires NewRooms(s) && TellsBroadcasts(s) && t.rooms == s.rooms && t.running == s.running && t.casts == s.casts
    ensures NewRooms(t) && TellsBroadcasts(t)
  {}

  lemma LookGround(s: State, step: Step)
    requires NewRooms(s) && TellsBroadcasts(s) && Enabled(s, step) && (step.Look? || step.Give?)
    ensures NewRooms(Apply(s, step)) && TellsBroadcasts(Apply(s, step))
  {
    hide PackedWith;
  }

  /** A step of the main or DB thread changes no room, no running event and no broadcast. */
  lemma QuietGround(s: State, step: Step)
    requires Ground(s) && Enabled(s, step) && !step.Work? && !step.Start? && !step.Look? && !step.Give?
    ensures NewRooms(Apply(s, step)) && TellsBroadcasts(Apply(s, step))
  {
    hide Account, Roomy, NewRooms, TellsBroadcasts, FinishJob, Route;
    QuietFields(s, step);
    match step
    case Accept(_, _, _) => SameGround(s, Apply(s, step));
    case Ask(_, _, _, _) => SameGround(s, Apply(s, step));
    case Tick(fd, garbage) =>
      if fd in s.users { RouteRuns(s, FlushEvent(fd, s.users[fd].room, garbage)); }
      SameGround(s, Apply(s, step));
    case Close(fd, garbage) => CloseRuns(s, fd, garbage); SameGround(s, Apply(s, step));
    case Query(o) => QueryRuns(s, o); SameGround(s, Apply(s, step));
  }

  lemma StepKeepsGround(s: State, step: Step)
    requires Ground(s) && Enabled(s, step)
    ensures Ground(Apply(s, step))
  {
    StepKeepsAccount(s, step);
    StepRoomy(s, step);
    hide Account, Roomy, NewRooms, TellsBroadcasts, Act, Take;
    if step.Work? {
      WorkGround(s, step.w, step.found);
    } else if step.Start? {
      StartGround(s, step.w, step.k);
    } else if step.Look? || step.Give? {
      LookGround(s, step);
    } else {
      QuietGround(s, step);
    }
  }

  lemma InitGround(n: nat)
    requires n >= 1
    ensures Ground(Init(n))
  {
    InitAccount(n);
    hide Account;
  }

  // ---- facts about single events ----

  /** An event keeps its session and stays what it is. */
  lemma NextMine(s: State, w: WorkerId)
    requires w in s.running
    ensures var next := NextFlight(s, w);
            next.Some? ==>
              next.value.event.fd == s.running[w].fd && next.value.event.plan == s.running[w].plan
              && next.value.event.initial == s.running[w].initial && next.value.event.request == s.running[w].request
    ensures FateOf(s, w).Replied? || FateOf(s, w).Lost? ==>
              FateOf(s, w).event.fd == s.running[w].fd && FateOf(s, w).event.plan == s.running[w].plan
              && FateOf(s, w).event.initial == s.running[w].initial
                 && FateOf(s, w).event.request == s.running[w].request
  {
    hide CodeAt, FindWorker;
  }

  lemma FlushSilent(s: State, w: WorkerId, found: RoomId)
    requires Moving(s, w) && s.running[w].plan.PlanFlush?
    ensures ChangeOf(s, w, found) == Stays && PacketsOf(s, w) == [] && NextFlight(s, w).Nothing? && FateOf(s, w).Over?
  {}

  /** An event that goes on sends its own session nothing. */
  lemma OnwardSilent(s: State, w: WorkerId)
    requires w in s.running && FateOf(s, w).Onward?
    ensures s.running[w].fd !in HearersOf(s, w)
  {
    hide FateOf;
  }

  lemma LostSilent(s: State, w: WorkerId)
    requires w in s.running && s.running[w].cursor >= |s.running[w].actions|
    ensures HearersOf(s, w) == {}
  {}

  lemma RepliedOnce(s: State, t: State, w: WorkerId)
    requires w in s.running && Says(s, t, SaidBy(s, w), JobsBy(s, w), HearersOf(s, w), PacketsOf(s, w))
    requires FateOf(s, w).Replied?
    ensures Packed(t, FateOf(s, w).event.fd) == Packed(s, FateOf(s, w).event.fd) + [ResponseTo(FateOf(s, w).event)]
  {
    hide SaidBy, JobsBy, UserIdOf, FateOf;
  }

  /** A session that stands in a room can leave it there and is routed there. */
  lemma Standing(s: State, w: WorkerId, fd: Fd, r: RoomId)
    requires Own(s) && r in RoomsOf(s, fd)
    ensures FindWorker(s, r) != 0
    ensures r in s.log.home && s.log.home[r] == w ==> LeaveRoomCode(s, w, fd, r) == Success
  {
    RoomAtHome(s, fd, r);
    OwnBound(s);
  }

  lemma LobbyOpen(s: State)
    requires Own(s)
    ensures FindWorker(s, LOBBY_ROOM_ID) == LOBBY_WORKER_ID && s.log.home[LOBBY_ROOM_ID] == LOBBY_WORKER_ID
    ensures Key(LOBBY_WORKER_ID, LOBBY_ROOM_ID) in s.rooms
  {
    OwnBound(s);
  }

  lemma CreateFits(s: State, w: WorkerId, r: RoomId, found: RoomId)
    requires Own(s) && w in s.running && Creating(Flight(Running(w), s.running[w]), r)
    ensures CreateRoomCode(s, w, r) == Success
  {
    hide Own;
    CreateMoves(s, w, r, found);
  }

  lemma SameRooms(s: State, t: State, fd: Fd)
    requires t.rooms == s.rooms
    ensures RoomsOf(t, fd) == RoomsOf(s, fd)
  {}
}
