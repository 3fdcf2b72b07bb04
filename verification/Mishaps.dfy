/**
  Runs in which the server does less, or more, than its documentation says: an unknown command swallowed, a load
  dropped, and a create that fails after its room was made and leaves a member without a session behind.
 */
module Mishaps {
  import opened Bytes
  import opened RoomEvents
  import opened ServerState
  import opened History
  import MessageList
  import opened Quiescence
  import opened Tokens
  import opened Ownership
  import opened Scenes

  /** A run that ends in `t`. */
  ghost predicate EndsIn(states: seq<State>, steps: seq<Step>, t: State) {
    Run(states, steps, 2) && states[|steps|] == t
  }

  lemma FromStart(steps: seq<Step>, t: State) returns (states: seq<State>)
    requires Leads(Init(2), steps, t)
    ensures EndsIn(states, steps, t)
  {
    hide Leads, Next, Init;
    assert Run([Init(2)], [], 2);
    states := Unroll([Init(2)], [], 2, steps, t);
    assert [] + steps == steps;
  }

  lemma Idle(s: State)
    requires s.n == 2 && Queue(s, 1) == [] && Queue(s, 2) == [] && s.running == map[] && s.casts == map[]
             && s.jobs == []
    ensures WorkLeft(s) == 0
  {
    assert LoadWork(s, 1) == 0 && LoadWork(s, 2) == 0;
    assert WorkersWork(s, 0) == 0;
    assert WorkersWork(s, 1) == 0;
  }

  // ---- a command the server has no case for ----

  const ODD := CmdOther(9)

  function OddEvent(): Event {
    RequestEvent(CREATOR, ODD, LOBBY_ROOM_ID, [], 0)
  }

  const SWALLOWS := [Ask(CREATOR, ODD, LOBBY_ROOM_ID, [])] + ([Start(1, 0)] + [Work(1, LOBBY_ROOM_ID)])

  lemma Swallows(s: State) returns (t: State)
    requires Scene(s, [], [], map[], HERE, ALONE, AT_LOBBY, [], 0)
    ensures Leads(s, SWALLOWS, t) && WorkLeft(t) == 0 && IsLost(t, 0)
  {
    hide Next, Dispatch, Leads, WorkLeft, OddEvent, IsLost;
    AskNext(s, CREATOR, ODD, LOBBY_ROOM_ID);
    var s1 := Dispatch(s, CREATOR, ODD, LOBBY_ROOM_ID, []);
    OddIs();
    var s2 := Takes(s1, 1, OddEvent(), [], [], HERE, ALONE, AT_LOBBY, [], 1);
    t := Drops(s2);
    Lead1(s, Ask(CREATOR, ODD, LOBBY_ROOM_ID, []), s1);
    LeadOn(s1, [Start(1, 0)], s2, [Work(1, LOBBY_ROOM_ID)], t);
    LeadOn(s, [Ask(CREATOR, ODD, LOBBY_ROOM_ID, [])], s1, [Start(1, 0)] + [Work(1, LOBBY_ROOM_ID)], t);
  }

  lemma OddIs()
    ensures OddEvent() == RequestEvent(CREATOR, ODD, LOBBY_ROOM_ID, [], 0)
  {}

  /** The event has nothing to do, and ends without an answer. */
  lemma Drops(s: State) returns (t: State)
    requires Scene(s, [], [], map[1 := OddEvent()], HERE, ALONE, AT_LOBBY, [], 1)
    ensures Leads(s, [Work(1, LOBBY_ROOM_ID)], t) && WorkLeft(t) == 0 && IsLost(t, 0)
  {
    hide Next, Act, Leads, WorkLeft;
    DiscardNext(s, 1, LOBBY_ROOM_ID);
    t := Act(s, 1, LOBBY_ROOM_ID);
    assert t.log.dropped[0].origin == Request(0) && t.running == map[];
    Idle(t);
    Lead1(s, Work(1, LOBBY_ROOM_ID), t);
  }

  lemma DiscardNext(s: State, w: WorkerId, r: RoomId)
    requires Holds(s, w, r) && s.running[w].cursor >= |s.running[w].actions| && s.running[w].origin.Request?
    ensures Next(s, Work(w, r), Act(s, w, r)) && Act(s, w, r) ==
              s.(running := s.running - {w}, log := s.log.(dropped := s.log.dropped + [s.running[w]]))
  {
    WorkNext(s, w, r);
    hide Next;
  }

  /** A client sends a command byte that is not one to the lobby, and no work is left, and it has no answer. */
  lemma UnknownSwallowed() returns (states: seq<State>, t: State)
    ensures EndsIn(states, BEGINS + SWALLOWS, t) && WorkLeft(t) == 0 && IsLost(t, 0) && !IsAnswered(t, 0)
  {
    hide Leads, Scene, Next, Init, WorkLeft, IsLost, IsAnswered;
    var s := Comes();
    t := Swallows(s);
    LeadOn(Init(2), BEGINS, s, SWALLOWS, t);
    states := FromStart(BEGINS + SWALLOWS, t);
    NotBoth(states, BEGINS + SWALLOWS, 0);
  }

  lemma NotBoth(states: seq<State>, steps: seq<Step>, tag: nat)
    requires Run(states, steps, 2) && IsLost(states[|steps|], tag)
    ensures !IsAnswered(states[|steps|], tag)
  {
    hide Own, Tracked, Conserved, OneFlight;
    RunAccounts(states, steps, 2, |steps|);
  }

  // ---- a load whose room is gone when the history comes back ----

  function LoadMe(): Event {
    RequestEvent(CREATOR, CmdLoadMessage, NEW_ROOM, [], 1)
  }

  function LeaveMe(): Event {
    RequestEvent(CREATOR, CmdLeaveRoom, NEW_ROOM, [], 2)
  }

  function Leaving(): Event {
    Sent(Done(LeaveMe()), NEW_ROOM)
  }

  lemma ForgetCourse()
    ensures At(LoadMe(), CREATOR, Action(RequestDbLoadMessage, NEW_ROOM)) && Passed(LoadMe()).request == []
    ensures At(LeaveMe(), CREATOR, Action(JoinRoom, LOBBY_ROOM_ID))
    ensures At(Done(LeaveMe()), CREATOR, Action(RequestLeaveRoom, NEW_ROOM))
    ensures At(Leaving(), CREATOR, Action(LeaveRoom, NEW_ROOM))
    ensures At(Done(Leaving()), CREATOR, Action(SendResponse, 0)) && Done(Leaving()).origin.Request?
    ensures LastRoom(Passed(LoadMe())) == NEW_ROOM && LoadMe().origin == Request(1)
  {}

  const ASKS_TWICE := [Ask(CREATOR, CmdLoadMessage, NEW_ROOM, []), Ask(CREATOR, CmdLeaveRoom, NEW_ROOM, [])]

  /** The client asks for history and to leave, without waiting for an answer. */
  lemma AsksTwice(s: State) returns (t: State)
    requires Scene(s, [], [], map[], MOVED, BOUND, AT_ROOM, [], 1)
    ensures Leads(s, ASKS_TWICE, t) && Scene(t, [LeaveMe()], [LoadMe()], map[], MOVED, BOUND, AT_ROOM, [], 3)
  {
    hide Next, Dispatch, Leads;
    AskNext(s, CREATOR, CmdLoadMessage, NEW_ROOM);
    var s1 := Dispatch(s, CREATOR, CmdLoadMessage, NEW_ROOM, []);
    AskNext(s1, CREATOR, CmdLeaveRoom, NEW_ROOM);
    t := Dispatch(s1, CREATOR, CmdLeaveRoom, NEW_ROOM, []);
    Lead2(s, Ask(CREATOR, CmdLoadMessage, NEW_ROOM, []), s1, Ask(CREATOR, CmdLeaveRoom, NEW_ROOM, []), t);
  }

  const LOOKS_UP := [Start(2, 0), Work(2, NEW_ROOM)]

  lemma LooksUp(s: State) returns (t: State)
    requires Scene(s, [LeaveMe()], [LoadMe()], map[], MOVED, BOUND, AT_ROOM, [], 3)
    ensures Leads(s, LOOKS_UP, t)
    ensures Scene(t, [LeaveMe()], [], map[], MOVED, BOUND, AT_ROOM, [LoadJob(Passed(LoadMe()), NEW_ROOM, INT64_MAX)], 3)
  {
    hide At, LoadMe, LeaveMe, Passed, Next, Act, Take, Leads;
    ForgetCourse();
    AtIs(LoadMe(), CREATOR, Action(RequestDbLoadMessage, NEW_ROOM));
    StartNext(s, 2);
    var s1 := Take(s, 2, 0);
    SubmitNext(s1, 2, NEW_ROOM, Action(RequestDbLoadMessage, NEW_ROOM));
    t := Act(s1, 2, NEW_ROOM);
    assert t.running == map[];
    Lead2(s, Start(2, 0), s1, Work(2, NEW_ROOM), t);
  }

  const GOES_BACK := [Start(1, 0)] + ([Work(1, LOBBY_ROOM_ID)] + [Work(1, LOBBY_ROOM_ID)])

  lemma GoesBack(s: State, jobs: seq<Job>) returns (t: State)
    requires Scene(s, [LeaveMe()], [], map[], MOVED, BOUND, AT_ROOM, jobs, 3)
    ensures Leads(s, GOES_BACK, t) && Scene(t, [], [Leaving()], map[], INSIDE, BOUND, AT_LOBBY, jobs, 3)
  {
    hide At, Done, LeaveMe, Next, Act, Leads;
    var s1 := Takes(s, 1, LeaveMe(), [], [], MOVED, BOUND, AT_ROOM, jobs, 3);
    ForgetCourse();
    AtIs(LeaveMe(), CREATOR, Action(JoinRoom, LOBBY_ROOM_ID));
    assert JoinSession(Room({}, 0, LOBBY_CAPACITY), CREATOR) == Room({CREATOR}, 1, LOBBY_CAPACITY);
    JoinNext(s1, 1, LOBBY_ROOM_ID);
    var s2 := Act(s1, 1, LOBBY_ROOM_ID);
    assert s2.rooms == INSIDE && s2.users == AT_LOBBY && s2.running == map[1 := Done(LeaveMe())];
    t := Returns(s2, jobs);
    Lead1(s1, Work(1, LOBBY_ROOM_ID), s2);
    LeadOn(s1, [Work(1, LOBBY_ROOM_ID)], s2, [Work(1, LOBBY_ROOM_ID)], t);
    LeadOn(s, [Start(1, 0)], s1, [Work(1, LOBBY_ROOM_ID)] + [Work(1, LOBBY_ROOM_ID)], t);
  }

  lemma Returns(s: State, jobs: seq<Job>) returns (t: State)
    requires Scene(s, [], [], map[1 := Done(LeaveMe())], INSIDE, BOUND, AT_LOBBY, jobs, 3)
    ensures Leads(s, [Work(1, LOBBY_ROOM_ID)], t) && Scene(t, [], [Leaving()], map[], INSIDE, BOUND, AT_LOBBY, jobs, 3)
  {
    hide At, Done, Sent, LeaveMe, Next, Act, Leads;
    ForgetCourse();
    AtIs(Done(LeaveMe()), CREATOR, Action(RequestLeaveRoom, NEW_ROOM));
    MoveNext(s, 1, LOBBY_ROOM_ID, NEW_ROOM);
    t := Act(s, 1, LOBBY_ROOM_ID);
    assert t.running == map[];
    Lead1(s, Work(1, LOBBY_ROOM_ID), t);
  }

  lemma EraseNext(s: State, w: WorkerId, r: RoomId)
    requires ToDo(s, w, r, Action(LeaveRoom, r)) && LeaveRoomCode(s, w, s.running[w].fd, r) == Success
             && Empties(s, w, r)
    ensures Next(s, Work(w, r), Act(s, w, r)) && Act(s, w, r) ==
              s.(bindings := s.bindings - {r}, rooms := s.rooms - {Key(w, r)},
                 running := s.running[w := Done(s.running[w])])
  {
    WorkNext(s, w, r);
    hide Next;
  }

  const ERASES := [Start(2, 0)] + ([Work(2, NEW_ROOM)] + [Work(2, NEW_ROOM)])

  /** The last member leaves, and the room goes with its binding. */
  lemma Erases(s: State, jobs: seq<Job>) returns (t: State)
    requires Scene(s, [], [Leaving()], map[], INSIDE, BOUND, AT_LOBBY, jobs, 3)
    ensures Leads(s, ERASES, t) && Scene(t, [], [], map[], HERE, ALONE, AT_LOBBY, jobs, 3)
  {
    hide At, Done, Leaving, Next, Act, Leads;
    var s1 := Takes(s, 2, Leaving(), [], [], INSIDE, BOUND, AT_LOBBY, jobs, 3);
    ForgetCourse();
    AtIs(Leaving(), CREATOR, Action(LeaveRoom, NEW_ROOM));
    EraseNext(s1, 2, NEW_ROOM);
    var s2 := Act(s1, 2, NEW_ROOM);
    assert s2.rooms == HERE && s2.bindings == ALONE && s2.running == map[2 := Done(Leaving())];
    t := ToldBack(s2, jobs);
    Lead1(s1, Work(2, NEW_ROOM), s2);
    LeadOn(s1, [Work(2, NEW_ROOM)], s2, [Work(2, NEW_ROOM)], t);
    LeadOn(s, [Start(2, 0)], s1, [Work(2, NEW_ROOM)] + [Work(2, NEW_ROOM)], t);
  }

  lemma ToldBack(s: State, jobs: seq<Job>) returns (t: State)
    requires Scene(s, [], [], map[2 := Done(Leaving())], HERE, ALONE, AT_LOBBY, jobs, 3)
    ensures Leads(s, [Work(2, NEW_ROOM)], t) && Scene(t, [], [], map[], HERE, ALONE, AT_LOBBY, jobs, 3)
  {
    hide At, Done, Passed, Leaving, ResponseTo, Next, Act, Leads;
    ForgetCourse();
    AtIs(Done(Leaving()), CREATOR, Action(SendResponse, 0));
    PassedMine(Done(Leaving()));
    RespondNext(s, 2, NEW_ROOM);
    t := Act(s, 2, NEW_ROOM);
    assert t.running == map[] && t.packed.Keys <= {CREATOR};
    Lead1(s, Work(2, NEW_ROOM), t);
  }

  lemma Forgets(s: State) returns (t: State)
    requires Scene(s, [], [], map[], HERE, ALONE, AT_LOBBY, [LoadJob(Passed(LoadMe()), NEW_ROOM, INT64_MAX)], 3)
    ensures Leads(s, [Query(Loaded)], t) && WorkLeft(t) == 0 && IsLost(t, 1)
  {
    hide LoadMe, Passed, Leads, WorkLeft, MessageList.Serialized, Page;
    ForgetCourse();
    PassedOrigin(LoadMe());
    t := FinishJob(s, Loaded);
    assert s.jobs[1..] == [];
    assert t.log.dropped[0].origin == Request(1);
    Idle(t);
    Lead1(s, Query(Loaded), t);
  }

  lemma PassedOrigin(e: Event)
    ensures Passed(e).origin == e.origin
  {}

  const FORGETS := ASKS_TWICE + LOOKS_UP + GOES_BACK + ERASES + [Query(Loaded)]

  /** A client alone in its room asks for history and then to leave: the load is dropped, and it has no answer. */
  lemma LoadForgotten() returns (states: seq<State>, t: State)
    ensures EndsIn(states, BEGINS + CREATES + FORGETS, t) && WorkLeft(t) == 0 && IsLost(t, 1) && !IsAnswered(t, 1)
  {
    hide Leads, Scene, Next, Init, WorkLeft, IsLost, IsAnswered;
    var s := CreatesRoom();
    var a := AsksTwice(s);
    var b := LooksUp(a);
    var jobs := [LoadJob(Passed(LoadMe()), NEW_ROOM, INT64_MAX)];
    var c := GoesBack(b, jobs);
    var d := Erases(c, jobs);
    t := Forgets(d);
    LeadOn(s, ASKS_TWICE, a, LOOKS_UP, b);
    LeadOn(s, ASKS_TWICE + LOOKS_UP, b, GOES_BACK, c);
    LeadOn(s, ASKS_TWICE + LOOKS_UP + GOES_BACK, c, ERASES, d);
    LeadOn(s, ASKS_TWICE + LOOKS_UP + GOES_BACK + ERASES, d, [Query(Loaded)], t);
    LeadOn(Init(2), BEGINS + CREATES, s, FORGETS, t);
    states := FromStart(BEGINS + CREATES + FORGETS, t);
    NotBoth(states, BEGINS + CREATES + FORGETS, 1);
  }

  // ---- a session that is closed while its create is with the database ----

  function Goodbye(): Event {
    DepartEvent(CREATOR, LOBBY_ROOM_ID, GARBAGE).(hops := 1)
  }

  lemma Closes(s: State) returns (t: State)
    requires Scene(s, [], [], map[], HERE, ALONE, AT_LOBBY, [CreateJob(Passed(Create()))], 1)
    ensures Leads(s, [Close(CREATOR, GARBAGE)], t) && t.packed == s.packed
    ensures Scene(t, [Goodbye()], [], map[], HERE, ALONE, map[], [CreateJob(Passed(Create()))], 1)
  {
    hide Leads, Create, Passed, DepartEvent;
    t := CloseSession(s, CREATOR, GARBAGE);
    GoodbyeIs();
    assert t.users == map[];
    Lead1(s, Close(CREATOR, GARBAGE), t);
  }

  lemma GoodbyeIs()
    ensures DepartEvent(CREATOR, LOBBY_ROOM_ID, GARBAGE).target == LOBBY_ROOM_ID
    ensures DepartEvent(CREATOR, LOBBY_ROOM_ID, GARBAGE).hops == 0
  {}

  lemma HauntNext(s: State, w: WorkerId, r: RoomId)
    requires ToDo(s, w, r, Action(JoinRoom, r)) && JoinRoomCode(s, w, s.running[w].fd, r) == UserNotFound
    requires s.running[w].origin.Request? && s.running[w].actions[0].command != CreateRoom
    ensures var e := Report(Passed(s.running[w]), UserNotFound).(mark := |s.log.handled|);
            Next(s, Work(w, r), Act(s, w, r)) && Act(s, w, r) ==
              s.(rooms := s.rooms[Key(w, r) := JoinSession(s.rooms[Key(w, r)], e.fd)],
                 running := s.running - {w}, packed := PackedWith(s.packed, {e.fd}, ResponseTo(e)),
                 log := s.log.(answers := s.log.answers + [e]))
  {
    WorkNext(s, w, r);
    hide Next;
  }

  /** The session enters the room although its user is gone, and the failure carries the room's id. */
  lemma Haunts(s: State) returns (t: State)
    requires Scene(s, [Goodbye()], [], map[2 := Done(Posted100())], OPEN, BOUND, map[], [], 1) && s.packed == map[]
    ensures Leads(s, [Work(2, NEW_ROOM)], t)
    ensures Scene(t, [Goodbye()], [], map[], INSIDE, BOUND, map[], [], 1)
    ensures Packed(t, CREATOR) == [Response(CmdCreateRoom, UserNotFound, I64Bytes(NEW_ROOM))]
  {
    hide At, Goodbye, I64Bytes, Next, Act, Leads;
    CreateCourse();
    AtIs(Done(Posted100()), CREATOR, Action(JoinRoom, NEW_ROOM));
    HauntNext(s, 2, NEW_ROOM);
    t := Act(s, 2, NEW_ROOM);
    assert JoinSession(Room({}, 0, ROOM_CAPACITY), CREATOR) == Room({CREATOR}, 1, ROOM_CAPACITY);
    assert t.rooms == INSIDE && t.running == map[] && t.packed.Keys == {CREATOR};
    Lead1(s, Work(2, NEW_ROOM), t);
  }

  lemma QuitNext(s: State, w: WorkerId, r: RoomId)
    requires ToDo(s, w, r, Action(DisconnectSession, r)) && s.running[w].target == r
    requires LeaveRoomCode(s, w, s.running[w].fd, r) == Success && !Empties(s, w, r)
    ensures Next(s, Work(w, r), Act(s, w, r)) && Act(s, w, r) ==
              s.(rooms := s.rooms[Key(w, r) := ExitSession(s.rooms[Key(w, r)], s.running[w].fd)],
                 running := s.running - {w})
  {
    WorkNext(s, w, r);
    hide Next;
  }

  const GOES := [Start(1, 0), Work(1, LOBBY_ROOM_ID)]

  lemma Goes(s: State) returns (t: State)
    requires Scene(s, [Goodbye()], [], map[], INSIDE, BOUND, map[], [], 1)
    ensures Leads(s, GOES, t) && Scene(t, [], [], map[], MOVED, BOUND, map[], [], 1) && t.packed == s.packed
  {
    hide Next, Act, Take, Leads;
    StartNext(s, 1);
    var s1 := Take(s, 1, 0);
    assert ExitSession(Room({CREATOR}, 1, LOBBY_CAPACITY), CREATOR) == Room({}, 0, LOBBY_CAPACITY);
    QuitNext(s1, 1, LOBBY_ROOM_ID);
    t := Act(s1, 1, LOBBY_ROOM_ID);
    assert t.rooms == MOVED && t.running == map[];
    Lead2(s, Start(1, 0), s1, Work(1, LOBBY_ROOM_ID), t);
  }

  const HAUNTS := ASKS + [Close(CREATOR, GARBAGE)] + ISSUES + OPENS + [Work(2, NEW_ROOM)] + GOES

  /**
    A client closes while its create is with the database: the answer is a failure that carries the issued id, and with
    no work left the session is a member of the new room although its user is gone and nothing will remove it.
   */
  lemma CloseLeavesAMember() returns (states: seq<State>, t: State)
    ensures EndsIn(states, BEGINS + HAUNTS, t) && WorkLeft(t) == 0
    ensures Packed(t, CREATOR) == [Response(CmdCreateRoom, UserNotFound, I64Bytes(NEW_ROOM))]
    ensures CREATOR !in t.users && ROOM in t.rooms && t.rooms[ROOM].members == {CREATOR}
  {
    hide Leads, Scene, Next, Init, WorkLeft, I64Bytes;
    var a := Comes();
    var b := Asks(a);
    var c := Closes(b);
    var d := Issues(c, [Goodbye()], map[]);
    var e := Opens(d, [Goodbye()], map[]);
    var f := Haunts(e);
    t := Goes(f);
    LeadOn(a, ASKS, b, [Close(CREATOR, GARBAGE)], c);
    LeadOn(a, ASKS + [Close(CREATOR, GARBAGE)], c, ISSUES, d);
    LeadOn(a, ASKS + [Close(CREATOR, GARBAGE)] + ISSUES, d, OPENS, e);
    LeadOn(a, ASKS + [Close(CREATOR, GARBAGE)] + ISSUES + OPENS, e, [Work(2, NEW_ROOM)], f);
    LeadOn(a, ASKS + [Close(CREATOR, GARBAGE)] + ISSUES + OPENS + [Work(2, NEW_ROOM)], f, GOES, t);
    LeadOn(Init(2), BEGINS, a, HAUNTS, t);
    states := FromStart(BEGINS + HAUNTS, t);
    Still(t);
  }

  lemma Still(t: State)
    requires Scene(t, [], [], map[], MOVED, BOUND, map[], [], 1)
    ensures WorkLeft(t) == 0 && ROOM in t.rooms && t.rooms[ROOM].members == {CREATOR} && CREATOR !in t.users
  {
    Idle(t);
  }
}
