/**
  The one case in which client and server part: a run of two clients in which the history load of a join fails after the
  session has been moved, so that the client stays at the lobby and its session does not.
 */
module Stray {
  import opened Bytes
  import opened RoomEvents
  import opened ServerState
  import opened History
  import opened Flights
  import opened Clients
  import opened Agreement
  import opened Scenes
  import Ownership

  const ME: Fd := 7
  const ASKED := Asked(CmdJoinRoom, NEW_ROOM, [])

  // ---- the events of the join ----

  function JoinMe(): Event {
    RequestEvent(ME, CmdJoinRoom, NEW_ROOM, [], 1)
  }

  function Joined(): Event {
    Sent(Done(JoinMe()), LOBBY_ROOM_ID)
  }

  function Loading(): Event {
    Passed(Done(Joined()))
  }

  lemma JoinCourse()
    ensures At(JoinMe(), ME, Action(JoinRoom, NEW_ROOM))
    ensures At(Done(JoinMe()), ME, Action(RequestLeaveRoom, LOBBY_ROOM_ID))
    ensures At(Joined(), ME, Action(LeaveRoom, LOBBY_ROOM_ID))
    ensures At(Done(Joined()), ME, Action(RequestDbLoadMessage, NEW_ROOM)) && Passed(Done(Joined())).request == []
  {}

  function Unloaded(e: Event): Event {
    Report(e, DbError).(target := LastRoom(e), hops := e.hops + 1)
  }

  lemma UnloadedNext(s: State, e: Event, room: RoomId)
    requires s.jobs == [LoadJob(e, room, INT64_MAX)] && FindWorker(s, LastRoom(e)) != 0
    ensures var w := FindWorker(s, LastRoom(e));
            Next(s, Query(NotLoaded(DbError)), FinishJob(s, NotLoaded(DbError))) && FinishJob(s, NotLoaded(DbError)) ==
              s.(jobs := [], queues := s.queues[w := Queue(s, w) + [Unloaded(e)]])
  {
    assert s.jobs[1..] == [];
  }

  // ---- what the server does, stage by stage ----

  const NEXT_DOOR := map[LOBBY := Room({ME}, 1, LOBBY_CAPACITY), ROOM := Room({CREATOR}, 1, ROOM_CAPACITY)]
  const IN_BOTH := map[LOBBY := Room({ME}, 1, LOBBY_CAPACITY), ROOM := Room({CREATOR, ME}, 2, ROOM_CAPACITY)]
  const TOGETHER := map[LOBBY := Room({}, 0, LOBBY_CAPACITY), ROOM := Room({CREATOR, ME}, 2, ROOM_CAPACITY)]
  const APART := map[CREATOR := User(1, NEW_ROOM), ME := User(2, LOBBY_ROOM_ID)]
  const BOTH := map[CREATOR := User(1, NEW_ROOM), ME := User(2, NEW_ROOM)]

  const JOINS := [Start(2, 0)] + ([Work(2, NEW_ROOM)] + [Work(2, NEW_ROOM)])

  /** The session enters the new room. */
  lemma Joins(s: State) returns (t: State)
    requires Scene(s, [], [JoinMe()], map[], NEXT_DOOR, BOUND, APART, [], 2)
    ensures Leads(s, JOINS, t) && Scene(t, [Joined()], [], map[], IN_BOTH, BOUND, BOTH, [], 2)
  {
    hide At, Done, JoinMe, Next, Act, Leads;
    var s1 := Takes(s, 2, JoinMe(), [], [], NEXT_DOOR, BOUND, APART, [], 2);
    JoinCourse();
    AtIs(JoinMe(), ME, Action(JoinRoom, NEW_ROOM));
    assert JoinSession(Room({CREATOR}, 1, ROOM_CAPACITY), ME) == Room({CREATOR, ME}, 2, ROOM_CAPACITY);
    JoinNext(s1, 2, NEW_ROOM);
    var s2 := Act(s1, 2, NEW_ROOM);
    assert s2.rooms == IN_BOTH && s2.users == BOTH && s2.running == map[2 := Done(JoinMe())];
    t := MovesOn(s2);
    Lead1(s1, Work(2, NEW_ROOM), s2);
    LeadOn(s1, [Work(2, NEW_ROOM)], s2, [Work(2, NEW_ROOM)], t);
    LeadOn(s, [Start(2, 0)], s1, [Work(2, NEW_ROOM)] + [Work(2, NEW_ROOM)], t);
  }

  lemma MovesOn(s: State) returns (t: State)
    requires Scene(s, [], [], map[2 := Done(JoinMe())], IN_BOTH, BOUND, BOTH, [], 2)
    ensures Leads(s, [Work(2, NEW_ROOM)], t) && Scene(t, [Joined()], [], map[], IN_BOTH, BOUND, BOTH, [], 2)
  {
    hide At, Done, Sent, JoinMe, Next, Act, Leads;
    JoinCourse();
    AtIs(Done(JoinMe()), ME, Action(RequestLeaveRoom, LOBBY_ROOM_ID));
    MoveNext(s, 2, NEW_ROOM, LOBBY_ROOM_ID);
    t := Act(s, 2, NEW_ROOM);
    assert t.running == map[];
    Lead1(s, Work(2, NEW_ROOM), t);
  }

  const QUITS := [Start(1, 0)] + ([Work(1, LOBBY_ROOM_ID)] + [Work(1, LOBBY_ROOM_ID)])

  /** It leaves the lobby, and the history is asked for. */
  lemma Quits(s: State) returns (t: State)
    requires Scene(s, [Joined()], [], map[], IN_BOTH, BOUND, BOTH, [], 2)
    ensures Leads(s, QUITS, t)
    ensures Scene(t, [], [], map[], TOGETHER, BOUND, BOTH, [LoadJob(Loading(), NEW_ROOM, INT64_MAX)], 2)
  {
    hide At, Done, Joined, Next, Act, Leads;
    var s1 := Takes(s, 1, Joined(), [], [], IN_BOTH, BOUND, BOTH, [], 2);
    JoinCourse();
    AtIs(Joined(), ME, Action(LeaveRoom, LOBBY_ROOM_ID));
    assert ExitSession(Room({ME}, 1, LOBBY_CAPACITY), ME) == Room({}, 0, LOBBY_CAPACITY);
    LeaveNext(s1, 1, LOBBY_ROOM_ID);
    var s2 := Act(s1, 1, LOBBY_ROOM_ID);
    assert s2.rooms == TOGETHER && s2.running == map[1 := Done(Joined())];
    t := LooksUp(s2);
    Lead1(s1, Work(1, LOBBY_ROOM_ID), s2);
    LeadOn(s1, [Work(1, LOBBY_ROOM_ID)], s2, [Work(1, LOBBY_ROOM_ID)], t);
    LeadOn(s, [Start(1, 0)], s1, [Work(1, LOBBY_ROOM_ID)] + [Work(1, LOBBY_ROOM_ID)], t);
  }

  lemma LooksUp(s: State) returns (t: State)
    requires Scene(s, [], [], map[1 := Done(Joined())], TOGETHER, BOUND, BOTH, [], 2)
    ensures Leads(s, [Work(1, LOBBY_ROOM_ID)], t)
    ensures Scene(t, [], [], map[], TOGETHER, BOUND, BOTH, [LoadJob(Loading(), NEW_ROOM, INT64_MAX)], 2)
  {
    hide At, Done, Passed, Joined, Next, Act, Leads;
    JoinCourse();
    AtIs(Done(Joined()), ME, Action(RequestDbLoadMessage, NEW_ROOM));
    SubmitNext(s, 1, LOBBY_ROOM_ID, Action(RequestDbLoadMessage, NEW_ROOM));
    t := Act(s, 1, LOBBY_ROOM_ID);
    assert t.running == map[];
    Lead1(s, Work(1, LOBBY_ROOM_ID), t);
  }

  const ANSWERS := [Start(2, 0)] + [Work(2, NEW_ROOM)]

  /** The answer to the failed join. */
  lemma Answers(s: State) returns (t: State)
    requires Scene(s, [], [Unloaded(Loading())], map[], TOGETHER, BOUND, BOTH, [], 2)
    ensures Leads(s, ANSWERS, t)
    ensures t.rooms == TOGETHER && t.users == BOTH && Packed(t, ME) == [Response(CmdJoinRoom, DbError, [])]
  {
    hide Next, Act, Leads;
    var s1 := Takes(s, 2, Unloaded(Loading()), [], [], TOGETHER, BOUND, BOTH, [], 2);
    FailNext(s1, 2, NEW_ROOM);
    t := Act(s1, 2, NEW_ROOM);
    Lead1(s1, Work(2, NEW_ROOM), t);
    LeadOn(s, [Start(2, 0)], s1, [Work(2, NEW_ROOM)], t);
  }

  // ---- the client ----

  const IDLE := Client(AtLobby, Nothing, Nothing, 0)
  const ASKING := Client(AtLobby, Some(ASKED), Some(ASKED), 0)
  const WAITING := Client(AtLobby, Some(ASKED), Nothing, 0)

  lemma Connects(s: State) returns (t: State)
    requires Scene(s, [], [], map[], MOVED, BOUND, AT_ROOM, [], 1)
    ensures SoloNext(Solo(s, Nothing, Nothing), ME, Connect(2, GARBAGE), Solo(t, Some(IDLE), Nothing))
    ensures Scene(t, [ArrivalEvent(ME, GARBAGE)], [], map[], MOVED, BOUND, APART, [], 1)
  {
    hide Enabled, Apply, ArrivalEvent, AcceptClient;
    AcceptNext(s, ME, 2);
    t := AcceptClient(s, ME, 2, GARBAGE);
    assert t.users == APART;
  }

  lemma Sends(s: State)
    requires Scene(s, [], [], map[], NEXT_DOOR, BOUND, APART, [], 1)
    ensures SoloNext(Solo(s, Some(IDLE), Nothing), ME, Send(ASKED), Solo(s, Some(ASKING), Nothing))
  {
    hide Enabled, Apply;
    forall f ensures !In(s, f) { Ownership.EmptyCount(s, s.n, f); }
    assert LOBBY in s.rooms && ME in s.rooms[LOBBY].members;
    assert Settled(s, ME);
  }

  lemma Delivers(s: State) returns (t: State)
    requires Scene(s, [], [], map[], NEXT_DOOR, BOUND, APART, [], 1)
    ensures SoloNext(Solo(s, Some(ASKING), Nothing), ME, Deliver, Solo(t, Some(WAITING), Nothing))
    ensures Scene(t, [], [JoinMe()], map[], NEXT_DOOR, BOUND, APART, [], 2)
  {
    hide Enabled, Apply, Dispatch;
    AskNext(s, ME, CmdJoinRoom, NEW_ROOM);
    t := Dispatch(s, ME, CmdJoinRoom, NEW_ROOM, []);
  }

  lemma Fails(s: State) returns (t: State)
    requires Scene(s, [], [], map[], TOGETHER, BOUND, BOTH, [LoadJob(Loading(), NEW_ROOM, INT64_MAX)], 2)
    ensures SoloNext(Solo(s, Some(WAITING), Nothing), ME, Other(Query(NotLoaded(DbError))),
                     Solo(t, Some(WAITING), Some(NEW_ROOM)))
    ensures Scene(t, [], [Unloaded(Loading())], map[], TOGETHER, BOUND, BOTH, [], 2)
  {
    hide Enabled, Apply, FinishJob;
    UnloadedNext(s, Loading(), NEW_ROOM);
    t := FinishJob(s, NotLoaded(DbError));
  }

  const LED_ASTRAY := Client(AtLobby, Nothing, Nothing, 1)

  lemma Reads(t: State)
    requires t.rooms == TOGETHER && t.users == BOTH && Packed(t, ME) == [Response(CmdJoinRoom, DbError, [])]
    ensures SoloNext(Solo(t, Some(WAITING), Some(NEW_ROOM)), ME, Receive, Solo(t, Some(LED_ASTRAY), Some(NEW_ROOM)))
    ensures Seats(t, ME) == {ROOM}
  {
    hide Enabled, Apply;
  }

  // ---- the whole run ----

  function Last(xs: seq<Solo>): Solo
    requires xs != []
  {
    xs[|xs| - 1]
  }

  /** A run that has come this far. */
  ghost predicate Reaches(xs: seq<Solo>, steps: seq<SoloStep>, x: Solo) {
    SoloRun(xs, steps, ME, 2) && Last(xs) == x
  }

  lemma Extend(xs: seq<Solo>, steps: seq<SoloStep>, x: Solo, step: SoloStep, y: Solo)
    returns (ys: seq<Solo>, more: seq<SoloStep>)
    requires Reaches(xs, steps, x) && SoloNext(x, ME, step, y)
    ensures Reaches(ys, more, y) && steps + [step] == more
  {
    hide SoloEnabled, SoloApply, Init;
    ys, more := xs + [y], steps + [step];
    forall i {:trigger more[i]} | 0 <= i < |more| ensures SoloNext(ys[i], ME, more[i], ys[i + 1]) {
      if i < |steps| { assert more[i] == steps[i] && ys[i] == xs[i] && ys[i + 1] == xs[i + 1]; }
    }
  }

  /** Steps of the server in which the main thread does nothing for the client and no load fails. */
  predicate Plain(step: Step) {
    !ActsFor(step, ME) && (step.Query? ==> !step.outcome.NotLoaded?)
  }

  lemma PlainNext(x: Solo, step: Step, t: State)
    requires Next(x.srv, step, t) && Plain(step)
    ensures SoloNext(x, ME, Other(step), x.(srv := t))
  {
    hide Enabled, Apply;
  }

  lemma {:induction false} Serve(xs: seq<Solo>, steps: seq<SoloStep>, x: Solo, work: seq<Step>, t: State)
    returns (ys: seq<Solo>, more: seq<SoloStep>, y: Solo)
    requires Reaches(xs, steps, x) && Leads(x.srv, work, t) && forall i | 0 <= i < |work| :: Plain(work[i])
    ensures Reaches(ys, more, y) && y == x.(srv := t) && steps <= more
    decreases |work|
  {
    hide Reaches, Next, SoloNext;
    if work == [] {
      ys, more, y := xs, steps, x;
    } else {
      var u :| Next(x.srv, work[0], u) && Leads(u, work[1..], t);
      PlainNext(x, work[0], u);
      ys, more := Extend(xs, steps, x, Other(work[0]), x.(srv := u));
      ys, more, y := Serve(ys, more, x.(srv := u), work[1..], t);
    }
  }

  lemma PlainSteps()
    ensures forall i | 0 <= i < |BEGINS + CREATES| :: Plain((BEGINS + CREATES)[i])
    ensures forall i | 0 <= i < |ARRIVES| :: Plain(ARRIVES[i])
  {}

  lemma StartsAt()
    ensures Reaches([Solo(Init(2), Nothing, Nothing)], [], Solo(Init(2), Nothing, Nothing))
  {}

  /** The room has its creator. */
  lemma OthersFirst() returns (xs: seq<Solo>, steps: seq<SoloStep>, x: Solo)
    ensures Reaches(xs, steps, x) && x.client == Nothing && x.astray == Nothing
    ensures Scene(x.srv, [], [], map[], MOVED, BOUND, AT_ROOM, [], 1)
  {
    hide Reaches, SoloNext, Leads, Scene, Init, Plain;
    StartsAt();
    PlainSteps();
    var s := CreatesRoom();
    xs, steps, x := Serve([Solo(Init(2), Nothing, Nothing)], [], Solo(Init(2), Nothing, Nothing), BEGINS + CREATES, s);
  }

  /** The client is in the lobby, and its join is on the way. */
  lemma Prepares() returns (xs: seq<Solo>, steps: seq<SoloStep>, x: Solo)
    ensures Reaches(xs, steps, x) && x.client == Some(ASKING) && x.astray == Nothing
    ensures Scene(x.srv, [], [], map[], NEXT_DOOR, BOUND, APART, [], 1)
  {
    hide Reaches, SoloNext, Leads, Scene, Init, Plain;
    PlainSteps();
    xs, steps, x := OthersFirst();
    var t := Connects(x.srv);
    xs, steps := Extend(xs, steps, x, Connect(2, GARBAGE), Solo(t, Some(IDLE), Nothing));
    var s := Arrives(t, ME, MOVED, BOUND, APART, 1);
    assert MOVED[LOBBY := Room({ME}, 1, LOBBY_CAPACITY)] == NEXT_DOOR;
    xs, steps, x := Serve(xs, steps, Solo(t, Some(IDLE), Nothing), ARRIVES, s);
    Sends(s);
    xs, steps := Extend(xs, steps, x, Send(ASKED), Solo(s, Some(ASKING), Nothing));
    x := Solo(s, Some(ASKING), Nothing);
  }

  /**
    A run of a disciplined client, among another, at whose end no request is open, the session is in the room it asked
    to join and nowhere else, and the client believes to be at the lobby: the history load of its join failed.
   */
  lemma FailedLoadLeadsAstray() returns (xs: seq<Solo>, steps: seq<SoloStep>)
    ensures SoloRun(xs, steps, ME, 2) && Other(Query(NotLoaded(DbError))) in steps
    ensures var x := Last(xs);
            && x.client.Some? && x.client.value.pending.Nothing? && RoomOf(x.client.value.view) == LOBBY_ROOM_ID
            && Seats(x.srv, ME) == {ROOM} && ME in x.srv.users && x.srv.users[ME].room == NEW_ROOM
  {
    var x: Solo;
    xs, steps, x := Prepares();
    hide SoloRun, SoloNext, Leads, Scene, Seats;
    var s := Delivers(x.srv);
    xs, steps := Extend(xs, steps, x, Deliver, Solo(s, Some(WAITING), Nothing));
    var t := Joins(s);
    xs, steps, x := Serve(xs, steps, Solo(s, Some(WAITING), Nothing), JOINS, t);
    t := Quits(t);
    xs, steps, x := Serve(xs, steps, x, QUITS, t);
    s := Fails(t);
    xs, steps := Extend(xs, steps, x, Other(Query(NotLoaded(DbError))), Solo(s, Some(WAITING), Some(NEW_ROOM)));
    assert steps[|steps| - 1] == Other(Query(NotLoaded(DbError)));
    t := Answers(s);
    xs, steps, x := Serve(xs, steps, Solo(s, Some(WAITING), Some(NEW_ROOM)), ANSWERS, t);
    Reads(t);
    xs, steps := Extend(xs, steps, x, Receive, Solo(t, Some(LED_ASTRAY), Some(NEW_ROOM)));
  }
}
