/**
  Pieces of concrete runs: what single steps do to a state that is given, and the run in which a client creates a room
  and is alone in it. Every worker takes the head of its queue.
 */
module Scenes {
  import opened Bytes
  import opened RoomEvents
  import opened ServerState
  import opened History

  const CREATOR: Fd := 8
  const NEW_ROOM: RoomId := 100
  const LOBBY := Key(1, LOBBY_ROOM_ID)
  const ROOM := Key(2, NEW_ROOM)
  const GARBAGE := CmdCreateRoom

  // ---- the events of the creator ----

  function Passed(e: Event): Event {
    e.(cursor := e.cursor + 1)
  }

  function Done(e: Event): Event {
    Report(Passed(e), Success)
  }

  function Sent(e: Event, target: RoomId): Event {
    Passed(e).(target := target, hops := e.hops + 1)
  }

  function Create(): Event {
    RequestEvent(CREATOR, CmdCreateRoom, 0, [], 0)
  }

  /** The create event once the database has issued the id, and once it has been posted. */
  function Created100(): Event {
    Event(Actions(PlanCreate(NEW_ROOM)), 1, NEW_ROOM, CmdCreateRoom, CREATOR, [], I64Bytes(NEW_ROOM), Success,
          Request(0), PlanCreate(NEW_ROOM), [Success], 0, 0)
  }

  function Posted100(): Event {
    Created100().(hops := 1)
  }

  function Entered100(): Event {
    Sent(Done(Done(Posted100())), LOBBY_ROOM_ID)
  }

  predicate At(e: Event, fd: Fd, a: Action) {
    !Failed(e.result) && e.cursor < |e.actions| && e.actions[e.cursor] == a && e.fd == fd && e.mark == 0
  }

  lemma CreateCourse()
    ensures At(Create(), CREATOR, Action(RequestDbCreateRoom, LOBBY_ROOM_ID))
    ensures At(Posted100(), CREATOR, Action(CreateRoom, NEW_ROOM))
    ensures At(Done(Posted100()), CREATOR, Action(JoinRoom, NEW_ROOM))
    ensures At(Done(Done(Posted100())), CREATOR, Action(RequestLeaveRoom, LOBBY_ROOM_ID))
    ensures At(Entered100(), CREATOR, Action(LeaveRoom, LOBBY_ROOM_ID))
    ensures At(Done(Entered100()), CREATOR, Action(SendResponse, 0)) && Done(Entered100()).origin.Request?
  {
    hide I64Bytes;
  }

  // ---- what the steps do ----

  /** The next action of worker `w`, whose only room is `r`. */
  predicate ToDo(s: State, w: WorkerId, r: RoomId, a: Action) {
    Holds(s, w, r) && At(s.running[w], s.running[w].fd, a)
  }

  lemma AtIs(e: Event, fd: Fd, a: Action)
    requires At(e, fd, a)
    ensures e.fd == fd && e.mark == 0 && Done(e).(mark := 0) == Done(e)
  {}

  predicate Holds(s: State, w: WorkerId, r: RoomId) {
    w in s.running && w !in s.casts && forall k | k in s.rooms && k.worker == w :: k.room == r
  }

  lemma WorkNext(s: State, w: WorkerId, r: RoomId)
    requires Holds(s, w, r)
    ensures Next(s, Work(w, r), Act(s, w, r))
  {
    hide Act;
    forall k | k in s.rooms && k.worker == w ensures k == Key(w, r) {}
  }

  lemma JoinNext(s: State, w: WorkerId, r: RoomId)
    requires ToDo(s, w, r, Action(JoinRoom, r)) && JoinRoomCode(s, w, s.running[w].fd, r) == Success
    ensures var fd := s.running[w].fd;
            Next(s, Work(w, r), Act(s, w, r)) && Act(s, w, r) ==
              s.(rooms := s.rooms[Key(w, r) := JoinSession(s.rooms[Key(w, r)], fd)],
                 users := s.users[fd := s.users[fd].(room := r)],
                 running := s.running[w := Done(s.running[w]).(mark := |s.log.handled|)],
                 log := s.log.(since := s.log.since[fd := |s.log.handled|]))
  {
    WorkNext(s, w, r);
    hide Next;
  }

  lemma CreateNext(s: State, w: WorkerId, r: RoomId)
    requires ToDo(s, w, r, Action(CreateRoom, r)) && Key(w, r) !in s.rooms
    ensures Next(s, Work(w, r), Act(s, w, r)) && Act(s, w, r) ==
              s.(rooms := s.rooms[Key(w, r) := Room({}, 0, ROOM_CAPACITY)],
                 running := s.running[w := Done(s.running[w])])
  {
    WorkNext(s, w, r);
    hide Next;
  }

  lemma LeaveNext(s: State, w: WorkerId, r: RoomId)
    requires ToDo(s, w, r, Action(LeaveRoom, r)) && LeaveRoomCode(s, w, s.running[w].fd, r) == Success
    requires !Empties(s, w, r)
    ensures Next(s, Work(w, r), Act(s, w, r)) && Act(s, w, r) ==
              s.(rooms := s.rooms[Key(w, r) := ExitSession(s.rooms[Key(w, r)], s.running[w].fd)],
                 running := s.running[w := Done(s.running[w])])
  {
    WorkNext(s, w, r);
    hide Next;
  }

  lemma MoveNext(s: State, w: WorkerId, r: RoomId, to: RoomId)
    requires ToDo(s, w, r, Action(RequestLeaveRoom, to)) && FindWorker(s, to) != 0
    ensures var v := FindWorker(s, to);
            Next(s, Work(w, r), Act(s, w, r)) && Act(s, w, r) ==
              s.(running := s.running - {w}, queues := s.queues[v := Queue(s, v) + [Sent(s.running[w], to)]])
  {
    WorkNext(s, w, r);
    hide Next;
  }

  lemma SubmitNext(s: State, w: WorkerId, r: RoomId, a: Action)
    requires ToDo(s, w, r, a) && (a.command.RequestDbCreateRoom? || a.command.RequestDbLoadMessage?)
    ensures var e := Passed(s.running[w]);
            var j := if a.command.RequestDbCreateRoom? then CreateJob(e) else LoadJob(e, a.room, CursorOf(e.request));
            Next(s, Work(w, r), Act(s, w, r)) && Act(s, w, r) ==
              s.(running := s.running - {w}, jobs := s.jobs + [j], log := s.log.(posted := s.log.posted + [j]))
  {
    WorkNext(s, w, r);
    hide Next;
  }

  lemma ArrivedNext(s: State, w: WorkerId, r: RoomId)
    requires Holds(s, w, r) && s.running[w].cursor >= |s.running[w].actions| && s.running[w].origin.Arrival?
    ensures Next(s, Work(w, r), Act(s, w, r)) && Act(s, w, r) ==
              s.(running := s.running - {w})
  {
    WorkNext(s, w, r);
    hide Next;
  }

  lemma FailNext(s: State, w: WorkerId, r: RoomId)
    requires Holds(s, w, r) && s.running[w].cursor < |s.running[w].actions| && Failed(s.running[w].result)
    requires s.running[w].origin.Request?
    ensures var e := s.running[w];
            Next(s, Work(w, r), Act(s, w, r)) && Act(s, w, r) ==
              s.(running := s.running - {w}, packed := PackedWith(s.packed, {e.fd}, ResponseTo(e)),
                 log := s.log.(answers := s.log.answers + [e]))
  {
    WorkNext(s, w, r);
    hide Next;
  }

  lemma StartNext(s: State, w: WorkerId)
    requires 1 <= w <= s.n && w !in s.running && 0 < |Queue(s, w)|
    ensures Next(s, Start(w, 0), Take(s, w, 0)) && Take(s, w, 0) ==
              s.(queues := s.queues[w := Queue(s, w)[1..]], running := s.running[w := Queue(s, w)[0]])
  {
    assert Without(Queue(s, w), 0) == Queue(s, w)[1..];
  }

  lemma AcceptNext(s: State, fd: Fd, id: int64)
    requires fd !in s.users && (forall k | k in s.rooms :: fd !in s.rooms[k].members)
    requires s.running == map[] && s.jobs == [] && forall w | w in s.queues :: s.queues[w] == []
    ensures Next(s, Accept(fd, id, GARBAGE), AcceptClient(s, fd, id, GARBAGE)) && AcceptClient(s, fd, id, GARBAGE) ==
              s.(users := s.users[fd := User(id, LOBBY_ROOM_ID)],
                 queues := s.queues[1 := Queue(s, 1) + [ArrivalEvent(fd, GARBAGE)]])
  {}

  lemma AskNext(s: State, fd: Fd, cmd: Command, room: RoomId)
    requires fd in s.users && FindWorker(s, FirstTarget(cmd, room)) != 0
    ensures var w := FindWorker(s, FirstTarget(cmd, room));
            Next(s, Ask(fd, cmd, room, []), Dispatch(s, fd, cmd, room, [])) && Dispatch(s, fd, cmd, room, []) ==
              s.(queues := s.queues[w := Queue(s, w) + [RequestEvent(fd, cmd, room, [], s.log.issued)]],
                 log := s.log.(issued := s.log.issued + 1))
  {}

  lemma CreatedNext(s: State, e: Event, id: RoomId, w: WorkerId)
    requires s.jobs == [CreateJob(e)] && id !in s.bindings && id !in s.log.home && id != PENDING_ROOM_ID
    requires LOBBY_WORKER_ID < w <= s.n
    ensures Next(s, Query(Created(id, w)), FinishJob(s, Created(id, w))) && FinishJob(s, Created(id, w)) ==
              s.(bindings := s.bindings[id := w], jobs := [HandJob(Resolved(e, id), w)],
                 log := s.log.(home := s.log.home[id := w]))
  {
    assert [HandJob(Resolved(e, id), w)] + s.jobs[1..] == [HandJob(Resolved(e, id), w)];
  }

  lemma HandedNext(s: State, e: Event, w: WorkerId)
    requires s.jobs == [HandJob(e, w)]
    ensures Next(s, Query(Handed), FinishJob(s, Handed)) && FinishJob(s, Handed) ==
              s.(jobs := [], queues := s.queues[w := Queue(s, w) + [e.(hops := e.hops + 1)]])
  {
    assert s.jobs[1..] == [];
  }

  lemma RespondNext(s: State, w: WorkerId, r: RoomId)
    requires ToDo(s, w, r, Action(SendResponse, 0)) && s.running[w].origin.Request?
    ensures var e := Passed(s.running[w]);
            Next(s, Work(w, r), Act(s, w, r)) && Act(s, w, r) ==
              s.(running := s.running - {w}, packed := PackedWith(s.packed, {e.fd}, ResponseTo(e)),
                 log := s.log.(answers := s.log.answers + [e]))
  {
    WorkNext(s, w, r);
    hide Next;
  }

  // ---- one after the other ----

  ghost predicate Leads(s: State, steps: seq<Step>, t: State)
    decreases |steps|
  {
    if steps == [] then s == t else exists u :: Next(s, steps[0], u) && Leads(u, steps[1..], t)
  }

  lemma Lead1(s: State, a: Step, t: State)
    requires Next(s, a, t)
    ensures Leads(s, [a], t)
  {
    hide Next;
    assert Leads(t, [a][1..], t);
  }

  lemma {:induction false} LeadOn(s: State, a: seq<Step>, t: State, b: seq<Step>, u: State)
    requires Leads(s, a, t) && Leads(t, b, u)
    ensures Leads(s, a + b, u)
    decreases |a|
  {
    hide Next;
    if a == [] {
      assert a + b == b;
    } else {
      var v :| Next(s, a[0], v) && Leads(v, a[1..], t);
      LeadOn(v, a[1..], t, b, u);
      assert (a + b)[1..] == a[1..] + b;
    }
  }

  lemma Lead2(s: State, a: Step, s1: State, b: Step, t: State)
    requires Next(s, a, s1) && Next(s1, b, t)
    ensures Leads(s, [a, b], t)
  {
    hide Next, Leads;
    Lead1(s, a, s1);
    Lead1(s1, b, t);
    LeadOn(s, [a], s1, [b], t);
    assert [a] + [b] == [a, b];
  }

  lemma Lead3(s: State, a: Step, s1: State, b: Step, s2: State, c: Step, t: State)
    requires Next(s, a, s1) && Next(s1, b, s2) && Next(s2, c, t)
    ensures Leads(s, [a, b, c], t)
  {
    hide Next, Leads;
    Lead2(s, a, s1, b, s2);
    Lead1(s2, c, t);
    LeadOn(s, [a, b], s2, [c], t);
    assert [a, b] + [c] == [a, b, c];
  }

  /** A sequence of steps from the start is a run. */
  lemma {:induction false} Unroll(states: seq<State>, done: seq<Step>, n: nat, steps: seq<Step>, t: State)
    returns (all: seq<State>)
    requires Run(states, done, n) && Leads(states[|done|], steps, t)
    ensures Run(all, done + steps, n) && all[|done + steps|] == t && states <= all
    decreases |steps|
  {
    hide Next, Init;
    if steps == [] {
      all := states;
      assert done + steps == done;
    } else {
      var u :| Next(states[|done|], steps[0], u) && Leads(u, steps[1..], t);
      var more := done + [steps[0]];
      assert forall i {:trigger more[i]} | 0 <= i < |more| ::
             Next((states + [u])[i], more[i], (states + [u])[i + 1]) by {
        forall i {:trigger more[i]} | 0 <= i < |more| ensures Next((states + [u])[i], more[i], (states + [u])[i + 1]) {
          if i < |done| { assert more[i] == done[i]; }
        }
      }
      all := Unroll(states + [u], more, n, steps[1..], t);
      assert more + steps[1..] == done + steps;
    }
  }

  // ---- a client creates a room ----

  /** What the steps still to come depend on. */
  predicate Scene(
    s: State, first: seq<Event>, second: seq<Event>, running: map<WorkerId, Event>, rooms: map<Key, Room>,
    bound: map<RoomId, WorkerId>, users: map<Fd, User>, jobs: seq<Job>, issued: nat)
  {
    && s.n == 2 && Queue(s, 1) == first && Queue(s, 2) == second && s.queues.Keys <= {1, 2} && s.running == running
    && s.rooms == rooms && s.bindings == bound && s.users == users && s.jobs == jobs
    && s.casts == map[] && s.packed.Keys <= {CREATOR} && s.log.handled == [] && s.log.issued == issued
    && s.log.dropped == [] && (issued <= 1 ==> s.log.home == bound)
  }

  const ALONE: map<RoomId, WorkerId> := map[LOBBY_ROOM_ID := 1]
  const BOUND: map<RoomId, WorkerId> := map[LOBBY_ROOM_ID := 1, NEW_ROOM := 2]
  const NOBODY := map[LOBBY := Room({}, 0, LOBBY_CAPACITY)]
  const HERE := map[LOBBY := Room({CREATOR}, 1, LOBBY_CAPACITY)]
  const OPEN := map[LOBBY := Room({CREATOR}, 1, LOBBY_CAPACITY), ROOM := Room({}, 0, ROOM_CAPACITY)]
  const INSIDE := map[LOBBY := Room({CREATOR}, 1, LOBBY_CAPACITY), ROOM := Room({CREATOR}, 1, ROOM_CAPACITY)]
  const MOVED := map[LOBBY := Room({}, 0, LOBBY_CAPACITY), ROOM := Room({CREATOR}, 1, ROOM_CAPACITY)]
  const AT_LOBBY := map[CREATOR := User(1, LOBBY_ROOM_ID)]
  const AT_ROOM := map[CREATOR := User(1, NEW_ROOM)]
  const ARRIVES := [Start(1, 0), Work(1, LOBBY_ROOM_ID), Work(1, LOBBY_ROOM_ID)]

  /** A client is let into the empty lobby. */
  lemma Arrives(
    s: State, fd: Fd, rooms: map<Key, Room>, bound: map<RoomId, WorkerId>, users: map<Fd, User>, issued: nat)
    returns (t: State)
    requires Scene(s, [ArrivalEvent(fd, GARBAGE)], [], map[], rooms, bound, users, [], issued)
    requires fd in users && users[fd].room == LOBBY_ROOM_ID && LOBBY in rooms
    requires rooms[LOBBY] == Room({}, 0, LOBBY_CAPACITY) && forall k | k in rooms && k.worker == 1 ::
             k.room == LOBBY_ROOM_ID
    ensures Leads(s, ARRIVES, t) && t.packed == s.packed
    ensures Scene(t, [], [], map[], rooms[LOBBY := Room({fd}, 1, LOBBY_CAPACITY)], bound, users, [], issued)
  {
    hide Next, Act, Take, Leads;
    StartNext(s, 1);
    var s1 := Take(s, 1, 0);
    JoinNext(s1, 1, LOBBY_ROOM_ID);
    var s2 := Act(s1, 1, LOBBY_ROOM_ID);
    ArrivedNext(s2, 1, LOBBY_ROOM_ID);
    t := Act(s2, 1, LOBBY_ROOM_ID);
    Lead3(s, Start(1, 0), s1, Work(1, LOBBY_ROOM_ID), s2, Work(1, LOBBY_ROOM_ID), t);
    assert JoinSession(Room({}, 0, LOBBY_CAPACITY), fd) == Room({fd}, 1, LOBBY_CAPACITY);
    assert t.users == users && t.running == map[];
  }

  /** The creator is there and asks for a room. */
  lemma Comes() returns (t: State)
    ensures Leads(Init(2), [Accept(CREATOR, 1, GARBAGE)] + ARRIVES, t)
    ensures Scene(t, [], [], map[], HERE, ALONE, AT_LOBBY, [], 0) && t.packed == map[]
  {
    hide Next, AcceptClient, ArrivalEvent, Leads;
    AcceptNext(Init(2), CREATOR, 1);
    var s := AcceptClient(Init(2), CREATOR, 1, GARBAGE);
    Lead1(Init(2), Accept(CREATOR, 1, GARBAGE), s);
    t := Arrives(s, CREATOR, NOBODY, ALONE, AT_LOBBY, 0);
    LeadOn(Init(2), [Accept(CREATOR, 1, GARBAGE)], s, ARRIVES, t);
    assert NOBODY[LOBBY := Room({CREATOR}, 1, LOBBY_CAPACITY)] == HERE;
  }

  const ASKS := [Ask(CREATOR, CmdCreateRoom, 0, [])] + [Start(1, 0), Work(1, LOBBY_ROOM_ID)]

  /** The request reaches the database. */
  lemma Asks(s: State) returns (t: State)
    requires Scene(s, [], [], map[], HERE, ALONE, AT_LOBBY, [], 0)
    ensures Leads(s, ASKS, t) && t.packed == s.packed
    ensures Scene(t, [], [], map[], HERE, ALONE, AT_LOBBY, [CreateJob(Passed(Create()))], 1)
  {
    hide Create, Passed, Next, Dispatch, Leads;
    AskNext(s, CREATOR, CmdCreateRoom, 0);
    var s1 := Dispatch(s, CREATOR, CmdCreateRoom, 0, []);
    CreateIs();
    t := Submits(s1);
    Lead1(s, Ask(CREATOR, CmdCreateRoom, 0, []), s1);
    LeadOn(s, [Ask(CREATOR, CmdCreateRoom, 0, [])], s1, [Start(1, 0), Work(1, LOBBY_ROOM_ID)], t);
  }

  lemma Submits(s: State) returns (t: State)
    requires Scene(s, [Create()], [], map[], HERE, ALONE, AT_LOBBY, [], 1)
    ensures Leads(s, [Start(1, 0), Work(1, LOBBY_ROOM_ID)], t) && t.packed == s.packed
    ensures Scene(t, [], [], map[], HERE, ALONE, AT_LOBBY, [CreateJob(Passed(Create()))], 1)
  {
    hide At, Create, Passed, Next, Act, Take, Leads;
    CreateCourse();
    AtIs(Create(), CREATOR, Action(RequestDbCreateRoom, LOBBY_ROOM_ID));
    StartNext(s, 1);
    var s1 := Take(s, 1, 0);
    SubmitNext(s1, 1, LOBBY_ROOM_ID, Action(RequestDbCreateRoom, LOBBY_ROOM_ID));
    t := Act(s1, 1, LOBBY_ROOM_ID);
    assert t.running == map[];
    Lead2(s, Start(1, 0), s1, Work(1, LOBBY_ROOM_ID), t);
  }

  lemma CreateIs()
    ensures Create() == RequestEvent(CREATOR, CmdCreateRoom, 0, [], 0)
  {}

  const ISSUES := [Query(Created(NEW_ROOM, 2)), Query(Handed)]

  /** The database issues the id, whatever has happened to the client since. */
  lemma Issues(s: State, first: seq<Event>, users: map<Fd, User>) returns (t: State)
    requires Scene(s, first, [], map[], HERE, ALONE, users, [CreateJob(Passed(Create()))], 1)
    ensures Leads(s, ISSUES, t) && Scene(t, first, [Posted100()], map[], HERE, BOUND, users, [], 1)
            && t.packed == s.packed
  {
    hide I64Bytes, Create, Passed, Next, Leads, FinishJob, Resolved;
    CreatedNext(s, Passed(Create()), NEW_ROOM, 2);
    ResolvedIs();
    var s1 := FinishJob(s, Created(NEW_ROOM, 2));
    assert s1.bindings == BOUND;
    HandedNext(s1, Created100(), 2);
    t := FinishJob(s1, Handed);
    Lead2(s, Query(Created(NEW_ROOM, 2)), s1, Query(Handed), t);
  }

  lemma ResolvedIs()
    ensures Resolved(Passed(Create()), NEW_ROOM) == Created100()
  {
    ResolveCreate(NEW_ROOM);
  }

  const OPENS := [Start(2, 0), Work(2, NEW_ROOM)]

  /** The room's worker creates it. */
  lemma Opens(s: State, first: seq<Event>, users: map<Fd, User>) returns (t: State)
    requires Scene(s, first, [Posted100()], map[], HERE, BOUND, users, [], 1)
    ensures Leads(s, OPENS, t) && Scene(t, first, [], map[2 := Done(Posted100())], OPEN, BOUND, users, [], 1)
    ensures t.packed == s.packed
  {
    hide At, Done, Posted100, Next, Act, Take, Leads;
    CreateCourse();
    AtIs(Posted100(), CREATOR, Action(CreateRoom, NEW_ROOM));
    StartNext(s, 2);
    var s1 := Take(s, 2, 0);
    CreateNext(s1, 2, NEW_ROOM);
    t := Act(s1, 2, NEW_ROOM);
    Lead2(s, Start(2, 0), s1, Work(2, NEW_ROOM), t);
    assert t.rooms == OPEN;
  }

  const FILLS := [Work(2, NEW_ROOM)] + [Work(2, NEW_ROOM)]

  /** Its creator enters it and is on the way to leave the lobby. */
  lemma Fills(s: State) returns (t: State)
    requires Scene(s, [], [], map[2 := Done(Posted100())], OPEN, BOUND, AT_LOBBY, [], 1)
    ensures Leads(s, FILLS, t) && Scene(t, [Entered100()], [], map[], INSIDE, BOUND, AT_ROOM, [], 1)
  {
    hide At, Done, Posted100, Next, Act, Leads;
    CreateCourse();
    AtIs(Done(Posted100()), CREATOR, Action(JoinRoom, NEW_ROOM));
    assert JoinSession(Room({}, 0, ROOM_CAPACITY), CREATOR) == Room({CREATOR}, 1, ROOM_CAPACITY);
    JoinNext(s, 2, NEW_ROOM);
    var s1 := Act(s, 2, NEW_ROOM);
    assert s1.rooms == INSIDE && s1.users == AT_ROOM && s1.running == map[2 := Done(Done(Posted100()))];
    t := Turns(s1);
    Lead1(s, Work(2, NEW_ROOM), s1);
    LeadOn(s, [Work(2, NEW_ROOM)], s1, [Work(2, NEW_ROOM)], t);
  }

  lemma Turns(s: State) returns (t: State)
    requires Scene(s, [], [], map[2 := Done(Done(Posted100()))], INSIDE, BOUND, AT_ROOM, [], 1)
    ensures Leads(s, [Work(2, NEW_ROOM)], t) && Scene(t, [Entered100()], [], map[], INSIDE, BOUND, AT_ROOM, [], 1)
  {
    hide At, Done, Sent, Posted100, Next, Act, Leads;
    CreateCourse();
    AtIs(Done(Done(Posted100())), CREATOR, Action(RequestLeaveRoom, LOBBY_ROOM_ID));
    MoveNext(s, 2, NEW_ROOM, LOBBY_ROOM_ID);
    t := Act(s, 2, NEW_ROOM);
    assert t.running == map[];
    Lead1(s, Work(2, NEW_ROOM), t);
  }

  /** A worker takes the only event it has. */
  lemma Takes(
    s: State, w: WorkerId, e: Event, first: seq<Event>, second: seq<Event>, rooms: map<Key, Room>,
    bound: map<RoomId, WorkerId>, users: map<Fd, User>, jobs: seq<Job>, issued: nat) returns (t: State)
    requires 1 <= w <= 2
    requires Scene(s, if w == 1 then [e] else first, if w == 2 then [e] else second, map[],
                   rooms, bound, users, jobs, issued)
    ensures Leads(s, [Start(w, 0)], t) && t.packed == s.packed
    ensures Scene(t, if w == 1 then [] else first, if w == 2 then [] else second, map[w := e],
                  rooms, bound, users, jobs, issued)
  {
    hide Next, Take, Leads;
    StartNext(s, w);
    t := Take(s, w, 0);
    Lead1(s, Start(w, 0), t);
  }

  const LEAVES := [Start(1, 0)] + ([Work(1, LOBBY_ROOM_ID)] + [Work(1, LOBBY_ROOM_ID)])

  /** It leaves the lobby and is answered. */
  lemma Leaves(s: State) returns (t: State)
    requires Scene(s, [Entered100()], [], map[], INSIDE, BOUND, AT_ROOM, [], 1)
    ensures Leads(s, LEAVES, t) && Scene(t, [], [], map[], MOVED, BOUND, AT_ROOM, [], 1)
  {
    hide At, Done, Entered100, Next, Act, Leads;
    var s1 := Takes(s, 1, Entered100(), [], [], INSIDE, BOUND, AT_ROOM, [], 1);
    CreateCourse();
    AtIs(Entered100(), CREATOR, Action(LeaveRoom, LOBBY_ROOM_ID));
    assert ExitSession(Room({CREATOR}, 1, LOBBY_CAPACITY), CREATOR) == Room({}, 0, LOBBY_CAPACITY);
    LeaveNext(s1, 1, LOBBY_ROOM_ID);
    var s2 := Act(s1, 1, LOBBY_ROOM_ID);
    assert s2.rooms == MOVED && s2.running == map[1 := Done(Entered100())];
    t := Told(s2);
    Lead1(s1, Work(1, LOBBY_ROOM_ID), s2);
    LeadOn(s1, [Work(1, LOBBY_ROOM_ID)], s2, [Work(1, LOBBY_ROOM_ID)], t);
    LeadOn(s, [Start(1, 0)], s1, [Work(1, LOBBY_ROOM_ID)] + [Work(1, LOBBY_ROOM_ID)], t);
  }

  lemma Told(s: State) returns (t: State)
    requires Scene(s, [], [], map[1 := Done(Entered100())], MOVED, BOUND, AT_ROOM, [], 1)
    ensures Leads(s, [Work(1, LOBBY_ROOM_ID)], t) && Scene(t, [], [], map[], MOVED, BOUND, AT_ROOM, [], 1)
  {
    hide At, Done, Passed, Entered100, ResponseTo, Next, Act, Leads;
    CreateCourse();
    AtIs(Done(Entered100()), CREATOR, Action(SendResponse, 0));
    RespondNext(s, 1, LOBBY_ROOM_ID);
    t := Act(s, 1, LOBBY_ROOM_ID);
    PassedMine(Done(Entered100()));
    assert t.running == map[] && t.packed.Keys <= {CREATOR};
    Lead1(s, Work(1, LOBBY_ROOM_ID), t);
  }

  lemma PassedMine(e: Event)
    ensures Passed(e).fd == e.fd
  {}

  const BEGINS := [Accept(CREATOR, 1, GARBAGE)] + ARRIVES
  const CREATES := ASKS + ISSUES + OPENS + FILLS + LEAVES

  /** A client connects, creates a room and is alone in it, with nothing in flight. */
  lemma CreatesRoom() returns (t: State)
    ensures Leads(Init(2), BEGINS + CREATES, t) && Scene(t, [], [], map[], MOVED, BOUND, AT_ROOM, [], 1)
  {
    hide Leads, Scene, Init;
    var a := Comes();
    var b := Asks(a);
    var c := Issues(b, [], AT_LOBBY);
    var d := Opens(c, [], AT_LOBBY);
    var e := Fills(d);
    t := Leaves(e);
    LeadOn(a, ASKS, b, ISSUES, c);
    LeadOn(a, ASKS + ISSUES, c, OPENS, d);
    LeadOn(a, ASKS + ISSUES + OPENS, d, FILLS, e);
    LeadOn(a, ASKS + ISSUES + OPENS + FILLS, e, LEAVES, t);
    LeadOn(Init(2), BEGINS, a, CREATES, t);
  }
}
