/**
  What each action of a worker does, said of the states before and after it, in every run: who is let in and who is
  refused, what is recorded and what is answered.
 */
module Outcomes {
  import opened Bytes
  import opened RoomEvents
  import opened ServerState
  import opened History
  import opened Talk
  import opened Flights
  import opened Itinerary
  import opened Ownership
  import Requests

  /** At step `i` worker `w` executes an action of this kind on room `r`. */
  ghost predicate Runs(states: seq<State>, steps: seq<Step>, i: nat, w: WorkerId, c: ActionCommand, r: RoomId) {
    && i < |steps| && i < |states| && steps[i].Work? && steps[i].w == w
    && Executes(states[i], w) && ActionAt(states[i], w) == Action(c, r)
  }

  /**
    The action came to `c`: after a success the event goes on with the next action; after anything else the event is
    gone and its session is sent `c`.
   */
  predicate Recorded(s: State, t: State, w: WorkerId, c: Code)
    requires w in s.running
  {
    var e := s.running[w];
    if c == Success then
      && w in t.running && t.running[w].result == Success && t.running[w].outcomes == e.outcomes + [Success]
      && t.running[w].cursor == e.cursor + 1 && t.packed == s.packed && t.log.answers == s.log.answers
    else
      && w !in t.running && Packed(t, e.fd) == Packed(s, e.fd) + [Response(e.initial, c, e.response)]
      && (e.origin.Request? ==> |t.log.answers| == |s.log.answers| + 1
                                && t.log.answers[|s.log.answers|].origin == e.origin
                                && t.log.answers[|s.log.answers|].outcomes == e.outcomes + [c])
  }

  predicate SameTalk(s: State, t: State) {
    t.running == s.running && t.packed == s.packed && t.log.answers == s.log.answers
  }

  lemma JoinKeepsTalk(s: State, w: WorkerId, fd: Fd, room: RoomId)
    ensures SameTalk(s, JoinRoomAt(s, w, fd, room))
  {
    if JoinRoomCode(s, w, fd, room) == Success {} else {}
  }

  lemma LeaveKeepsTalk(s: State, w: WorkerId, fd: Fd, room: RoomId)
    ensures SameTalk(s, LeaveRoomAt(s, w, fd, room))
  {
    if LeaveRoomCode(s, w, fd, room) == Success {} else {}
  }

  lemma SendKeepsTalk(s: State, w: WorkerId, fd: Fd, room: RoomId, text: seq<byte>, origin: Origin)
    ensures SameTalk(s, BroadcastAt(s, w, fd, room, text, origin))
  {
    hide UserIdOf, WithCast;
    if BroadcastCode(s, w, room) == Success {} else {}
  }

  lemma EffectKeeps(s: State, w: WorkerId, e: Event, a: Action)
    requires Local(a.command)
    ensures SameTalk(s, Effect(s, w, e, a))
  {
    hide JoinRoomAt, LeaveRoomAt, BroadcastAt, SameTalk;
    JoinKeepsTalk(s, w, e.fd, a.room);
    LeaveKeepsTalk(s, w, e.fd, a.room);
    SendKeepsTalk(s, w, e.fd, a.room, e.request, e.origin);
    assert SameTalk(s, CreateRoomAt(s, w, a.room)) by { CreateKeepsTalk(s, w, a.room); }
  }

  lemma CreateKeepsTalk(s: State, w: WorkerId, room: RoomId)
    ensures SameTalk(s, CreateRoomAt(s, w, room))
  {}

  lemma SettleRecords(s: State, u: State, w: WorkerId, e: Event, c: Code)
    requires w in s.running && SameTalk(s, u)
    requires e == s.running[w].(cursor := s.running[w].cursor + 1, mark := e.mark)
    ensures var t := Settle(u, w, e, c);
            && Recorded(s, t, w, c) && t.rooms == u.rooms && t.users == u.users && t.casts == u.casts
            && t.log.handled == u.log.handled && t.log.posted == u.log.posted && t.jobs == u.jobs
            && (e.actions != [] && e.actions[0].command != CreateRoom ==> t.bindings == u.bindings)
  {
    if c == Success {} else {}
  }

  lemma LocalRecords(s: State, w: WorkerId, found: RoomId)
    requires Executes(s, w) && Local(ActionAt(s, w).command)
    ensures var a := ActionAt(s, w);
            var e := s.running[w].(cursor := s.running[w].cursor + 1);
            var t, u := Act(s, w, found), Effect(s, w, e, a);
            && Recorded(s, t, w, CodeAt(s, w, e, a)) && t.rooms == u.rooms && t.users == u.users && t.casts == u.casts
            && t.log.handled == u.log.handled && t.log.posted == u.log.posted && t.jobs == u.jobs
            && (e.actions[0].command != CreateRoom ==> t.bindings == u.bindings)
  {
    hide Settle, Effect, CodeAt, Recorded, SameTalk;
    var a := ActionAt(s, w);
    var e := s.running[w].(cursor := s.running[w].cursor + 1);
    EffectKeeps(s, w, e, a);
    SettleRecords(s, Effect(s, w, e, a), w, Marked(s, e, a), CodeAt(s, w, e, a));
    SameEffect(s, w, e, a);
  }

  /** The label that the effect is given does not matter. */
  lemma SameEffect(s: State, w: WorkerId, e: Event, a: Action)
    requires Local(a.command)
    ensures CodeAt(s, w, Marked(s, e, a), a) == CodeAt(s, w, e, a)
  {}

  /** The outcomes exclude each other. */
  lemma OneOutcome(s: State, t: State, w: WorkerId, c: Code, d: Code)
    requires w in s.running && Recorded(s, t, w, c) && Recorded(s, t, w, d)
    ensures c == d
  {
    var ps, fd := Packed(s, s.running[w].fd), s.running[w].fd;
    if c != Success && d != Success {
      assert Packed(t, fd)[|ps|] == Response(s.running[w].initial, c, s.running[w].response);
      assert Packed(t, fd)[|ps|] == Response(s.running[w].initial, d, s.running[w].response);
    }
  }

  /** The step is one iteration of the worker, and the recipe does not begin with a CREATE. */
  lemma RunsAct(states: seq<State>, steps: seq<Step>, n: nat, i: nat, w: WorkerId, c: ActionCommand, r: RoomId)
    requires Run(states, steps, n) && Runs(states, steps, i, w, c, r)
    ensures w in states[i].running && i + 1 < |states| && states[i + 1] == Act(states[i], w, steps[i].found)
    ensures Moving(states[i], w) && states[i].running[w].actions[0].command != CreateRoom
  {
    hide Own, Act, Init;
    RunOwns(states, steps, n, i);
    OwnRunning(states[i], w);
    assert Next(states[i], steps[i], states[i + 1]);
    hide Bound;
  }

  /**
    JOIN: the session is let in and counted if and only if the room is there and below its capacity; its user, if there
    is one, has it as current room from then on.
   */
  lemma JoinOutcome(states: seq<State>, steps: seq<Step>, n: nat, i: nat, w: WorkerId, r: RoomId)
    requires Run(states, steps, n) && Runs(states, steps, i, w, JoinRoom, r)
    ensures var s, t, k, fd := states[i], states[i + 1], Key(w, r), states[i].running[w].fd;
            var letIn := k in s.rooms && s.rooms[k].count < s.rooms[k].max;
            && (Recorded(s, t, w, RoomNotFound) <==> k !in s.rooms)
            && (Recorded(s, t, w, RoomFull) <==> k in s.rooms && s.rooms[k].count >= s.rooms[k].max)
            && (Recorded(s, t, w, UserNotFound) <==> letIn && fd !in s.users)
            && (Recorded(s, t, w, Success) <==> letIn && fd in s.users)
            && t.rooms == (if letIn
                           then s.rooms[k := Room(s.rooms[k].members + {fd}, s.rooms[k].count + 1, s.rooms[k].max)]
                           else s.rooms)
            && t.users == (if letIn && fd in s.users then s.users[fd := User(s.users[fd].id, r)] else s.users)
            && t.bindings == s.bindings
  {
    hide Run, Act, Recorded, OnCourse, Bound;
    RunsAct(states, steps, n, i, w, JoinRoom, r);
    LocalRecords(states[i], w, steps[i].found);
    var s, t := states[i], states[i + 1];
    forall c, d | Recorded(s, t, w, c) && Recorded(s, t, w, d) ensures c == d { OneOutcome(s, t, w, c, d); }
    hide Effect;
    JoinIs(s, w, s.running[w].(cursor := s.running[w].cursor + 1), r);
  }

  lemma JoinIs(s: State, w: WorkerId, e: Event, r: RoomId)
    ensures var t, k := Effect(s, w, e, Action(JoinRoom, r)), Key(w, r);
            var letIn := k in s.rooms && s.rooms[k].count < s.rooms[k].max;
            && t.rooms == (if letIn
                           then s.rooms[k := Room(s.rooms[k].members + {e.fd}, s.rooms[k].count + 1, s.rooms[k].max)]
                           else s.rooms)
            && t.users == (if letIn && e.fd in s.users then s.users[e.fd := User(s.users[e.fd].id, r)] else s.users)
            && t.bindings == s.bindings
  {
    if JoinRoomCode(s, w, e.fd, r) == Success {} else {}
  }

  /**
    LEAVE: a member is taken out and counted down; an ordinary room goes, with its binding, when the counter comes to
    zero.
   */
  lemma LeaveOutcome(states: seq<State>, steps: seq<Step>, n: nat, i: nat, w: WorkerId, r: RoomId)
    requires Run(states, steps, n) && Runs(states, steps, i, w, LeaveRoom, r)
    ensures var s, t, k, fd := states[i], states[i + 1], Key(w, r), states[i].running[w].fd;
            var isMember := k in s.rooms && fd in s.rooms[k].members;
            && (Recorded(s, t, w, RoomNotFound) <==> k !in s.rooms)
            && (Recorded(s, t, w, UserNotFound) <==> k in s.rooms && fd !in s.rooms[k].members)
            && (Recorded(s, t, w, Success) <==> isMember) && t.users == s.users
            && if isMember then Departed(s, t, k, fd) else t.rooms == s.rooms && t.bindings == s.bindings
  {
    hide Run, Act, Recorded, OnCourse, Bound;
    RunsAct(states, steps, n, i, w, LeaveRoom, r);
    LocalRecords(states[i], w, steps[i].found);
    var s, t := states[i], states[i + 1];
    forall c, d | Recorded(s, t, w, c) && Recorded(s, t, w, d) ensures c == d { OneOutcome(s, t, w, c, d); }
    hide Effect;
    LeaveIs(s, w, s.running[w].(cursor := s.running[w].cursor + 1), r);
  }

  /** The session is taken out of the room. */
  predicate Departed(s: State, t: State, k: Key, fd: Fd)
    requires k in s.rooms
  {
    if s.rooms[k].count <= 1 && k.worker != LOBBY_WORKER_ID then
      t.rooms == s.rooms - {k} && t.bindings == s.bindings - {k.room}
    else
      && t.rooms == s.rooms[k := Room(s.rooms[k].members - {fd}, s.rooms[k].count - 1, s.rooms[k].max)]
      && t.bindings == s.bindings
  }

  lemma LeaveIs(s: State, w: WorkerId, e: Event, r: RoomId)
    ensures var t, k := Effect(s, w, e, Action(LeaveRoom, r)), Key(w, r);
            && t.users == s.users
            && if k in s.rooms && e.fd in s.rooms[k].members then Departed(s, t, k, e.fd)
               else t.rooms == s.rooms && t.bindings == s.bindings
  {
    if LeaveRoomCode(s, w, e.fd, r) == Success {} else {}
  }

  /** CREATE: a new room is empty and holds five. */
  lemma CreateOutcome(states: seq<State>, steps: seq<Step>, n: nat, i: nat, w: WorkerId, r: RoomId)
    requires Run(states, steps, n) && Runs(states, steps, i, w, CreateRoom, r)
    ensures var s, t, k := states[i], states[i + 1], Key(w, r);
            && (Recorded(s, t, w, RoomAlreadyExists) <==> k in s.rooms)
               && (Recorded(s, t, w, Success) <==> k !in s.rooms)
            && t.rooms == (if k in s.rooms then s.rooms else s.rooms[k := Room({}, 0, 5)]) && t.users == s.users
  {
    hide Run, Act, Recorded, OnCourse, Bound;
    RunsAct(states, steps, n, i, w, CreateRoom, r);
    LocalRecords(states[i], w, steps[i].found);
    var s, t := states[i], states[i + 1];
    forall c, d | Recorded(s, t, w, c) && Recorded(s, t, w, d) ensures c == d { OneOutcome(s, t, w, c, d); }
    hide Effect;
    CreateIs(s, w, s.running[w].(cursor := s.running[w].cursor + 1), r);
  }

  lemma CreateIs(s: State, w: WorkerId, e: Event, r: RoomId)
    ensures var t, k := Effect(s, w, e, Action(CreateRoom, r)), Key(w, r);
            t.rooms == (if k in s.rooms then s.rooms else s.rooms[k := Room({}, 0, 5)]) && t.users == s.users
  {}

  /**
    SEND: the message is put on record as the session's, and the worker begins to tell the members, with the sender's
    id, or zero if the user is gone.
   */
  lemma SendOutcome(states: seq<State>, steps: seq<Step>, n: nat, i: nat, w: WorkerId, r: RoomId)
    requires Run(states, steps, n) && Runs(states, steps, i, w, SendMessage, r)
    ensures var s, t, k, e := states[i], states[i + 1], Key(w, r), states[i].running[w];
            && (Recorded(s, t, w, RoomNotFound) <==> k !in s.rooms) && (Recorded(s, t, w, Success) <==> k in s.rooms)
            && t.rooms == s.rooms && t.users == s.users
            && t.log.handled == s.log.handled + (if k in s.rooms then [Handled(r, e.fd, e.request, e.origin)] else [])
            && t.casts == (if k in s.rooms && s.rooms[k].members != {} then s.casts[w := CastOf(s, k, e)]
                           else if k in s.rooms then s.casts - {w} else s.casts)
  {
    hide Run, Act, Recorded, OnCourse, Bound;
    RunsAct(states, steps, n, i, w, SendMessage, r);
    LocalRecords(states[i], w, steps[i].found);
    var s, t := states[i], states[i + 1];
    forall c, d | Recorded(s, t, w, c) && Recorded(s, t, w, d) ensures c == d { OneOutcome(s, t, w, c, d); }
    hide Effect;
    SendIs(s, w, s.running[w].(cursor := s.running[w].cursor + 1), r);
  }

  /** The loop over the members of room `k` that tells them the text of event `e`. */
  function CastOf(s: State, k: Key, e: Event): Cast
    requires k in s.rooms
  {
    var sender := if e.fd in s.users then s.users[e.fd].id else 0;
    Cast(s.rooms[k].members, Nothing, e.fd, k.room, Broadcast(sender, k.room, e.request, |s.log.handled|))
  }

  lemma SendIs(s: State, w: WorkerId, e: Event, r: RoomId)
    ensures var t, k := Effect(s, w, e, Action(SendMessage, r)), Key(w, r);
            && t.rooms == s.rooms && t.users == s.users
            && t.log.handled == s.log.handled + (if k in s.rooms then [Handled(r, e.fd, e.request, e.origin)] else [])
            && t.casts == (if k in s.rooms && s.rooms[k].members != {} then s.casts[w := CastOf(s, k, e)]
                           else if k in s.rooms then s.casts - {w} else s.casts)
  {
    if BroadcastCode(s, w, r) == Success {} else {}
  }

  // ---- what is handed to the database, answered or ended ----

  /** The cursor in the body of a load: its first eight bytes if they are a positive number, otherwise the newest. */
  function CursorIn(body: seq<byte>): int64 {
    if |body| >= 8 && I64Value(body[..8]) > 0 then I64Value(body[..8]) else 0x7FFF_FFFF_FFFF_FFFF
  }

  /** The event has left the worker without an answer. */
  predicate HandedOver(s: State, t: State, w: WorkerId) {
    && w !in t.running && t.packed == s.packed && t.log.answers == s.log.answers && t.rooms == s.rooms
    && t.users == s.users && t.bindings == s.bindings
  }

  /** The history load is asked for with the cursor of the request. */
  lemma LoadOutcome(states: seq<State>, steps: seq<Step>, n: nat, i: nat, w: WorkerId, r: RoomId)
    requires Run(states, steps, n) && Runs(states, steps, i, w, RequestDbLoadMessage, r)
    ensures var s, t, e := states[i], states[i + 1], states[i].running[w];
            var j := LoadJob(e.(cursor := e.cursor + 1), r, CursorIn(e.request));
            HandedOver(s, t, w) && t.jobs == s.jobs + [j] && t.log.posted == s.log.posted + [j]
  {
    hide Run, OnCourse, Bound;
    RunsAct(states, steps, n, i, w, RequestDbLoadMessage, r);
  }

  /** The message is handed to the database with its room, its sender's id, or zero, and its text. */
  lemma SaveOutcome(states: seq<State>, steps: seq<Step>, n: nat, i: nat, w: WorkerId, r: RoomId)
    requires Run(states, steps, n) && Runs(states, steps, i, w, SaveMessage, r)
    ensures var s, t, e := states[i], states[i + 1], states[i].running[w];
            var j := SaveJob(r, if e.fd in s.users then s.users[e.fd].id else 0, e.request, e.mark);
            t.jobs == s.jobs + [j] && t.log.posted == s.log.posted + [j] && t.rooms == s.rooms && t.users == s.users
            && w in t.running && t.running[w] == e.(cursor := e.cursor + 1) && t.packed == s.packed
  {
    hide Run;
    RunsAct(states, steps, n, i, w, SaveMessage, r);
    SaveGoesOn(states[i], w);
    hide OnCourse, Bound;
  }

  lemma SaveGoesOn(s: State, w: WorkerId)
    requires Moving(s, w) && Executes(s, w) && ActionAt(s, w).command.SaveMessage?
    ensures s.running[w].result == Success
  {
    Requests.SaveSucceeds(s, w);
  }

  /** The answer is the event's command, result and body, on its session. */
  lemma RespondOutcome(states: seq<State>, steps: seq<Step>, n: nat, i: nat, w: WorkerId, r: RoomId)
    requires Run(states, steps, n) && Runs(states, steps, i, w, SendResponse, r)
    ensures var s, t, e := states[i], states[i + 1], states[i].running[w];
            && w !in t.running && Packed(t, e.fd) == Packed(s, e.fd) + [Response(e.initial, e.result, e.response)]
            && t.rooms == s.rooms && t.users == s.users && t.bindings == s.bindings
            && (forall d | d != e.fd :: Packed(t, d) == Packed(s, d))
  {
    hide Run, OnCourse, Bound;
    RunsAct(states, steps, n, i, w, SendResponse, r);
  }

  /**
    DISCONNECT: the session is taken out of the room named if it is a member there, otherwise out of a room of this
    worker that has it, if one has; nothing is answered.
   */
  lemma DisconnectOutcome(states: seq<State>, steps: seq<Step>, n: nat, i: nat, w: WorkerId, r: RoomId)
    requires Run(states, steps, n) && Runs(states, steps, i, w, DisconnectSession, r)
    ensures var s, t, fd := states[i], states[i + 1], states[i].running[w].fd;
            var there := Key(w, states[i].running[w].target);
            && w !in t.running && t.users == s.users && t.packed == s.packed
            && if there in s.rooms && fd in s.rooms[there].members then Departed(s, t, there, fd)
               else if exists k :: k in s.rooms && k.worker == w && fd in s.rooms[k].members then
                 exists k :: k in s.rooms && k.worker == w && fd in s.rooms[k].members && Departed(s, t, k, fd)
               else t.rooms == s.rooms && t.bindings == s.bindings
  {
    hide Run, OnCourse, Bound;
    RunsAct(states, steps, n, i, w, DisconnectSession, r);
    assert Enabled(states[i], steps[i]) by { RunEnabled(states, steps, n, i); }
    var s, e := states[i], states[i].running[w];
    DisconnectIs(Release(s, w), w, e.fd, e.target, steps[i].found);
    hide DisconnectAt;
  }

  lemma RunEnabled(states: seq<State>, steps: seq<Step>, n: nat, i: nat)
    requires Run(states, steps, n) && i < |steps|
    ensures Enabled(states[i], steps[i])
  {
    assert Next(states[i], steps[i], states[i + 1]);
  }

  lemma DisconnectIs(s: State, w: WorkerId, fd: Fd, room: RoomId, found: RoomId)
    requires FoundOk(s, w, fd, found)
    ensures var t, there := DisconnectAt(s, w, fd, room, found), Key(w, room);
            && t.users == s.users && t.packed == s.packed && t.running == s.running
            && if there in s.rooms && fd in s.rooms[there].members then Departed(s, t, there, fd)
               else if exists k :: k in s.rooms && k.worker == w && fd in s.rooms[k].members then
                 exists k :: k in s.rooms && k.worker == w && fd in s.rooms[k].members && Departed(s, t, k, fd)
               else t.rooms == s.rooms && t.bindings == s.bindings
  {
    LeaveAtIs(s, w, fd, room);
    LeaveAtIs(s, w, fd, found);
    hide LeaveRoomAt, Departed;
    if LeaveRoomCode(s, w, fd, room) == Success {
    } else if exists k :: k in s.rooms && k.worker == w && fd in s.rooms[k].members {
      assert Departed(s, DisconnectAt(s, w, fd, room, found), Key(w, found), fd);
    } else {
      assert Key(w, found) in s.rooms ==> fd !in s.rooms[Key(w, found)].members;
    }
  }

  lemma LeaveAtIs(s: State, w: WorkerId, fd: Fd, r: RoomId)
    ensures var t, k := LeaveRoomAt(s, w, fd, r), Key(w, r);
            && t.users == s.users && t.packed == s.packed && t.running == s.running
            && if k in s.rooms && fd in s.rooms[k].members then Departed(s, t, k, fd)
               else t.rooms == s.rooms && t.bindings == s.bindings
  {
    if LeaveRoomCode(s, w, fd, r) == Success {} else {}
  }

  // ---- what the database does ----

  /** At step `i` the database finishes job `j` with `o`. */
  ghost predicate Finishes(states: seq<State>, steps: seq<Step>, i: nat, j: Job, o: DbOutcome) {
    i < |steps| && i < |states| && steps[i] == Query(o) && states[i].jobs != [] && states[i].jobs[0] == j
  }

  /** The event comes to the end of the worker's queue, with this code reported and this body. */
  predicate ComesBack(s: State, t: State, w: WorkerId, e: Event, c: Code, body: seq<byte>) {
    && |Queue(t, w)| == |Queue(s, w)| + 1 && Queue(s, w) <= Queue(t, w)
    && var e' := Queue(t, w)[|Queue(s, w)|];
       && e'.fd == e.fd && e'.origin == e.origin && e'.initial == e.initial && e'.request == e.request
       && e'.cursor == e.cursor && e'.actions == e.actions && e'.response == body && e'.result == c
       && e'.outcomes == e.outcomes + [c]
  }

  lemma FinishIs(states: seq<State>, steps: seq<Step>, n: nat, i: nat, j: Job, o: DbOutcome)
    requires Run(states, steps, n) && Finishes(states, steps, i, j, o)
    ensures i + 1 < |states| && states[i + 1] == FinishJob(states[i], o) && OutcomeOk(states[i], j, o)
            && Bound(states[i])
    ensures !j.SaveJob? ==> OnCourse(states[i].log.home, Flight(JobPlace(j), j.event))
  {
    hide FinishJob, OutcomeOk, Init, Own, OnCourse, Bound;
    RunOwns(states, steps, n, i);
    OwnBound(states[i]);
    assert Next(states[i], steps[i], states[i + 1]);
    if !j.SaveJob? {
      HeadIsIn(states[i]);
      OwnFlight(states[i], Flight(JobPlace(j), j.event));
    }
  }

  /**
    A history load goes back to the worker of the room it was for, with the code of the failure and no new body if it
    failed; if the room is gone so is the request.
   */
  lemma LoadedOutcome(states: seq<State>, steps: seq<Step>, n: nat, i: nat, e: Event, r: RoomId, before: int64,
                      o: DbOutcome)
    requires Run(states, steps, n) && Finishes(states, steps, i, LoadJob(e, r, before), o)
    ensures var s, t := states[i], states[i + 1];
            && t.jobs == s.jobs[1..] && t.packed == s.packed && t.store == s.store
            && (r in s.bindings && o.NotLoaded? ==> ComesBack(s, t, s.bindings[r], e, o.code, e.response))
            && (r in s.bindings && o.Loaded? ==> exists body :: ComesBack(s, t, s.bindings[r], e, Success, body))
            && (r !in s.bindings ==> t.queues == s.queues && |t.log.dropped| == |s.log.dropped| + 1
                                     && t.log.dropped[|s.log.dropped|].origin == e.origin)
  {
    hide Run, FinishJob, MessageList.Serialized, Page;
    FinishIs(states, steps, n, i, LoadJob(e, r, before), o);
    RouteBack(states[i], e, r, before, o);
  }

  lemma RouteBack(s: State, e: Event, r: RoomId, before: int64, o: DbOutcome)
    requires Bound(s) && OnCourse(s.log.home, Flight(AwaitsHistory(r, before), e))
    requires s.jobs != [] && s.jobs[0] == LoadJob(e, r, before)
    requires o.Loaded? || (o.NotLoaded? && Failed(o.code))
    ensures var t := FinishJob(s, o);
            && t.jobs == s.jobs[1..] && t.packed == s.packed && t.store == s.store
            && (r in s.bindings && o.NotLoaded? ==> ComesBack(s, t, s.bindings[r], e, o.code, e.response))
            && (r in s.bindings && o.Loaded? ==> exists body :: ComesBack(s, t, s.bindings[r], e, Success, body))
            && (r !in s.bindings ==> t.queues == s.queues && |t.log.dropped| == |s.log.dropped| + 1
                                     && t.log.dropped[|s.log.dropped|].origin == e.origin)
  {
    LastIs(s.log.home, e, r, before);
    var e', t := LoadResult(s, e, r, before, o), s.(jobs := s.jobs[1..]);
    LoadIs(s, e, r, before, o);
    RouteIs(t, e');
    assert Bound(s) ==> forall x | x in s.bindings :: s.bindings[x] != 0;
    hide OnCourse, Bound, LoadResult, Route, ComesBack;
    if r in s.bindings {
      PostsBack(t, s.bindings[r], e, e'.(hops := e'.hops + 1), e'.result, e'.response);
      SameQueues(s, t, FinishJob(s, o), s.bindings[r], e, e'.result, e'.response);
    }
  }

  lemma RouteIs(s: State, e: Event)
    ensures var t := Route(s, e);
            && t.jobs == s.jobs && t.packed == s.packed && t.store == s.store
            && (e.target in s.bindings && s.bindings[e.target] != 0
                ==> t == Post(s, s.bindings[e.target], e.(hops := e.hops + 1)))
            && (e.target !in s.bindings && e.origin.Request? ==>
                  t.queues == s.queues && t.log.dropped == s.log.dropped + [e])
  {
    if FindWorker(s, e.target) == 0 { if e.origin.Request? {} else {} } else {}
  }

  lemma LoadIs(s: State, e: Event, r: RoomId, before: int64, o: DbOutcome)
    requires LastRoom(e) == r && (o.NotLoaded? ==> Failed(o.code))
    ensures var e' := LoadResult(s, e, r, before, o);
            && e'.fd == e.fd && e'.origin == e.origin && e'.initial == e.initial && e'.request == e.request
            && e'.cursor == e.cursor && e'.actions == e.actions && e'.target == r
            && e'.result == (if o.NotLoaded? then o.code else Success) && e'.outcomes == e.outcomes + [e'.result]
            && (o.NotLoaded? ==> e'.response == e.response)
  {
    hide MessageList.Serialized, Page;
  }

  lemma LastIs(home: map<RoomId, WorkerId>, e: Event, r: RoomId, before: int64)
    requires OnCourse(home, Flight(AwaitsHistory(r, before), e))
    ensures LastRoom(e) == r && e.origin.Request?
  {
    hide CursorOf;
    match e.plan
    case PlanJoin(_) =>
    case PlanLoad(_) =>
  }

  lemma PostsBack(s: State, w: WorkerId, e: Event, e': Event, c: Code, body: seq<byte>)
    requires e'.fd == e.fd && e'.origin == e.origin && e'.initial == e.initial && e'.request == e.request
             && e'.cursor == e.cursor && e'.actions == e.actions && e'.response == body && e'.result == c
             && e'.outcomes == e.outcomes + [c]
    ensures ComesBack(s, Post(s, w, e'), w, e, c, body)
  {}

  lemma SameQueues(s: State, s': State, t: State, w: WorkerId, e: Event, c: Code, body: seq<byte>)
    requires s'.queues == s.queues && ComesBack(s', t, w, e, c, body)
    ensures ComesBack(s, t, w, e, c, body)
  {}

  /**
    A create goes on with the id the database issued: the room is bound to the worker chosen, the id is the body and
    takes the place of the room in the recipe. If the insert failed the event comes back to the lobby with that error.
   */
  lemma IssuedOutcome(states: seq<State>, steps: seq<Step>, n: nat, i: nat, e: Event, o: DbOutcome)
    requires Run(states, steps, n) && Finishes(states, steps, i, CreateJob(e), o)
    ensures var s, t := states[i], states[i + 1];
            && t.rooms == s.rooms && t.packed == s.packed
            && if o.Created? then
                 && o.id !in s.bindings && t.bindings == s.bindings[o.id := o.worker] && t.queues == s.queues
                 && |t.jobs| == |s.jobs| && t.jobs[1..] == s.jobs[1..] && t.jobs[0].HandJob?
                    && t.jobs[0].worker == o.worker
                 && var e' := t.jobs[0].event;
                    && e'.fd == e.fd && e'.origin == e.origin && e'.initial == e.initial && e'.cursor == 1
                    && e'.result == Success && e'.outcomes == e.outcomes + [Success] && e'.response == I64Bytes(o.id)
                    && e'.actions == [Action(RequestDbCreateRoom, 1), Action(CreateRoom, o.id), Action(JoinRoom, o.id),
                                      Action(RequestLeaveRoom, 1), Action(LeaveRoom, 1), Action(SendResponse, 0)]
               else
                 t.bindings == s.bindings && t.jobs == s.jobs[1..] && ComesBack(s, t, 1, e, DbError, e.response)
  {
    hide Run, FinishJob, Resolved, OnCourse, ComesBack;
    FinishIs(states, steps, n, i, CreateJob(e), o);
    CreateIssues(states[i], e, o);
    if o.Created? { ResolvedIs(states[i].log.home, e, o.id); }
  }

  lemma ResolvedIs(home: map<RoomId, WorkerId>, e: Event, id: RoomId)
    requires OnCourse(home, Flight(AwaitsRoom, e))
    ensures var e' := Resolved(e, id);
            && e'.fd == e.fd && e'.origin == e.origin && e'.initial == e.initial && e'.cursor == 1
            && e'.result == Success && e'.outcomes == e.outcomes + [Success] && e'.response == I64Bytes(id)
            && e'.actions == [Action(RequestDbCreateRoom, 1), Action(CreateRoom, id), Action(JoinRoom, id),
                              Action(RequestLeaveRoom, 1), Action(LeaveRoom, 1), Action(SendResponse, 0)]
  {
    ResolveCreate(id);
    hide Resolve;
  }

  lemma CreateIssues(s: State, e: Event, o: DbOutcome)
    requires s.jobs != [] && s.jobs[0] == CreateJob(e)
    ensures o.Created? ==>
              var t := FinishJob(s, o);
              && t.jobs == [HandJob(Resolved(e, o.id), o.worker)] + s.jobs[1..] && t.rooms == s.rooms
                 && t.packed == s.packed
              && t.queues == s.queues && t.bindings == Bind(s, o.id, o.worker).bindings
    ensures !o.Created? ==>
              var t := FinishJob(s, o);
              && t.jobs == s.jobs[1..] && t.rooms == s.rooms && t.packed == s.packed && t.bindings == s.bindings
              && ComesBack(s, t, 1, e, DbError, e.response)
  {
    hide Resolved;
    if o.Created? {} else {}
  }

  /** The second half of the create callback: the event comes to the worker that the room is bound to. */
  lemma HandedOutcome(states: seq<State>, steps: seq<Step>, n: nat, i: nat, e: Event, w: WorkerId, o: DbOutcome)
    requires Run(states, steps, n) && Finishes(states, steps, i, HandJob(e, w), o)
    ensures var s, t := states[i], states[i + 1];
            && t == s.(jobs := t.jobs, queues := t.queues) && t.jobs == s.jobs[1..]
            && t.queues == s.queues[w := Queue(s, w) + [e.(hops := e.hops + 1)]]
            && e.plan.PlanCreate? && e.plan.room in s.log.home && s.log.home[e.plan.room] == w
  {
    hide Run;
    FinishIs(states, steps, n, i, HandJob(e, w), o);
  }

  // ---- what the main thread does ----

  /** An event at the start of this recipe comes to the end of the worker's queue, and to no other. */
  predicate Sends(s: State, t: State, w: WorkerId, fd: Fd, actions: seq<Action>, target: RoomId) {
    && t.queues == s.queues[w := Queue(t, w)] && |Queue(t, w)| == |Queue(s, w)| + 1 && Queue(s, w) <= Queue(t, w)
    && var e := Queue(t, w)[|Queue(s, w)|]; e.fd == fd && e.cursor == 0 && e.actions == actions && e.target == target
  }

  lemma StepIs(states: seq<State>, steps: seq<Step>, n: nat, i: nat)
    requires Run(states, steps, n) && i < |steps|
    ensures i + 1 < |states| && Enabled(states[i], steps[i]) && states[i + 1] == Apply(states[i], steps[i])
    ensures forall r | r in states[i].bindings :: states[i].bindings[r] != 0
    ensures 1 in states[i].bindings
  {
    hide Init, Own, Enabled, Apply;
    RunOwns(states, steps, n, i);
    OwnBound(states[i]);
    assert Next(states[i], steps[i], states[i + 1]);
  }

  /** An accepted client is a user in the lobby, room 1, and the lobby's worker is told to let it in. */
  lemma AcceptOutcome(states: seq<State>, steps: seq<Step>, n: nat, i: nat, fd: Fd, id: int64, garbage: Command)
    requires Run(states, steps, n) && i < |steps| && steps[i] == Accept(fd, id, garbage)
    ensures var s, t := states[i], states[i + 1];
            && fd !in s.users && t.users == s.users[fd := User(id, 1)] && t.rooms == s.rooms && t.bindings == s.bindings
            && Sends(s, t, 1, fd, [Action(JoinRoom, 1)], 1)
  {
    hide Run;
    StepIs(states, steps, n, i);
  }

  /**
    A request goes to the worker that its room is bound to, a create or a leave to the lobby's; if the room is not
    bound,
    a refusal goes to the lobby's worker instead.
   */
  lemma DispatchOutcome(states: seq<State>, steps: seq<Step>, n: nat, i: nat, fd: Fd, cmd: Command, room: RoomId,
                        body: sized)
    requires Run(states, steps, n) && i < |steps| && steps[i] == Ask(fd, cmd, room, body)
    ensures var s, t := states[i], states[i + 1];
            var r := if cmd.CmdCreateRoom? || cmd.CmdLeaveRoom? then 1 else room;
            var w := if r in s.bindings then s.bindings[r] else 1;
            && t == s.(queues := t.queues, log := s.log.(issued := s.log.issued + 1))
            && t.queues == s.queues[w := Queue(t, w)] && |Queue(t, w)| == |Queue(s, w)| + 1
               && Queue(s, w) <= Queue(t, w)
            && var e := Queue(t, w)[|Queue(s, w)|];
               && e.fd == fd && e.initial == cmd && e.cursor == 0 && e.origin == Request(s.log.issued)
               && if r in s.bindings then e.result == None && e.request == body
                  else e.result == RoomNotFound && e.actions == [Action(SendResponse, 0)]
  {
    hide Run, Actions;
    StepIs(states, steps, n, i);
    assert Actions(PlanReject) == [Action(SendResponse, 0)] by { Rejection(); }
  }

  lemma Rejection()
    ensures Actions(PlanReject) == [Action(SendResponse, 0)]
  {}

  /**
    The timer and the send event ask the worker of the user's current room to flush the session; nothing else
    changes.
   */
  lemma FlushOutcome(states: seq<State>, steps: seq<Step>, n: nat, i: nat, fd: Fd, garbage: Command)
    requires Run(states, steps, n) && i < |steps| && steps[i] == Tick(fd, garbage)
    ensures var s, t := states[i], states[i + 1];
            && t == s.(queues := t.queues)
            && if fd in s.users && s.users[fd].room in s.bindings then
                 Sends(s, t, s.bindings[s.users[fd].room], fd, [Action(Flush, 0)], s.users[fd].room)
               else t == s
  {
    hide Run;
    StepIs(states, steps, n, i);
  }

  /** A closed client is no user any more, and the worker of its current room and that of the lobby take it out. */
  lemma CloseOutcome(states: seq<State>, steps: seq<Step>, n: nat, i: nat, fd: Fd, garbage: Command)
    requires Run(states, steps, n) && i < |steps| && steps[i] == Close(fd, garbage)
    ensures var s, t := states[i], states[i + 1];
            var room := s.users[fd].room;
            && fd in s.users && t == s.(queues := t.queues, users := s.users - {fd}) && 1 in s.bindings
            && exists u: State ::
                 && (if room in s.bindings
                     then Sends(s, u, s.bindings[room], fd, [Action(DisconnectSession, room)], room)
                     else u.queues == s.queues)
                 && (if room != 1 then Sends(u, t, s.bindings[1], fd, [Action(DisconnectSession, 1)], 1)
                     else t.queues == u.queues)
  {
    hide Run, Unused, Route, Sends;
    StepIs(states, steps, n, i);
    var s := states[i];
    var room := s.users[fd].room;
    var e := DepartEvent(fd, room, garbage);
    DepartSends(s, fd, room, garbage);
    DepartSends(Route(s, e), fd, LOBBY_ROOM_ID, garbage);
    var u := Route(s, e);
    var v := if room != LOBBY_ROOM_ID then Route(u, DepartEvent(fd, LOBBY_ROOM_ID, garbage)) else u;
    assert room != 1 ==> Sends(u, states[i + 1], s.bindings[1], fd, [Action(DisconnectSession, 1)], 1) by {
      SendsOn(u, v, states[i + 1], s.bindings[1], fd, [Action(DisconnectSession, 1)], 1);
    }
  }

  lemma SendsOn(s: State, u: State, t: State, w: WorkerId, fd: Fd, actions: seq<Action>, target: RoomId)
    requires t.queues == u.queues
    ensures Sends(s, u, w, fd, actions, target) ==> Sends(s, t, w, fd, actions, target)
  {}

  lemma DepartSends(s: State, fd: Fd, room: RoomId, garbage: Command)
    requires forall r | r in s.bindings :: s.bindings[r] != 0
    ensures var t := Route(s, DepartEvent(fd, room, garbage));
            && t == s.(queues := t.queues)
            && if room in s.bindings then Sends(s, t, s.bindings[room], fd, [Action(DisconnectSession, room)], room)
               else t.queues == s.queues
  {
    hide Actions;
    var e := DepartEvent(fd, room, garbage);
    DepartActions(room);
    if room in s.bindings { PostSends(s, s.bindings[room], e.(hops := e.hops + 1)); }
    hide Sends;
  }

  lemma DepartActions(room: RoomId)
    ensures Actions(PlanDepart(room)) == [Action(DisconnectSession, room)]
  {}

  lemma PostSends(s: State, w: WorkerId, e: Event)
    requires e.cursor == 0
    ensures Sends(s, Post(s, w, e), w, e.fd, e.actions, e.target)
  {}
}
