/**
  The server as a transition system. One step is one iteration of a worker's action loop or of its loop over the
  members of a room (server/src/room/RoomWorker.cpp), one job of the DB thread, one dispatch, accept or close of the
  main thread.
  Every worker owns a FIFO of events and the rooms stored under its own key.
 */
module ServerState {
  import opened Bytes
  import opened RoomEvents
  import opened History
  import MessageList

  datatype Key = Key(worker: WorkerId, room: RoomId)
  datatype Room = Room(members: set<Fd>, count: int, max: int)
  datatype User = User(id: int64, room: RoomId)

  datatype Packet =
    | Response(command: Command, status: Code, body: seq<byte>)
    | Broadcast(sender: int64, room: RoomId, text: seq<byte>, serial: nat)

  /** A DB job; `HandJob` is the create callback half way, the room bound and its event not yet posted to the worker. */
  datatype Job =
    | SaveJob(room: RoomId, sender: int64, text: seq<byte>, serial: nat)
    | LoadJob(event: Event, room: RoomId, before: int64)
    | CreateJob(event: Event)
    | HandJob(event: Event, worker: WorkerId)

  /**
    A broadcast on its way through the members of a room: those the worker has not come to yet, and the one it has
    found to be there and not yet sent the packet to.
   */
  datatype Cast = Cast(left: set<Fd>, chosen: Option<Fd>, sender: Fd, room: RoomId, packet: Packet)

  datatype Handled = Handled(room: RoomId, fd: Fd, text: seq<byte>, origin: Origin)

  /**
    History kept for the proofs: requests dispatched, requests answered and discarded, messages broadcast in order,
    every DB job ever posted, how many are done, every binding ever made, for each session the length of `handled`
    at its last JOIN, and the serials whose INSERT failed.
   */
  datatype Log = Log(
    issued: nat, answers: seq<Event>, dropped: seq<Event>, handled: seq<Handled>, posted: seq<Job>,
    home: map<RoomId, WorkerId>, since: map<Fd, nat>, lost: set<nat>)

  datatype State = State(
    n: nat, queues: map<WorkerId, seq<Event>>, running: map<WorkerId, Event>, rooms: map<Key, Room>,
    bindings: map<RoomId, WorkerId>, users: map<Fd, User>, jobs: seq<Job>, store: seq<Row>,
    packed: map<Fd, seq<Packet>>, casts: map<WorkerId, Cast>, log: Log)

  const ROOM_CAPACITY := 5
  const LOBBY_CAPACITY := 999
  const NICK: seq<byte> := [116, 101, 109, 112, 110, 105, 99, 107, 110, 97, 109, 101]

  function Init(n: nat): State {
    State(n, map[], map[], map[Key(LOBBY_WORKER_ID, LOBBY_ROOM_ID) := Room({}, 0, LOBBY_CAPACITY)],
          map[LOBBY_ROOM_ID := LOBBY_WORKER_ID], map[], [], [], map[], map[],
          Log(0, [], [], [], [], map[LOBBY_ROOM_ID := LOBBY_WORKER_ID], map[], {}))
  }

  // ---- moving events ----

  function Queue(s: State, w: WorkerId): seq<Event> {
    if w in s.queues then s.queues[w] else []
  }

  function Packed(s: State, fd: Fd): seq<Packet> {
    if fd in s.packed then s.packed[fd] else []
  }

  function Post(s: State, w: WorkerId, e: Event): State {
    s.(queues := s.queues[w := Queue(s, w) + [e]])
  }

  function Hold(s: State, w: WorkerId, e: Event): State {
    s.(running := s.running[w := e])
  }

  function Release(s: State, w: WorkerId): State {
    s.(running := s.running - {w})
  }

  function Submit(s: State, j: Job): State {
    s.(jobs := s.jobs + [j], log := s.log.(posted := s.log.posted + [j]))
  }

  function Unanswered(l: Log, e: Event): Log {
    if e.origin.Request? then l.(dropped := l.dropped + [e]) else l
  }

  function Answered(l: Log, e: Event): Log {
    if e.origin.Request? then l.(answers := l.answers + [e]) else l
  }

  /** An event that ends without an answer. */
  function Discard(s: State, e: Event): State {
    s.(log := Unanswered(s.log, e))
  }

  function PackedWith(packed: map<Fd, seq<Packet>>, fds: set<Fd>, p: Packet): map<Fd, seq<Packet>> {
    map fd | fd in packed.Keys + fds ::
      (if fd in packed then packed[fd] else []) + (if fd in fds then [p] else [])
  }

  function ResponseTo(e: Event): Packet {
    Response(e.initial, e.result, e.response)
  }

  /** `send_response`: the request is answered and the event is gone. */
  function Respond(s: State, e: Event): State {
    s.(packed := PackedWith(s.packed, {e.fd}, ResponseTo(e)), log := Answered(s.log, e))
  }

  function FindWorker(s: State, room: RoomId): WorkerId {
    if room in s.bindings then s.bindings[room] else 0
  }

  /** `route_event` without a given worker, its result ignored: an unbound room ends the event. */
  function Route(s: State, e: Event): State {
    var w := FindWorker(s, e.target);
    if w == 0 then Discard(s, e) else Post(s, w, e.(hops := e.hops + 1))
  }

  // ---- room operations of a worker ----

  function CreateRoomCode(s: State, w: WorkerId, room: RoomId): Code {
    if Key(w, room) in s.rooms then RoomAlreadyExists else Success
  }

  function CreateRoomAt(s: State, w: WorkerId, room: RoomId): State {
    s.(rooms := if CreateRoomCode(s, w, room) == Success then s.rooms[Key(w, room) := Room({}, 0, ROOM_CAPACITY)]
       else s.rooms)
  }

  function JoinSession(r: Room, fd: Fd): Room {
    r.(members := r.members + {fd}, count := r.count + 1)
  }

  function ExitSession(r: Room, fd: Fd): Room {
    r.(members := r.members - {fd}, count := r.count - 1)
  }

  /** The user is looked up only after the session has entered the room. */
  function JoinRoomCode(s: State, w: WorkerId, fd: Fd, room: RoomId): Code {
    if Key(w, room) !in s.rooms then RoomNotFound
    else if s.rooms[Key(w, room)].count >= s.rooms[Key(w, room)].max then RoomFull
    else if fd !in s.users then UserNotFound
    else Success
  }

  function JoinRoomAt(s: State, w: WorkerId, fd: Fd, room: RoomId): State {
    var k, c := Key(w, room), JoinRoomCode(s, w, fd, room);
    s.(rooms := if c == Success || c == UserNotFound then s.rooms[k := JoinSession(s.rooms[k], fd)] else s.rooms,
       users := if c == Success then s.users[fd := s.users[fd].(room := room)] else s.users,
       log := if c == Success then s.log.(since := s.log.since[fd := |s.log.handled|]) else s.log)
  }

  function LeaveRoomCode(s: State, w: WorkerId, fd: Fd, room: RoomId): Code {
    if Key(w, room) !in s.rooms then RoomNotFound
    else if fd !in s.rooms[Key(w, room)].members then UserNotFound
    else Success
  }

  /** The room goes, with its binding, when its counter reaches zero, unless it is the lobby worker's. */
  predicate Empties(s: State, w: WorkerId, room: RoomId)
    requires Key(w, room) in s.rooms
  {
    s.rooms[Key(w, room)].count - 1 <= 0 && w != LOBBY_WORKER_ID
  }

  function LeaveRoomAt(s: State, w: WorkerId, fd: Fd, room: RoomId): State {
    var k := Key(w, room);
    if LeaveRoomCode(s, w, fd, room) != Success then s
    else
      s.(bindings := if Empties(s, w, room) then s.bindings - {room} else s.bindings,
         rooms := if Empties(s, w, room) then s.rooms - {k} else s.rooms[k := ExitSession(s.rooms[k], fd)])
  }

  function UserIdOf(s: State, fd: Fd): int64 {
    if fd in s.users then s.users[fd].id else 0
  }

  function BroadcastCode(s: State, w: WorkerId, room: RoomId): Code {
    if Key(w, room) in s.rooms then Success else RoomNotFound
  }

  function WithCast(casts: map<WorkerId, Cast>, w: WorkerId, c: Cast): map<WorkerId, Cast> {
    if c.left == {} && c.chosen.Nothing? then casts - {w} else casts[w := c]
  }

  /** The start of `send_message`: the packet is made and the loop over the members begins. */
  function BroadcastAt(s: State, w: WorkerId, fd: Fd, room: RoomId, text: seq<byte>, origin: Origin): State {
    var k := Key(w, room);
    if BroadcastCode(s, w, room) != Success then s
    else
      s.(casts := WithCast(s.casts, w,
                           Cast(s.rooms[k].members, Nothing, fd, room,
                                Broadcast(UserIdOf(s, fd), room, text, |s.log.handled|))),
         log := s.log.(handled := s.log.handled + [Handled(room, fd, text, origin)]))
  }

  /** Who is told: not the sender, and only while the user's current room is the one the message is for. */
  predicate IsMeant(s: State, c: Cast, fd: Fd) {
    fd != c.sender && fd in s.users && s.users[fd].room == c.room
  }

  /** One iteration of the loop over the members, up to the test: the worker looks where the member is. */
  function LookAt(s: State, w: WorkerId, fd: Fd): State
    requires w in s.casts
  {
    var c := s.casts[w];
    s.(casts := WithCast(s.casts, w,
                         c.(left := c.left - {fd}, chosen := if IsMeant(s, c, fd) then Some(fd) else Nothing)))
  }

  /** The rest of the iteration: the packet goes to the member found, wherever that member is by now. */
  function GiveTo(s: State, w: WorkerId): State
    requires w in s.casts && s.casts[w].chosen.Some?
  {
    var c := s.casts[w];
    s.(packed := PackedWith(s.packed, {c.chosen.value}, c.packet), casts := WithCast(s.casts, w, c.(chosen := Nothing)))
  }

  /**
    `diconnect_session`: the named room first, otherwise the first room of this worker (`found`) that has the
    session.
   */
  function DisconnectAt(s: State, w: WorkerId, fd: Fd, room: RoomId, found: RoomId): State {
    if LeaveRoomCode(s, w, fd, room) == Success then LeaveRoomAt(s, w, fd, room)
    else LeaveRoomAt(s, w, fd, found)
  }

  // ---- one iteration of the action loop ----

  function Report(e: Event, c: Code): Event {
    e.(result := c, outcomes := e.outcomes + [c])
  }

  /** The undo step for a failed create: guarded by the first action of the recipe being CREATE_ROOM. */
  function CleanUp(s: State, e: Event): State {
    s.(bindings := if e.actions != [] && e.actions[0].command == CreateRoom then s.bindings - {e.target}
       else s.bindings)
  }

  /** After an action that reports: go on, or answer with the failure. */
  function Settle(s: State, w: WorkerId, e: Event, c: Code): State {
    if c == Success then Hold(s, w, Report(e, c))
    else Respond(Release(CleanUp(s, e), w), Report(e, c))
  }

  /** The actions that run on the worker and report a code. */
  predicate Local(a: ActionCommand) {
    a.CreateRoom? || a.JoinRoom? || a.LeaveRoom? || a.SendMessage?
  }

  function CodeAt(s: State, w: WorkerId, e: Event, a: Action): Code
    requires Local(a.command)
  {
    match a.command
    case CreateRoom => CreateRoomCode(s, w, a.room)
    case JoinRoom => JoinRoomCode(s, w, e.fd, a.room)
    case LeaveRoom => LeaveRoomCode(s, w, e.fd, a.room)
    case SendMessage => BroadcastCode(s, w, a.room)
  }

  function Effect(s: State, w: WorkerId, e: Event, a: Action): State
    requires Local(a.command)
  {
    match a.command
    case CreateRoom => CreateRoomAt(s, w, a.room)
    case JoinRoom => JoinRoomAt(s, w, e.fd, a.room)
    case LeaveRoom => LeaveRoomAt(s, w, e.fd, a.room)
    case SendMessage => BroadcastAt(s, w, e.fd, a.room, e.request, e.origin)
  }

  /** A JOIN or SEND notes the length of the message log. */
  function Marked(s: State, e: Event, a: Action): Event {
    e.(mark := if a.command.JoinRoom? || a.command.SendMessage? then |s.log.handled| else e.mark)
  }

  function Execute(s: State, w: WorkerId, e: Event, a: Action, found: RoomId): State {
    match a.command
    case RequestDbCreateRoom => Submit(Release(s, w), CreateJob(e))
    case RequestJoinRoom => Route(Release(s, w), e.(target := a.room))
    case RequestLeaveRoom => Route(Release(s, w), e.(target := a.room))
    case RequestDbLoadMessage => Submit(Release(s, w), LoadJob(e, a.room, CursorOf(e.request)))
    case SaveMessage =>
      var t := Submit(s, SaveJob(a.room, UserIdOf(s, e.fd), e.request, e.mark));
      if e.result == Success then Hold(t, w, e) else Respond(Release(t, w), e)
    case SendResponse => Respond(Release(s, w), e)
    case Flush => Release(s, w)
    case DisconnectSession => DisconnectAt(Release(s, w), w, e.fd, e.target, found)
    case _ => Settle(Effect(s, w, e, a), w, Marked(s, e, a), CodeAt(s, w, e, a))
  }

  function Act(s: State, w: WorkerId, found: RoomId): State
    requires w in s.running
  {
    var e := s.running[w];
    if e.cursor >= |e.actions| then Discard(Release(s, w), e)
    else if Failed(e.result) then Respond(Release(s, w), e)
    else Execute(s, w, e.(cursor := e.cursor + 1), e.actions[e.cursor], found)
  }

  // ---- the other threads ----

  function ArrivalEvent(fd: Fd, garbage: Command): Event {
    Event(Actions(PlanArrive), 0, LOBBY_ROOM_ID, garbage, fd, [], [], None, Arrival, PlanArrive, [], 0, 0)
  }

  /** `accept_client`; the command field of the event is never initialised, so it is arbitrary. */
  function AcceptClient(s: State, fd: Fd, id: int64, garbage: Command): State {
    Post(s.(users := s.users[fd := User(id, LOBBY_ROOM_ID)]), LOBBY_WORKER_ID, ArrivalEvent(fd, garbage))
  }

  function RequestEvent(fd: Fd, cmd: Command, room: RoomId, body: seq<byte>, tag: nat): Event {
    Event(Actions(PlanOf(cmd, room)), 0, FirstTarget(cmd, room), cmd, fd, body, [], None,
          Request(tag), PlanOf(cmd, room), [], 0, 0)
  }

  function RejectEvent(fd: Fd, cmd: Command, tag: nat): Event {
    Event(Actions(PlanReject), 0, LOBBY_ROOM_ID, cmd, fd, [], [], RoomNotFound,
          Request(tag), PlanReject, [RoomNotFound], 0, 0)
  }

  /** `dispatch_packet`: plan, route, and fall back to a rejection by the lobby worker. */
  function Dispatch(s: State, fd: Fd, cmd: Command, room: RoomId, body: seq<byte>): State {
    var tag := s.log.issued;
    var e := RequestEvent(fd, cmd, room, body, tag);
    var t := s.(log := s.log.(issued := tag + 1));
    var w := FindWorker(s, e.target);
    Post(t, if w == 0 then LOBBY_WORKER_ID else w, if w == 0 then RejectEvent(fd, cmd, tag) else e)
  }

  function FlushEvent(fd: Fd, target: RoomId, garbage: Command): Event {
    Event(Actions(PlanFlush), 0, target, garbage, fd, [], [], None, FlushTick, PlanFlush, [], 0, 0)
  }

  function RequestFlush(s: State, fd: Fd, garbage: Command): State {
    if fd in s.users then Route(s, FlushEvent(fd, s.users[fd].room, garbage)) else s
  }

  function DepartEvent(fd: Fd, room: RoomId, garbage: Command): Event {
    Event(Actions(PlanDepart(room)), 0, room, garbage, fd, [], [], None, Departure, PlanDepart(room), [], 0, 0)
  }

  /** `close_session`: disconnect events for the current room and, to be safe, the lobby; then the user is gone. */
  function CloseSession(s: State, fd: Fd, garbage: Command): State
    requires fd in s.users
  {
    var room := s.users[fd].room;
    var t := Route(s, DepartEvent(fd, room, garbage));
    var u := if room != LOBBY_ROOM_ID then Route(t, DepartEvent(fd, LOBBY_ROOM_ID, garbage)) else t;
    u.(users := u.users - {fd})
  }

  function Without(q: seq<Event>, k: nat): seq<Event>
    requires k < |q|
  {
    q[..k] + q[k + 1..]
  }

  /**
    Worker `w` takes an event it was sent. Looking up a worker and posting to it are two operations of the sending
    thread, so events of different threads need not be queued in the order they were routed: any of them may be next,
    but those the main thread sent come in its order (`InTurn`).
   */
  function Take(s: State, w: WorkerId, k: nat): State
    requires k < |Queue(s, w)|
  {
    s.(queues := s.queues[w := Without(Queue(s, w), k)], running := s.running[w := Queue(s, w)[k]])
  }

  /** Sent by the main thread: an accept-time JOIN, a request not yet handed on, a flush or a disconnect. */
  predicate FromMain(e: Event) {
    e.hops == 0 || !e.origin.Request?
  }

  /** No event that the main thread sent is overtaken by a later one of it. */
  predicate InTurn(q: seq<Event>, k: nat)
    requires k < |q|
  {
    FromMain(q[k]) ==> forall j | 0 <= j < k :: !FromMain(q[j])
  }

  /** What the database did with a job, and for a new room which worker the random choice fell on. */
  datatype DbOutcome =
    | Created(id: RoomId, worker: WorkerId) | NotCreated
    | Loaded | NotLoaded(code: Code)
    | Saved(id: int64, epoch: int64) | NotSaved
    | Handed

  function Bind(s: State, room: RoomId, w: WorkerId): State {
    s.(bindings := if room in s.bindings then s.bindings else s.bindings[room := w],
       log := s.log.(home := if room in s.log.home then s.log.home else s.log.home[room := w]))
  }

  /** The create callback: the issued id replaces the placeholder and is the response body. */
  function Resolved(e: Event, id: RoomId): Event {
    Report(e, Success).(actions := Resolve(e.actions, id), target := id, response := I64Bytes(id),
                        plan := PlanCreate(id))
  }

  function LastRoom(e: Event): RoomId {
    if 0 < e.cursor <= |e.actions| then e.actions[e.cursor - 1].room else 0
  }

  /** The load callback: success carries the page, any other status its code and no body. */
  function LoadResult(s: State, e: Event, room: RoomId, before: int64, o: DbOutcome): Event {
    var c := if o.NotLoaded? then o.code else Success;
    Report(e, c).(response := if c == Success then MessageList.Serialized(Page(s.store, room, before)) else e.response,
                  target := LastRoom(e))
  }

  /** The DB thread goes on with `j` before any other job. */
  function Hand(s: State, j: Job): State {
    s.(jobs := [j] + s.jobs)
  }

  /**
    The DB thread finishes the job at the head of its queue and runs the callback; binding a room and posting its
    event are two steps.
   */
  function FinishJob(s: State, o: DbOutcome): State
    requires s.jobs != []
  {
    var t := s.(jobs := s.jobs[1..]);
    match s.jobs[0]
    case SaveJob(room, sender, text, serial) =>
      if o.Saved? then t.(store := t.store
                          + [Row(room, MessageList.Message(o.id, sender, o.epoch, NICK, text), serial)])
      else t.(log := t.log.(lost := t.log.lost + {serial}))
    case CreateJob(e) =>
      if o.Created? then Hand(Bind(t, o.id, o.worker), HandJob(Resolved(e, o.id), o.worker))
      else Post(t, LOBBY_WORKER_ID, Report(e, DbError).(hops := e.hops + 1))
    case HandJob(e, w) => Post(t, w, e.(hops := e.hops + 1))
    case LoadJob(e, room, before) =>
      Route(t, LoadResult(s, e, room, before, o))
  }

  // ---- runs ----

  datatype Step =
    | Accept(fd: Fd, id: int64, garbage: Command)
    | Ask(fd: Fd, cmd: Command, room: RoomId, body: sized)
    | Tick(fd: Fd, garbage: Command)
    | Close(fd: Fd, garbage: Command)
    | Start(w: WorkerId, k: nat)
    | Work(w: WorkerId, found: RoomId)
    | Look(w: WorkerId, fd: Fd)
    | Give(w: WorkerId)
    | Query(outcome: DbOutcome)

  predicate Internal(step: Step) {
    step.Start? || step.Work? || step.Look? || step.Give? || step.Query?
  }

  predicate Mentions(j: Job, fd: Fd) {
    !j.SaveJob? && j.event.fd == fd
  }

  /**
    The event keeps the session object of the descriptor, and so its socket, alive; a disconnect event has only the
    number.
   */
  predicate Keeps(e: Event, fd: Fd) {
    e.fd == fd && !e.plan.PlanDepart?
  }

  /**
    No room, queue, worker or job holds the session object any more, so the system may hand the descriptor out again.
   */
  ghost predicate Unused(s: State, fd: Fd) {
    && fd !in s.users
    && (forall k | k in s.rooms :: fd !in s.rooms[k].members)
    && (forall w, i | w in s.queues && 0 <= i < |s.queues[w]| :: !Keeps(s.queues[w][i], fd))
    && (forall w | w in s.running :: !Keeps(s.running[w], fd))
    && (forall i | 0 <= i < |s.jobs| :: !Mentions(s.jobs[i], fd))
  }

  /** The room a departing session is found in when it is not in the named one. */
  ghost predicate FoundOk(s: State, w: WorkerId, fd: Fd, found: RoomId) {
    (exists k | k in s.rooms :: k.worker == w && fd in s.rooms[k].members)
    ==> Key(w, found) in s.rooms && fd in s.rooms[Key(w, found)].members
  }

  /** What the database and the worker choice may do: fresh room ids, increasing positive message ids. */
  predicate OutcomeOk(s: State, j: Job, o: DbOutcome) {
    match j
    case SaveJob(_, _, _, _) => o.NotSaved? || (o.Saved? && LastId(s.store) < o.id < INT64_MAX)
    case CreateJob(_) =>
      o.NotCreated? || (o.Created? && o.id !in s.log.home && o.id != PENDING_ROOM_ID
                        && LOBBY_WORKER_ID < o.worker <= s.n)
    case HandJob(_, _) => o.Handed?
    case LoadJob(_, _, _) => o.Loaded? || (o.NotLoaded? && Failed(o.code))
  }

  ghost predicate Enabled(s: State, step: Step) {
    match step
    case Accept(fd, id, _) => Unused(s, fd)
    case Ask(fd, _, _, _) => fd in s.users
    case Tick(fd, _) => true
    case Close(fd, _) => fd in s.users
    case Start(w, k) => 1 <= w <= s.n && w !in s.running && k < |Queue(s, w)| && InTurn(Queue(s, w), k)
    case Work(w, found) => w in s.running && w !in s.casts && FoundOk(s, w, s.running[w].fd, found)
    case Look(w, fd) => w in s.casts && s.casts[w].chosen.Nothing? && fd in s.casts[w].left
    case Give(w) => w in s.casts && s.casts[w].chosen.Some?
    case Query(o) => s.jobs != [] && OutcomeOk(s, s.jobs[0], o)
  }

  ghost function Apply(s: State, step: Step): State
    requires Enabled(s, step)
  {
    match step
    case Accept(fd, id, garbage) => AcceptClient(s, fd, id, garbage)
    case Ask(fd, cmd, room, body) => Dispatch(s, fd, cmd, room, body)
    case Tick(fd, garbage) => RequestFlush(s, fd, garbage)
    case Close(fd, garbage) => CloseSession(s, fd, garbage)
    case Start(w, k) => Take(s, w, k)
    case Work(w, found) => Act(s, w, found)
    case Look(w, fd) => LookAt(s, w, fd)
    case Give(w) => GiveTo(s, w)
    case Query(o) => FinishJob(s, o)
  }

  ghost predicate Next(s: State, step: Step, t: State) {
    Enabled(s, step) && t == Apply(s, step)
  }

  /** `states` is a run of `steps` of a server with `n` workers, from its start. */
  ghost predicate Run(states: seq<State>, steps: seq<Step>, n: nat) {
    && n >= 1 && |states| == |steps| + 1 && states[0] == Init(n)
    && forall i {:trigger steps[i]} | 0 <= i < |steps| :: Next(states[i], steps[i], states[i + 1])
  }
}
