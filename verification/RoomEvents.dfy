/**
  Room events: the recipe of actions a request is compiled into (server/src/event/RoomEvent.h)
  and the planners that write the recipes (server/src/room/RoomManager.cpp).
 */
module RoomEvents {
  import opened Bytes

  datatype Option<T> = Nothing | Some(value: T)

  type RoomId = int64
  type Fd = int
  type WorkerId = nat

  const LOBBY_ROOM_ID: RoomId := 1
  const LOBBY_WORKER_ID: WorkerId := 1
  const PENDING_ROOM_ID: RoomId := INT64_MAX
  const MAX_ACTIONS: nat := 10

  /** The command byte of a request; `CmdOther` is any byte the server has no case for. */
  datatype Command =
    | CmdCreateRoom | CmdJoinRoom | CmdLeaveRoom | CmdSendMessage | CmdLoadMessage
    | CmdOther(code: byte)

  datatype Code =
    | None | Success | RoomNotFound | RoomAlreadyExists | RoomFull | UserNotFound
    | DbNotFound | DbError | DbDuplicate

  datatype ActionCommand =
    | CreateRoom | JoinRoom | LeaveRoom | SendMessage
    | RequestDbCreateRoom | RequestDbLoadMessage | SaveMessage
    | RequestJoinRoom | RequestLeaveRoom
    | SendResponse | Flush | DisconnectSession

  datatype Action = Action(command: ActionCommand, room: RoomId)

  /** Where an event came from. A request carries the number it was dispatched under. */
  datatype Origin = Request(tag: nat) | Arrival | FlushTick | Departure

  /** The recipe an event was built from; a label, never read by the server. */
  datatype Plan =
    | PlanCreate(room: RoomId) | PlanJoin(room: RoomId) | PlanLeave(room: RoomId)
    | PlanSend(room: RoomId) | PlanLoad(room: RoomId)
    | PlanReject | PlanIgnore | PlanArrive | PlanFlush | PlanDepart(room: RoomId)

  /**
    An event. `outcomes`, `hops`, `mark`, `origin` and `plan` are labels for the proofs: the codes of the steps
    finished so far, the number of times the event changed hands, the length of the message log at its last
    JOIN or SEND, its provenance and its recipe.
   */
  datatype Event = Event(
    actions: seq<Action>, cursor: nat, target: RoomId, initial: Command, fd: Fd,
    request: seq<byte>, response: seq<byte>, result: Code,
    origin: Origin, plan: Plan, outcomes: seq<Code>, hops: nat, mark: nat)

  predicate Failed(c: Code) {
    c != Success && c != None
  }

  function Actions(p: Plan): seq<Action> {
    match p
    case PlanCreate(r) =>
      [Action(RequestDbCreateRoom, LOBBY_ROOM_ID), Action(CreateRoom, r), Action(JoinRoom, r),
       Action(RequestLeaveRoom, LOBBY_ROOM_ID), Action(LeaveRoom, LOBBY_ROOM_ID), Action(SendResponse, 0)]
    case PlanJoin(r) =>
      [Action(JoinRoom, r), Action(RequestLeaveRoom, LOBBY_ROOM_ID), Action(LeaveRoom, LOBBY_ROOM_ID),
       Action(RequestDbLoadMessage, r), Action(SendResponse, 0)]
    case PlanLeave(r) =>
      [Action(JoinRoom, LOBBY_ROOM_ID), Action(RequestLeaveRoom, r), Action(LeaveRoom, r), Action(SendResponse, 0)]
    case PlanSend(r) =>
      [Action(SendMessage, r), Action(SaveMessage, r), Action(SendResponse, 0)]
    case PlanLoad(r) =>
      [Action(RequestDbLoadMessage, r), Action(SendResponse, 0)]
    case PlanReject => [Action(SendResponse, 0)]
    case PlanIgnore => []
    case PlanArrive => [Action(JoinRoom, LOBBY_ROOM_ID)]
    case PlanFlush => [Action(Flush, 0)]
    case PlanDepart(r) => [Action(DisconnectSession, r)]
  }

  /** The recipe of a request for `room`. */
  function PlanOf(cmd: Command, room: RoomId): Plan {
    match cmd
    case CmdCreateRoom => PlanCreate(PENDING_ROOM_ID)
    case CmdJoinRoom => PlanJoin(room)
    case CmdLeaveRoom => PlanLeave(room)
    case CmdSendMessage => PlanSend(room)
    case CmdLoadMessage => PlanLoad(room)
    case CmdOther(_) => PlanIgnore
  }

  /** The room whose worker receives the event first. */
  function FirstTarget(cmd: Command, room: RoomId): RoomId {
    if cmd == CmdCreateRoom || cmd == CmdLeaveRoom then LOBBY_ROOM_ID else room
  }

  /** `RoomEvent::resolve_room_id`: the issued id replaces every placeholder. */
  function Resolve(actions: seq<Action>, id: RoomId): (r: seq<Action>)
    ensures |r| == |actions|
  {
    if actions == [] then []
    else
      [if actions[0].room == PENDING_ROOM_ID then actions[0].(room := id) else actions[0]]
      + Resolve(actions[1..], id)
  }

  lemma {:induction false} ResolveAt(actions: seq<Action>, id: RoomId)
    ensures forall i | 0 <= i < |actions| ::
              Resolve(actions, id)[i] ==
              if actions[i].room == PENDING_ROOM_ID then actions[i].(room := id) else actions[i]
  {
    if actions != [] { ResolveAt(actions[1..], id); }
  }

  /** Resolving the create recipe replaces exactly the placeholder of CREATE and JOIN. */
  lemma ResolveCreate(id: RoomId)
    ensures Resolve(Actions(PlanCreate(PENDING_ROOM_ID)), id) == Actions(PlanCreate(id))
  {
    ResolveAt(Actions(PlanCreate(PENDING_ROOM_ID)), id);
  }

  /** Steps that report a code: the store step of a send is not awaited. */
  predicate Reports(a: ActionCommand) {
    a.CreateRoom? || a.JoinRoom? || a.LeaveRoom? || a.SendMessage? || a.RequestDbCreateRoom? || a.RequestDbLoadMessage?
  }

  /** How many of the first `k` actions report a code. */
  function ReportCount(actions: seq<Action>, k: nat): nat
    requires k <= |actions|
  {
    if k == 0 then 0 else ReportCount(actions, k - 1) + if Reports(actions[k - 1].command) then 1 else 0
  }
}
