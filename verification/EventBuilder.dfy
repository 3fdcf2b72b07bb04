/** Writing the recipe of an event in place (server/src/event/RoomEvent.h, server/src/room/RoomManager.cpp). */
module EventBuilder {
  import opened RoomEvents

  class RoomEvent {
    const actions: array<Action>
    var actionLen: nat
    var target: RoomId

    ghost predicate Valid()
      reads this, actions
    {
      actions.Length == MAX_ACTIONS && actionLen <= MAX_ACTIONS
    }

    /** The recipe written so far. */
    ghost function Recipe(): seq<Action>
      reads this, actions
      requires Valid()
    {
      actions[..actionLen]
    }

    constructor (room: RoomId)
      ensures Valid() && Recipe() == [] && target == room && fresh(actions)
    {
      actions := new Action[MAX_ACTIONS](_ => Action(CreateRoom, 0));
      actionLen := 0;
      target := room;
    }

    /** Refuses an eleventh action. */
    method AddAction(cmd: ActionCommand, room: RoomId) returns (ok: bool)
      requires Valid()
      modifies this`actionLen, actions
      ensures Valid() && ok == (|old(Recipe())| < MAX_ACTIONS)
      ensures Recipe() == if ok then old(Recipe()) + [Action(cmd, room)] else old(Recipe())
    {
      if actionLen >= actions.Length { return false; }
      actions[actionLen] := Action(cmd, room);
      actionLen := actionLen + 1;
      ok := true;
    }

    method ResolveRoomId(room: RoomId)
      requires Valid()
      modifies this`target, actions
      ensures Valid() && Recipe() == Resolve(old(Recipe()), room) && target == room
    {
      ghost var was := Recipe();
      ResolveAt(was, room);
      for i := 0 to actionLen
        invariant Valid() && actionLen == |was|
        invariant forall k | 0 <= k < i :: actions[k] == Resolve(was, room)[k]
        invariant forall k | i <= k < actionLen :: actions[k] == was[k]
      {
        if actions[i].room == PENDING_ROOM_ID { actions[i] := actions[i].(room := room); }
      }
      target := room;
    }
  }

  /** `dispatch_packet`'s planning: the recipe and first target of a request. No recipe overflows the event. */
  method PlanRequest(cmd: Command, room: RoomId) returns (event: RoomEvent)
    ensures fresh(event) && event.Valid()
    ensures event.Recipe() == Actions(PlanOf(cmd, room)) && event.target == FirstTarget(cmd, room)
  {
    event := new RoomEvent(room);
    match cmd
    case CmdCreateRoom => PlanCreateRoom(event);
    case CmdJoinRoom => PlanJoinRoom(event);
    case CmdLeaveRoom => PlanLeaveRoom(event);
    case CmdSendMessage => PlanSendMessage(event);
    case CmdLoadMessage => PlanLoadMessage(event);
    case CmdOther(_) =>
  }

  lemma CreateRecipe(r: RoomId)
    ensures Actions(PlanCreate(r)) ==
              [Action(RequestDbCreateRoom, LOBBY_ROOM_ID), Action(CreateRoom, r), Action(JoinRoom, r),
               Action(RequestLeaveRoom, LOBBY_ROOM_ID), Action(LeaveRoom, LOBBY_ROOM_ID), Action(SendResponse, 0)]
  {}

  method PlanCreateRoom(event: RoomEvent)
    requires event.Valid() && event.Recipe() == []
    modifies event, event.actions
    ensures event.Valid() && event.Recipe() == Actions(PlanCreate(PENDING_ROOM_ID)) && event.target == LOBBY_ROOM_ID
  {
    hide Actions;
    ghost var recipe := Actions(PlanCreate(PENDING_ROOM_ID));
    CreateRecipe(PENDING_ROOM_ID);
    var ok := event.AddAction(RequestDbCreateRoom, LOBBY_ROOM_ID);
    assert event.Recipe() == recipe[..1];
    ok := event.AddAction(CreateRoom, PENDING_ROOM_ID);
    assert event.Recipe() == recipe[..2];
    ok := event.AddAction(JoinRoom, PENDING_ROOM_ID);
    assert event.Recipe() == recipe[..3];
    ok := event.AddAction(RequestLeaveRoom, LOBBY_ROOM_ID);
    assert event.Recipe() == recipe[..4];
    ok := event.AddAction(LeaveRoom, LOBBY_ROOM_ID);
    assert event.Recipe() == recipe[..5];
    ok := event.AddAction(SendResponse, 0);
    assert event.Recipe() == recipe;
    event.target := LOBBY_ROOM_ID;
  }

  method PlanJoinRoom(event: RoomEvent)
    requires event.Valid() && event.Recipe() == []
    modifies event, event.actions
    ensures event.Valid() && event.Recipe() == Actions(PlanJoin(old(event.target))) && event.target == old(event.target)
  {
    var ok := event.AddAction(JoinRoom, event.target);
    ok := event.AddAction(RequestLeaveRoom, LOBBY_ROOM_ID);
    ok := event.AddAction(LeaveRoom, LOBBY_ROOM_ID);
    ok := event.AddAction(RequestDbLoadMessage, event.target);
    ok := event.AddAction(SendResponse, 0);
  }

  method PlanLeaveRoom(event: RoomEvent)
    requires event.Valid() && event.Recipe() == []
    modifies event, event.actions
    ensures event.Valid() && event.Recipe() == Actions(PlanLeave(old(event.target))) && event.target == LOBBY_ROOM_ID
  {
    var ok := event.AddAction(JoinRoom, LOBBY_ROOM_ID);
    ok := event.AddAction(RequestLeaveRoom, event.target);
    ok := event.AddAction(LeaveRoom, event.target);
    ok := event.AddAction(SendResponse, 0);
    event.target := LOBBY_ROOM_ID;
  }

  method PlanSendMessage(event: RoomEvent)
    requires event.Valid() && event.Recipe() == []
    modifies event, event.actions
    ensures event.Valid() && event.Recipe() == Actions(PlanSend(old(event.target))) && event.target == old(event.target)
  {
    var ok := event.AddAction(SendMessage, event.target);
    ok := event.AddAction(SaveMessage, event.target);
    ok := event.AddAction(SendResponse, 0);
  }

  method PlanLoadMessage(event: RoomEvent)
    requires event.Valid() && event.Recipe() == []
    modifies event, event.actions
    ensures event.Valid() && event.Recipe() == Actions(PlanLoad(old(event.target))) && event.target == old(event.target)
  {
    var ok := event.AddAction(RequestDbLoadMessage, event.target);
    ok := event.AddAction(SendResponse, 0);
  }
}
