# A verified model of the epoll chat server

The chat server is a main thread, a lobby worker, a set of room workers and a database thread that pass events to
each other through queues. A client request is compiled into a list of actions, and a cursor walks through that list
while the event moves between workers and the database queue. Packets leave through a send path that several threads
share, and arrive at a client that keeps one request open at a time.

This project models that machinery in Dafny and proves what no single function shows: invariants over every
reachable state of the whole system, for every interleaving of its threads.

| part | files |
|---|---|
| recipes of actions and how they are written | `RoomEvents`, `EventBuilder` |
| the server as a transition system, one step per action, per member looked at and per packet given | `ServerState` |
| the manager and workers as an object updated in place, which is at the end of a run of those steps after every call | `RoomServer` |
| events in flight and where each may be | `Flights`, `Itinerary` |
| room ownership | `Ownership` |
| what every step does, said of the states before and after it | `Outcomes` |
| requests as linear tokens, truthful answers, quiescence, exactly one response | `Requests`, `Tokens`, `Quiescence`, `Responses` |
| order within a queue; messages in the order of dispatch | `Lines`, `Turns` |
| broadcasts in progress, save jobs, history against live traffic | `Talk`, `Broadcasts`, `Places`, `Casting`, `Delivery` |
| what clients send arrives as it was sent: bodies, senders, rows | `Payload` |
| one client among any others: membership, agreement of client and server, and where they part | `Clients`, `ChatClient`, `Presence`, `Footing`, `Membership`, `Agreement` |
| a session closed at any moment | `Parting` |
| a system of such clients: exact counters, the life of rooms | `Community` |
| one room and its capacity; users and sessions | `Rooms`, `MainThread` |
| the concurrent send path | `SendPath` |
| bytes, codecs, packets, framing, the client's socket, end to end | `Bytes`, `Codec`, `MessageList`, `Packets`, `Framing`, `ClientSocket`, `EndToEnd` |
| cursor pagination of history; the pages in the bytes of the answers, alone and with live traffic | `History`, `Pagination`, `Reader`, `Loads`, `Newcomer` |
| concrete runs in which a promise is not kept | `Scenes`, `Stray`, `Mishaps` |
| the database queue and its shutdown | `DbQueue` |

`dafny verify dfyconfig.toml` checks everything.

## Hypotheses

They are written into the step relations, not into the theorems.

- The database issues fresh room ids, never the lobby's and never the placeholder, and increasing positive message
  ids below the largest 64-bit value (`ServerState.OutcomeOk`). There is at least one ordinary worker whenever a room
  is created.
- A descriptor is handed out again only when no room, queue, worker or job holds its session object, which keeps the
  socket open (`ServerState.Unused`). Disconnect events have only the number: they may still be queued, and every result
  covers a client that reconnects on the same descriptor meanwhile.
- The events that the main thread sends to a worker are taken in its order (`ServerState.InTurn`): it looks up and posts
  one event after the other, to a FIFO. Nothing is assumed of the order between threads.
- The body of a request is shorter than 2^32 bytes: its length travels in 32 bits (`Bytes.sized`).
- No database job throws: DBWorker.cpp:60-61 swallows the exception and the job's callback never fires, so the event
  inside that job would neither be answered nor counted as lost. A job that fails with a status is a step.
- Ownership, linearity, answers, order and delivery hold for any client input. The results of `Membership` and
  `Agreement` are about one client that follows the client program (`Clients.SoloEnabled`), among other clients that may
  do anything: one open request, only commands its state allows, the first after the accept-time join has let the
  session in, none after a join of its own whose history load failed, and closed with no request open. The results of
  `Community` are about systems in which every client is one of these.

## What turned out different from the documentation

- The undo of a failed create is dead code: it is guarded by the first action being CREATE_ROOM, which no recipe has
  (`Ownership.CleanUpIsDead`).
- A failed response does not always have an empty body: a create that fails after its id was issued carries the id.
  `Requests.AnswerOk`, proved of every answer, gives the exact condition, and `Mishaps.CloseLeavesAMember` is a run.
- Closing a session does not always take it out of every room: a create or join of it that has its JOIN still to do lets
  it in without a user. Once its events are done it is out if and only if that has not happened, and otherwise in for
  ever (`Parting.GoneUnlessLetIn`); with no such create or join in flight it is out (`Parting.ClosedWhenCalm`).
  `Mishaps.CloseLeavesAMember` is a run that ends with no work left and a member that has no user.
- A join whose history load fails is answered as a failure although the session has already moved. Client and server
  then agree if and only if the load succeeded (`Agreement.JoinAgreesIffLoaded`), and `Stray.FailedLoadLeadsAstray` is a
  run in which they do not.
- A request is not always answered: one whose room is unbound at a re-route is dropped, and that is the only way for a
  known command (`Responses.ExactlyOneResponse`). `Mishaps.LoadForgotten` is a run.
- A request with a command byte that is none is swallowed if and only if its room is bound when it is dispatched, and
  otherwise answered with RoomNotFound (`Responses.UnknownIsSwallowedIffBound`). `Mishaps.UnknownSwallowed` is a run.
- The current room of a member is tested before the packet is packed and not at that moment. Broadcasts of one room are
  therefore ordered for everybody (`Delivery.SameOrderEverywhere`), and nothing is claimed of the order of broadcasts of
  two rooms.
- The field widths in PROTOCOL.md are older than the structs; the model follows the structs.

## Model

| member | source | states |
|---|---|---|
| Ownership.RoomOwnership | server/src/room/RoomManager.cpp:8-18 | in every state of every run, for any client input: each room is on one worker, the one its binding names; the lobby worker has exactly the lobby, which is always bound; a bound room exists or its CREATE is on the way, still in the DB thread's hands or queued |
| Ownership.BindingsWriteOnce | server/src/room/RoomManager.cpp:134-159 | between any two moments of a run: a binding is never reassigned and, once dropped, never comes back |
| Ownership.ActionsRunAtHome | server/src/room/RoomWorker.cpp:71-131 | whenever a worker is about to run an action on a room, that room was bound to this worker |
| Ownership.CleanUpIsDead | server/src/room/RoomWorker.cpp:122-125 | in every run the undo of a failed create changes nothing |
| Ownership.StepKeepsOwn | server/src/room/RoomWorker.cpp:282-298 | every step of every thread keeps ownership: bindings, rooms, places of events and pending creates together |
| Itinerary.NextOnCourse | server/src/room/RoomManager.cpp:174-209 | one iteration takes an event that is where its recipe says to the next place its recipe says |
| Flights.WorkFlights | server/src/room/RoomWorker.cpp:71-131 | one iteration removes one copy of the event from the worker and adds at most one, at exactly the place its action sends it to; every other event in flight is untouched |
| Requests.WorkTally | server/src/room/RoomWorker.cpp:236-246 | the logs of answered and lost requests grow by exactly the fate of the event executed |
| Requests.ReplyOk | server/src/room/RoomWorker.cpp:71-131 | any answer a worker gives: Success if and only if every reporting step succeeded, otherwise the first failing step's code, never None; a failure has a body exactly for a create whose id had been issued |
| Mishaps.CloseLeavesAMember | server/src/room/RoomWorker.cpp:158-176 | a run in which a client is closed while its create is with the database: the answer is UserNotFound with the issued id as its body, and with no work left the session is a member of the new room although its user is gone |
| Tokens.StepKeepsAccount | server/src/room/RoomWorker.cpp:71-141 | every step keeps every request at one place, every trail truthful and every room owned |
| Quiescence.RequestsAreLinear | server/src/room/RoomManager.cpp:71-96 | for any client behaviour a dispatched request is in flight once, answered once or lost once, never two of these, and never answered twice |
| Quiescence.AnswersAreTruthful | server/src/room/RoomWorker.cpp:71-131 | every answer ever given is truthful, after at most as many hops as actions; a create, send or rejection is never lost, and the others only at their re-routes |
| Quiescence.LostOnlyUnbound | server/src/room/RoomWorker.cpp:300-314 | the step that loses a request finds the room it is routed to unbound, or the command unknown |
| Quiescence.EveryRequestEnds | server/src/room/RoomWorker.cpp:50-69 | when no work is left every request is answered or lost, and not both |
| Responses.ExactlyOneResponse | server/src/room/RoomManager.cpp:71-96 | exactly one response: when no work is left, a request of a known command, whatever else clients do, has one answer if and only if every re-route of it since its dispatch found its room bound, and never two |
| Responses.LostIffUnbound | server/src/room/RoomWorker.cpp:300-314 | at every moment after its dispatch such a request is lost if and only if some step so far re-routed it to an unbound room |
| Responses.UnknownIsSwallowedIffBound | server/src/room/RoomManager.cpp:48-80 | in any run, with no work left: a request with a command byte the server has no case for has no answer if and only if its room was bound when it was dispatched; otherwise it has exactly one, RoomNotFound without a body, on its own session |
| Responses.AnsweredToItsSender | server/src/room/RoomWorker.cpp:236-246 | any answer to a request goes to the session that sent it and carries its command |
| Mishaps.UnknownSwallowed | server/src/room/RoomManager.cpp:48-80 | a run in which a client sends a command byte that is none to the lobby, and with no work left has no answer |
| Mishaps.LoadForgotten | server/src/room/RoomWorker.cpp:300-314 | a run in which a client alone in its room asks for history and then to leave: the room is gone when the history comes back, and the load is never answered |
| Quiescence.BoundedStretch | server/src/room/RoomWorker.cpp:50-69 | without new input a run takes no more steps than the work it starts with |
| Quiescence.Progress | server/src/room/RoomWorker.cpp:50-69 | while work is left some worker or the DB thread can take a step |
| Outcomes.JoinOutcome | server/src/room/RoomWorker.cpp:158-176 | at every JOIN of every run: the session enters and the counter goes up by one if and only if the room is there and below its capacity; the code is RoomNotFound, RoomFull, UserNotFound or Success, each exactly in its case; a success goes on with the next action, anything else is answered with its code |
| Outcomes.LeaveOutcome | server/src/room/RoomWorker.cpp:183-201 | at every LEAVE: a member is taken out and counted down, an ordinary room goes with its binding when the counter comes to zero; each code exactly in its case |
| Outcomes.CreateOutcome | server/src/room/RoomWorker.cpp:143-152 | at every CREATE: a new room is empty and holds five, an existing one is left alone; each code exactly in its case |
| Outcomes.SendOutcome | server/src/room/RoomWorker.cpp:203-220 | at every SEND: the message is put on record with room, session and text, and the loop begins over the members of that moment with the sender's id, or zero without a user |
| Outcomes.SaveOutcome | server/src/room/RoomWorker.cpp:248-261 | at every SAVE: the job has the room, the sender's id, or zero, and the text of the request, and the event goes on |
| Outcomes.LoadOutcome | server/src/room/RoomWorker.cpp:263-280 | at every history load: the job has the room and the cursor in the first eight bytes of the body if that is positive, otherwise the largest number; the event is in it and nowhere else |
| Outcomes.RespondOutcome | server/src/room/RoomWorker.cpp:236-246 | at every RESPONSE: one packet with the event's command, result and body, on its session and on no other |
| Outcomes.DisconnectOutcome | server/src/room/RoomWorker.cpp:350-363 | at every DISCONNECT: out of the named room if a member there, otherwise out of a room of this worker that has the session, if there is one |
| Outcomes.LoadedOutcome | server/src/room/RoomWorker.cpp:300-314 | when the database has run a load: the event is at the end of the queue of the room's worker with the database's own failure code, or Success; with no such room it is discarded |
| Outcomes.IssuedOutcome | server/src/room/RoomWorker.cpp:282-298 | when the database has run a create: the id is bound to the worker chosen, is the body, and stands in the recipe wherever the placeholder stood; a failed insert comes to the lobby's worker as an error |
| Outcomes.HandedOutcome | server/src/room/RoomWorker.cpp:282-298 | the event of a new room comes to the worker that its room is bound to |
| Outcomes.DispatchOutcome | server/src/room/RoomManager.cpp:37-81 | at every dispatch: the request, under a fresh number, is at the end of the queue of the worker its room is bound to, a create's or leave's of the lobby's; with no such binding a refusal is at the end of the lobby's |
| Outcomes.FlushOutcome | server/src/room/RoomManager.cpp:161-172 | the worker of the user's current room is asked to flush, and nothing else changes |
| Outcomes.AcceptOutcome | server/src/server/Server.cpp:89-112 | an accepted client is a user in the lobby, and the lobby's worker is to let it in |
| Outcomes.CloseOutcome | server/src/server/Server.cpp:173-202 | a closed client is no user any more, and the workers of its current room and of the lobby are told to take it out |
| Payload.BodyArrives | server/src/room/RoomManager.cpp:37-69 | in any run, from its dispatch on: every event of a request has its session, command and body (the event that refuses one has none), in flight, answered or lost; a message it broadcasts has its room, session and text, the save job of that message its text, its load the cursor in its body |
| Payload.SenderIsConnected | server/src/room/RoomWorker.cpp:203-220 | every copy of a broadcast on any session bears the id of the last accept of the session that said it, at the step at which the message was handled, or zero if it had been closed by then |
| Payload.SavesAreSigned | server/src/room/RoomWorker.cpp:248-261 | every save job is of a message on record and bears its sender's id at the step at which the job is posted, or zero |
| Payload.StoredAsSaid | server/src/db/DBWorker.cpp:73-101 | every stored row is a message said in its room, with its text, its sender's id at the SAVE, the nick the server gives everybody, and the id and time the database gave it |
| Delivery.NothingFallsBetween | server/src/room/RoomManager.cpp:184-204 | for the history load of any join, at any later moment: a message of that room by someone else has its save job ahead of the load, or, if the session has stayed since, its broadcast is packed on the session or the worker is in the middle of it and has yet to come to the session or to pack on it |
| Delivery.LoadSeesEarlierSaves | server/src/db/DBWorker.cpp:40-70 | when a load runs, every message whose save job was ahead of it is in the store or its insert failed |
| Delivery.SameOrderEverywhere | server/src/room/RoomWorker.cpp:203-234 | although several workers are in the middle of their loops at once, any two sessions that receive the same two broadcasts of a room receive them in the same order, the one the room handled them in, with the same room and text |
| Turns.OrderOfDispatch | server/src/room/RoomManager.cpp:71-96 | of two messages of a room, by whomever, the one the main thread dispatched first is broadcast first, received first by every session that receives both, and handed to the database first |
| Turns.HandledAsDispatched | server/src/room/RoomWorker.cpp:50-69 | in any run the messages of a room are broadcast in the order of the numbers they were dispatched under |
| Delivery.SavedAsHandled | server/src/room/RoomWorker.cpp:248-261 | the save jobs of a room are its broadcast messages in the order they were handled, one each; at most the last is still to be posted |
| Delivery.AnsweredSendIsSaved | server/src/room/RoomManager.cpp:200-204 | a send answered with Success was broadcast under its own number and has its save job |
| Delivery.EveryPacketHasACause | server/src/room/RoomWorker.cpp:331-346 | every packet a session receives is the answer to its own event, or a broadcast by somebody else in a room that was the session's current one at the earlier step at which the worker looked; a request is answered by exactly the step that packs its response on its own session |
| Delivery.ChosenWasThere | server/src/room/RoomWorker.cpp:222-230 | a member found and not yet told was in the room, as its current one, at an earlier step of this very loop |
| Casting.WorkStreams | server/src/room/RoomWorker.cpp:203-220 | an iteration of one worker, which may start a broadcast or change users' current rooms, leaves every broadcast in progress elsewhere able to go on in order |
| Casting.LookStreams | server/src/room/RoomWorker.cpp:222-228 | testing one member keeps the streams of all sessions, and those of the loops of all workers, in order |
| Casting.GiveStreams | server/src/room/RoomWorker.cpp:229-230 | packing on the member found, wherever it is by now, keeps every session's packets of each room in the order the messages were handled, none twice and none its own |
| Broadcasts.StepKeepsConversation | server/src/room/RoomWorker.cpp:101-109 | every step keeps the order of save jobs and the marks of joins and sends |
| Agreement.IdleAgreement | client/src/Client.cpp:301-364 | from the moment a session has been let in, whatever other clients do and whatever an earlier session on the same descriptor left in the queues: whenever its client has no open request, and no join of its own failed to load, the session is in exactly one room across all workers, and that room is its user's current room and the client's own view |
| Agreement.StaysSettled | server/src/room/RoomManager.cpp:184-198 | a session let in once is in some room in every later state until its client leaves: join before leave |
| Agreement.AlwaysPlaced | server/src/room/RoomManager.cpp:174-198 | from the moment it has been let in, in every state, a session is in one or two rooms, its current room is one of them, and it is in two if and only if its own event is between its JOIN and its LEAVE |
| Agreement.NothingIsLost | server/src/room/RoomWorker.cpp:97-100 | no request of a disciplined client is ever lost, whatever others do, and when no work is left the one it has open is answered |
| Agreement.OneThingOpen | client/src/Client.cpp:230-249 | a client with an open request waits for exactly one thing: the request on the wire, one event in the server, or one unread answer with its command |
| Agreement.GoneForGood | server/src/room/RoomWorker.cpp:350-363 | a session that was closed with no request open, even before its accept-time join was done, is, once its disconnect events are processed, in no room of any worker |
| Parting.GoneUnlessLetIn | server/src/server/Server.cpp:173-202 | a client is closed at any moment, whatever it has asked for: once none of its events is in flight its session is in no room of any worker if and only if no step since has let it into an ordinary room; otherwise it is a member of one for ever, and the descriptor is not handed out again |
| Parting.ClosedWhenCalm | server/src/room/RoomWorker.cpp:158-176 | closed while no create or join of it in flight has its JOIN still to do, it is out of every room once none of its events is in flight |
| Parting.StepHaunts | server/src/room/RoomWorker.cpp:350-363 | no step takes a session out of an ordinary room once all it has in flight is disconnect events for the lobby |
| Community.ErasedWithLastMember | server/src/room/RoomWorker.cpp:183-201 | counters equal the number of members, and an ordinary room is erased by exactly the step that takes out its last member; the lobby never is |
| Community.NoEmptyRooms | server/src/room/RoomWorker.cpp:143-201 | an ordinary room without members is one whose creator is about to enter it |
| Community.NobodyIsLost | server/src/room/RoomWorker.cpp:71-131 | no request of anybody is ever dropped: each is in flight or answered, and when no work is left answered |
| Community.StepKeepsNet | client/src/Client.cpp:251-284 | every step of every client and thread keeps every session in its place and every counter exact |
| Agreement.JoinAgreesIffLoaded | server/src/room/RoomManager.cpp:184-190 | over any continuation of any run from the return of a join's history load until the client has read the answer: the session is in the joined room and no other, as its current one, and the client believes so if and only if the load succeeded |
| Stray.FailedLoadLeadsAstray | server/src/room/RoomWorker.cpp:300-314 | a run of two clients at whose end no request is open, the session is in the room it asked to join and nowhere else, and its client believes to be at the lobby |
| Membership.Walk | server/src/room/RoomWorker.cpp:154-201 | one iteration on a disciplined client's request moves its session and current room to exactly where the recipe's next point says, or answers it where the client will see it |
| Membership.ArrivesInTurn | server/src/room/RoomManager.cpp:110-117 | when the lobby worker takes the accept-time join of a session, no disconnect event of an earlier one on the same descriptor is left |
| Lines.WorkGrows | server/src/room/RoomWorker.cpp:71-131 | one iteration adds to the end of a queue exactly the event it hands on, and touches no other queue |
| Membership.StepKeepsSolo | client/src/Client.cpp:251-284 | every step of the client, of any other client and of any thread keeps the agreement invariant of one session, and its seat once it has one |
| Footing.StepKeepsGround | server/src/room/RoomWorker.cpp:71-141 | every step, for any client input, keeps linearity, ownership and capacity together, and a room just created empty until its creator enters |
| Presence.WorkShifts | server/src/room/RoomWorker.cpp:143-201 | one iteration moves at most the session of its event, by one room, and touches no other worker's rooms |
| Presence.LastMember | server/src/room/RoomWorker.cpp:195-198 | with an exact counter the erase test holds exactly for the last member of an ordinary room |
| Rooms.CounterIsMembersAndRejoins | server/src/room/Room.cpp:7-27 | over every sequence of joins and exits: members <= counter <= capacity, and the counter exceeds the members by exactly the accepted re-joins of a present session |
| Rooms.CapacityHolds | server/src/room/Room.cpp:7-16 | in every run, whatever clients ask for, no room is over capacity and no counter is below its members |
| Rooms.RoomObject.JoinSession | server/src/room/Room.cpp:7-16 | the object does what the value function does; refused exactly at capacity |
| Rooms.RoomObject.ExitSession | server/src/room/Room.cpp:18-27 | the object does what the value function does; refused exactly for a non-member |
| RoomEvents.ResolveCreate | server/src/event/RoomEvent.h:63-68 | resolving the create recipe gives the create recipe of the issued id: exactly CREATE and JOIN change |
| EventBuilder.RoomEvent.AddAction | server/src/event/RoomEvent.h:54-61 | appends to the recipe, or refuses the eleventh action and changes nothing |
| EventBuilder.RoomEvent.ResolveRoomId | server/src/event/RoomEvent.h:63-68 | the in-place loop replaces exactly the placeholders |
| EventBuilder.PlanRequest | server/src/room/RoomManager.cpp:50-69 | the recipe and first target of every command; none overflows the event |
| EventBuilder.PlanCreateRoom | server/src/room/RoomManager.cpp:174-182 | writes the create recipe, sent to the lobby first |
| EventBuilder.PlanJoinRoom | server/src/room/RoomManager.cpp:184-190 | writes the join recipe: join before leave, then the history load |
| EventBuilder.PlanLeaveRoom | server/src/room/RoomManager.cpp:192-198 | writes the leave recipe, sent to the lobby first |
| EventBuilder.PlanSendMessage | server/src/room/RoomManager.cpp:200-204 | writes the send recipe |
| EventBuilder.PlanLoadMessage | server/src/room/RoomManager.cpp:206-209 | writes the load recipe |
| RoomServer.Server.Owned | server/src/room/RoomManager.cpp:8-18 | whatever entry points were called before, in any order: each room is on one worker, the one its binding names, the lobby is on the lobby worker, and a bound room exists or is about to be created |
| RoomServer.Server.OwnerOf | server/src/room/RoomManager.cpp:121-130 | the worker found is the one and only that has the room or is about to create it, and none is found exactly if there is none |
| RoomServer.Server.Accounted | server/src/room/RoomManager.cpp:37-81 | every request the object was ever given is in flight, answered or lost, and an answered one is neither of the others |
| RoomServer.Server.ProcessEvent | server/src/room/RoomWorker.cpp:71-131 | the loop extends the run of the whole server by steps of this worker only and ends with the event answered, handed on or done and no broadcast unfinished |
| RoomServer.Server.ServeHead | server/src/room/RoomWorker.cpp:50-69 | taking the head of the queue and processing it extends the run by a `Start` step and then steps of this worker |
| RoomServer.Server.Iterate | server/src/room/RoomWorker.cpp:71-131 | one iteration of the loop is one `Work` step of the run and advances the cursor of an event that stays |
| RoomServer.Server.DoAction | server/src/room/RoomWorker.cpp:78-128 | one action has exactly the effect of the transition function, cleanup and answer included |
| RoomServer.Server.SettleEvent | server/src/room/RoomWorker.cpp:120-129 | after a reporting action: go on, or clean up, answer and end |
| RoomServer.Server.DispatchPacket | server/src/room/RoomManager.cpp:37-81 | an `Ask` step of the run: plans and routes a request under a fresh number, or has the lobby worker reject it |
| RoomServer.Server.RouteEvent | server/src/room/RoomManager.cpp:85-96 | posts to the given or bound worker; for an unbound room reports it and changes nothing |
| RoomServer.Server.BindRoomWorker | server/src/room/RoomManager.cpp:134-159 | binds to the chosen worker unless the room is bound already |
| RoomServer.Server.DisconnectSession | server/src/room/RoomManager.cpp:110-117 | routes a disconnect event to the room's worker |
| RoomServer.Server.RequestFlush | server/src/room/RoomManager.cpp:161-172 | a `Tick` step of the run: routes a flush event to the worker of the user's current room |
| RoomServer.Server.CreateRoom | server/src/room/RoomWorker.cpp:143-152 | a new empty room of five, or an error and no change |
| RoomServer.Server.JoinRoom | server/src/room/RoomWorker.cpp:158-176 | enters before the user is looked up; the user's current room changes only on success |
| RoomServer.Server.LeaveRoom | server/src/room/RoomWorker.cpp:183-201 | leaves, and erases room and binding when an ordinary room's counter reaches zero |
| RoomServer.Server.SendMessage | server/src/room/RoomWorker.cpp:203-220 | makes the packet of the message and starts the loop over all members, or finds no room |
| RoomServer.Server.LookNext | server/src/room/RoomWorker.cpp:222-228 | a `Look` step of the run: the member is picked unless it is the sender or its current room is another at that moment |
| RoomServer.Server.GiveNext | server/src/room/RoomWorker.cpp:229-230 | a `Give` step of the run: the packet is packed on the member picked |
| RoomServer.Server.TellAll | server/src/room/RoomWorker.cpp:220-231 | the loop over the members, in any order, extends the run by steps of this worker only and leaves nobody out |
| RoomServer.Server.SendResponse | server/src/room/RoomWorker.cpp:236-246 | packs the response with the event's command, result and body |
| RoomServer.Server.SaveMessage | server/src/room/RoomWorker.cpp:248-261 | posts the save job |
| RoomServer.Server.RequestDbLoadMessage | server/src/room/RoomWorker.cpp:263-280 | posts the load job with the cursor of the request, a missing or non-positive one meaning the newest |
| RoomServer.Server.DbCreateRoomOnResult | server/src/room/RoomWorker.cpp:282-298 | binds the issued id and keeps the resolved event in the DB thread's hands until its next step posts it to that worker, or sends the error to the lobby worker |
| RoomServer.Server.DbLoadMessagesOnResult | server/src/room/RoomWorker.cpp:300-314 | routes the event back to the room it asked for, with the page or the code |
| RoomServer.Server.FinishJob | server/src/db/DBWorker.cpp:73-101 | the head job's effect and callback are `Query` steps of the run, a new room being bound in one and its event posted in the next |
| RoomServer.Server.DisconnectFrom | server/src/room/RoomWorker.cpp:350-363 | takes the session out of the named room or of the first of this worker's rooms that has it; true exactly if there is one |
| RoomServer.Server.CloseSession | server/src/server/Server.cpp:173-202 | a `Close` step of the run: disconnect events for the current room and the lobby, then the user is gone |
| RoomServer.Server.AcceptClient | server/src/server/Server.cpp:89-112 | an `Accept` step of the run, on any descriptor whose session object nobody holds any more: a user in the lobby and a join event for the lobby worker |
| MainThread.Server.AcceptClient | server/src/server/Server.cpp:89-112 | users and descriptor index stay inverse to each other, and their descriptors stay the sessions' |
| MainThread.Server.CloseSession | server/src/server/Server.cpp:173-202 | the same, and the user of a session is always found; departures for the current room, wherever a worker's join has put it, and for the lobby; closing twice does nothing |
| MainThread.Server.SetCurrentRoom | server/src/room/RoomWorker.cpp:154-176 | a worker's JOIN changes the current room of exactly the connected session it is about, so that a later close sends departures for that room and for the lobby |
| MainThread.Server.HandleEvents | server/src/server/Server.cpp:115-141 | drains the queue keeping the same; exactly the descriptors named in disconnect requests are closed, each with its departures, once, and the others keep id and room |
| MainThread.GoodbyesAre | server/src/server/Server.cpp:115-141 | the departures that a queue of requests leads to are those of the connected descriptors it names, from their current room and from the lobby, and of no others |
| MainThread.UserManager.AddUser | server/src/user/UserManager.cpp:6-16 | the maps stay inverse if and only if id and descriptor are both new or both known |
| MainThread.UserManager.RemoveUser | server/src/user/UserManager.cpp:18-31 | removes the user and its index entry, or nothing |
| MainThread.UserManager.GetUserByFd | server/src/user/UserManager.cpp:44-58 | found exactly when a user has that descriptor, and then that user |
| ChatClient.Client.HandleInput | client/src/Client.cpp:251-284 | a request is sent exactly when none is open and the state's command table allows it, with the command, room and body that the table says; it is then the open one |
| ChatClient.Client.HandleResponse | client/src/Client.cpp:301-381 | closes the open request; only a matching success changes state and cursor, and a join's page is read as the first page |
| ChatClient.Client.HandleBroadcast | client/src/Client.cpp:383-409 | shown exactly in the room it was sent to |
| ChatClient.Client.PrintHistory | client/src/Client.cpp:159-181 | the cursor moves to the oldest message of a page that parses and is not empty, and otherwise stays |
| SendPath.OneOwner | server/src/network/Session.cpp:77-119 | in every interleaving of any number of threads at most one owns the front buffer, the flag says whether one does, and its pointer is to the front and never dangles |
| SendPath.BytesConserved | server/src/network/Session.cpp:69-119 | bytes on the wire followed by the unsent rest of the queue are always the concatenation of all packed buffers in pack order |
| SendPath.NoLostWakeup | server/src/network/Session.cpp:77-127 | when every call has returned, a non-empty queue means the last release of the flag was a Pending or Error return; otherwise everything packed is on the wire |
| SendPath.ReturnsWhatItMet | server/src/network/Session.cpp:77-119 | over any moves of any threads: a call returns Pending if and only if the last answer the socket gave it was that it would block, Error if and only if that was a failure, Complete if and only if it finds the flag taken or the queue empty; a partial write or an interruption never ends a call |
| SendPath.NeverBlocked | server/src/network/Session.cpp:77-119 | a thread inside pack or flush can always take its next step |
| MessageList.RoundTrip | protocol/Message.h:32-67 | a serialized list followed by anything parses back to that list and that rest if and only if all sizes fit 32 bits |
| MessageList.AcceptedIsSerialized | protocol/Message.h:49-67 | whatever parses re-serializes to the front of the input |
| MessageList.PrefixRejected | protocol/Message.h:49-67 | every strict prefix of a serialized list is rejected |
| MessageList.Serialize | protocol/Message.h:32-47 | the append loop writes the format |
| MessageList.Parse | protocol/Message.h:49-67 | the reader loop accepts exactly what the format accepts, with the same list |
| MessageList.ListLayout | protocol/Message.h:32-47 | the bytes of a list: the count, then every message's id, sender, time, nick and content at their places, in order |
| Codec.Writer.PutStr | protocol/Codec.h:21-25 | appends the 32-bit length and the bytes |
| Codec.Reader.Take | protocol/Codec.h:33-38 | the next bytes, or nothing moves when fewer are left |
| Codec.Reader.TakeString | protocol/Codec.h:40-47 | a string exactly when its length and all its bytes are there |
| Codec.StrTaken | protocol/Codec.h:40-47 | a string that is read re-serializes to what was read, and fits 32 bits |
| Bytes.LeValueOfBytes | protocol/Codec.h:15-18 | a value that fits its width is read back from its bytes |
| Bytes.LeBytesOfValue | protocol/Codec.h:15-18 | bytes are written back from the value read |
| Bytes.U32Layout | protocol/Codec.h:15-18 | the four bytes of a count, least significant first |
| Bytes.I64Layout | protocol/Codec.h:15-18 | the eight bytes of a 64-bit integer in two's complement, least significant first |
| Packets.SerializePacket | protocol/Protocol.h:60-77 | the buffer filled at an advancing offset is header, struct image and body |
| Packets.RequestLayout | protocol/Protocol.h:29-37 | every byte of a request frame at its place |
| Packets.PacketLayout | protocol/Protocol.h:39-50 | every byte of a response and of a broadcast at its place |
| Packets.RequestRoundTrip | protocol/Protocol.h:33-37 | a request frame with any padding is read back, whatever follows, if and only if its body length fits 32 bits |
| Packets.PacketRoundTrip | protocol/Protocol.h:39-50 | a response or broadcast is read back with identical fields and body if and only if its body length fits 32 bits |
| Packets.RequestTaken | server/src/network/Session.cpp:39-67 | a request taken off any bytes re-serializes to what was taken |
| Packets.PartialPacket | client/src/Client.cpp:286-309 | of a packet that has not fully arrived nothing is decoded |
| Framing.Session.OnReadable | server/src/network/Session.cpp:12-36 | appends everything up to EAGAIN; end of stream or an error marks the session |
| Framing.ReadsUpToTheEnd | server/src/network/Session.cpp:12-36 | what a readable event reads is the bytes of the chunks before the first answer that is neither a chunk nor an interruption, and only EAGAIN is a success |
| Framing.Session.ExtractPacket | server/src/network/Session.cpp:39-67 | takes one complete request off the buffer or leaves it alone |
| Framing.HandleRequest | server/src/server/Server.cpp:144-160 | dispatches every complete request in order and leaves exactly the residue; a failed read dispatches nothing |
| Framing.ChunkingIndependent | server/src/network/Session.cpp:12-67 | for any bytes in any chunks, what is dispatched and left is what draining the whole at once gives |
| Framing.RequestsArrive | client/src/Client.cpp:230-249 | any requests in any chunks are dispatched exactly, in order, with nothing left |
| Framing.PartOfStream | server/src/server/Server.cpp:144-160 | of any part of a client's stream a prefix of its requests is dispatched and the residue is a proper prefix of the next |
| Framing.ResidueIsPartial | server/src/network/Session.cpp:39-67 | any residue, of any bytes, is a proper prefix of some frame |
| Framing.DrainConserves | server/src/server/Server.cpp:155-159 | requests and residue together are the input, and the residue holds no complete request |
| ClientSocket.Socket.SendAll | client/src/Socket.cpp:36-52 | all bytes or, on failure, a strict prefix, over any partial writes and interruptions; it succeeds whenever the kernel never fails, however little it takes at a time |
| ClientSocket.Socket.RecvAll | client/src/Socket.cpp:54-72 | exactly the next bytes of the stream, over any partial reads and interruptions; it succeeds whenever they arrive and the kernel never fails |
| ClientSocket.Socket.Flush | client/src/Socket.cpp:27-34 | the buffer is cleared whether or not it could be sent |
| ClientSocket.SendRequest | client/src/Client.cpp:230-249 | one request frame on the wire |
| ClientSocket.HandlePacket | client/src/Client.cpp:286-299 | takes exactly one packet off the stream, or fails, which it does not if a whole packet arrives and the kernel never fails |
| ClientSocket.ReadPackets | client/src/Client.cpp:190-216 | the packets handled are the first ones of the stream, in order, and if the kernel never fails all that arrive whole |
| EndToEnd.ClientDecodesWhatWasPacked | server/src/network/Session.cpp:77-119 | with any interleaving of senders, partial writes and partial reads the packets the client decodes are a prefix of those packed, with identical fields and bodies, and all of them once everything has arrived |
| EndToEnd.ChatLayout | protocol/Protocol.h:16-50 | the bytes of an answer and of a broadcast message, with the number of every command and status |
| EndToEnd.ClientReadsTheChat | server/src/room/RoomWorker.cpp:236-246 | for what any run of the server has packed on a session, over any interleaving of the send path: what the client decodes are the first of these responses and broadcasts, field by field, and a broadcast is a message the server handled, in its room, by somebody else |
| Pagination.PagesAreComplete | client/src/Client.cpp:159-181 | with any loads, some answered with an error, interleaved with inserts, the pages since entering are strictly descending and exactly the room's stored messages from the first one returned down to the cursor |
| Loads.PageArrives | server/src/room/RoomWorker.cpp:263-314 | in any run: the body of every successful answer to a JOIN or a LOAD, packed on the session that sent it, parses with nothing left over as at most fifty messages stored for the room of the request, strictly descending, below the cursor in the body of the request (or simply the newest), at the moment the database ran the load: all of them if fewer than fifty, otherwise all down to the last |
| Newcomer.EverythingSaidIsRead | server/src/room/RoomManager.cpp:184-190 | in any run of the server: a client joins a room and reads, in the bytes of the answers packed on its session, the page of the join and then page after page, asking each time with the last id it was shown, until one is empty; every message said there by anyone else is then in these pages, or its insert failed, or, while the session stays, its broadcast is packed on it or about to be |
| Reader.PagesJoin | server/src/db/MessageRepository.h:18-22 | however many pages, whatever is stored meanwhile: the pages and what is older than the last of them are everything of the room that was stored when the first was made |
| Pagination.EmptyPageIsTheEnd | client/src/Client.cpp:138-144 | an empty page after others means nothing older is stored |
| Pagination.EmptyFirstPage | server/src/room/RoomWorker.cpp:263-280 | a first page is empty if and only if the room had no message when the query ran |
| Pagination.OlderIs | server/src/db/MessageRepository.h:18-22 | the query selects exactly the room's messages below the cursor, newest first |
| Pagination.PageSplits | server/src/db/MessageRepository.h:18-22 | a page is the newest part of what is below the cursor, and the rest is what is below its last message |
| DbQueue.FirstInFirstOut | server/src/db/DBWorker.cpp:40-70 | in every interleaving finished, in-process and queued jobs are the posted jobs in order, so no callback fires twice |
| DbQueue.StopFiresEverything | server/src/db/DBWorker.cpp:18-38 | after stop, with no job throwing and none posted later, every callback has fired exactly once |
| DbQueue.JoinReturns | server/src/db/DBWorker.cpp:18-28 | while stop joins, the thread is never stuck and each of its steps brings its exit nearer |
| DbQueue.DbWorker.ProcessAll | server/src/db/DBWorker.cpp:58-68 | the inner loop processes the queued jobs, and any posted while it runs, in order, each calling back once with its status |
| DbQueue.DbWorker.Stop | server/src/db/DBWorker.cpp:30-37 | the drain gives every job left its callback with Error, in order |

## Left out

- RoomServer.Server.RouteEvent: looking up the worker and posting are one step. A post that comes later than its lookup is covered by letting a worker take any event of its queue (`ServerState.Take`), except that it takes those of the main thread in their order; nothing is claimed about the order between threads.
- RoomServer.Server.TakeEvent: takes the head; the transition system also allows other events of the queue.
- RoomServer.Server.CloseSession: reading the user's current room, routing the departures and removing the user are one step.
- RoomServer.Server.JoinRoom: entering the room and setting the user's current room are one step.
- RoomServer.Server.LeaveRoom: leaving the room, erasing it and erasing its binding are one step.
- DbQueue.FirstInFirstOut: condition-variable fairness; waiting is modelled as a step that is enabled when the wait's predicate holds.
- Epoll, eventfd, socket creation and ownership, and the EPOLLOUT handshake between workers and main thread; no claim that a stalled send queue is drained.
- libpq, reconnecting, accounts and the rest of the schema: the database is an append-only list of messages and a source of fresh room ids.
- The random choice between two workers: any ordinary worker may be chosen.
- Starting and stopping of the room workers, and events still queued when they stop.
- Printing, prompts, time formatting and reading of input lines in the client.
- Text tables and one-step mappings between enumerations.
