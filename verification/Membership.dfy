/**
  Where one disciplined client is, among any others: its session is always in one or two rooms, in two only in the
  middle of its own move, and whenever its client has no open request, server and client agree on the one room it is in,
  unless the history load of its last join failed.
 */
module Membership {
  import opened Bytes
  import opened RoomEvents
  import opened ServerState
  import opened History
  import opened Flights
  import opened Itinerary
  import opened Ownership
  import opened Requests
  import opened Tokens
  import opened Talk
  import opened Broadcasts
  import opened Places
  import opened Casting
  import opened Delivery
  import opened Rooms
  import opened Presence
  import opened Footing
  import opened Clients
  import opened Lines

  // ---- the events of a session ----

  predicate Mine(f: Flight, fd: Fd) {
    f.event.fd == fd && !f.event.plan.PlanFlush?
  }

  ghost predicate NoFlights(s: State, fd: Fd) {
    forall f | In(s, f) :: !Mine(f, fd)
  }

  /** `f` is the one event of the session in flight. */
  ghost predicate OnlyFlight(s: State, fd: Fd, f: Flight) {
    Count(s, f) == 1 && Mine(f, fd) && forall g | In(s, g) && Mine(g, fd) :: g == f
  }

  /** A disconnect event for the lobby that an earlier session of the descriptor left behind. */
  predicate Stale(f: Flight, fd: Fd) {
    f.event.fd == fd && f.event.plan == PlanDepart(LOBBY_ROOM_ID)
  }

  /** `f` is the one event of the session in flight; while it is queued stale ones may still be ahead of it. */
  ghost predicate ComesLast(s: State, fd: Fd, f: Flight) {
    && Count(s, f) == 1 && Mine(f, fd)
    && forall g | In(s, g) && Mine(g, fd) :: g == f || (f.place.Queued? && Stale(g, fd))
  }

  lemma OnlyMoves(s: State, t: State, fd: Fd, f: Flight, g: Flight)
    requires OnlyFlight(s, fd, f) && Moved(s, t, Some(f), Some(g)) && Mine(g, fd)
    ensures OnlyFlight(t, fd, g)
  {
    hide Count;
    assert g != f ==> !In(s, g);
  }

  lemma OnlyGoes(s: State, t: State, fd: Fd, f: Flight)
    requires OnlyFlight(s, fd, f) && Moved(s, t, Some(f), Nothing)
    ensures NoFlights(t, fd)
  {
    hide Count;
    assert forall g | In(t, g) :: In(s, g) && g != f;
  }

  lemma OnlyComes(s: State, t: State, fd: Fd, g: Flight)
    requires NoFlights(s, fd) && Moved(s, t, Nothing, Some(g)) && Mine(g, fd)
    ensures OnlyFlight(t, fd, g)
  {
    hide Count;
    assert !In(s, g);
  }

  function IfReply(p: Packet): seq<Packet> {
    if p.Response? then [p] else []
  }

  /** The responses among the packets. */
  function Replies(ps: seq<Packet>): seq<Packet> {
    if ps == [] then [] else IfReply(ps[0]) + Replies(ps[1..])
  }

  lemma RepliesUnfold(ps: seq<Packet>)
    ensures ps == [] ==> Replies(ps) == []
    ensures ps != [] ==> Replies(ps) == IfReply(ps[0]) + Replies(ps[1..])
  {}

  lemma {:induction false} RepliesAppend(a: seq<Packet>, b: seq<Packet>)
    ensures Replies(a + b) == Replies(a) + Replies(b)
  {
    hide Replies, IfReply;
    RepliesUnfold(a);
    if a == [] {
      assert a + b == b;
    } else {
      var rest := a[1..];
      RepliesUnfold(a + b);
      assert (a + b)[1..] == rest + b;
      RepliesAppend(rest, b);
      assert IfReply(a[0]) + (Replies(rest) + Replies(b)) == (IfReply(a[0]) + Replies(rest)) + Replies(b);
    }
  }

  /** The responses the client has not read. */
  function Unread(s: State, fd: Fd, read: nat): seq<Packet> {
    if read <= |Packed(s, fd)| then Replies(Packed(s, fd)[read..]) else []
  }

  // ---- where a session stands at each step of its request ----

  datatype Spot = Spot(rooms: set<RoomId>, current: RoomId)

  function Home(v: View): Spot {
    Spot({RoomOf(v)}, RoomOf(v))
  }

  /** Where a session without an event in flight is: where its client believes to be, unless it was led astray. */
  function Base(v: View, astray: Option<RoomId>): Spot {
    if astray.Some? then Spot({astray.value}, astray.value) else Home(v)
  }

  /** The rooms of the session and its current one, while its event is at this point of its recipe. */
  function SpotOf(e: Event, v: View): Spot {
    match e.plan
    case PlanCreate(r) =>
      if e.cursor <= 2 then Spot({LOBBY_ROOM_ID}, LOBBY_ROOM_ID)
      else if e.cursor <= 4 then Spot({LOBBY_ROOM_ID, r}, r) else Spot({r}, r)
    case PlanJoin(r) =>
      if e.cursor == 0 then Spot({LOBBY_ROOM_ID}, LOBBY_ROOM_ID)
      else if e.cursor <= 2 then Spot({LOBBY_ROOM_ID, r}, r) else Spot({r}, r)
    case PlanLeave(r) =>
      if e.cursor == 0 then Spot({r}, r)
      else if e.cursor <= 2 then Spot({LOBBY_ROOM_ID, r}, LOBBY_ROOM_ID) else Spot({LOBBY_ROOM_ID}, LOBBY_ROOM_ID)
    case PlanArrive => Spot(if e.cursor == 0 then {} else {LOBBY_ROOM_ID}, LOBBY_ROOM_ID)
    case _ => Home(v)
  }

  ghost predicate Stands(s: State, fd: Fd, spot: Spot) {
    RoomsOf(s, fd) == spot.rooms && fd in s.users && s.users[fd].room == spot.current
  }

  /** The event is the request `a` of a client whose view is `v`; only a join whose history load failed leads astray. */
  predicate Fits(e: Event, v: View, a: Asked, astray: Option<RoomId>) {
    && e.initial == a.command
    && (astray.Some? ==> e.plan == PlanJoin(astray.value) && e.cursor == 4 && Failed(e.result))
    && match e.plan
       case PlanCreate(_) => v.AtLobby?
       case PlanJoin(r) =>
         && v.AtLobby? && r == a.room && r != LOBBY_ROOM_ID
         && (e.cursor == 4 && astray.Nothing? ==> e.result == Success)
       case PlanLeave(r) => v == InRoom(r)
       case PlanSend(r) => v == InRoom(r)
       case PlanLoad(r) => v == InRoom(r)
       case PlanReject => true
       case _ => false
  }

  /** The accept-time JOIN is in flight. */
  ghost predicate Arriving(s: State, fd: Fd, c: Client, astray: Option<RoomId>, f: Flight) {
    && c.pending.Nothing? && c.wire.Nothing? && c.view.AtLobby? && Unread(s, fd, c.read) == [] && astray.Nothing?
    && ComesLast(s, fd, f) && f.event.plan.PlanArrive? && Stands(s, fd, SpotOf(f.event, c.view))
  }

  /** The lobby was full. */
  ghost predicate TurnedAway(s: State, fd: Fd, c: Client, astray: Option<RoomId>) {
    && c.pending.Nothing? && c.wire.Nothing? && NoFlights(s, fd) && RoomsOf(s, fd) == {} && astray.Nothing?
    && fd in s.users && s.users[fd].room == LOBBY_ROOM_ID
  }

  /** No event is in flight: no open request, or one still on the wire. */
  ghost predicate Resting(s: State, fd: Fd, c: Client, astray: Option<RoomId>) {
    && NoFlights(s, fd) && Stands(s, fd, Base(c.view, astray)) && Unread(s, fd, c.read) == [] && c.wire == c.pending
    && (c.pending.Some? ==> MayAsk(c.view, c.pending.value) && astray.Nothing?)
    && (astray.Some? ==> c.view.AtLobby? && astray.value != LOBBY_ROOM_ID)
  }

  ghost predicate Flying(s: State, fd: Fd, c: Client, astray: Option<RoomId>, f: Flight) {
    && c.pending.Some? && c.wire.Nothing? && Unread(s, fd, c.read) == [] && OnlyFlight(s, fd, f)
    && Fits(f.event, c.view, c.pending.value, astray) && Stands(s, fd, SpotOf(f.event, c.view))
  }

  predicate ViewOk(v: View) {
    v.InRoom? ==> v.room != LOBBY_ROOM_ID
  }

  /** The answer is on its way; the session already stands where the client will see it, unless it was led astray. */
  ghost predicate Replying(s: State, fd: Fd, c: Client, astray: Option<RoomId>) {
    && c.pending.Some? && c.wire.Nothing? && NoFlights(s, fd) && |Unread(s, fd, c.read)| == 1
    && var p := Unread(s, fd, c.read)[0];
       && p.Response? && p.command == c.pending.value.command && Stands(s, fd, Base(ViewAfter(c, p), astray))
       && ViewOk(ViewAfter(c, p))
       && (astray.Some? ==> p.status != Success && c.view.AtLobby? && astray.value != LOBBY_ROOM_ID)
  }

  ghost predicate Attached(s: State, fd: Fd, c: Client) {
    fd in s.users && c.read <= |Packed(s, fd)| && ViewOk(c.view)
  }

  /** The session has been let in and not been closed. */
  ghost predicate Seated(s: State, fd: Fd, c: Client, astray: Option<RoomId>) {
    Resting(s, fd, c, astray) || Replying(s, fd, c, astray) || exists f :: Flying(s, fd, c, astray, f)
  }

  ghost predicate ClientOk(s: State, fd: Fd, c: Client, astray: Option<RoomId>) {
    && Attached(s, fd, c)
    && (TurnedAway(s, fd, c, astray) || Seated(s, fd, c, astray) || exists f :: Arriving(s, fd, c, astray, f))
  }

  ghost predicate Departing(s: State, fd: Fd, r: RoomId) {
    exists f :: In(s, f) && f.event.fd == fd && f.event.plan == PlanDepart(r)
  }

  /** The one disconnect event for its room. */
  ghost predicate OnlyDepart(s: State, fd: Fd, f: Flight) {
    Count(s, f) == 1 && forall g | In(s, g) && g.event.fd == fd && g.event.plan == f.event.plan :: g == f
  }

  /** A disconnect event: for the lobby, or the only one for an ordinary room the session is still in. */
  ghost predicate Parts(s: State, fd: Fd, f: Flight) {
    && f.event.plan.PlanDepart?
    && (f.event.plan.room == LOBBY_ROOM_ID || (f.event.plan.room in RoomsOf(s, fd) && OnlyDepart(s, fd, f)))
  }

  /** A descriptor without a client: its events are disconnect events, and each room it is still in has one coming. */
  ghost predicate Gone(s: State, fd: Fd) {
    && fd !in s.users
    && (forall f | In(s, f) && Mine(f, fd) :: Parts(s, fd, f))
    && (forall r | r in RoomsOf(s, fd) :: Departing(s, fd, r))
  }

  /**
    The session was closed before its accept-time JOIN was done: that is in flight, with nothing but disconnect events
    for the lobby.
   */
  ghost predicate Fleeing(s: State, fd: Fd, f: Flight) {
    && fd !in s.users && f.event.plan.PlanArrive? && Count(s, f) == 1 && Mine(f, fd)
    && (forall g | In(s, g) && Mine(g, fd) :: g == f || Stale(g, fd))
    && RoomsOf(s, fd) == if f.event.cursor == 0 then {} else {LOBBY_ROOM_ID}
  }

  ghost predicate Away(s: State, fd: Fd) {
    Gone(s, fd) || exists f :: Fleeing(s, fd, f)
  }

  /** No request of the session was ever lost. */
  predicate NoneLost(s: State, fd: Fd) {
    forall i | 0 <= i < |s.log.dropped| :: s.log.dropped[i].fd != fd
  }

  ghost predicate SessionOk(s: State, fd: Fd, client: Option<Client>, astray: Option<RoomId>) {
    if client.Some? then ClientOk(s, fd, client.value, astray) else Away(s, fd) && astray.Nothing?
  }

  /** The lobby worker's queue has the descriptor's accept-time JOINs and disconnect events in their order. */
  predicate InFile(s: State, fd: Fd, connected: bool) {
    if connected then Lined(s, fd) else Trailed(s, fd)
  }

  ghost predicate SoloOk(x: Solo, fd: Fd) {
    && Ground(x.srv) && NoneLost(x.srv, fd) && InFile(x.srv, fd, x.client.Some?)
    && SessionOk(x.srv, fd, x.client, x.astray)
  }

  /** The session keeps its place, and a seat once it has one. */
  ghost predicate Remains(s: State, t: State, fd: Fd, c: Client, c': Client, a: Option<RoomId>, a': Option<RoomId>) {
    ClientOk(t, fd, c', a') && (Seated(s, fd, c, a) ==> Seated(t, fd, c', a'))
  }

  // ---- a step that does not concern a session ----

  ghost predicate SameUser(s: State, t: State, fd: Fd) {
    (fd in t.users <==> fd in s.users) && (fd in s.users ==> t.users[fd] == s.users[fd])
  }

  ghost predicate NoReplies(s: State, t: State, fd: Fd) {
    Packed(s, fd) <= Packed(t, fd) && Replies(Packed(t, fd)[|Packed(s, fd)|..]) == []
  }

  ghost predicate SameMine(s: State, t: State, fd: Fd) {
    forall f | Mine(f, fd) :: Count(t, f) == Count(s, f)
  }

  ghost predicate Spared(s: State, t: State, fd: Fd) {
    RoomsOf(t, fd) == RoomsOf(s, fd) && SameUser(s, t, fd) && NoReplies(s, t, fd) && SameMine(s, t, fd)
  }

  lemma UnreadSame(s: State, t: State, fd: Fd, read: nat)
    requires NoReplies(s, t, fd) && read <= |Packed(s, fd)|
    ensures read <= |Packed(t, fd)| && Unread(t, fd, read) == Unread(s, fd, read)
  {
    var p, q := Packed(s, fd), Packed(t, fd);
    assert q[read..] == p[read..] + q[|p|..];
    RepliesAppend(p[read..], q[|p|..]);
  }

  lemma UnreadMore(s: State, t: State, fd: Fd, read: nat, p: Packet)
    requires Packed(t, fd) == Packed(s, fd) + [p] && p.Response? && read <= |Packed(s, fd)|
    ensures read <= |Packed(t, fd)| && Unread(t, fd, read) == Unread(s, fd, read) + [p]
  {
    assert Packed(t, fd)[read..] == Packed(s, fd)[read..] + [p];
    RepliesAppend(Packed(s, fd)[read..], [p]);
    assert Replies([p]) == [p];
  }

  lemma FlightsSame(s: State, t: State, fd: Fd)
    requires SameMine(s, t, fd)
    ensures NoFlights(s, fd) ==> NoFlights(t, fd)
    ensures forall f | OnlyFlight(s, fd, f) :: OnlyFlight(t, fd, f)
    ensures forall f | ComesLast(s, fd, f) :: ComesLast(t, fd, f)
  {
    hide Count;
  }

  lemma SparedSeat(s: State, t: State, fd: Fd, c: Client, a: Option<RoomId>)
    requires Attached(s, fd, c) && Seated(s, fd, c, a) && Spared(s, t, fd)
    ensures Attached(t, fd, c) && Seated(t, fd, c, a)
  {
    hide Count, RoomsOf, Unread, NoReplies, SpotOf, Fits, OnlyFlight, NoFlights, SameMine, MayAsk, ViewAfter, Base;
    UnreadSame(s, t, fd, c.read);
    FlightsSame(s, t, fd);
    if Resting(s, fd, c, a) {
      assert Resting(t, fd, c, a);
    } else if Replying(s, fd, c, a) {
      assert Replying(t, fd, c, a);
    } else {
      var f :| Flying(s, fd, c, a, f);
      assert Flying(t, fd, c, a, f);
    }
  }

  lemma SparedClient(s: State, t: State, fd: Fd, c: Client, a: Option<RoomId>)
    requires ClientOk(s, fd, c, a) && Spared(s, t, fd)
    ensures Remains(s, t, fd, c, c, a, a)
  {
    hide Count, RoomsOf, Unread, NoReplies, SpotOf, OnlyFlight, ComesLast, NoFlights, SameMine, Seated;
    if Seated(s, fd, c, a) {
      SparedSeat(s, t, fd, c, a);
    } else {
      UnreadSame(s, t, fd, c.read);
      FlightsSame(s, t, fd);
      if TurnedAway(s, fd, c, a) {
        assert TurnedAway(t, fd, c, a);
      } else {
        var f :| Arriving(s, fd, c, a, f);
        assert Arriving(t, fd, c, a, f);
      }
    }
  }

  lemma SparedGone(s: State, t: State, fd: Fd)
    requires Gone(s, fd) && Spared(s, t, fd)
    ensures Gone(t, fd)
  {
    hide Count, RoomsOf, NoReplies;
    forall r | r in RoomsOf(t, fd) ensures Departing(t, fd, r) {
      assert Departing(s, fd, r);
      var f :| In(s, f) && f.event.fd == fd && f.event.plan == PlanDepart(r);
      assert Mine(f, fd);
      assert In(t, f);
    }
    forall f | In(t, f) && Mine(f, fd) ensures Parts(t, fd, f) {
      assert Parts(s, fd, f);
      forall g | In(t, g) && g.event.fd == fd && g.event.plan == f.event.plan ensures In(s, g) { assert Mine(g, fd); }
    }
  }

  lemma SparedFleeing(s: State, t: State, fd: Fd, f: Flight)
    requires Fleeing(s, fd, f) && Spared(s, t, fd)
    ensures Fleeing(t, fd, f)
  {
    hide Count, RoomsOf, NoReplies;
  }

  lemma SparedAway(s: State, t: State, fd: Fd)
    requires Away(s, fd) && Spared(s, t, fd)
    ensures Away(t, fd)
  {
    hide Gone, Fleeing, Spared;
    if Gone(s, fd) {
      SparedGone(s, t, fd);
    } else {
      var f :| Fleeing(s, fd, f);
      SparedFleeing(s, t, fd, f);
    }
  }

  /** Of a session and its client: the step keeps the place and the seat. */
  ghost predicate Carries(s: State, t: State, fd: Fd, client: Option<Client>, a: Option<RoomId>, a': Option<RoomId>) {
    && SessionOk(t, fd, client, a')
    && (client.Some? && Seated(s, fd, client.value, a) ==> Seated(t, fd, client.value, a'))
  }

  lemma SparedSession(s: State, t: State, fd: Fd, client: Option<Client>, a: Option<RoomId>)
    requires SessionOk(s, fd, client, a) && Spared(s, t, fd)
    ensures Carries(s, t, fd, client, a, a)
  {
    hide ClientOk, Away, Spared, Seated;
    if client.Some? { SparedClient(s, t, fd, client.value, a); } else { SparedAway(s, t, fd); }
  }

  // ---- one iteration of the action loop, for the session whose request it executes ----

  ghost predicate Walking(s: State, w: WorkerId, c: Client, a: Option<RoomId>) {
    && Own(s) && Moving(s, w) && NewRooms(s) && c.pending.Some? && ViewOk(c.view)
    && Fits(s.running[w], c.view, c.pending.value, a) && Stands(s, s.running[w].fd, SpotOf(s.running[w], c.view))
  }

  function Shifted(spot: Spot, ch: Change): Spot {
    Spot(Changed(spot.rooms, ch), if ch.Joined? then ch.room else spot.current)
  }

  /** The session moves on with its event, or is answered where its client will see it, unless it was led astray. */
  ghost predicate Walks(s: State, w: WorkerId, c: Client, a: Option<RoomId>, found: RoomId)
    requires w in s.running && c.pending.Some?
  {
    var e, ch, next := s.running[w], ChangeOf(s, w, found), NextFlight(s, w);
    var spot := Shifted(SpotOf(e, c.view), ch);
    && (ch.Joined? ==> ch.room !in SpotOf(e, c.view).rooms)
    && (next.Some? ==> Fits(next.value.event, c.view, c.pending.value, a) && SpotOf(next.value.event, c.view) == spot)
    && (next.Nothing? ==>
          && FateOf(s, w).Replied? && FateOf(s, w).event.initial == c.pending.value.command
          && (a.Some? ==> FateOf(s, w).event.result != Success && c.view.AtLobby? && a.value != LOBBY_ROOM_ID)
          && var v := ViewAfter(c, ResponseTo(FateOf(s, w).event)); Base(v, a) == spot && ViewOk(v))
  }

  lemma WalkCreate(s: State, w: WorkerId, c: Client, a: Option<RoomId>, found: RoomId)
    requires Walking(s, w, c, a) && s.running[w].plan.PlanCreate?
    ensures Walks(s, w, c, a, found)
  {
    hide Own, Count, RoomsOf, Bound, I64Bytes, I64Value;
    LobbyOpen(s);
    if s.running[w].cursor <= 2 { WalkCreateHere(s, w, c, a, found); } else { WalkCreateAway(s, w, c, a, found); }
  }

  lemma WalkCreateHere(s: State, w: WorkerId, c: Client, a: Option<RoomId>, found: RoomId)
    requires Walking(s, w, c, a) && s.running[w].plan.PlanCreate? && s.running[w].cursor <= 2
    ensures Walks(s, w, c, a, found)
  {
    hide Own, Count, RoomsOf, Bound, I64Bytes, I64Value;
    var e := s.running[w];
    var r := e.plan.room;
    if e.cursor == 0 {
    } else if e.cursor == 1 {
      if r != PENDING_ROOM_ID { CreateFits(s, w, r, found); }
    } else {
      assert JoinRoomCode(s, w, e.fd, r) == Success;
    }
  }

  lemma WalkCreateAway(s: State, w: WorkerId, c: Client, a: Option<RoomId>, found: RoomId)
    requires Walking(s, w, c, a) && s.running[w].plan.PlanCreate? && s.running[w].cursor > 2
    ensures Walks(s, w, c, a, found)
  {
    hide Own, Count, RoomsOf, Bound, I64Bytes, I64Value;
    var e := s.running[w];
    LobbyOpen(s);
    if e.cursor == 3 {
    } else if e.cursor == 4 {
      Standing(s, w, e.fd, LOBBY_ROOM_ID);
    } else {
      I64RoundTrip(e.plan.room);
      assert I64Bytes(e.plan.room)[..8] == I64Bytes(e.plan.room);
    }
  }

  lemma WalkJoin(s: State, w: WorkerId, c: Client, a: Option<RoomId>, found: RoomId)
    requires Walking(s, w, c, a) && s.running[w].plan.PlanJoin?
    ensures Walks(s, w, c, a, found)
  {
    hide Own, Count, RoomsOf, Bound, I64Bytes, I64Value;
    var e := s.running[w];
    LobbyOpen(s);
    if e.cursor == 0 {
      assert JoinRoomCode(s, w, e.fd, e.plan.room) != UserNotFound;
    } else if e.cursor == 1 {
    } else if e.cursor == 2 {
      Standing(s, w, e.fd, LOBBY_ROOM_ID);
    } else if e.cursor == 3 {
    } else {
    }
  }

  lemma WalkLeave(s: State, w: WorkerId, c: Client, a: Option<RoomId>, found: RoomId)
    requires Walking(s, w, c, a) && s.running[w].plan.PlanLeave?
    ensures Walks(s, w, c, a, found)
  {
    hide Own, Count, RoomsOf, Bound, I64Bytes, I64Value;
    var e := s.running[w];
    LobbyOpen(s);
    if e.cursor == 0 {
      assert JoinRoomCode(s, w, e.fd, LOBBY_ROOM_ID) != UserNotFound;
    } else if e.cursor == 1 {
      Standing(s, w, e.fd, e.plan.room);
    } else if e.cursor == 2 {
      Standing(s, w, e.fd, e.plan.room);
    } else {
    }
  }

  lemma WalkSend(s: State, w: WorkerId, c: Client, a: Option<RoomId>, found: RoomId)
    requires Walking(s, w, c, a)
    requires s.running[w].plan.PlanSend? || s.running[w].plan.PlanLoad? || s.running[w].plan.PlanReject?
    ensures Walks(s, w, c, a, found)
  {
    hide Own, Count, RoomsOf, Bound, I64Bytes, I64Value;
    var e := s.running[w];
    if e.cursor == 0 {} else if e.cursor == 1 {} else {}
  }

  lemma Walk(s: State, w: WorkerId, c: Client, a: Option<RoomId>, found: RoomId)
    requires Walking(s, w, c, a)
    ensures Walks(s, w, c, a, found)
  {
    match s.running[w].plan
    case PlanCreate(_) => WalkCreate(s, w, c, a, found);
    case PlanJoin(_) => WalkJoin(s, w, c, a, found);
    case PlanLeave(_) => WalkLeave(s, w, c, a, found);
    case PlanSend(_) => WalkSend(s, w, c, a, found);
    case PlanLoad(_) => WalkSend(s, w, c, a, found);
    case PlanReject => WalkSend(s, w, c, a, found);
  }

  // ---- the whole step of a worker ----

  lemma SilentNoReplies(s: State, t: State, w: WorkerId, fd: Fd)
    requires w in s.running && Says(s, t, SaidBy(s, w), JobsBy(s, w), HearersOf(s, w), PacketsOf(s, w))
    requires fd !in HearersOf(s, w)
    ensures NoReplies(s, t, fd) && Packed(t, fd) == Packed(s, fd)
  {
    hide HearersOf, PacketsOf, SaidBy, JobsBy;
    assert Packed(t, fd) == Packed(s, fd) + [];
    assert Packed(t, fd)[|Packed(s, fd)|..] == [];
  }

  lemma WorkSpares(s: State, t: State, w: WorkerId, found: RoomId, fd: Fd)
    requires Worked(s, t, w, found) && !Mine(Flight(Running(w), s.running[w]), fd)
    ensures Spared(s, t, fd) && (NoneLost(s, fd) ==> NoneLost(t, fd))
  {
    hide Count, RoomsOf, Exact, ChangeOf, NextFlight, FateOf, OnCourse, Bound, UserIdOf, NoReplies, StaysHome;
    NextMine(s, w);
    if s.running[w].plan.PlanFlush? { FlushSilent(s, w, found); }
    assert SameUser(s, t, fd);
    assert fd !in HearersOf(s, w);
    SilentNoReplies(s, t, w, fd);
  }

  lemma WorkFlies(s: State, t: State, w: WorkerId, found: RoomId, c: Client, a: Option<RoomId>)
    requires Own(s) && NewRooms(s) && Worked(s, t, w, found)
    requires Attached(s, s.running[w].fd, c) && Flying(s, s.running[w].fd, c, a, Flight(Running(w), s.running[w]))
    ensures Attached(t, s.running[w].fd, c) && Seated(t, s.running[w].fd, c, a) && t.log.dropped == s.log.dropped
  {
    hide Own, Count, RoomsOf, Exact, ChangeOf, NextFlight, NewRooms, SpotOf, Fits, ViewAfter, Unread, OnCourse, Bound;
    hide StaysHome, Base;
    var e, fd := s.running[w], s.running[w].fd;
    Walk(s, w, c, a, found);
    NextMine(s, w);
    var f := Flight(Running(w), e);
    FateFits(s, w);
    assert Stands(t, fd, Shifted(SpotOf(e, c.view), ChangeOf(s, w, found)));
    if NextFlight(s, w).Some? {
      var g := NextFlight(s, w).value;
      OnlyMoves(s, t, fd, f, g);
      OnwardSilent(s, w);
      SilentNoReplies(s, t, w, fd);
      UnreadSame(s, t, fd, c.read);
      assert Flying(t, fd, c, a, g);
    } else {
      OnlyGoes(s, t, fd, f);
      var p := ResponseTo(FateOf(s, w).event);
      RepliedOnce(s, t, w);
      UnreadMore(s, t, fd, c.read, p);
      assert Replying(t, fd, c, a);
    }
  }

  lemma ArriveWalks(s: State, w: WorkerId, found: RoomId)
    requires Own(s) && Moving(s, w) && s.running[w].plan.PlanArrive? && s.running[w].fd in s.users
    ensures var e, ch, next := s.running[w], ChangeOf(s, w, found), NextFlight(s, w);
            if e.cursor == 1 then ch == Stays && next.Nothing? && FateOf(s, w) == Lost(e)
            else if next.Some? then
              ch == Joined(LOBBY_ROOM_ID) && next.value.event.plan == PlanArrive && next.value.event.cursor == 1
            else ch == Stays && FateOf(s, w).Replied?
  {
    hide Own;
    LobbyOpen(s);
    if s.running[w].cursor == 1 {} else {}
  }

  lemma ArrivalIsNoRequest(s: State, w: WorkerId)
    requires Moving(s, w) && s.running[w].plan.PlanArrive?
    ensures !s.running[w].origin.Request? && s.running[w].cursor <= 1 && |s.running[w].actions| == 1
  {}

  lemma WorkArrives(s: State, t: State, w: WorkerId, found: RoomId, c: Client, a: Option<RoomId>)
    requires Own(s) && Worked(s, t, w, found)
    requires Attached(s, s.running[w].fd, c) && Arriving(s, s.running[w].fd, c, a, Flight(Running(w), s.running[w]))
    ensures ClientOk(t, s.running[w].fd, c, a) && t.log.dropped == s.log.dropped
  {
    hide Own, Count, RoomsOf, Exact, ChangeOf, NextFlight, Unread, OnCourse, Bound, StaysHome;
    var e, fd := s.running[w], s.running[w].fd;
    ArriveWalks(s, w, found);
    ArrivalIsNoRequest(s, w);
    NextMine(s, w);
    FateFits(s, w);
    var f := Flight(Running(w), e);
    assert OnlyFlight(s, fd, f);
    if NextFlight(s, w).Some? {
      OnlyMoves(s, t, fd, f, NextFlight(s, w).value);
      OnwardSilent(s, w);
      SilentNoReplies(s, t, w, fd);
      UnreadSame(s, t, fd, c.read);
      assert Arriving(t, fd, c, a, NextFlight(s, w).value);
    } else {
      OnlyGoes(s, t, fd, f);
      if e.cursor == 1 {
        LostSilent(s, w);
        SilentNoReplies(s, t, w, fd);
        UnreadSame(s, t, fd, c.read);
        assert Resting(t, fd, c, a);
      } else {
        RepliedOnce(s, t, w);
        assert TurnedAway(t, fd, c, a);
      }
    }
  }

  lemma DepartWalks(s: State, w: WorkerId, found: RoomId)
    requires Own(s) && Moving(s, w) && s.running[w].plan.PlanDepart?
    ensures var e, ch := s.running[w], ChangeOf(s, w, found);
            && !ch.Joined? && NextFlight(s, w).Nothing? && FateOf(s, w).Over? && e.target == e.plan.room
            && (LeaveRoomCode(s, w, e.fd, e.target) == Success ==> ch == Left(e.target))
            && e.target in s.log.home && s.log.home[e.target] == w
    ensures s.running[w].plan.room == LOBBY_ROOM_ID && LOBBY_ROOM_ID !in RoomsOf(s, s.running[w].fd) ==>
              w == LOBBY_WORKER_ID && ChangeOf(s, w, found) == Stays
  {
    LobbyOpen(s);
    OwnRooms(s);
    hide Own;
  }

  /** The lobby worker has only the lobby. */
  lemma OwnRooms(s: State)
    requires Own(s)
    ensures forall k | k in s.rooms && k.worker == LOBBY_WORKER_ID :: k.room == LOBBY_ROOM_ID
  {}

  lemma WorkDeparts(s: State, t: State, w: WorkerId, found: RoomId)
    requires Own(s) && Worked(s, t, w, found) && s.running[w].plan.PlanDepart? && Gone(s, s.running[w].fd)
    ensures Gone(t, s.running[w].fd) && t.log.dropped == s.log.dropped
  {
    hide Own, Count, RoomsOf, Exact, ChangeOf, NextFlight, Says, OnCourse, Bound, FateOf, StaysHome;
    var e, fd, ch := s.running[w], s.running[w].fd, ChangeOf(s, w, found);
    var f := Flight(Running(w), e);
    DepartWalks(s, w, found);
    assert Parts(s, fd, f);
    if e.target in RoomsOf(s, fd) { Standing(s, w, fd, e.target); }
    assert RoomsOf(t, fd) == RoomsOf(s, fd) - {e.target};
    forall g | In(t, g) && Mine(g, fd) ensures Parts(t, fd, g) {
      assert In(s, g) && Parts(s, fd, g);
      if g.event.plan.room != LOBBY_ROOM_ID { StillOnly(s, t, fd, f, g); }
    }
    forall r | r in RoomsOf(t, fd) ensures Departing(t, fd, r) {
      assert Departing(s, fd, r);
      var g :| In(s, g) && g.event.fd == fd && g.event.plan == PlanDepart(r);
      assert In(t, g);
    }
  }

  lemma StillOnly(s: State, t: State, fd: Fd, f: Flight, g: Flight)
    requires In(s, f) && Moved(s, t, Some(f), Nothing) && In(t, g) && OnlyDepart(s, fd, g) && f.event.fd == fd
    ensures OnlyDepart(t, fd, g) && g.event.plan != f.event.plan
  {
    hide Count;
    assert f != g;
    forall h | In(t, h) && h.event.fd == fd && h.event.plan == g.event.plan ensures h == g { assert In(s, h); }
  }

  /** A stale disconnect event finds the session not yet in the lobby. */
  lemma WorkStraggles(s: State, t: State, w: WorkerId, found: RoomId, c: Client, a: Option<RoomId>, h: Flight)
    requires Own(s) && Worked(s, t, w, found) && Attached(s, s.running[w].fd, c)
    requires Stale(Flight(Running(w), s.running[w]), s.running[w].fd)
    requires Arriving(s, s.running[w].fd, c, a, h) && h.place.Queued? && h.event.cursor == 0
    ensures ClientOk(t, s.running[w].fd, c, a) && t.log.dropped == s.log.dropped
  {
    hide Own, Count, RoomsOf, Exact, ChangeOf, NextFlight, Unread, OnCourse, Bound, StaysHome;
    var e, fd, f := s.running[w], s.running[w].fd, Flight(Running(w), s.running[w]);
    DepartWalks(s, w, found);
    DepartSilent(s, w);
    SilentNoReplies(s, t, w, fd);
    UnreadSame(s, t, fd, c.read);
    assert f != h && ComesLast(t, fd, h) by {
      forall g | In(t, g) && Mine(g, fd) ensures g == h || Stale(g, fd) { assert In(s, g); }
    }
    assert Arriving(t, fd, c, a, h);
  }

  lemma DepartSilent(s: State, w: WorkerId)
    requires w in s.running && FateOf(s, w).Over?
    ensures HearersOf(s, w) == {}
  {}

  /** The accept-time JOIN of a session whose user is gone: it may enter the lobby, and a disconnect event follows. */
  lemma FleeWalks(s: State, w: WorkerId, found: RoomId)
    requires Own(s) && Moving(s, w) && s.running[w].plan.PlanArrive? && s.running[w].fd !in s.users
    ensures NextFlight(s, w).Nothing? && !FateOf(s, w).Onward? && w == LOBBY_WORKER_ID
    ensures var ch := ChangeOf(s, w, found); ch == Stays || (ch == Joined(LOBBY_ROOM_ID) && s.running[w].cursor == 0)
  {
    LobbyOpen(s);
    hide Own;
    if s.running[w].cursor == 1 {} else {}
  }

  lemma WorkFlees(s: State, t: State, w: WorkerId, found: RoomId)
    requires Own(s) && Worked(s, t, w, found) && Trailed(s, s.running[w].fd)
    requires Fleeing(s, s.running[w].fd, Flight(Running(w), s.running[w]))
    ensures Gone(t, s.running[w].fd) && t.log.dropped == s.log.dropped
  {
    hide Own, Count, RoomsOf, Exact, ChangeOf, NextFlight, Says, OnCourse, Bound, FateOf, StaysHome, Queue;
    var fd, f := s.running[w].fd, Flight(Running(w), s.running[w]);
    FleeWalks(s, w, found);
    ArrivalIsNoRequest(s, w);
    FateFits(s, w);
    forall g | In(t, g) && Mine(g, fd) ensures Parts(t, fd, g) { assert In(s, g) && g != f; }
    assert RoomsOf(t, fd) <= {LOBBY_ROOM_ID};
    OwnStaffed(s);
    var q := Queue(s, LOBBY_WORKER_ID);
    var j :| 0 <= j < |q| && Departs(q[j], fd);
    QueuedIn(s, LOBBY_WORKER_ID, j);
    var g := Flight(Queued(LOBBY_WORKER_ID), q[j]);
    assert In(t, g) && Stale(g, fd);
    assert Departing(t, fd, LOBBY_ROOM_ID);
  }

  lemma ArrivalPlace(home: map<RoomId, WorkerId>, f: Flight)
    requires OnCourse(home, f) && f.event.plan.PlanArrive?
    ensures LOBBY_ROOM_ID in home
    ensures (f.place == Queued(home[LOBBY_ROOM_ID]) && f.event.cursor == 0) || f.place == Running(home[LOBBY_ROOM_ID])
  {}

  lemma WorkTrails(s: State, t: State, w: WorkerId, found: RoomId, h: Flight)
    requires Own(s) && Worked(s, t, w, found) && Stale(Flight(Running(w), s.running[w]), s.running[w].fd)
    requires Fleeing(s, s.running[w].fd, h) && h != Flight(Running(w), s.running[w])
    ensures Fleeing(t, s.running[w].fd, h) && t.log.dropped == s.log.dropped
  {
    hide Own, Count, RoomsOf, Exact, ChangeOf, NextFlight, OnCourse, Bound, StaysHome, Says;
    var fd, f := s.running[w].fd, Flight(Running(w), s.running[w]);
    OwnFlight(s, h);
    LobbyOpen(s);
    ArrivalPlace(s.log.home, h);
    DepartPlace(s.log.home, f);
    if h.place.Running? { RunningIs(s, h); }
    DepartWalks(s, w, found);
    forall g | In(t, g) && Mine(g, fd) ensures g == h || Stale(g, fd) { assert In(s, g); }
  }

  lemma WorkAway(s: State, t: State, w: WorkerId, found: RoomId)
    requires w in s.running && Own(s) && Worked(s, t, w, found) && Trailed(s, s.running[w].fd)
    requires Behind(s, s.running[w].fd, Nothing, Nothing, Flight(Running(w), s.running[w]))
    ensures Away(t, s.running[w].fd) && t.log.dropped == s.log.dropped
  {
    hide Own, Worked, Trailed, Gone, Fleeing;
    var fd, f := s.running[w].fd, Flight(Running(w), s.running[w]);
    if Gone(s, fd) && f.event.plan.PlanDepart? {
      WorkDeparts(s, t, w, found);
    } else if Fleeing(s, fd, f) {
      WorkFlees(s, t, w, found);
    } else {
      var h :| h != f && Fleeing(s, fd, h);
      WorkTrails(s, t, w, found, h);
    }
  }

  /** A stale disconnect event ahead of the accept-time JOIN. */
  ghost predicate Straggling(s: State, fd: Fd, c: Client, a: Option<RoomId>, f: Flight) {
    Stale(f, fd) && exists h :: h != f && h.place.Queued? && Arriving(s, fd, c, a, h)
  }

  /** A disconnect event with the accept-time JOIN still in flight. */
  ghost predicate Trails(s: State, fd: Fd, f: Flight) {
    Stale(f, fd) && exists h :: h != f && Fleeing(s, fd, h)
  }

  /** What an event in flight says about its session. */
  ghost predicate Behind(s: State, fd: Fd, client: Option<Client>, a: Option<RoomId>, f: Flight) {
    if client.Some? then
      && Attached(s, fd, client.value)
      && (|| Arriving(s, fd, client.value, a, f) || Flying(s, fd, client.value, a, f)
          || Straggling(s, fd, client.value, a, f))
    else a.Nothing? && ((Gone(s, fd) && f.event.plan.PlanDepart?) || Fleeing(s, fd, f) || Trails(s, fd, f))
  }

  lemma WhoseFlight(s: State, fd: Fd, client: Option<Client>, a: Option<RoomId>, f: Flight)
    requires SessionOk(s, fd, client, a) && In(s, f) && Mine(f, fd)
    ensures Behind(s, fd, client, a, f)
  {
    hide Count, Unread, Stands, Fits, SpotOf, RoomsOf, MayAsk, ViewAfter, Base;
    if client.Some? {
      var c := client.value;
      assert !NoFlights(s, fd);
      if g :| Arriving(s, fd, c, a, g) {
        assert g == f || Straggling(s, fd, c, a, f);
      } else {
        var h :| Flying(s, fd, c, a, h);
        assert h == f;
      }
    } else if Gone(s, fd) {
      assert Parts(s, fd, f);
    } else {
      var h :| Fleeing(s, fd, h);
      assert h == f || Trails(s, fd, f);
    }
  }

  lemma WorkSession(s: State, w: WorkerId, found: RoomId, fd: Fd, client: Option<Client>, a: Option<RoomId>)
    requires Ground(s) && w in s.running && NoneLost(s, fd) && SessionOk(s, fd, client, a)
    requires InFile(s, fd, client.Some?)
    ensures Carries(s, Act(s, w, found), fd, client, a, a) && NoneLost(Act(s, w, found), fd)
  {
    GroundOwns(s);
    hide Own, Account, Roomy, Distinct, Act, Seated, Arriving, Flying, TurnedAway, Attached, Gone, Fleeing, Spared,
         Worked, Lined, Trailed, Count;
    var t, f := Act(s, w, found), Flight(Running(w), s.running[w]);
    WorkIsWorked(s, w, found);
    OwnStaffed(s);
    RunningIsIn(s, w);
    if !Mine(f, fd) {
      WorkSpares(s, t, w, found, fd);
      SparedSession(s, t, fd, client, a);
    } else {
      WhoseFlight(s, fd, client, a, f);
      if client.Nothing? {
        WorkAway(s, t, w, found);
      } else if Flying(s, fd, client.value, a, f) {
        WorkFlies(s, t, w, found, client.value, a);
      } else if Arriving(s, fd, client.value, a, f) {
        ArrivingNoSeat(s, fd, client.value, a, f);
        WorkArrives(s, t, w, found, client.value, a);
      } else {
        var h :| h != f && h.place.Queued? && Arriving(s, fd, client.value, a, h);
        ArrivingNoSeat(s, fd, client.value, a, h);
        QueuedArrival(s, fd, client.value, a, h);
        WorkStraggles(s, t, w, found, client.value, a, h);
      }
    }
  }

  lemma QueuedArrival(s: State, fd: Fd, c: Client, a: Option<RoomId>, h: Flight)
    requires Own(s) && Arriving(s, fd, c, a, h) && h.place.Queued?
    ensures h.event.cursor == 0 && h.place == Queued(LOBBY_WORKER_ID) && RoomsOf(s, fd) == {}
  {
    hide Own, Count, RoomsOf;
    OwnFlight(s, h);
    LobbyOpen(s);
  }

  lemma ArrivingNoSeat(s: State, fd: Fd, c: Client, a: Option<RoomId>, f: Flight)
    requires Arriving(s, fd, c, a, f)
    ensures !Seated(s, fd, c, a)
  {
    hide Count, Unread, Stands, SpotOf, RoomsOf, MayAsk, ViewAfter, Base;
    assert In(s, f) && Mine(f, fd);
    forall g ensures !Flying(s, fd, c, a, g) {}
  }

  // ---- steps that only move an event ----

  ghost predicate QuietServer(s: State, t: State) {
    t.rooms == s.rooms && t.users == s.users && Says(s, t, [], [], {}, [])
  }

  lemma QuietPacked(s: State, t: State, fd: Fd)
    requires Says(s, t, [], [], {}, [])
    ensures Packed(t, fd) == Packed(s, fd) && NoReplies(s, t, fd)
  {
    assert Packed(t, fd) == Packed(s, fd) + [];
    assert Packed(t, fd)[|Packed(s, fd)|..] == [];
  }

  predicate NotMine(o: Option<Flight>, fd: Fd) {
    o.Some? ==> !Mine(o.value, fd)
  }

  lemma MovesSpare(s: State, t: State, gone: Option<Flight>, come: Option<Flight>, fd: Fd)
    requires Moved(s, t, gone, come) && t.rooms == s.rooms && SameUser(s, t, fd) && Says(s, t, [], [], {}, [])
    requires NotMine(gone, fd) && NotMine(come, fd)
    ensures Spared(s, t, fd)
  {
    hide Count, Says;
    QuietPacked(s, t, fd);
    SameRooms(s, t, fd);
  }

  /** `g` is `f` one step on, its session standing where it stood. */
  predicate Follows(f: Flight, g: Flight, fd: Fd, client: Option<Client>, a: Option<RoomId>, a': Option<RoomId>) {
    && Mine(f, fd) && Mine(g, fd)
    && (f.event.plan.PlanArrive? <==> g.event.plan.PlanArrive?) && (f.event.plan.PlanArrive? ==> g.event == f.event)
    && (f.event.plan.PlanDepart? ==> g.event.plan == f.event.plan)
    && (f.event.plan.PlanArrive? || f.event.plan.PlanDepart? ==> a' == a)
    && (client.Some? ==>
          var c := client.value;
          && SpotOf(g.event, c.view) == SpotOf(f.event, c.view)
          && (c.pending.Some? && Fits(f.event, c.view, c.pending.value, a) ==>
                Fits(g.event, c.view, c.pending.value, a')))
  }

  lemma MovesFly(s: State, t: State, fd: Fd, c: Client, a: Option<RoomId>, a': Option<RoomId>, f: Flight, g: Flight)
    requires Attached(s, fd, c) && Moved(s, t, Some(f), Some(g)) && QuietServer(s, t)
    requires Follows(f, g, fd, Some(c), a, a') && (f.event.plan.PlanArrive? ==> OnlyFlight(s, fd, f))
    ensures Attached(t, fd, c)
    ensures Flying(s, fd, c, a, f) ==> Flying(t, fd, c, a', g)
    ensures Arriving(s, fd, c, a, f) ==> Arriving(t, fd, c, a', g)
  {
    hide Count, Says, SpotOf, Fits, Unread, NoReplies;
    QuietPacked(s, t, fd);
    UnreadSame(s, t, fd, c.read);
    if OnlyFlight(s, fd, f) { OnlyMoves(s, t, fd, f, g); }
    SameRooms(s, t, fd);
    hide RoomsOf, OnlyFlight;
  }

  /** A stale event moves; the accept-time JOIN stays behind it. */
  lemma MovesStraggler(s: State, t: State, fd: Fd, c: Client, a: Option<RoomId>, f: Flight, g: Flight)
    requires Attached(s, fd, c) && Straggling(s, fd, c, a, f) && In(s, f) && Moved(s, t, Some(f), Some(g))
    requires QuietServer(s, t) && Mine(g, fd) && g.event.plan == f.event.plan
    ensures ClientOk(t, fd, c, a) && !Seated(s, fd, c, a)
  {
    hide Count, Says, SpotOf, Fits, Unread, NoReplies, RoomsOf, Seated;
    var h :| h != f && h.place.Queued? && Arriving(s, fd, c, a, h);
    ArrivingNoSeat(s, fd, c, a, h);
    QuietPacked(s, t, fd);
    UnreadSame(s, t, fd, c.read);
    SameRooms(s, t, fd);
    assert g != h;
    forall k | In(t, k) && Mine(k, fd) ensures k == h || Stale(k, fd) { assert k == g || In(s, k); }
    assert ComesLast(t, fd, h);
    assert Arriving(t, fd, c, a, h);
  }

  lemma MovesGone(s: State, t: State, fd: Fd, f: Flight, g: Flight)
    requires Gone(s, fd) && In(s, f) && Mine(f, fd) && f.event.plan.PlanDepart? && g.event.plan == f.event.plan
    requires g.event.fd == fd
    requires Moved(s, t, Some(f), Some(g)) && QuietServer(s, t)
    ensures Gone(t, fd)
  {
    hide Count, Says;
    SameRooms(s, t, fd);
    hide RoomsOf;
    forall r | r in RoomsOf(t, fd) ensures Departing(t, fd, r) {
      assert Departing(s, fd, r);
      var h :| In(s, h) && h.event.fd == fd && h.event.plan == PlanDepart(r);
      if h == f { assert In(t, g); } else { assert In(t, h); }
    }
    forall h | In(t, h) && Mine(h, fd) ensures Parts(t, fd, h) {
      assert h == g || In(s, h);
      assert Parts(s, fd, if h == g then f else h);
      if h.event.plan.room != LOBBY_ROOM_ID { MovedOnly(s, t, fd, f, g, h); }
    }
  }

  lemma MovedOnly(s: State, t: State, fd: Fd, f: Flight, g: Flight, h: Flight)
    requires In(s, f) && Moved(s, t, Some(f), Some(g)) && f.event.fd == fd && g.event.fd == fd
    requires g.event.plan == f.event.plan && In(t, h) && OnlyDepart(s, fd, if h == g then f else h)
    ensures OnlyDepart(t, fd, h)
  {
    hide Count;
    if h == g {
      assert g != f ==> !In(s, g);
      forall k | In(t, k) && k.event.fd == fd && k.event.plan == h.event.plan
          ensures k == h { assert k == g || In(s, k); }
    } else {
      assert In(s, h) && (h.event.plan == f.event.plan && h.event.fd == fd ==> h == f);
      forall k | In(t, k) && k.event.fd == fd && k.event.plan == h.event.plan
          ensures k == h { assert k == g || In(s, k); }
    }
  }

  lemma HandedOn(s: State, t: State, f: Flight, g: Flight, fd: Fd, client: Option<Client>, a: Option<RoomId>,
                 a': Option<RoomId>)
    requires SessionOk(s, fd, client, a) && In(s, f) && Moved(s, t, Some(f), Some(g)) && QuietServer(s, t)
    requires Follows(f, g, fd, client, a, a')
    requires client.Some? && f.event.plan.PlanArrive? ==> OnlyFlight(s, fd, f)
    ensures Carries(s, t, fd, client, a, a')
  {
    hide Count, Gone, Fleeing, Arriving, Flying, Attached, Says, SpotOf, Fits, Moved, Resting, Replying, TurnedAway;
    WhoseFlight(s, fd, client, a, f);
    if client.Some? {
      var c := client.value;
      if Straggling(s, fd, c, a, f) {
        MovesStraggler(s, t, fd, c, a, f, g);
      } else {
        MovesFly(s, t, fd, c, a, a', f, g);
        if Arriving(s, fd, c, a, f) { ArrivingNoSeat(s, fd, c, a, f); }
      }
    } else if Gone(s, fd) && f.event.plan.PlanDepart? {
      MovesGone(s, t, fd, f, g);
    } else if Fleeing(s, fd, f) {
      FleeingArrives(s, fd, f);
      MovesFleeing(s, t, fd, f, g, f);
    } else {
      var h :| h != f && Fleeing(s, fd, h);
      MovesFleeing(s, t, fd, f, g, h);
    }
  }

  lemma FleeingArrives(s: State, fd: Fd, f: Flight)
    requires Fleeing(s, fd, f)
    ensures f.event.plan.PlanArrive?
  {}

  lemma MovesFleeing(s: State, t: State, fd: Fd, f: Flight, g: Flight, h: Flight)
    requires Fleeing(s, fd, h) && In(s, f) && Moved(s, t, Some(f), Some(g)) && QuietServer(s, t)
    requires g.event.fd == fd && g.event.plan == f.event.plan && (if f == h then g.event == f.event else Stale(f, fd))
    ensures Fleeing(t, fd, if f == h then g else h)
  {
    hide Count, Says;
    SameRooms(s, t, fd);
    hide RoomsOf;
    assert g != f ==> f != h || !In(s, g);
    forall k | In(t, k) && Mine(k, fd) ensures k == (if f == h then g else h) || Stale(k, fd) {
      assert k == g || In(s, k);
    }
  }

  lemma StartSession(s: State, w: WorkerId, k: nat, fd: Fd, client: Option<Client>, a: Option<RoomId>)
    requires Own(s) && SessionOk(s, fd, client, a) && 1 <= w <= s.n && w !in s.running && k < |Queue(s, w)|
    requires InFile(s, fd, client.Some?) && InTurn(Queue(s, w), k)
    ensures Carries(s, Take(s, w, k), fd, client, a, a)
  {
    hide Own, Count, SessionOk, Says, SpotOf, Fits, RoomsOf, Spared, Carries, Lined, Trailed, InTurn;
    var t, e := Take(s, w, k), Queue(s, w)[k];
    var f, g := Flight(Queued(w), e), Flight(Running(w), e);
    StartMoves(s, w, k);
    SilentSays(s, t, {});
    if Mine(f, fd) {
      if client.Some? && e.plan.PlanArrive? { ArrivesInTurn(s, w, k, fd, client, a); }
      HandedOn(s, t, f, g, fd, client, a, a);
    } else {
      MovesSpare(s, t, Some(f), Some(g), fd);
      SparedSession(s, t, fd, client, a);
    }
  }

  /** When the accept-time JOIN is taken, no stale disconnect event is left. */
  lemma ArrivesInTurn(s: State, w: WorkerId, k: nat, fd: Fd, client: Option<Client>, a: Option<RoomId>)
    requires Own(s) && SessionOk(s, fd, client, a) && 1 <= w <= s.n && w !in s.running && k < |Queue(s, w)|
    requires client.Some? && Lined(s, fd) && InTurn(Queue(s, w), k) && Arrives(Queue(s, w)[k], fd)
    ensures OnlyFlight(s, fd, Flight(Queued(w), Queue(s, w)[k]))
  {
    hide Own, Count, SessionOk, SpotOf, RoomsOf, Lined, InTurn, Unread, Queue, OnCourse, Attached;
    var f := Flight(Queued(w), Queue(s, w)[k]);
    QueuedIn(s, w, k);
    WhoseFlight(s, fd, client, a, f);
    var c := client.value;
    assert Arriving(s, fd, c, a, f);
    QueuedArrival(s, fd, c, a, f);
    forall i | 0 <= i < |Queue(s, w)| ensures Arrives(Queue(s, w)[i], fd) || Departs(Queue(s, w)[i], fd) ==>
                                               !Queue(s, w)[i].origin.Request?
    {
      QueuedIn(s, w, i);
      OwnFlight(s, Flight(Queued(w), Queue(s, w)[i]));
      NoRequest(s.log.home, Flight(Queued(w), Queue(s, w)[i]));
    }
    assert Sorted(Queue(s, w), fd) by { LinedSorted(s, fd); }
    ArrivalLast(Queue(s, w), k, fd);
    forall g | In(s, g) && Mine(g, fd) ensures g == f {
      if g != f {
        OwnFlight(s, g);
        LobbyOpen(s);
        DepartPlace(s.log.home, g);
        if g.place.Queued? { QueuedIs(s, g); } else { RunningIs(s, g); }
      }
    }
  }

  lemma LinedSorted(s: State, fd: Fd)
    requires Lined(s, fd)
    ensures Sorted(Queue(s, LOBBY_WORKER_ID), fd)
  {}

  lemma NoRequest(home: map<RoomId, WorkerId>, f: Flight)
    requires OnCourse(home, f)
    ensures f.event.plan.PlanArrive? || f.event.plan.PlanDepart? ==> !f.event.origin.Request?
  {}

  lemma DepartPlace(home: map<RoomId, WorkerId>, f: Flight)
    requires OnCourse(home, f) && f.event.plan == PlanDepart(LOBBY_ROOM_ID)
    ensures LOBBY_ROOM_ID in home
    ensures f.place == Queued(home[LOBBY_ROOM_ID]) || f.place == Running(home[LOBBY_ROOM_ID])
  {}

  lemma TickSpares(s: State, d: Fd, garbage: Command, fd: Fd)
    requires Own(s)
    ensures Spared(s, RequestFlush(s, d, garbage), fd) && RequestFlush(s, d, garbage).log.dropped == s.log.dropped
  {
    hide Own, Count, Says, RoomsOf, Spared, Route, FindWorker;
    var t := RequestFlush(s, d, garbage);
    OwnStaffed(s);
    if d in s.users {
      var e := FlushEvent(d, s.users[d].room, garbage);
      RouteFlights(s, e);
      RouteSays(s, e, {});
      RouteTally(s, e);
      RouteFields(s, e);
      var w := FindWorker(s, e.target);
      if w == 0 {
        MovesSpare(s, t, Nothing, Nothing, fd);
      } else {
        MovesSpare(s, t, Nothing, Some(Flight(Queued(w), e.(hops := e.hops + 1))), fd);
      }
    } else {
      SilentSays(s, s, {});
      MovesSpare(s, t, Nothing, Nothing, fd);
    }
  }

  // ---- the DB thread ----

  /** The DB callback finds the worker of a session that waits for its history. */
  lemma LoadFound(s: State, c: Client, a: Option<RoomId>, e: Event, room: RoomId, before: int64)
    requires Own(s) && OnCourse(s.log.home, Flight(AwaitsHistory(room, before), e))
    requires c.pending.Some? && Fits(e, c.view, c.pending.value, a) && Stands(s, e.fd, SpotOf(e, c.view))
    ensures FindWorker(s, LastRoom(e)) != 0 && a.Nothing?
  {
    hide Own, RoomsOf;
    match e.plan
    case PlanJoin(r) => Standing(s, 0, e.fd, r);
    case PlanLoad(r) => Standing(s, 0, e.fd, r);
  }

  lemma Waiting(home: map<RoomId, WorkerId>, f: Flight)
    requires OnCourse(home, f) && (f.place.AwaitsRoom? || f.place.AwaitsHistory? || f.place.Crossing?)
    ensures f.event.plan.PlanCreate? || f.event.plan.PlanJoin? || f.event.plan.PlanLoad?
    ensures f.place.AwaitsRoom? || f.place.Crossing? ==> f.event.plan.PlanCreate? && f.event.cursor == 1
    ensures f.place.AwaitsHistory? ==> !f.event.plan.PlanCreate? && (f.event.plan.PlanJoin? ==> f.event.cursor == 4)
  {}

  /** The loaded event differs in its result, body and place only. */
  lemma LoadFollows(s: State, e: Event, room: RoomId, before: int64, o: DbOutcome)
    requires o.Loaded? || (o.NotLoaded? && Failed(o.code))
    ensures var g := LoadResult(s, e, room, before, o);
            g.fd == e.fd && g.plan == e.plan && g.cursor == e.cursor && g.initial == e.initial
                && g.target == LastRoom(e)
            && (if o.Loaded? then g.result == Success else Failed(g.result))
  {}

  function AstrayAfter(s: State, step: Step, fd: Fd, a: Option<RoomId>): Option<RoomId> {
    if FailsJoin(s, step, fd) then Some(s.jobs[0].event.plan.room) else a
  }

  lemma QueryFollows(s: State, o: DbOutcome, fd: Fd, client: Option<Client>, a: Option<RoomId>)
    requires Own(s) && SessionOk(s, fd, client, a) && s.jobs != [] && OutcomeOk(s, s.jobs[0], o)
    requires !s.jobs[0].SaveJob? && s.jobs[0].event.fd == fd
    ensures QueryGone(s).Some? && QueryCome(s, o).Some? && In(s, QueryGone(s).value)
    ensures !QueryGone(s).value.event.plan.PlanArrive?
    ensures Follows(QueryGone(s).value, QueryCome(s, o).value, fd, client, a, AstrayAfter(s, Query(o), fd, a))
  {
    hide Own, Count, Gone, OnlyFlight, Stands, Unread, OnCourse, Resolve, FindWorker, Resting, Replying, TurnedAway;
    var e := s.jobs[0].event;
    HeadIsIn(s);
    var f := QueryGone(s).value;
    OwnFlight(s, f);
    if s.jobs[0].CreateJob? {
      assert f == Flight(AwaitsRoom, e);
      Waiting(s.log.home, f);
    } else if s.jobs[0].HandJob? {
      assert f == Flight(Crossing(s.jobs[0].worker), e);
      Waiting(s.log.home, f);
    } else {
      var room, before := s.jobs[0].room, s.jobs[0].before;
      assert f == Flight(AwaitsHistory(room, before), e);
      Waiting(s.log.home, f);
      WhoseFlight(s, fd, client, a, f);
      LoadFound(s, client.value, a, e, room, before);
      LoadFollows(s, e, room, before, o);
    }
  }

  lemma QuerySpares(s: State, o: DbOutcome, fd: Fd)
    requires Own(s) && s.jobs != [] && OutcomeOk(s, s.jobs[0], o) && (s.jobs[0].SaveJob? || s.jobs[0].event.fd != fd)
    ensures Spared(s, FinishJob(s, o), fd) && (NoneLost(s, fd) ==> NoneLost(FinishJob(s, o), fd))
  {
    hide Own, Count, Says, RoomsOf, OnCourse, FinishJob, QueryCome, OutcomeOk, JobPlace, Spared;
    var t := FinishJob(s, o);
    QueryMoves(s, o);
    QuerySays(s, o);
    QueryPlaces(s, o);
    QueryTally(s, o);
    if s.jobs[0].SaveJob? {
      QueryNothing(s, o);
      MovesSpare(s, t, Nothing, Nothing, fd);
    } else {
      OwnFlight(s, QueryGone(s).value);
      QueryKeepsOrigin(s, o);
      QueryMine(s, o);
      MovesSpare(s, t, QueryGone(s), QueryCome(s, o), fd);
    }
  }

  lemma QuerySession(s: State, o: DbOutcome, fd: Fd, client: Option<Client>, a: Option<RoomId>)
    requires Own(s) && NoneLost(s, fd) && SessionOk(s, fd, client, a) && s.jobs != [] && OutcomeOk(s, s.jobs[0], o)
    ensures Carries(s, FinishJob(s, o), fd, client, a, AstrayAfter(s, Query(o), fd, a))
    ensures NoneLost(FinishJob(s, o), fd)
  {
    hide Own, Count, SessionOk, Says, SpotOf, Fits, RoomsOf, OnCourse, FinishJob, QueryCome, Follows, OutcomeOk,
         JobPlace;
    hide Carries, Spared;
    var t := FinishJob(s, o);
    if s.jobs[0].SaveJob? || s.jobs[0].event.fd != fd {
      QuerySpares(s, o, fd);
      SparedSession(s, t, fd, client, a);
    } else {
      QueryMoves(s, o);
      QuerySays(s, o);
      QueryPlaces(s, o);
      QueryTally(s, o);
      OwnFlight(s, QueryGone(s).value);
      QueryKeepsOrigin(s, o);
      QueryFollows(s, o, fd, client, a);
      HandedOn(s, t, QueryGone(s).value, QueryCome(s, o).value, fd, client, a, AstrayAfter(s, Query(o), fd, a));
    }
  }

  /** The callback keeps the session of its event. */
  lemma QueryMine(s: State, o: DbOutcome)
    requires s.jobs != [] && !s.jobs[0].SaveJob?
    ensures QueryGone(s).Some? && QueryGone(s).value.event.fd == s.jobs[0].event.fd
    ensures QueryCome(s, o).Some? ==> QueryCome(s, o).value.event.fd == s.jobs[0].event.fd
    ensures QueryFate(s, o).Lost? ==> QueryFate(s, o).event.fd == s.jobs[0].event.fd
  {
    hide FindWorker, Resolve;
  }

  // ---- the loop over the members ----

  lemma LoopSpares(s: State, step: Step, fd: Fd)
    requires TellsBroadcasts(s) && Enabled(s, step) && (step.Look? || step.Give?)
    ensures Spared(s, Apply(s, step), fd) && Apply(s, step).log == s.log
  {
    hide Count, RoomsOf, NoReplies;
    var t, w := Apply(s, step), step.w;
    SameFlights(s, t);
    SameRooms(s, t, fd);
    if step.Give? {
      GivePacked(s, w, fd);
      ToldNoReply(s, t, fd, if fd == s.casts[w].chosen.value then [s.casts[w].packet] else []);
    } else {
      ToldNoReply(s, t, fd, []);
    }
  }

  lemma ToldNoReply(s: State, t: State, fd: Fd, ps: seq<Packet>)
    requires Packed(t, fd) == Packed(s, fd) + ps && |ps| <= 1 && forall i | 0 <= i < |ps| :: ps[i].Broadcast?
    ensures NoReplies(s, t, fd)
  {
    assert Packed(t, fd)[|Packed(s, fd)|..] == ps;
    if ps != [] { assert Replies(ps) == Replies(ps[1..]); }
  }

  // ---- other clients ----

  lemma AcceptSpares(s: State, d: Fd, id: int64, garbage: Command, fd: Fd)
    requires Own(s) && d != fd && Unused(s, d)
    ensures Spared(s, AcceptClient(s, d, id, garbage), fd) && AcceptClient(s, d, id, garbage).log == s.log
  {
    hide Own, Count, Says, RoomsOf, Spared, Unused;
    var t := AcceptClient(s, d, id, garbage);
    OwnStaffed(s);
    AcceptMoves(s, d, id, garbage);
    SilentStep(s, Accept(d, id, garbage));
    MovesSpare(s, t, Nothing, Some(Flight(Queued(LOBBY_WORKER_ID), ArrivalEvent(d, garbage))), fd);
  }

  lemma AskQuiet(s: State, fd: Fd, cmd: Command, room: RoomId, body: seq<byte>)
    ensures var t := Dispatch(s, fd, cmd, room, body);
            && t.rooms == s.rooms && t.users == s.users && t.running == s.running && t.casts == s.casts
            && t.log.dropped == s.log.dropped
  {}

  lemma AskSpares(s: State, d: Fd, cmd: Command, room: RoomId, body: seq<byte>, fd: Fd)
    requires Own(s) && d != fd
    ensures Spared(s, Dispatch(s, d, cmd, room, body), fd)
            && Dispatch(s, d, cmd, room, body).log.dropped == s.log.dropped
  {
    hide Own, Count, Says, RoomsOf, Spared, Dispatch;
    var t := Dispatch(s, d, cmd, room, body);
    OwnStaffed(s);
    AskMoves(s, d, cmd, room, body);
    AskSays(s, d, cmd, room, body);
    AskQuiet(s, d, cmd, room, body);
    MovesSpare(s, t, Nothing, Some(AskCome(s, d, cmd, room, body)), fd);
  }

  ghost predicate SameCore(s: State, t: State) {
    t.rooms == s.rooms && t.running == s.running && t.casts == s.casts && t.log.dropped == s.log.dropped
  }

  /** Routing a disconnect event disturbs nobody else. */
  lemma DepartRouted(s: State, fd: Fd, room: RoomId, garbage: Command)
    requires Staffed(s)
    ensures var u := Route(s, DepartEvent(fd, room, garbage));
            && Staffed(u) && SameCore(s, u) && u.users == s.users
            && (forall r | Departing(s, fd, r) :: Departing(u, fd, r))
            && (FindWorker(s, room) != 0 ==> Departing(u, fd, room))
            && (forall d | d != fd :: Spared(s, u, d))
  {
    hide Count, Route, Spared, Says, Staffed, FindWorker;
    var e := DepartEvent(fd, room, garbage);
    var u, w := Route(s, e), FindWorker(s, room);
    var come := if w == 0 then Nothing else Some(Flight(Queued(w), e.(hops := e.hops + 1)));
    RouteFlights(s, e);
    RouteSays(s, e, {});
    RouteTally(s, e);
    RouteStaffed(s, e);
    RouteFields(s, e);
    assert Moved(s, u, Nothing, come);
    forall d | d != fd ensures Spared(s, u, d) { MovesSpare(s, u, Nothing, come, d); }
    forall r | Departing(s, fd, r) ensures Departing(u, fd, r) {
      var f :| In(s, f) && f.event.fd == fd && f.event.plan == PlanDepart(r);
      assert In(u, f);
    }
    if w != 0 { assert In(u, come.value); }
  }

  lemma UserGone(s: State, fd: Fd, d: Fd)
    requires d != fd
    ensures Spared(s, s.(users := s.users - {fd}), d)
  {
    var t := s.(users := s.users - {fd});
    SameFlights(s, t);
    hide Count;
    SameRooms(s, t, d);
    assert Packed(t, d) == Packed(s, d);
  }

  lemma SparedTwice(s: State, u: State, t: State, fd: Fd)
    requires Spared(s, u, fd) && Spared(u, t, fd)
    ensures Spared(s, t, fd)
  {
    hide Count, RoomsOf, Replies;
    var p, q, r := Packed(s, fd), Packed(u, fd), Packed(t, fd);
    assert r[|p|..] == q[|p|..] + r[|q|..];
    RepliesAppend(q[|p|..], r[|q|..]);
  }

  lemma CloseSpares(s: State, d: Fd, garbage: Command, fd: Fd)
    requires Own(s) && d != fd && d in s.users
    ensures Spared(s, CloseSession(s, d, garbage), fd) && CloseSession(s, d, garbage).log.dropped == s.log.dropped
  {
    hide Own, Count, Route, Spared, Departing, FindWorker;
    OwnStaffed(s);
    var room := s.users[d].room;
    var u := Route(s, DepartEvent(d, room, garbage));
    DepartRouted(s, d, room, garbage);
    DepartRouted(u, d, LOBBY_ROOM_ID, garbage);
    var v := if room != LOBBY_ROOM_ID then Route(u, DepartEvent(d, LOBBY_ROOM_ID, garbage)) else u;
    if room != LOBBY_ROOM_ID { SparedTwice(s, u, v, fd); }
    UserGone(v, d, fd);
    SparedTwice(s, v, v.(users := v.users - {d}), fd);
    assert CloseSession(s, d, garbage) == v.(users := v.users - {d});
  }

  /** Other clients, whatever they do, and the loops over members do not concern the session. */
  lemma OthersSpare(s: State, step: Step, fd: Fd)
    requires Ground(s) && Enabled(s, step) && !ActsFor(step, fd)
    requires !step.Start? && !step.Work? && !step.Query?
    ensures Spared(s, Apply(s, step), fd) && Apply(s, step).log.dropped == s.log.dropped
  {
    GroundOwns(s);
    hide Own, Account, Roomy, Distinct, NewRooms, TellsBroadcasts, Spared, RequestFlush, CloseSession, Dispatch;
    hide AcceptClient, Unused, LookAt, GiveTo;
    match step
    case Accept(d, id, garbage) => AcceptSpares(s, d, id, garbage, fd);
    case Ask(d, cmd, room, body) => AskSpares(s, d, cmd, room, body, fd);
    case Tick(d, garbage) => TickSpares(s, d, garbage, fd);
    case Close(d, garbage) => CloseSpares(s, d, garbage, fd);
    case Look(_, _) => LoopSpares(s, step, fd);
    case Give(_) => LoopSpares(s, step, fd);
  }

  lemma ThreadSession(s: State, step: Step, fd: Fd, client: Option<Client>, a: Option<RoomId>)
    requires Ground(s) && NoneLost(s, fd) && InFile(s, fd, client.Some?) && SessionOk(s, fd, client, a)
             && Enabled(s, step)
    requires step.Start? || step.Work? || step.Query?
    ensures Carries(s, Apply(s, step), fd, client, a, AstrayAfter(s, step, fd, a)) && NoneLost(Apply(s, step), fd)
  {
    GroundOwns(s);
    hide Account, Roomy, Distinct, NewRooms, TellsBroadcasts, Own, SessionOk, Carries, NoneLost, Take, Act, FinishJob,
         FoundOk, OutcomeOk, InFile, InTurn, FailsJoin, AcceptClient, Dispatch, RequestFlush, CloseSession, LookAt,
         GiveTo, Unused;
    NoJoinFails(s, step, fd);
    match step
    case Start(w, k) => StartCarries(s, w, k, fd, client, a);
    case Work(w, found) => WorkSession(s, w, found, fd, client, a);
    case Query(o) => QuerySession(s, o, fd, client, a);
  }

  lemma NoJoinFails(s: State, step: Step, fd: Fd)
    ensures FailsJoin(s, step, fd) ==> step.Query?
  {}

  lemma StartCarries(s: State, w: WorkerId, k: nat, fd: Fd, client: Option<Client>, a: Option<RoomId>)
    requires Own(s) && NoneLost(s, fd) && InFile(s, fd, client.Some?) && SessionOk(s, fd, client, a)
             && Enabled(s, Start(w, k))
    ensures Carries(s, Take(s, w, k), fd, client, a, a) && NoneLost(Take(s, w, k), fd)
  {
    hide Own, SessionOk, Carries, InFile, InTurn;
    StartSession(s, w, k, fd, client, a);
  }

  /** Whatever the server and the other clients do, the session keeps its place, and a seat once it has one. */
  lemma OtherSession(s: State, step: Step, fd: Fd, client: Option<Client>, a: Option<RoomId>)
    requires Ground(s) && NoneLost(s, fd) && InFile(s, fd, client.Some?) && SessionOk(s, fd, client, a)
    requires Enabled(s, step) && !ActsFor(step, fd)
    ensures Carries(s, Apply(s, step), fd, client, a, AstrayAfter(s, step, fd, a)) && NoneLost(Apply(s, step), fd)
  {
    hide Ground, InFile, SessionOk, Carries, Spared, Apply, Enabled;
    if step.Start? || step.Work? || step.Query? {
      ThreadSession(s, step, fd, client, a);
    } else {
      GroundOwns(s);
      OthersSpare(s, step, fd);
      SparedSession(s, Apply(s, step), fd, client, a);
    }
  }

  // ---- the session's own client ----

  lemma DispatchFits(s: State, fd: Fd, c: Client)
    requires Own(s) && c.pending.Some? && MayAsk(c.view, c.pending.value) && Stands(s, fd, Home(c.view))
    ensures var a := c.pending.value;
            var g := AskCome(s, fd, a.command, a.room, a.body);
            Mine(g, fd) && Fits(g.event, c.view, a, Nothing) && SpotOf(g.event, c.view) == Home(c.view)
  {
    hide Own, RoomsOf;
    LobbyOpen(s);
    Standing(s, 0, fd, RoomOf(c.view));
    var a := c.pending.value;
    match a.command
    case CmdCreateRoom =>
    case CmdJoinRoom =>
    case CmdLeaveRoom =>
    case CmdSendMessage =>
    case CmdLoadMessage =>
  }

  lemma DeliverSession(s: State, fd: Fd, c: Client, a: Option<RoomId>)
    requires Own(s) && ClientOk(s, fd, c, a) && c.wire.Some?
    ensures var q := c.wire.value; var t := Dispatch(s, fd, q.command, q.room, q.body);
            ClientOk(t, fd, c.(wire := Nothing), a) && Seated(t, fd, c.(wire := Nothing), a)
                && t.log.dropped == s.log.dropped
  {
    hide Own, Count, Says, SpotOf, Fits, RoomsOf, Dispatch, MayAsk, Unread, NoReplies, AskCome;
    assert Resting(s, fd, c, a);
    var q, c' := c.wire.value, c.(wire := Nothing);
    var t, g := Dispatch(s, fd, q.command, q.room, q.body), AskCome(s, fd, q.command, q.room, q.body);
    OwnStaffed(s);
    AskMoves(s, fd, q.command, q.room, q.body);
    AskSays(s, fd, q.command, q.room, q.body);
    AskQuiet(s, fd, q.command, q.room, q.body);
    DispatchFits(s, fd, c);
    OnlyComes(s, t, fd, g);
    QuietPacked(s, t, fd);
    UnreadSame(s, t, fd, c.read);
    SameRooms(s, t, fd);
    assert Flying(t, fd, c', a, g);
  }

  /** A client that is settled is seated, and the other way round. */
  lemma SettledIsSeated(s: State, fd: Fd, c: Client, a: Option<RoomId>)
    requires ClientOk(s, fd, c, a)
    ensures Settled(s, fd) <==> Seated(s, fd, c, a)
  {
    hide Count, Unread, MayAsk, ViewAfter;
    if Settled(s, fd) {
      var k :| k in s.rooms && fd in s.rooms[k].members;
      InRooms(s, k, fd);
      forall f ensures !Arriving(s, fd, c, a, f) {
        assert In(s, f) ==> !IsArrival(f, fd);
      }
    } else if Seated(s, fd, c, a) {
      SeatedIsSettled(s, fd, c, a);
    }
  }

  lemma SeatedIsSettled(s: State, fd: Fd, c: Client, a: Option<RoomId>)
    requires Seated(s, fd, c, a)
    ensures Settled(s, fd) && RoomsOf(s, fd) != {}
  {
    hide Count, Unread, MayAsk, ViewAfter;
    forall f | In(s, f) ensures !IsArrival(f, fd) {
      assert IsArrival(f, fd) ==> Mine(f, fd);
    }
    assert RoomsOf(s, fd) != {} by { SeatedSomewhere(s, fd, c, a); }
    var r := Someone(RoomsOf(s, fd));
    var k :| k in s.rooms && fd in s.rooms[k].members && k.room == r;
  }

  lemma Someone(m: set<RoomId>) returns (r: RoomId)
    requires m != {}
    ensures r in m
  {
    assert (forall x :: x !in m) ==> m == {};
    r :| r in m;
  }

  lemma SeatedSomewhere(s: State, fd: Fd, c: Client, a: Option<RoomId>)
    requires Seated(s, fd, c, a)
    ensures RoomsOf(s, fd) != {}
  {
    hide Count, Unread, MayAsk, ViewAfter, RoomsOf, OnlyFlight, NoFlights;
    if Resting(s, fd, c, a) {
      assert Base(c.view, a).current in RoomsOf(s, fd);
    } else if Replying(s, fd, c, a) {
      assert Base(ViewAfter(c, Unread(s, fd, c.read)[0]), a).current in RoomsOf(s, fd);
    } else {
      var f :| Flying(s, fd, c, a, f);
      assert SpotOf(f.event, c.view).current in RoomsOf(s, fd);
    }
  }

  lemma SendSession(s: State, fd: Fd, c: Client, q: Asked)
    requires ClientOk(s, fd, c, Nothing) && c.pending.Nothing? && MayAsk(c.view, q) && Settled(s, fd)
    ensures var c' := c.(pending := Some(q), wire := Some(q));
            ClientOk(s, fd, c', Nothing) && Seated(s, fd, c', Nothing)
  {
    SettledIsSeated(s, fd, c, Nothing);
    hide Count, RoomsOf, SpotOf, Fits, Unread, MayAsk, Settled;
    assert Resting(s, fd, c, Nothing);
    assert Resting(s, fd, c.(pending := Some(q), wire := Some(q)), Nothing);
  }

  lemma UnreadNext(s: State, fd: Fd, read: nat)
    requires read < |Packed(s, fd)|
    ensures Unread(s, fd, read) == IfReply(Packed(s, fd)[read]) + Unread(s, fd, read + 1)
  {
    assert Packed(s, fd)[read..][1..] == Packed(s, fd)[read + 1..];
  }

  lemma KeepsView(c: Client, p: Packet)
    ensures c.pending.Nothing? || p.Broadcast? || p.status != Success ==> ViewAfter(c, p) == c.view
    ensures p.Broadcast? ==> forall q :: ViewAfter(Received(c, p), q) == ViewAfter(c, q)
  {}

  lemma ReceiveSession(s: State, fd: Fd, c: Client, a: Option<RoomId>)
    requires ClientOk(s, fd, c, a) && c.read < |Packed(s, fd)|
    ensures Remains(s, s, fd, c, Received(c, Packed(s, fd)[c.read]), a, a)
  {
    hide Count, RoomsOf, SpotOf, Fits, MayAsk, ViewAfter, Stands, OnlyFlight, NoFlights, Unread;
    var p, c' := Packed(s, fd)[c.read], Received(c, Packed(s, fd)[c.read]);
    UnreadNext(s, fd, c.read);
    KeepsView(c, p);
    if TurnedAway(s, fd, c, a) {
      assert TurnedAway(s, fd, c', a);
    } else if Resting(s, fd, c, a) {
      assert Resting(s, fd, c', a);
    } else if Replying(s, fd, c, a) {
      if p.Response? { assert Resting(s, fd, c', a); } else { assert Replying(s, fd, c', a); }
    } else {
      var f :| Arriving(s, fd, c, a, f) || Flying(s, fd, c, a, f);
      assert Arriving(s, fd, c, a, f) ==> Arriving(s, fd, c', a, f);
      assert Flying(s, fd, c, a, f) ==> Flying(s, fd, c', a, f);
    }
    if Seated(s, fd, c, a) { ReceiveSeat(s, fd, c, a); }
  }

  lemma ReceiveSeat(s: State, fd: Fd, c: Client, a: Option<RoomId>)
    requires ClientOk(s, fd, c, a) && Seated(s, fd, c, a) && c.read < |Packed(s, fd)|
    ensures Seated(s, fd, Received(c, Packed(s, fd)[c.read]), a)
  {
    hide Count, RoomsOf, SpotOf, Fits, MayAsk, ViewAfter, Stands, OnlyFlight, NoFlights, Unread;
    var p, c' := Packed(s, fd)[c.read], Received(c, Packed(s, fd)[c.read]);
    UnreadNext(s, fd, c.read);
    KeepsView(c, p);
    if Resting(s, fd, c, a) {
      assert Resting(s, fd, c', a);
    } else if Replying(s, fd, c, a) {
      if p.Response? { assert Resting(s, fd, c', a); } else { assert Replying(s, fd, c', a); }
    } else {
      var f :| Flying(s, fd, c, a, f);
      assert Flying(s, fd, c', a, f);
    }
  }

  // ---- coming and going ----

  lemma AcceptFields(s: State, fd: Fd, id: int64, garbage: Command)
    ensures var t := AcceptClient(s, fd, id, garbage);
            && t.rooms == s.rooms && t.running == s.running && t.casts == s.casts && t.log == s.log
            && t.users == s.users[fd := User(id, LOBBY_ROOM_ID)]
  {}

  lemma ArrivalSpot(fd: Fd, garbage: Command)
    ensures SpotOf(ArrivalEvent(fd, garbage), AtLobby) == Spot({}, LOBBY_ROOM_ID)
  {}

  lemma NothingUnread(s: State, fd: Fd)
    ensures Unread(s, fd, |Packed(s, fd)|) == []
  {}

  lemma ConnectSession(s: State, fd: Fd, id: int64, garbage: Command)
    requires Own(s) && Unused(s, fd) && Gone(s, fd) && RoomsOf(s, fd) == {}
    ensures ClientOk(AcceptClient(s, fd, id, garbage), fd, Client(AtLobby, Nothing, Nothing, |Packed(s, fd)|), Nothing)
    ensures AcceptClient(s, fd, id, garbage).log == s.log
  {
    hide Own, Count, Says, SpotOf, RoomsOf, Unread, NoReplies, Unused, AcceptClient, Seated;
    var t, g := AcceptClient(s, fd, id, garbage), Flight(Queued(LOBBY_WORKER_ID), ArrivalEvent(fd, garbage));
    var c := Client(AtLobby, Nothing, Nothing, |Packed(s, fd)|);
    AcceptFields(s, fd, id, garbage);
    OwnStaffed(s);
    AcceptMoves(s, fd, id, garbage);
    SilentStep(s, Accept(fd, id, garbage));
    assert Mine(g, fd) && !In(s, g);
    forall h | In(t, h) && Mine(h, fd) ensures h == g || Stale(h, fd) {
      assert h == g || (In(s, h) && Parts(s, fd, h));
    }
    assert ComesLast(t, fd, g);
    QuietPacked(s, t, fd);
    NothingUnread(t, fd);
    SameRooms(s, t, fd);
    ArrivalSpot(fd, garbage);
    assert Arriving(t, fd, c, Nothing, g);
  }

  /** A descriptor that may be handed out again has no accept-time JOIN in flight and is in no room. */
  lemma UnusedIsFree(s: State, fd: Fd)
    requires Own(s) && Unused(s, fd) && Away(s, fd)
    ensures RoomsOf(s, fd) == {} && Gone(s, fd)
  {
    hide Own, Count, Gone;
    if !Gone(s, fd) {
      var f :| Fleeing(s, fd, f);
      OwnFlight(s, f);
      ArrivalPlace(s.log.home, f);
      if f.place.Queued? { QueuedIs(s, f); } else { RunningIs(s, f); }
      assert false;
    }
  }

  /** A session closed before its accept-time JOIN is done leaves that behind, with a disconnect event after it. */
  lemma LeaveArriving(s: State, fd: Fd, garbage: Command, c: Client, a: Option<RoomId>, f: Flight)
    requires Own(s) && Arriving(s, fd, c, a, f)
    ensures var t := CloseSession(s, fd, garbage); Fleeing(t, fd, f) && t.log.dropped == s.log.dropped
  {
    hide Own, Count, Route, FindWorker, RoomsOf, Unread;
    OwnStaffed(s);
    var u := Route(s, DepartEvent(fd, LOBBY_ROOM_ID, garbage));
    var t := u.(users := u.users - {fd});
    assert t == CloseSession(s, fd, garbage);
    DepartRouted(s, fd, LOBBY_ROOM_ID, garbage);
    DepartComes(s, fd, LOBBY_ROOM_ID, garbage);
    SameFlights(u, t);
    SameRooms(s, t, fd);
    assert Count(u, f) == Count(s, f);
    forall g | In(t, g) && Mine(g, fd) ensures g == f || Stale(g, fd) { assert In(u, g); }
  }

  /** A client that may leave has no event in flight and is in its current room, or at least not in an ordinary one. */
  lemma MayLeave(s: State, fd: Fd, c: Client, a: Option<RoomId>)
    requires ClientOk(s, fd, c, a) && c.pending.Nothing? && !exists f :: Arriving(s, fd, c, a, f)
    ensures NoFlights(s, fd) && fd in s.users && RoomsOf(s, fd) <= {s.users[fd].room}
    ensures s.users[fd].room == LOBBY_ROOM_ID || s.users[fd].room in RoomsOf(s, fd)
  {
    hide Count, SpotOf, Fits, Unread, MayAsk, RoomsOf;
  }

  lemma DepartingKept(s: State, t: State, fd: Fd, r: RoomId)
    requires Departing(s, fd, r) && SameTraffic(s, t)
    ensures Departing(t, fd, r)
  {
    SameFlights(s, t);
    hide Count;
    var f :| In(s, f) && f.event.fd == fd && f.event.plan == PlanDepart(r);
    assert In(t, f);
  }

  lemma LeaveSession(s: State, fd: Fd, garbage: Command)
    requires Own(s) && NoFlights(s, fd) && fd in s.users && RoomsOf(s, fd) <= {s.users[fd].room}
    requires s.users[fd].room == LOBBY_ROOM_ID || s.users[fd].room in RoomsOf(s, fd)
    ensures var t := CloseSession(s, fd, garbage); Gone(t, fd) && t.log.dropped == s.log.dropped
  {
    hide Own, Count, Route, Spared, Departing, FindWorker, RoomsOf, Parts;
    OwnStaffed(s);
    var room := s.users[fd].room;
    var u := Route(s, DepartEvent(fd, room, garbage));
    DepartRouted(s, fd, room, garbage);
    DepartRouted(u, fd, LOBBY_ROOM_ID, garbage);
    var v := if room != LOBBY_ROOM_ID then Route(u, DepartEvent(fd, LOBBY_ROOM_ID, garbage)) else u;
    var t := v.(users := v.users - {fd});
    assert t == CloseSession(s, fd, garbage);
    SameRooms(s, t, fd);
    forall r | r in RoomsOf(t, fd) ensures Departing(t, fd, r) {
      Standing(s, 0, fd, r);
      assert Departing(v, fd, r);
      DepartingKept(v, t, fd, r);
    }
    SameFlights(v, t);
    SameRooms(v, t, fd);
    LeaveParts(s, fd, garbage);
    forall f | In(t, f) && Mine(f, fd) ensures Parts(t, fd, f) {
      assert In(v, f);
      PartsKept(v, t, fd, f);
    }
  }

  lemma PartsKept(s: State, t: State, fd: Fd, f: Flight)
    requires Parts(s, fd, f) && RoomsOf(t, fd) == RoomsOf(s, fd) && forall g :: Count(t, g) == Count(s, g)
    ensures Parts(t, fd, f)
  {
    hide Count, RoomsOf;
    forall g | In(t, g) ensures In(s, g) {}
  }

  /** What is in flight after the one or two disconnect events are routed. */
  lemma LeaveParts(s: State, fd: Fd, garbage: Command)
    requires Own(s) && NoFlights(s, fd) && fd in s.users
    requires s.users[fd].room == LOBBY_ROOM_ID || s.users[fd].room in RoomsOf(s, fd)
    ensures var room := s.users[fd].room;
            var u := Route(s, DepartEvent(fd, room, garbage));
            var v := if room != LOBBY_ROOM_ID then Route(u, DepartEvent(fd, LOBBY_ROOM_ID, garbage)) else u;
            forall f | In(v, f) && Mine(f, fd) :: Parts(v, fd, f)
  {
    hide Own, Count, Route, FindWorker, RoomsOf, Staffed;
    OwnStaffed(s);
    var room := s.users[fd].room;
    var u, v := Route(s, DepartEvent(fd, room, garbage)),
        Route(Route(s, DepartEvent(fd, room, garbage)), DepartEvent(fd, LOBBY_ROOM_ID, garbage));
    DepartRouted(s, fd, room, garbage);
    DepartComes(s, fd, room, garbage);
    DepartRouted(u, fd, LOBBY_ROOM_ID, garbage);
    DepartComes(u, fd, LOBBY_ROOM_ID, garbage);
    SameRooms(s, u, fd);
    SameRooms(u, v, fd);
    forall f | In(u, f) && Mine(f, fd) ensures Parts(u, fd, f) && f.event.plan == PlanDepart(room) {}
    forall f | In(v, f) && Mine(f, fd) ensures Parts(v, fd, f) {
      if f.event.plan.room != LOBBY_ROOM_ID { assert In(u, f); }
    }
  }

  /** The routed event is the only new one. */
  lemma DepartComes(s: State, fd: Fd, room: RoomId, garbage: Command)
    requires Staffed(s)
    ensures var u := Route(s, DepartEvent(fd, room, garbage));
            && (forall f | In(u, f) && !In(s, f) ::
                  f.event.fd == fd && f.event.plan == PlanDepart(room) && Count(u, f) == 1)
            && (forall f, g | In(u, f) && !In(s, f) && In(u, g) && !In(s, g) :: f == g)
            && (forall f | In(s, f) && f.event.plan != PlanDepart(room) :: Count(u, f) == Count(s, f))
  {
    hide Count, Route, FindWorker, Staffed;
    RouteFlights(s, DepartEvent(fd, room, garbage));
  }

  // ---- every step, every run ----

  /** A step of the session's own client. */
  lemma OwnSession(x: Solo, fd: Fd, step: SoloStep)
    requires SoloOk(x, fd) && SoloEnabled(x, fd, step) && !step.Other?
    ensures var y := SoloApply(x, fd, step); NoneLost(y.srv, fd) && SessionOk(y.srv, fd, y.client, y.astray)
    ensures KeepsSeat(x, fd, step, SoloApply(x, fd, step))
  {
    var s := x.srv;
    GroundOwns(s);
    hide Ground, Own, Roomy, Distinct, InFile, Seated, Settled, Arrived, CloseSession, Dispatch, AcceptClient, Unused,
         ClientOk, Gone, Fleeing, Away;
    match step
    case Connect(id, garbage) =>
      UnusedIsFree(s, fd);
      ConnectSession(s, fd, id, garbage);
    case Send(q) => SendSession(s, fd, x.client.value, q);
    case Deliver => DeliverSession(s, fd, x.client.value, x.astray);
    case Receive => ReceiveSession(s, fd, x.client.value, x.astray);
    case Leave(garbage) => LeaveAway(s, fd, garbage, x.client.value, x.astray);
  }

  lemma LeaveAway(s: State, fd: Fd, garbage: Command, c: Client, a: Option<RoomId>)
    requires Own(s) && ClientOk(s, fd, c, a) && c.pending.Nothing?
    ensures var t := CloseSession(s, fd, garbage); Away(t, fd) && t.log.dropped == s.log.dropped
  {
    hide Own, ClientOk, Arriving, Gone, Fleeing, CloseSession, NoFlights, RoomsOf;
    if f :| Arriving(s, fd, c, a, f) {
      ArrivingUser(s, fd, c, a);
      LeaveArriving(s, fd, garbage, c, a, f);
    } else {
      MayLeave(s, fd, c, a);
      LeaveSession(s, fd, garbage);
    }
  }

  lemma ArrivingUser(s: State, fd: Fd, c: Client, a: Option<RoomId>)
    requires ClientOk(s, fd, c, a)
    ensures fd in s.users
  {}

  /** A client that has a seat and does not leave keeps one. */
  ghost predicate KeepsSeat(x: Solo, fd: Fd, step: SoloStep, y: Solo) {
    x.client.Some? && Seated(x.srv, fd, x.client.value, x.astray) && !step.Leave? ==>
      y.client.Some? && Seated(y.srv, fd, y.client.value, y.astray)
  }

  lemma OtherKeeps(x: Solo, fd: Fd, step: SoloStep)
    requires SoloOk(x, fd) && SoloEnabled(x, fd, step) && step.Other?
    ensures var y := SoloApply(x, fd, step); NoneLost(y.srv, fd) && SessionOk(y.srv, fd, y.client, y.astray)
    ensures KeepsSeat(x, fd, step, SoloApply(x, fd, step))
  {
    hide Ground, InFile, Seated, Apply, Enabled, SessionOk, NoneLost, Arrived, Settled;
    OtherSession(x.srv, step.step, fd, x.client, x.astray);
  }

  /** Any step of the session's client, the server and everybody else keeps the session in its place. */
  lemma StepKeepsSolo(x: Solo, fd: Fd, step: SoloStep)
    requires SoloOk(x, fd) && SoloEnabled(x, fd, step)
    ensures SoloOk(SoloApply(x, fd, step), fd) && KeepsSeat(x, fd, step, SoloApply(x, fd, step))
  {
    hide Ground, KeepsSeat, SessionOk, NoneLost, InFile, SoloEnabled, SoloApply;
    SoloGrounds(x, fd, step);
    if step.Other? { OtherKeeps(x, fd, step); } else { OwnSession(x, fd, step); }
  }

  /** What the server does in a step of the client or of anything else, if it does something. */
  function Served(x: Solo, fd: Fd, step: SoloStep): Option<Step> {
    match step
    case Connect(id, garbage) => Some(Accept(fd, id, garbage))
    case Deliver =>
      if x.client.Some? && x.client.value.wire.Some? then
        var a := x.client.value.wire.value; Some(Ask(fd, a.command, a.room, a.body))
      else Nothing
    case Leave(garbage) => Some(Close(fd, garbage))
    case Other(st) => Some(st)
    case _ => Nothing
  }

  lemma ServedIs(x: Solo, fd: Fd, step: SoloStep)
    requires SoloEnabled(x, fd, step)
    ensures var y, st := SoloApply(x, fd, step).srv, Served(x, fd, step);
            if st.Some? then Enabled(x.srv, st.value) && y == Apply(x.srv, st.value) else y == x.srv
  {
    hide Settled, Arrived, Unused, AcceptClient, Dispatch, RequestFlush, CloseSession, Take, Act, LookAt, GiveTo,
         FinishJob;
  }

  /** The server's part of a step. */
  lemma SoloGrounds(x: Solo, fd: Fd, step: SoloStep)
    requires SoloOk(x, fd) && SoloEnabled(x, fd, step)
    ensures var y := SoloApply(x, fd, step); Ground(y.srv) && InFile(y.srv, fd, y.client.Some?)
  {
    ServedIs(x, fd, step);
    GroundOwns(x.srv);
    ClientStays(x, fd, step);
    GroundAccounts(x.srv);
    hide Ground, Account, Own, Roomy, Distinct, NewRooms, TellsBroadcasts, Lined, Trailed, NoArrival, Enabled, Apply,
         SoloApply, SessionOk;
    var st := Served(x, fd, step);
    if st.Some? {
      StepKeepsGround(x.srv, st.value);
      if step.Leave? {
        LeavesInOrder(x, fd, step);
      } else if step.Connect? {
        ConnectsInOrder(x, fd, step);
      } else if x.client.Some? {
        NotClosed(x, fd, step);
        StepLined(x.srv, st.value, fd);
      } else {
        NotClosed(x, fd, step);
        StepTrailed(x.srv, st.value, fd);
      }
    }
  }

  lemma GroundAccounts(s: State)
    requires Ground(s)
    ensures Account(s)
  {}

  lemma ClientStays(x: Solo, fd: Fd, step: SoloStep)
    requires SoloEnabled(x, fd, step)
    ensures SoloApply(x, fd, step).client.Some? <==> step.Connect? || (x.client.Some? && !step.Leave?)
  {
    hide Apply, AcceptClient, Dispatch, CloseSession, Settled, Arrived;
  }

  lemma NotClosed(x: Solo, fd: Fd, step: SoloStep)
    requires SoloEnabled(x, fd, step) && Served(x, fd, step).Some? && !step.Leave? && !step.Connect?
    ensures var st := Served(x, fd, step).value;
            !((st.Close? || st.Accept?) && st.fd == fd) && (x.client.Nothing? ==> !ActsFor(st, fd))
  {
    hide Enabled, Settled, Arrived;
  }

  lemma LeavesInOrder(x: Solo, fd: Fd, step: SoloStep)
    requires SoloOk(x, fd) && SoloEnabled(x, fd, step) && step.Leave?
    ensures Trailed(CloseSession(x.srv, fd, step.garbage), fd)
  {
    hide Ground, Own, SessionOk, CloseSession, Trailed, Lined;
    GroundOwns(x.srv);
    LeaveTrailed(x.srv, fd, step.garbage);
  }

  lemma ConnectsInOrder(x: Solo, fd: Fd, step: SoloStep)
    requires SoloOk(x, fd) && SoloEnabled(x, fd, step) && step.Connect?
    ensures Lined(AcceptClient(x.srv, fd, step.id, step.garbage), fd)
  {
    hide Ground, Own, AcceptClient, Queue, Count, Trailed, Unused, RoomsOf;
    var s := x.srv;
    GroundOwns(s);
    UnusedIsFree(s, fd);
    LobbyStaffed(s);
    forall i | 0 <= i < |Queue(s, LOBBY_WORKER_ID)| ensures !Arrives(Queue(s, LOBBY_WORKER_ID)[i], fd) {
      QueuedIn(s, LOBBY_WORKER_ID, i);
      var f := Flight(Queued(LOBBY_WORKER_ID), Queue(s, LOBBY_WORKER_ID)[i]);
      assert Mine(f, fd) ==> Parts(s, fd, f);
    }
    assert Lined(s, fd);
    AcceptLined(s, fd, step.id, step.garbage);
  }

  lemma AcceptLined(s: State, fd: Fd, id: int64, garbage: Command)
    requires Lined(s, fd)
    ensures Lined(AcceptClient(s, fd, id, garbage), fd)
  {
    hide Lined, Grow, AcceptClient;
    AcceptGrows(s, fd, id, garbage);
    GrowLined(s, AcceptClient(s, fd, id, garbage), Some(Flight(Queued(LOBBY_WORKER_ID), ArrivalEvent(fd, garbage))),
              fd);
  }

  lemma LobbyStaffed(s: State)
    requires Ground(s)
    ensures 1 <= LOBBY_WORKER_ID <= s.n
  {
    GroundOwns(s);
    hide Ground;
  }

  lemma InitSolo(n: nat, fd: Fd)
    requires n >= 1
    ensures SoloOk(Solo(Init(n), Nothing, Nothing), fd)
  {
    InitGround(n);
    forall f ensures Count(Init(n), f) == 0 { EmptyCount(Init(n), n, f); }
    hide Ground, Count;
    assert RoomsOf(Init(n), fd) == {};
  }

  lemma {:induction false} RunSolo(xs: seq<Solo>, steps: seq<SoloStep>, fd: Fd, workers: nat, i: nat)
    requires SoloRun(xs, steps, fd, workers) && i < |xs|
    ensures SoloOk(xs[i], fd)
  {
    hide SoloOk, SoloEnabled, SoloApply, Init;
    if i == 0 {
      InitSolo(workers, fd);
    } else {
      RunSolo(xs, steps, fd, workers, i - 1);
      assert SoloNext(xs[i - 1], fd, steps[i - 1], xs[i]);
      StepKeepsSolo(xs[i - 1], fd, steps[i - 1]);
    }
  }
}
