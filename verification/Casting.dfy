/**
  The packets of every session, while several workers are in the middle of their broadcasts: in the order the messages
  were handled, each once, none its own.
 */
module Casting {
  import opened Bytes
  import opened RoomEvents
  import opened ServerState
  import opened History
  import opened Flights
  import opened Itinerary
  import opened Ownership
  import opened Requests
  import opened Tokens
  import opened Talk
  import opened Broadcasts
  import opened Places

  /**
    Broadcasts on a session: each the message handled under its number, none its own, and those of one room in the
    order that room handled them.
   */
  predicate StreamOk(handled: seq<Handled>, fd: Fd, ps: seq<Packet>) {
    && (forall i | 0 <= i < |ps| && ps[i].Broadcast? ::
          && ps[i].serial < |handled|
          && handled[ps[i].serial].room == ps[i].room && handled[ps[i].serial].text == ps[i].text
          && handled[ps[i].serial].fd != fd)
    && (forall i, j | 0 <= i < j < |ps| && ps[i].Broadcast? && ps[j].Broadcast? && ps[i].room == ps[j].room ::
          ps[i].serial < ps[j].serial)
  }

  /** Every broadcast of `room` among the packets is older than message `serial`. */
  predicate AllBefore(ps: seq<Packet>, room: RoomId, serial: nat) {
    forall i | 0 <= i < |ps| && ps[i].Broadcast? && ps[i].room == room :: ps[i].serial < serial
  }

  /** The packet of a cast is the message handled under its number. */
  predicate SpeaksFor(handled: seq<Handled>, c: Cast) {
    && c.packet.Broadcast? && c.packet.room == c.room && c.packet.serial < |handled|
    && handled[c.packet.serial].room == c.room && handled[c.packet.serial].text == c.packet.text
    && handled[c.packet.serial].fd == c.sender
  }

  /** The members that may still receive the packet. */
  function Targets(c: Cast): set<Fd> {
    c.left + if c.chosen.Some? then {c.chosen.value} else {}
  }

  /**
    A broadcast in progress on `w`: its worker is at it, those still to come are members of its room, and none of them
    has received anything newer of that room. Only the room's own worker packs its messages.
   */
  ghost predicate CastOk(s: State, w: WorkerId) {
    w in s.casts &&
    var c := s.casts[w];
    && Targets(c) != {} && w in s.running && c.room in s.log.home && s.log.home[c.room] == w
       && SpeaksFor(s.log.handled, c)
    && Key(w, c.room) in s.rooms && Targets(c) <= s.rooms[Key(w, c.room)].members
    && (c.chosen.Some? ==> c.chosen.value != c.sender && c.chosen.value !in c.left)
    && (forall fd | fd in Targets(c) :: AllBefore(Packed(s, fd), c.room, c.packet.serial))
  }

  ghost predicate Streams(s: State) {
    && (forall fd :: StreamOk(s.log.handled, fd, Packed(s, fd)))
    && (forall w | w in s.casts :: CastOk(s, w))
  }

  // ---- the casts after a worker's step ----

  function CastsAfter(s: State, w: WorkerId): map<WorkerId, Cast> {
    if Speaks(s, w) then
      var e, r := s.running[w], ActionAt(s, w).room;
      WithCast(s.casts, w,
               Cast(s.rooms[Key(w, r)].members, Nothing, e.fd, r,
                    Broadcast(UserIdOf(s, e.fd), r, e.request, |s.log.handled|)))
    else s.casts
  }

  lemma SettleCasts(s: State, w: WorkerId, e: Event, c: Code)
    ensures Settle(s, w, e, c).casts == s.casts
  {
    if c == Success {} else {}
  }

  lemma RouteCasts(s: State, w: WorkerId, e: Event)
    ensures Route(Release(s, w), e).casts == s.casts && Route(s, e).casts == s.casts
  {
    if FindWorker(s, e.target) == 0 {} else {}
  }

  lemma LeaveCasts(s: State, w: WorkerId, fd: Fd, room: RoomId)
    ensures LeaveRoomAt(s, w, fd, room).casts == s.casts
  {
    if LeaveRoomCode(s, w, fd, room) == Success {}
  }

  lemma QuitCasts(s: State, w: WorkerId, e: Event, found: RoomId)
    ensures DisconnectAt(Release(s, w), w, e.fd, e.target, found).casts == s.casts
  {
    hide LeaveRoomAt;
    var u := Release(s, w);
    LeaveCasts(u, w, e.fd, e.target);
    LeaveCasts(u, w, e.fd, found);
    if LeaveRoomCode(u, w, e.fd, e.target) == Success {} else {}
  }

  lemma PassCasts(s: State, w: WorkerId, e: Event, j: Job)
    ensures Submit(Release(s, w), j).casts == s.casts && Hold(Submit(s, j), w, e).casts == s.casts
    ensures Respond(Release(Submit(s, j), w), e).casts == s.casts && Respond(Release(s, w), e).casts == s.casts
    ensures Discard(Release(s, w), e).casts == s.casts && Release(s, w).casts == s.casts
  {}

  lemma EffectCasts(s: State, w: WorkerId)
    requires Executes(s, w) && Local(ActionAt(s, w).command)
    ensures Effect(s, w, s.running[w].(cursor := s.running[w].cursor + 1), ActionAt(s, w)).casts == CastsAfter(s, w)
  {
    hide WithCast;
    var a := ActionAt(s, w);
    match a.command
    case CreateRoom =>
    case JoinRoom =>
    case LeaveRoom => LeaveCasts(s, w, s.running[w].fd, a.room);
    case SendMessage => if BroadcastCode(s, w, a.room) == Success {}
  }

  lemma WorkCasts(s: State, w: WorkerId, found: RoomId)
    requires w in s.running
    ensures Act(s, w, found).casts == CastsAfter(s, w)
  {
    hide Route, DisconnectAt, Submit, Respond, Discard, Hold, Release, Settle, Effect, UserIdOf, CodeAt, WithCast,
         Marked;
    if !Executes(s, w) {
      hide Execute;
      PassCasts(s, w, s.running[w], CreateJob(s.running[w]));
    } else {
      var e, a := s.running[w].(cursor := s.running[w].cursor + 1), ActionAt(s, w);
      if Local(a.command) {
        EffectCasts(s, w);
        SettleCasts(Effect(s, w, e, a), w, Marked(s, e, a), CodeAt(s, w, e, a));
      } else {
        RouteCasts(s, w, e.(target := a.room));
        QuitCasts(s, w, e, found);
        PassCasts(s, w, e, CreateJob(e));
        PassCasts(s, w, e, LoadJob(e, a.room, CursorOf(e.request)));
        PassCasts(s, w, e, SaveJob(a.room, UserIdOf(s, e.fd), e.request, e.mark));
      }
    }
  }

  // ---- streams ----

  lemma StreamGrows(handled: seq<Handled>, later: seq<Handled>, fd: Fd, ps: seq<Packet>)
    requires StreamOk(handled, fd, ps) && handled <= later
    ensures StreamOk(later, fd, ps)
  {}

  lemma StreamResponse(handled: seq<Handled>, fd: Fd, ps: seq<Packet>, p: Packet)
    requires StreamOk(handled, fd, ps) && p.Response?
    ensures StreamOk(handled, fd, ps + [p])
  {
    var qs := ps + [p];
    assert forall i | 0 <= i < |qs| && qs[i].Broadcast? :: i < |ps| && qs[i] == ps[i];
  }

  lemma StreamBroadcast(handled: seq<Handled>, c: Cast, fd: Fd, ps: seq<Packet>)
    requires StreamOk(handled, fd, ps) && SpeaksFor(handled, c) && AllBefore(ps, c.room, c.packet.serial)
             && fd != c.sender
    ensures StreamOk(handled, fd, ps + [c.packet])
  {
    var qs := ps + [c.packet];
    assert forall i | 0 <= i < |ps| :: qs[i] == ps[i];
  }

  lemma StreamBound(handled: seq<Handled>, fd: Fd, ps: seq<Packet>)
    requires StreamOk(handled, fd, ps)
    ensures forall room :: AllBefore(ps, room, |handled|)
  {}

  /** Only responses are packed, so no stream and no bound on one changes. */
  ghost predicate OnlyReplies(s: State, t: State) {
    forall fd ::
      Packed(t, fd) == Packed(s, fd) || exists p: Packet :: p.Response? && Packed(t, fd) == Packed(s, fd) + [p]
  }

  lemma WorkReplies(s: State, t: State, w: WorkerId)
    requires w in s.running && Says(s, t, SaidBy(s, w), JobsBy(s, w), HearersOf(s, w), PacketsOf(s, w))
    ensures OnlyReplies(s, t) && s.log.handled <= t.log.handled
  {
    hide JobsBy, SaidBy, FateOf;
    forall fd
      ensures Packed(t, fd) == Packed(s, fd) || exists p: Packet :: p.Response? && Packed(t, fd) == Packed(s, fd) + [p]
    {
      var ps := if fd in HearersOf(s, w) then PacketsOf(s, w) else [];
      assert Packed(t, fd) == Packed(s, fd) + ps;
      if ps != [] { assert ps == [ResponseTo(FateOf(s, w).event)]; }
    }
  }

  lemma StreamKept(s: State, t: State, fd: Fd)
    requires OnlyReplies(s, t) && s.log.handled <= t.log.handled && StreamOk(s.log.handled, fd, Packed(s, fd))
    ensures StreamOk(t.log.handled, fd, Packed(t, fd))
  {
    StreamGrows(s.log.handled, t.log.handled, fd, Packed(s, fd));
    if Packed(t, fd) != Packed(s, fd) {
      var p: Packet :| p.Response? && Packed(t, fd) == Packed(s, fd) + [p];
      StreamResponse(t.log.handled, fd, Packed(s, fd), p);
    }
  }

  /** A broadcast of another worker is not disturbed. */
  lemma CastElsewhere(s: State, t: State, w: WorkerId, v: WorkerId)
    requires Streams(s) && v in s.casts && v != w && v in t.casts && t.casts[v] == s.casts[v] && v in t.running
    requires t.log.home == s.log.home && StaysHome(s, t, w) && OnlyReplies(s, t) && s.log.handled <= t.log.handled
    ensures CastOk(t, v)
  {
    var c := s.casts[v];
    assert CastOk(s, v);
    assert Key(v, c.room) in s.rooms && t.rooms[Key(v, c.room)] == s.rooms[Key(v, c.room)];
    forall fd | fd in Targets(c) ensures AllBefore(Packed(t, fd), c.room, c.packet.serial) {
      BoundKept(s, t, fd, c.room, c.packet.serial);
    }
  }

  lemma SpeakPlaces(s: State, w: WorkerId, found: RoomId)
    requires Speaks(s, w)
    ensures SamePlaces(s, Act(s, w, found))
  {
    hide Settle, UserIdOf, WithCast;
    var e, a := s.running[w].(cursor := s.running[w].cursor + 1), ActionAt(s, w);
    var u := Effect(s, w, e, a);
    assert Act(s, w, found) == Settle(u, w, Marked(s, e, a), CodeAt(s, w, e, a));
    SettlePlaces(u, w, Marked(s, e, a), CodeAt(s, w, e, a));
  }

  /** A broadcast starts with everybody who is there, and nobody has anything newer. */
  lemma CastStarts(s: State, t: State, w: WorkerId)
    requires Streams(s) && Moving(s, w) && Speaks(s, w) && w in t.casts && t.casts == CastsAfter(s, w) && w !in s.casts
    requires SamePlaces(s, t) && t.log.home == s.log.home && w in t.running && OnlyReplies(s, t)
    requires t.log.handled == s.log.handled + SaidBy(s, w)
    ensures CastOk(t, w)
  {
    LocalAtHome(s.log.home, w, s.running[w]);
    hide OnCourse, Bound, UserIdOf;
    var c := t.casts[w];
    assert SpeaksFor(t.log.handled, c);
    forall fd | fd in Targets(c) ensures AllBefore(Packed(t, fd), c.room, c.packet.serial) {
      assert StreamOk(s.log.handled, fd, Packed(s, fd));
      StreamBound(s.log.handled, fd, Packed(s, fd));
      hide StreamOk, AllBefore;
      BoundKept(s, t, fd, c.room, |s.log.handled|);
    }
  }

  lemma BoundKept(s: State, t: State, fd: Fd, room: RoomId, n: nat)
    requires OnlyReplies(s, t) && AllBefore(Packed(s, fd), room, n)
    ensures AllBefore(Packed(t, fd), room, n)
  {
    if Packed(t, fd) != Packed(s, fd) {
      var p: Packet :| p.Response? && Packed(t, fd) == Packed(s, fd) + [p];
      assert forall i | 0 <= i < |Packed(t, fd)| && Packed(t, fd)[i].Broadcast? ::
               i < |Packed(s, fd)| && Packed(t, fd)[i] == Packed(s, fd)[i];
    }
  }

  lemma WorkStreams(s: State, w: WorkerId, found: RoomId)
    requires Streams(s) && Own(s) && w in s.running && w !in s.casts
    requires Says(s, Act(s, w, found), SaidBy(s, w), JobsBy(s, w), HearersOf(s, w), PacketsOf(s, w))
    ensures Streams(Act(s, w, found))
  {
    hide Own, Act, StreamOk, CastOk, OnlyReplies, OnCourse, Bound, SaidBy, JobsBy, HearersOf, PacketsOf,
         RunningAfter, StaysHome, UserIdOf, NextFlight;
    var t := Act(s, w, found);
    OwnRunning(s, w);
    WorkReplies(s, t, w);
    WorkCasts(s, w, found);
    WorkStaysHome(s, w, found);
    WorkUnbinds(s, w, found);
    SendActions(s, w);
    WorkRuns(s, w, found);
    OthersRun(s, w);
    forall fd ensures StreamOk(t.log.handled, fd, Packed(t, fd)) {
      assert StreamOk(s.log.handled, fd, Packed(s, fd));
      StreamKept(s, t, fd);
    }
    forall v | v in t.casts ensures CastOk(t, v) {
      if v != w {
        CastIsOf(s, v);
        CastElsewhere(s, t, w, v);
      } else {
        SpeakPlaces(s, w, found);
        CastStarts(s, t, w);
      }
    }
  }

  lemma CastIsOf(s: State, v: WorkerId)
    requires Streams(s) && v in s.casts
    ensures v in s.running
  {
    assert CastOk(s, v);
  }

  lemma OthersRun(s: State, w: WorkerId)
    requires Moving(s, w)
    ensures forall v | v in s.running && v != w :: v in RunningAfter(s, w)
    ensures Speaks(s, w) ==> w in RunningAfter(s, w)
  {
    SpeakNext(s, w);
  }

  lemma LookCasts(s: State, w: WorkerId, fd: Fd, v: WorkerId)
    requires w in s.casts && s.casts[w].chosen.Nothing? && fd in s.casts[w].left && v in LookAt(s, w, fd).casts
    ensures v in s.casts && var t := LookAt(s, w, fd);
            && t == s.(casts := t.casts)
            && if v != w then t.casts[v] == s.casts[v]
               else && Targets(t.casts[v]) <= Targets(s.casts[v]) && Targets(t.casts[v]) != {}
                    && t.casts[v] == s.casts[v].(left := t.casts[v].left, chosen := t.casts[v].chosen)
                    && (t.casts[v].chosen.Some? ==>
                          t.casts[v].chosen.value != s.casts[v].sender && t.casts[v].chosen.value !in t.casts[v].left)
  {}

  lemma LookStreams(s: State, w: WorkerId, fd: Fd)
    requires Streams(s) && w in s.casts && s.casts[w].chosen.Nothing? && fd in s.casts[w].left
    ensures Streams(LookAt(s, w, fd))
  {
    hide StreamOk, AllBefore, SpeaksFor;
    var t := LookAt(s, w, fd);
    assert forall d :: Packed(t, d) == Packed(s, d);
    forall v | v in t.casts ensures CastOk(t, v) {
      LookCasts(s, w, fd, v);
      assert CastOk(s, v);
      hide LookAt;
      assert SpeaksFor(t.log.handled, t.casts[v]) by { SameSpeech(s.log.handled, s.casts[v], t.casts[v]); }
    }
  }

  lemma SameSpeech(handled: seq<Handled>, c: Cast, d: Cast)
    requires SpeaksFor(handled, c) && d == c.(left := d.left, chosen := d.chosen)
    ensures SpeaksFor(handled, d)
  {}

  lemma GiveCasts(s: State, w: WorkerId, v: WorkerId)
    requires w in s.casts && s.casts[w].chosen.Some? && v in GiveTo(s, w).casts
    ensures v in s.casts && var t := GiveTo(s, w);
            && t.casts[v] == (if v == w then s.casts[w].(chosen := Nothing) else s.casts[v])
               && (v == w ==> t.casts[v].left != {})
            && t.rooms == s.rooms && t.users == s.users && t.running == s.running && t.log == s.log
  {}

  lemma GiveStream(s: State, w: WorkerId)
    requires Streams(s) && w in s.casts && s.casts[w].chosen.Some?
    ensures var t := GiveTo(s, w); forall d :: StreamOk(t.log.handled, d, Packed(t, d))
  {
    hide StreamOk, AllBefore, WithCast;
    var t, c := GiveTo(s, w), s.casts[w];
    GiveSays(s, w);
    assert CastOk(s, w);
    forall d ensures StreamOk(t.log.handled, d, Packed(t, d)) {
      assert StreamOk(s.log.handled, d, Packed(s, d));
      if d == c.chosen.value {
        StreamBroadcast(s.log.handled, c, d, Packed(s, d));
      } else {
        assert Packed(t, d) == Packed(s, d) + [] == Packed(s, d);
      }
    }
  }

  lemma OtherRoom(ps: seq<Packet>, p: Packet, room: RoomId, serial: nat)
    requires AllBefore(ps, room, serial) && p.Broadcast? && p.room != room
    ensures AllBefore(ps + [p], room, serial)
  {
    assert forall i | 0 <= i < |ps| :: (ps + [p])[i] == ps[i];
  }

  /** The packet is of another room than any other broadcast in progress, and goes to nobody twice. */
  lemma GiveCast(s: State, w: WorkerId, v: WorkerId)
    requires Streams(s) && w in s.casts && s.casts[w].chosen.Some? && v in GiveTo(s, w).casts
    requires s.casts[w].chosen.value !in s.casts[w].left
    ensures CastOk(GiveTo(s, w), v)
  {
    hide StreamOk, AllBefore;
    var t, c := GiveTo(s, w), s.casts[w];
    assert CastOk(s, w) && CastOk(s, v);
    GiveCasts(s, w, v);
    GiveSays(s, w);
    hide GiveTo, PackedWith;
    forall d | d in Targets(t.casts[v]) ensures AllBefore(Packed(t, d), t.casts[v].room, t.casts[v].packet.serial) {
      if d == c.chosen.value {
        OtherRoom(Packed(s, d), c.packet, t.casts[v].room, t.casts[v].packet.serial);
      } else {
        assert Packed(t, d) == Packed(s, d) + [] == Packed(s, d);
      }
    }
  }

  lemma GiveStreams(s: State, w: WorkerId)
    requires Streams(s) && w in s.casts && s.casts[w].chosen.Some?
    ensures Streams(GiveTo(s, w))
  {
    hide GiveTo, StreamOk;
    assert CastOk(s, w);
    GiveStream(s, w);
    hide CastOk;
    forall v | v in GiveTo(s, w).casts ensures CastOk(GiveTo(s, w), v) { GiveCast(s, w, v); }
  }

  lemma QuietStreams(s: State, t: State)
    requires Streams(s) && Says(s, t, [], [], {}, []) && t.casts == s.casts && t.rooms == s.rooms
    requires (forall w | w in s.running :: w in t.running) && Grows(s.log.home, t.log.home)
    ensures Streams(t)
  {
    hide StreamOk, AllBefore;
    assert t.log.handled == s.log.handled;
    forall fd ensures Packed(t, fd) == Packed(s, fd) { assert Packed(t, fd) == Packed(s, fd) + []; }
    forall v | v in t.casts ensures CastOk(t, v) { assert CastOk(s, v); }
    forall fd ensures StreamOk(t.log.handled, fd, Packed(t, fd)) { assert StreamOk(s.log.handled, fd, Packed(s, fd)); }
  }

  lemma QuietStepStreams(s: State, step: Step)
    requires Own(s) && Streams(s) && Enabled(s, step) && !step.Work? && !step.Look? && !step.Give?
    ensures Streams(Apply(s, step))
  {
    hide Own, Streams, Says, Route, FinishJob;
    var t := Apply(s, step);
    SilentStep(s, step);
    StepWritesOnce(s, step);
    QuietFields(s, step);
    QuietStreams(s, t);
  }

  lemma QuietFields(s: State, step: Step)
    requires Enabled(s, step) && !step.Work? && !step.Look? && !step.Give?
    ensures var t := Apply(s, step);
            t.casts == s.casts && t.rooms == s.rooms && (forall w | w in s.running :: w in t.running)
  {
    hide Route, FinishJob;
    match step
    case Accept(_, _, _) =>
    case Ask(_, _, _, _) =>
    case Start(_, _) =>
    case Tick(fd, garbage) =>
      if fd in s.users { RouteFields(s, FlushEvent(fd, s.users[fd].room, garbage)); }
    case Close(fd, garbage) =>
      var u := Route(s, DepartEvent(fd, s.users[fd].room, garbage));
      RouteFields(s, DepartEvent(fd, s.users[fd].room, garbage));
      RouteFields(u, DepartEvent(fd, LOBBY_ROOM_ID, garbage));
      if s.users[fd].room != LOBBY_ROOM_ID {} else {}
    case Query(o) =>
      QueryPlaces(s, o);
      QueryRuns(s, o);
      QueryCasts(s, o);
  }

  lemma RouteFields(s: State, e: Event)
    ensures var t := Route(s, e);
            && t.casts == s.casts && t.rooms == s.rooms && t.users == s.users
            && t.running == s.running
  {
    if FindWorker(s, e.target) == 0 {} else {}
  }

  lemma QueryCasts(s: State, o: DbOutcome)
    requires s.jobs != []
    ensures FinishJob(s, o).casts == s.casts
  {
    hide Route, LoadResult, Post, Hand, Bind, Resolved, Report;
    var t := s.(jobs := s.jobs[1..]);
    match s.jobs[0]
    case SaveJob(_, _, _, _) => if o.Saved? {} else {}
    case CreateJob(e) => CallbackFields(t, e, o);
    case HandJob(e, w) => PostFields(t, w, e.(hops := e.hops + 1));
    case LoadJob(e, room, before) => RouteFields(t, LoadResult(s, e, room, before, o));
  }
}
