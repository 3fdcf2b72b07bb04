/**
  Message order, for any client input: each session receives a room's broadcasts in the order the room handled them,
  and the room's messages are stored in that same order, one job per broadcast.
 */
module Broadcasts {
  import opened Bytes
  import opened RoomEvents
  import opened ServerState
  import opened History
  import opened Flights
  import opened Itinerary
  import opened Ownership
  import opened Requests
  import opened Tokens
  import opened Talk

  // ---- the order of save jobs of one room ----

  /** The numbers of the messages a room handled, in order. */
  function HandleOrder(handled: seq<Handled>, r: RoomId): seq<nat> {
    if handled == [] then []
    else
      var i := |handled| - 1;
      HandleOrder(handled[..i], r) + if handled[i].room == r then [i] else []
  }

  /** The numbers of the messages of a room that have a save job, in the order the jobs were posted. */
  function SaveOrder(posted: seq<Job>, r: RoomId): seq<nat> {
    if posted == [] then []
    else
      var j := posted[|posted| - 1];
      SaveOrder(posted[..|posted| - 1], r) + if j.SaveJob? && j.room == r then [j.serial] else []
  }

  /** The message a worker has broadcast and is about to post the save job for. */
  function Unsaved(s: State, r: RoomId): seq<nat> {
    if r in s.log.home && s.log.home[r] in s.running
       && s.running[s.log.home[r]].plan == PlanSend(r) && s.running[s.log.home[r]].cursor == 1
    then [s.running[s.log.home[r]].mark] else []
  }

  /** Handled messages are the saved ones, in the same order, and at most one more that is being saved. */
  ghost predicate SavedInOrder(s: State) {
    forall r :: HandleOrder(s.log.handled, r) == SaveOrder(s.log.posted, r) + Unsaved(s, r)
  }

  lemma HandleAppend(handled: seq<Handled>, h: Handled, r: RoomId)
    ensures HandleOrder(handled + [h], r) == HandleOrder(handled, r) + if h.room == r then [|handled|] else []
  {
    assert (handled + [h])[..|handled|] == handled;
  }

  lemma SaveAppend(posted: seq<Job>, j: Job, r: RoomId)
    ensures SaveOrder(posted + [j], r) == SaveOrder(posted, r) + if j.SaveJob? && j.room == r then [j.serial] else []
  {
    assert (posted + [j])[..|posted|] == posted;
  }

  lemma {:induction false} HandleOrderIs(handled: seq<Handled>, r: RoomId)
    ensures var o := HandleOrder(handled, r);
            && (forall i | 0 <= i < |o| :: o[i] < |handled| && handled[o[i]].room == r)
            && (forall i, j | 0 <= i < j < |o| :: o[i] < o[j])
            && (forall m | 0 <= m < |handled| && handled[m].room == r :: m in o)
  {
    if handled != [] {
      var i := |handled| - 1;
      HandleOrderIs(handled[..i], r);
      var o := HandleOrder(handled[..i], r);
      assert forall k | 0 <= k < |o| :: o[k] < i && handled[..i][o[k]] == handled[o[k]];
      forall m | 0 <= m < |handled| && handled[m].room == r ensures m in HandleOrder(handled, r) {
        if m < i { assert handled[..i][m].room == r && m in o; }
      }
    }
  }

  // ---- what a worker holds after one iteration ----

  function RunningAfter(s: State, w: WorkerId): map<WorkerId, Event>
    requires w in s.running
  {
    var next := NextFlight(s, w);
    if next.Some? && next.value.place == Running(w) then s.running[w := next.value.event] else s.running - {w}
  }

  lemma SettleRuns(s: State, w: WorkerId, e: Event, c: Code)
    ensures Settle(s, w, e, c).running == if c == Success then s.running[w := Report(e, c)] else s.running - {w}
  {
    if c == Success {} else {}
  }

  lemma RouteRuns(s: State, e: Event)
    ensures Route(s, e).running == s.running
  {
    if FindWorker(s, e.target) == 0 { assert Route(s, e) == Discard(s, e); } else {}
  }

  lemma LeaveRuns(s: State, w: WorkerId, fd: Fd, room: RoomId)
    ensures LeaveRoomAt(s, w, fd, room).running == s.running
  {
    if LeaveRoomCode(s, w, fd, room) == Success {}
  }

  lemma LocalRuns(s: State, w: WorkerId, e: Event, a: Action, found: RoomId)
    requires Local(a.command)
    ensures Execute(s, w, e, a, found).running ==
            if CodeAt(s, w, e, a) == Success then s.running[w := Report(Marked(s, e, a), Success)] else s.running - {w}
  {
    hide Count, Settle, Effect;
    EffectFlights(s, w, e, a);
    SettleRuns(Effect(s, w, e, a), w, Marked(s, e, a), CodeAt(s, w, e, a));
  }

  lemma DisconnectRuns(s: State, w: WorkerId, fd: Fd, room: RoomId, found: RoomId)
    ensures DisconnectAt(s, w, fd, room, found).running == s.running
  {
    hide LeaveRoomAt;
    LeaveRuns(s, w, fd, room);
    LeaveRuns(s, w, fd, found);
    if LeaveRoomCode(s, w, fd, room) == Success {} else {}
  }

  lemma PassRuns(s: State, w: WorkerId, e: Event, j: Job)
    ensures Submit(Release(s, w), j).running == s.running - {w} && Hold(Submit(s, j), w, e).running == s.running[w := e]
    ensures Respond(Release(Submit(s, j), w), e).running == s.running - {w}
            && Respond(Release(s, w), e).running == s.running - {w}
    ensures Release(s, w).running == s.running - {w}
  {}

  lemma RerouteRuns(s: State, w: WorkerId, e: Event, found: RoomId)
    ensures Route(Release(s, w), e).running == s.running - {w}
    ensures DisconnectAt(Release(s, w), w, e.fd, e.target, found).running == s.running - {w}
  {
    hide Route, DisconnectAt;
    RouteRuns(Release(s, w), e);
    DisconnectRuns(Release(s, w), w, e.fd, e.target, found);
  }

  /** What the worker holds after an action that is not local. */
  lemma HandOnRuns(s: State, w: WorkerId, e: Event, a: Action, found: RoomId)
    requires !Local(a.command)
    ensures Execute(s, w, e, a, found).running
            == if a.command.SaveMessage? && e.result == Success then s.running[w := e] else s.running - {w}
  {
    hide Route, Respond, DisconnectAt, Settle, Effect, UserIdOf, CodeAt, CursorOf, Submit, Release, Hold;
    match a.command
    case SaveMessage =>
      PassRuns(s, w, e, SaveJob(a.room, UserIdOf(s, e.fd), e.request, e.mark)); if e.result == Success {} else {}
    case RequestDbLoadMessage => PassRuns(s, w, e, LoadJob(e, a.room, CursorOf(e.request)));
    case RequestJoinRoom => RerouteRuns(s, w, e.(target := a.room), found);
    case RequestLeaveRoom => RerouteRuns(s, w, e.(target := a.room), found);
    case DisconnectSession => RerouteRuns(s, w, e, found);
    case _ => PassRuns(s, w, e, CreateJob(e));
  }

  lemma ExecuteRuns(s: State, w: WorkerId, found: RoomId)
    requires Executes(s, w)
    requires ActionAt(s, w).command.SaveMessage? ==> s.running[w].result == Success
    ensures Execute(s, w, s.running[w].(cursor := s.running[w].cursor + 1), ActionAt(s, w), found).running ==
            RunningAfter(s, w)
  {
    hide Execute, CodeAt, CursorOf, FindWorker;
    var e, a := s.running[w].(cursor := s.running[w].cursor + 1), ActionAt(s, w);
    if Local(a.command) {
      LocalRuns(s, w, e, a, found);
      SameCode(s, w, a);
    } else {
      HandOnRuns(s, w, e, a, found);
    }
  }

  lemma SameCode(s: State, w: WorkerId, a: Action)
    requires w in s.running && Local(a.command)
    ensures CodeAt(s, w, s.running[w].(cursor := s.running[w].cursor + 1), a) == CodeAt(s, w, s.running[w], a)
  {}

  lemma RespondRuns(s: State, e: Event)
    ensures Respond(s, e).running == s.running && Discard(s, e).running == s.running
  {}

  lemma WorkRuns(s: State, w: WorkerId, found: RoomId)
    requires w in s.running
    requires Executes(s, w) && ActionAt(s, w).command.SaveMessage? ==> s.running[w].result == Success
    ensures Act(s, w, found).running == RunningAfter(s, w)
  {
    hide Execute, Respond, Discard;
    var e, u := s.running[w], Release(s, w);
    RespondRuns(u, e);
    if Executes(s, w) { ExecuteRuns(s, w, found); }
  }

  // ---- every step keeps the save order ----

  lemma SilentSaves(s: State, t: State, r: RoomId, fds: set<Fd> := {}, ps: seq<Packet> := [])
    requires SavedInOrder(s) && Says(s, t, [], [], fds, ps) && Unsaved(t, r) == Unsaved(s, r)
    ensures HandleOrder(t.log.handled, r) == SaveOrder(t.log.posted, r) + Unsaved(t, r)
  {
    hide HandleOrder, SaveOrder, Unsaved;
    assert t.log.handled == s.log.handled && t.log.posted == s.log.posted;
  }

  /** Only a send in progress leaves a message unsaved. */
  lemma NothingUnsaved(s: State, r: RoomId)
    requires r !in s.log.home || s.log.home[r] !in s.running || s.running[s.log.home[r]].plan != PlanSend(r)
             || s.running[s.log.home[r]].cursor != 1
    ensures Unsaved(s, r) == []
  {}

  lemma StartUnsaved(s: State, w: WorkerId, k: nat, r: RoomId)
    requires Own(s) && 1 <= w <= s.n && w !in s.running && k < |Queue(s, w)|
    ensures Unsaved(Take(s, w, k), r) == Unsaved(s, r)
  {
    hide Own, Count;
    var e := Queue(s, w)[k];
    StartMoves(s, w, k);
    OwnFlight(s, Flight(Queued(w), e));
    assert e.plan.PlanSend? ==> e.cursor == 0;
  }

  lemma BoundUnsaved(s: State, t: State, r: RoomId)
    requires Own(s) && t.running == s.running && WriteOnce(s, t)
    ensures Unsaved(t, r) == Unsaved(s, r)
  {
    hide Own, Count;
    if r !in s.log.home && r in t.log.home && t.log.home[r] in s.running {
      OwnRunning(s, t.log.home[r]);
    }
  }

  /** What the send recipe does at its first two actions, seen from the rooms of the worker. */
  lemma SendActions(s: State, w: WorkerId)
    requires Moving(s, w)
    ensures Speaks(s, w) ==> s.running[w].plan == PlanSend(ActionAt(s, w).room) && s.running[w].cursor == 0
                             && ActionAt(s, w).room in s.log.home && s.log.home[ActionAt(s, w).room] == w
    ensures Executes(s, w) && ActionAt(s, w).command.SaveMessage? ==>
              s.running[w].plan == PlanSend(ActionAt(s, w).room) && s.running[w].cursor == 1
                  && s.running[w].result == Success
              && ActionAt(s, w).room in s.log.home && s.log.home[ActionAt(s, w).room] == w
    ensures s.running[w].plan.PlanSend? && s.running[w].cursor == 1 ==>
              Executes(s, w) && ActionAt(s, w).command.SaveMessage?
  {
    match s.running[w].plan
    case PlanSend(_) => if s.running[w].cursor == 0 {} else if s.running[w].cursor == 1 {} else {}
    case PlanCreate(_) =>
    case PlanJoin(_) =>
    case PlanLeave(_) =>
    case _ =>
  }

  lemma UnsavedAfter(s: State, t: State, w: WorkerId, r: RoomId)
    requires Moving(s, w) && t.running == RunningAfter(s, w) && t.log.home == s.log.home
    ensures Unsaved(t, r) ==
            if r in s.log.home && s.log.home[r] == w then
              (if Speaks(s, w) && ActionAt(s, w).room == r then [|s.log.handled|] else [])
            else Unsaved(s, r)
  {
    hide OnCourse, Bound, CodeAt, FindWorker, CursorOf;
    SendActions(s, w);
    SpeakNext(s, w);
  }

  /** After one iteration an event sits at the save action exactly when it has just been broadcast. */
  lemma SpeakNext(s: State, w: WorkerId)
    requires Moving(s, w)
    ensures var next := NextFlight(s, w);
            next.Some? && next.value.place == Running(w) && next.value.event.plan.PlanSend?
                && next.value.event.cursor == 1
            <==> Speaks(s, w)
    ensures var next := NextFlight(s, w);
            Speaks(s, w) ==>
              next.Some? && next.value.event.mark == |s.log.handled|
              && next.value.event.plan == PlanSend(ActionAt(s, w).room)
    ensures NextFlight(s, w).Some? ==> NextFlight(s, w).value.event.plan == s.running[w].plan
  {
    hide Bound;
    SendActions(s, w);
    hide OnCourse;
  }

  predicate SpeaksAt(s: State, w: WorkerId, r: RoomId) {
    Speaks(s, w) && ActionAt(s, w).room == r
  }

  predicate SavesAt(s: State, w: WorkerId, r: RoomId) {
    Executes(s, w) && ActionAt(s, w).command.SaveMessage? && ActionAt(s, w).room == r
  }

  lemma OrderAfter(s: State, t: State, w: WorkerId, r: RoomId)
    requires w in s.running
    requires Says(s, t, SaidBy(s, w), JobsBy(s, w), HearersOf(s, w), PacketsOf(s, w))
    ensures HandleOrder(t.log.handled, r) == HandleOrder(s.log.handled, r) + if SpeaksAt(s, w, r)
            then [|s.log.handled|] else []
    ensures SaveOrder(t.log.posted, r) == SaveOrder(s.log.posted, r) + if SavesAt(s, w, r) then [s.running[w].mark]
            else []
  {
    hide HandleOrder, SaveOrder, HearersOf, PacketsOf, UserIdOf, CursorOf;
    if SaidBy(s, w) != [] { HandleAppend(s.log.handled, SaidBy(s, w)[0], r); assert SaidBy(s, w) == [SaidBy(s, w)[0]]; }
    else { assert t.log.handled == s.log.handled; }
    if JobsBy(s, w) != [] { SaveAppend(s.log.posted, JobsBy(s, w)[0], r); assert JobsBy(s, w) == [JobsBy(s, w)[0]]; }
    else { assert t.log.posted == s.log.posted; }
  }

  lemma UnsavedBefore(s: State, w: WorkerId, r: RoomId)
    requires Moving(s, w) && r in s.log.home && s.log.home[r] == w
    ensures Unsaved(s, r) == if SavesAt(s, w, r) then [s.running[w].mark] else []
    ensures !(SpeaksAt(s, w, r) && SavesAt(s, w, r))
  {
    hide OnCourse, Bound;
    SendActions(s, w);
  }

  lemma NotHere(s: State, w: WorkerId, r: RoomId)
    requires Moving(s, w) && (r !in s.log.home || s.log.home[r] != w)
    ensures !SpeaksAt(s, w, r) && !SavesAt(s, w, r)
  {
    hide OnCourse, Bound;
    SendActions(s, w);
  }

  lemma WorkSaves(s: State, t: State, w: WorkerId, r: RoomId)
    requires SavedInOrder(s) && Moving(s, w) && t.running == RunningAfter(s, w) && t.log.home == s.log.home
    requires Says(s, t, SaidBy(s, w), JobsBy(s, w), HearersOf(s, w), PacketsOf(s, w))
    ensures HandleOrder(t.log.handled, r) == SaveOrder(t.log.posted, r) + Unsaved(t, r)
  {
    hide HandleOrder, SaveOrder, Unsaved, SaidBy, JobsBy, HearersOf, PacketsOf, Says, OnCourse, Bound, RunningAfter;
    OrderAfter(s, t, w, r);
    UnsavedAfter(s, t, w, r);
    assert HandleOrder(s.log.handled, r) == SaveOrder(s.log.posted, r) + Unsaved(s, r);
    if r in s.log.home && s.log.home[r] == w { UnsavedBefore(s, w, r); } else { NotHere(s, w, r); }
  }

  // ---- marks: what was said and saved when an event passed its JOIN or SEND ----

  /** Every message of `r` numbered below `mark` has a save job among `posted`. */
  predicate Covered(handled: seq<Handled>, posted: seq<Job>, r: RoomId, mark: nat) {
    && mark <= |handled|
    && forall m | 0 <= m < mark && handled[m].room == r :: m in SaveOrder(posted, r)
  }

  predicate MarkOk(handled: seq<Handled>, posted: seq<Job>, e: Event) {
    match e.plan
    case PlanSend(r) =>
      && (e.cursor >= 1 && e.result == Success
          ==> e.mark < |handled| && handled[e.mark] == Handled(r, e.fd, e.request, e.origin))
      && (e.cursor >= 2 && e.result == Success ==> e.mark in SaveOrder(posted, r))
    case PlanJoin(r) => e.cursor >= 1 ==> Covered(handled, posted, r, e.mark)
    case _ => true
  }

  /** A send answered with Success was broadcast under its own number and has its save job. */
  predicate AnswerMark(handled: seq<Handled>, posted: seq<Job>, e: Event) {
    e.plan.PlanSend? && e.result == Success ==>
      && e.mark < |handled| && handled[e.mark] == Handled(e.plan.room, e.fd, e.request, e.origin)
      && e.mark in SaveOrder(posted, e.plan.room)
  }

  /** The history load of a join comes after the save jobs of everything its room had handled at the JOIN. */
  predicate LoadCovered(handled: seq<Handled>, posted: seq<Job>, e: Event) {
    e.plan.PlanJoin? ==> Covered(handled, posted, e.plan.room, e.mark)
  }

  lemma {:induction false} SaveOrderGrows(posted: seq<Job>, later: seq<Job>, r: RoomId, m: nat)
    requires posted <= later && m in SaveOrder(posted, r)
    ensures m in SaveOrder(later, r)
  {
    if posted == later {
    } else {
      var cut := later[..|later| - 1];
      assert posted <= cut;
      SaveOrderGrows(posted, cut, r, m);
    }
  }

  lemma CoveredGrows(h: seq<Handled>, h': seq<Handled>, p: seq<Job>, p': seq<Job>, r: RoomId, mark: nat)
    requires Covered(h, p, r, mark) && h <= h' && p <= p'
    ensures Covered(h', p', r, mark)
  {
    forall m | 0 <= m < mark && h'[m].room == r ensures m in SaveOrder(p', r) {
      assert h[m].room == r;
      SaveOrderGrows(p, p', r, m);
    }
  }

  lemma MarkGrows(h: seq<Handled>, h': seq<Handled>, p: seq<Job>, p': seq<Job>, e: Event)
    requires MarkOk(h, p, e) && h <= h' && p <= p'
    ensures MarkOk(h', p', e)
  {
    hide Covered, SaveOrder;
    match e.plan
    case PlanSend(r) => if e.cursor >= 2 && e.result == Success { SaveOrderGrows(p, p', r, e.mark); }
    case PlanJoin(r) => if Covered(h, p, r, e.mark) { CoveredGrows(h, h', p, p', r, e.mark); }
    case _ =>
  }

  lemma AnswerGrows(h: seq<Handled>, h': seq<Handled>, p: seq<Job>, p': seq<Job>, e: Event)
    requires h <= h' && p <= p'
    ensures AnswerMark(h, p, e) ==> AnswerMark(h', p', e)
    ensures LoadCovered(h, p, e) ==> LoadCovered(h', p', e)
  {
    hide Covered, SaveOrder;
    if e.plan.PlanSend? && e.mark in SaveOrder(p, e.plan.room) { SaveOrderGrows(p, p', e.plan.room, e.mark); }
    if e.plan.PlanJoin? && Covered(h, p, e.plan.room, e.mark) { CoveredGrows(h, h', p, p', e.plan.room, e.mark); }
  }

  /** When a worker runs the JOIN of a room, everything that room has handled already has its save job. */
  lemma JoinFindsAllSaved(s: State, w: WorkerId, r: RoomId)
    requires SavedInOrder(s) && w in s.running && r in s.log.home && s.log.home[r] == w && !s.running[w].plan.PlanSend?
    ensures Covered(s.log.handled, s.log.posted, r, |s.log.handled|)
  {
    hide HandleOrder, SaveOrder;
    NothingUnsaved(s, r);
    hide Unsaved;
    assert HandleOrder(s.log.handled, r) == SaveOrder(s.log.posted, r) + [] == SaveOrder(s.log.posted, r);
    HandleOrderIs(s.log.handled, r);
  }

  ghost predicate Marking(s: State, t: State, w: WorkerId) {
    && Moving(s, w) && SavedInOrder(s) && MarkOk(s.log.handled, s.log.posted, s.running[w])
    && Says(s, t, SaidBy(s, w), JobsBy(s, w), HearersOf(s, w), PacketsOf(s, w))
  }

  lemma LogsGrow(s: State, t: State, w: WorkerId)
    requires w in s.running && Says(s, t, SaidBy(s, w), JobsBy(s, w), HearersOf(s, w), PacketsOf(s, w))
    ensures s.log.handled <= t.log.handled && s.log.posted <= t.log.posted
  {
    hide SaidBy, JobsBy, HearersOf, PacketsOf;
  }

  lemma SendMark(s: State, t: State, w: WorkerId)
    requires Marking(s, t, w) && s.running[w].plan.PlanSend?
    ensures NextFlight(s, w).Some? ==> MarkOk(t.log.handled, t.log.posted, NextFlight(s, w).value.event)
    ensures FateOf(s, w).Replied? ==> AnswerMark(t.log.handled, t.log.posted, FateOf(s, w).event)
  {
    hide SaveOrder, HearersOf, PacketsOf, SavedInOrder, JobsBy, Bound;
    var e, r := s.running[w], s.running[w].plan.room;
    LogsGrow(s, t, w);
    OrderAfter(s, t, w, r);
    MarkGrows(s.log.handled, t.log.handled, s.log.posted, t.log.posted, e);
    if e.cursor == 0 {} else if e.cursor == 1 {} else {}
  }

  lemma JoinMark(s: State, t: State, w: WorkerId)
    requires Marking(s, t, w) && s.running[w].plan.PlanJoin? && TrailOk(Flight(Running(w), s.running[w]))
    ensures NextFlight(s, w).Some? ==> MarkOk(t.log.handled, t.log.posted, NextFlight(s, w).value.event)
    ensures FateOf(s, w).Replied? ==> AnswerMark(t.log.handled, t.log.posted, FateOf(s, w).event)
  {
    hide Covered, HearersOf, PacketsOf, JobsBy, SaidBy, Bound, SaveOrder, HandleOrder;
    var e, r := s.running[w], s.running[w].plan.room;
    LogsGrow(s, t, w);
    MarkGrows(s.log.handled, t.log.handled, s.log.posted, t.log.posted, e);
    if e.cursor == 0 {
      JoinFindsAllSaved(s, w, r);
      CoveredGrows(s.log.handled, t.log.handled, s.log.posted, t.log.posted, r, |s.log.handled|);
    }
  }

  lemma OtherMark(s: State, t: State, w: WorkerId)
    requires Moving(s, w) && !s.running[w].plan.PlanSend? && !s.running[w].plan.PlanJoin?
    ensures NextFlight(s, w).Some? ==> MarkOk(t.log.handled, t.log.posted, NextFlight(s, w).value.event)
    ensures FateOf(s, w).Replied? ==> AnswerMark(t.log.handled, t.log.posted, FateOf(s, w).event)
  {
    hide OnCourse, Bound, CodeAt, CursorOf, FindWorker;
    PlanKept(s, w);
    hide NextFlight, FateOf;
  }

  lemma PlanKept(s: State, w: WorkerId)
    requires w in s.running
    ensures NextFlight(s, w).Some? ==> NextFlight(s, w).value.event.plan == s.running[w].plan
    ensures FateOf(s, w).Replied? ==> FateOf(s, w).event.plan == s.running[w].plan
  {
    hide CodeAt, CursorOf, FindWorker;
  }

  lemma NextMark(s: State, t: State, w: WorkerId)
    requires Marking(s, t, w) && TrailOk(Flight(Running(w), s.running[w]))
    ensures NextFlight(s, w).Some? ==> MarkOk(t.log.handled, t.log.posted, NextFlight(s, w).value.event)
    ensures FateOf(s, w).Replied? ==> AnswerMark(t.log.handled, t.log.posted, FateOf(s, w).event)
  {
    hide MarkOk, AnswerMark, NextFlight, FateOf, Says, SavedInOrder, OnCourse, Bound, TrailOk;
    if s.running[w].plan.PlanSend? { SendMark(s, t, w); }
    else if s.running[w].plan.PlanJoin? { JoinMark(s, t, w); }
    else { OtherMark(s, t, w); }
  }

  /** Marks hold of every event in flight, every answer, and every load job at the moment it was posted. */
  ghost predicate Marks(s: State) {
    && (forall f | In(s, f) :: MarkOk(s.log.handled, s.log.posted, f.event))
    && (forall i | 0 <= i < |s.log.answers| :: AnswerMark(s.log.handled, s.log.posted, s.log.answers[i]))
    && (forall k | 0 <= k < |s.log.posted| && s.log.posted[k].LoadJob? ::
          LoadCovered(s.log.handled, s.log.posted[..k], s.log.posted[k].event))
  }

  ghost predicate MarkMove(s: State, t: State, gone: Option<Flight>, come: Option<Flight>) {
    && Moved(s, t, gone, come)
    && s.log.handled <= t.log.handled && s.log.posted <= t.log.posted && |t.log.posted| <= |s.log.posted| + 1
    && s.log.answers <= t.log.answers
    && (come.Some? ==> MarkOk(t.log.handled, t.log.posted, come.value.event))
    && (forall i | |s.log.answers| <= i < |t.log.answers| :: AnswerMark(t.log.handled, t.log.posted, t.log.answers[i]))
    && (|t.log.posted| > |s.log.posted| && t.log.posted[|s.log.posted|].LoadJob? ==>
          LoadCovered(t.log.handled, s.log.posted, t.log.posted[|s.log.posted|].event))
  }

  lemma MoveMarks(s: State, t: State, gone: Option<Flight>, come: Option<Flight>)
    requires Marks(s) && MarkMove(s, t, gone, come)
    ensures Marks(t)
  {
    hide MarkOk, AnswerMark, LoadCovered, Count;
    var h, h', p, p' := s.log.handled, t.log.handled, s.log.posted, t.log.posted;
    forall f | In(t, f) ensures MarkOk(h', p', f.event) {
      if come != Some(f) { assert In(s, f); MarkGrows(h, h', p, p', f.event); }
    }
    forall i | 0 <= i < |t.log.answers| ensures AnswerMark(h', p', t.log.answers[i]) {
      if i < |s.log.answers| {
        assert t.log.answers[i] == s.log.answers[i];
        AnswerGrows(h, h', p, p', s.log.answers[i]);
      }
    }
    forall k | 0 <= k < |p'| && p'[k].LoadJob? ensures LoadCovered(h', p'[..k], p'[k].event) {
      if k < |p| {
        assert p'[k] == p[k] && p'[..k] == p[..k];
        AnswerGrows(h, h', p[..k], p[..k], p[k].event);
      } else {
        assert p'[..k] == p;
      }
    }
  }

  lemma LoadPosted(s: State, t: State, w: WorkerId)
    requires Marking(s, t, w) && TrailOk(Flight(Running(w), s.running[w]))
    ensures |JobsBy(s, w)| <= 1
    ensures JobsBy(s, w) != [] && JobsBy(s, w)[0].LoadJob?
            ==> LoadCovered(t.log.handled, s.log.posted, JobsBy(s, w)[0].event)
  {
    hide Covered, HearersOf, PacketsOf, SaidBy, Bound, SaveOrder, HandleOrder, SavedInOrder, UserIdOf;
    LogsGrow(s, t, w);
    MarkGrows(s.log.handled, t.log.handled, s.log.posted, s.log.posted, s.running[w]);
    if Executes(s, w) && ActionAt(s, w).command.RequestDbLoadMessage? {
      LoadEvents(s, w);
      if s.running[w].plan.PlanJoin? { assert s.running[w].outcomes != []; }
    }
    hide OnCourse;
  }

  lemma LoadEvents(s: State, w: WorkerId)
    requires Moving(s, w) && Executes(s, w) && ActionAt(s, w).command.RequestDbLoadMessage?
    ensures (s.running[w].plan.PlanJoin? && s.running[w].cursor == 3 && s.running[w].result == Success)
            || s.running[w].plan.PlanLoad?
  {
    match s.running[w].plan
    case _ =>
  }

  lemma WorkMarks(s: State, w: WorkerId, found: RoomId)
    requires Own(s) && Tracked(s) && Marks(s) && SavedInOrder(s) && w in s.running
    requires Says(s, Act(s, w, found), SaidBy(s, w), JobsBy(s, w), HearersOf(s, w), PacketsOf(s, w))
    ensures Marks(Act(s, w, found))
  {
    hide Own, Count, MarkOk, AnswerMark, LoadCovered, Act, NextFlight, FateOf, SaidBy, JobsBy, HearersOf, PacketsOf,
         SavedInOrder, TrailOk, OnCourse, Bound;
    var t := Act(s, w, found);
    OwnRunning(s, w);
    OwnStaffed(s);
    WorkMoves(s, w, found);
    WorkTally(s, w, found);
    assert Marking(s, t, w);
    NextMark(s, t, w);
    LogsGrow(s, t, w);
    LoadPosted(s, t, w);
    MoveMarks(s, t, Some(Flight(Running(w), s.running[w])), NextFlight(s, w));
  }

  // ---- the steps that say nothing ----

  /** A step that says nothing and moves an event without touching its mark. */
  lemma SilentMarks(s: State, t: State, gone: Option<Flight>, come: Option<Flight>, fds: set<Fd> := {},
                    ps: seq<Packet> := [])
    requires Marks(s) && Moved(s, t, gone, come) && Says(s, t, [], [], fds, ps) && t.log.answers == s.log.answers
    requires come.Some? ==> MarkOk(s.log.handled, s.log.posted, come.value.event)
    ensures Marks(t)
  {
    hide MarkOk, AnswerMark, LoadCovered, Count;
    assert t.log.handled == s.log.handled && t.log.posted == s.log.posted;
    MoveMarks(s, t, gone, come);
  }

  lemma AcceptMarks(s: State, fd: Fd, id: int64, garbage: Command)
    requires Own(s) && Marks(s) && Says(s, AcceptClient(s, fd, id, garbage), [], [], {}, [])
    ensures Marks(AcceptClient(s, fd, id, garbage))
  {
    hide Own, Count, Marks, Says;
    OwnStaffed(s);
    AcceptMoves(s, fd, id, garbage);
    SilentMarks(s, AcceptClient(s, fd, id, garbage), Nothing,
                Some(Flight(Queued(LOBBY_WORKER_ID), ArrivalEvent(fd, garbage))));
  }

  lemma AskMarks(s: State, fd: Fd, cmd: Command, room: RoomId, body: seq<byte>)
    requires Own(s) && Marks(s) && Says(s, Dispatch(s, fd, cmd, room, body), [], [], {}, [])
    ensures Marks(Dispatch(s, fd, cmd, room, body))
  {
    hide Own, Count, Marks, Says;
    OwnStaffed(s);
    AskMoves(s, fd, cmd, room, body);
    SilentMarks(s, Dispatch(s, fd, cmd, room, body), Nothing, Some(AskCome(s, fd, cmd, room, body)));
  }

  lemma RouteMarks(s: State, e: Event)
    requires Staffed(s) && Marks(s) && !e.origin.Request? && !e.plan.PlanSend? && !e.plan.PlanJoin?
    ensures Marks(Route(s, e))
  {
    hide Count, Marks, Says, Route;
    RouteFlights(s, e);
    RouteTally(s, e);
    RouteSays(s, e, {});
    var w := FindWorker(s, e.target);
    SilentMarks(s, Route(s, e), Nothing, if w == 0 then Nothing else Some(Flight(Queued(w), e.(hops := e.hops + 1))));
  }

  lemma CloseMarks(s: State, fd: Fd, garbage: Command)
    requires Own(s) && Marks(s) && fd in s.users
    ensures Marks(CloseSession(s, fd, garbage))
  {
    hide Own, Count, Marks, Route, Says;
    OwnStaffed(s);
    var room := s.users[fd].room;
    var t := Route(s, DepartEvent(fd, room, garbage));
    RouteMarks(s, DepartEvent(fd, room, garbage));
    RouteStaffed(s, DepartEvent(fd, room, garbage));
    RouteMarks(t, DepartEvent(fd, LOBBY_ROOM_ID, garbage));
    var u := if room != LOBBY_ROOM_ID then Route(t, DepartEvent(fd, LOBBY_ROOM_ID, garbage)) else t;
    var v := u.(users := u.users - {fd});
    SameFlights(u, v);
    SilentSays(u, v, {});
    SilentMarks(u, v, Nothing, Nothing);
  }

  lemma StartMarks(s: State, w: WorkerId, k: nat)
    requires Marks(s) && 1 <= w <= s.n && w !in s.running && k < |Queue(s, w)|
    ensures Marks(Take(s, w, k))
  {
    hide Count, MarkOk, Says;
    var e := Queue(s, w)[k];
    StartMoves(s, w, k);
    SilentSays(s, Take(s, w, k), {});
    assert MarkOk(s.log.handled, s.log.posted, Flight(Queued(w), e).event);
    SilentMarks(s, Take(s, w, k), Some(Flight(Queued(w), e)), Some(Flight(Running(w), e)));
  }

  lemma CreateMark(s: State, o: DbOutcome)
    requires s.jobs != [] && (s.jobs[0].CreateJob? || s.jobs[0].HandJob?)
    requires OnCourse(s.log.home, QueryGone(s).value) && MarkOk(s.log.handled, s.log.posted, QueryGone(s).value.event)
    ensures MarkOk(s.log.handled, s.log.posted, QueryCome(s, o).value.event)
  {
    hide Covered, SaveOrder, FindWorker, Bound, Resolve, ReportCount;
    assert s.jobs[0].event.plan.PlanCreate?;
    hide OnCourse;
    if s.jobs[0].CreateJob? { if o.Created? {} else {} }
  }

  lemma LoadMark(s: State, o: DbOutcome)
    requires s.jobs != [] && s.jobs[0].LoadJob? && QueryCome(s, o).Some?
    requires OnCourse(s.log.home, QueryGone(s).value) && MarkOk(s.log.handled, s.log.posted, QueryGone(s).value.event)
    ensures MarkOk(s.log.handled, s.log.posted, QueryCome(s, o).value.event)
  {
    hide Covered, SaveOrder, FindWorker, Bound, LoadResult;
    var e := s.jobs[0].event;
    LoadKeeps(s, e, s.jobs[0].room, s.jobs[0].before, o);
    match e.plan
    case PlanJoin(_) =>
    case PlanLoad(_) =>
  }

  lemma QueryMark(s: State, o: DbOutcome)
    requires s.jobs != [] && QueryGone(s).Some? && QueryCome(s, o).Some?
    requires OnCourse(s.log.home, QueryGone(s).value)
    requires MarkOk(s.log.handled, s.log.posted, QueryGone(s).value.event)
    ensures MarkOk(s.log.handled, s.log.posted, QueryCome(s, o).value.event)
  {
    hide OnCourse, MarkOk, QueryCome;
    if s.jobs[0].LoadJob? { LoadMark(s, o); } else { CreateMark(s, o); }
  }

  lemma QueryMarks(s: State, o: DbOutcome)
    requires Own(s) && Tracked(s) && Marks(s) && s.jobs != [] && OutcomeOk(s, s.jobs[0], o)
    ensures Marks(FinishJob(s, o))
  {
    hide Own, Count, MarkOk, TrailOk, OnCourse, FinishJob, QueryGone, QueryCome, QueryFate, OutcomeOk, Says;
    QueryMoves(s, o);
    QueryTally(s, o);
    QuerySays(s, o);
    var gone, come := QueryGone(s), QueryCome(s, o);
    if gone.Some? {
      OwnFlight(s, gone.value);
      QueryKeepsOrigin(s, o);
      if come.Some? { QueryMark(s, o); }
    } else {
      QueryNothing(s, o);
    }
    SilentMarks(s, FinishJob(s, o), gone, come);
  }

  // ---- the whole conversation ----

  /** Requests accounted for, every room saved in order, marks truthful. */
  ghost predicate Conversation(s: State) {
    Account(s) && SavedInOrder(s) && Marks(s)
  }

  lemma WorkConversation(s: State, w: WorkerId, found: RoomId)
    requires Conversation(s) && w in s.running
    ensures var t := Act(s, w, found); SavedInOrder(t) && Marks(t)
  {
    hide Own, Linear, Marks, Act, Says, SaidBy, JobsBy, HearersOf, PacketsOf, RunningAfter, HandleOrder, SaveOrder,
         Unsaved, OnCourse, Bound;
    var t := Act(s, w, found);
    OwnRunning(s, w);
    SendActions(s, w);
    WorkSays(s, w, found);
    WorkRuns(s, w, found);
    WorkUnbinds(s, w, found);
    WorkMarks(s, w, found);
    forall r ensures HandleOrder(t.log.handled, r) ==
        SaveOrder(t.log.posted, r) + Unsaved(t, r) { WorkSaves(s, t, w, r); }
  }

  lemma QuietUnsaved(s: State, step: Step, r: RoomId)
    requires Own(s) && Enabled(s, step) && !step.Work? && !step.Look? && !step.Give?
    ensures Unsaved(Apply(s, step), r) == Unsaved(s, r)
  {
    hide Own, Unsaved, Route, Post, FinishJob, CloseSession;
    StepWritesOnce(s, step);
    match step
    case Start(w, k) => StartUnsaved(s, w, k, r);
    case Accept(fd, id, garbage) =>
      PostRuns(s.(users := s.users[fd := User(id, LOBBY_ROOM_ID)]), LOBBY_WORKER_ID, ArrivalEvent(fd, garbage));
      BoundUnsaved(s, Apply(s, step), r);
    case Ask(_, _, _, _) => AskRuns(s, step); BoundUnsaved(s, Apply(s, step), r);
    case Tick(fd, garbage) =>
      if fd in s.users { RouteRuns(s, FlushEvent(fd, s.users[fd].room, garbage)); }
      BoundUnsaved(s, Apply(s, step), r);
    case Close(fd, garbage) => CloseRuns(s, fd, garbage); BoundUnsaved(s, Apply(s, step), r);
    case Query(o) => QueryRuns(s, o); BoundUnsaved(s, Apply(s, step), r);
  }

  lemma PostRuns(s: State, w: WorkerId, e: Event)
    ensures Post(s, w, e).running == s.running
  {}

  lemma AskRuns(s: State, step: Step)
    requires step.Ask? && Enabled(s, step)
    ensures Apply(s, step).running == s.running
  {}

  lemma CloseRuns(s: State, fd: Fd, garbage: Command)
    requires fd in s.users
    ensures CloseSession(s, fd, garbage).running == s.running
  {
    hide Route;
    var room := s.users[fd].room;
    RouteRuns(s, DepartEvent(fd, room, garbage));
    RouteRuns(Route(s, DepartEvent(fd, room, garbage)), DepartEvent(fd, LOBBY_ROOM_ID, garbage));
    if room != LOBBY_ROOM_ID {} else {}
  }

  lemma QueryRuns(s: State, o: DbOutcome)
    requires s.jobs != []
    ensures FinishJob(s, o).running == s.running
  {
    hide Route, LoadResult, Post, Hand, Bind, Resolved, Report;
    var t := s.(jobs := s.jobs[1..]);
    match s.jobs[0]
    case SaveJob(_, _, _, _) => if o.Saved? {} else {}
    case CreateJob(e) =>
      BindRuns(t, o);
      if o.Created? { HandRuns(Bind(t, o.id, o.worker), HandJob(Resolved(e, o.id), o.worker)); }
      else { PostRuns(t, LOBBY_WORKER_ID, Report(e, DbError).(hops := e.hops + 1)); }
    case HandJob(e, w) => PostRuns(t, w, e.(hops := e.hops + 1));
    case LoadJob(e, room, before) => RouteRuns(s.(jobs := s.jobs[1..]), LoadResult(s, e, room, before, o));
  }

  lemma HandRuns(s: State, j: Job)
    ensures Hand(s, j).running == s.running
  {}

  lemma BindRuns(s: State, o: DbOutcome)
    ensures o.Created? ==> Bind(s, o.id, o.worker).running == s.running
  {}

  lemma QuietConversation(s: State, step: Step)
    requires Conversation(s) && Enabled(s, step) && !step.Work? && !step.Look? && !step.Give?
    ensures var t := Apply(s, step); SavedInOrder(t) && Marks(t)
  {
    hide Own, Linear, Tracked, Marks, Says, HandleOrder, SaveOrder, Unsaved, AcceptClient, Dispatch, RequestFlush,
         CloseSession, Take, FinishJob;
    var t := Apply(s, step);
    SilentStep(s, step);
    forall r ensures HandleOrder(t.log.handled, r) == SaveOrder(t.log.posted, r) + Unsaved(t, r) {
      QuietUnsaved(s, step, r);
      SilentSaves(s, t, r);
    }
    match step
    case Accept(fd, id, garbage) => AcceptMarks(s, fd, id, garbage);
    case Ask(fd, cmd, room, body) => AskMarks(s, fd, cmd, room, body);
    case Tick(fd, garbage) => TickMarks(s, fd, garbage);
    case Close(fd, garbage) => CloseMarks(s, fd, garbage);
    case Start(w, k) => StartMarks(s, w, k);
    case Query(o) => QueryMarks(s, o);
  }

  lemma CastConversation(s: State, t: State, fds: set<Fd>, ps: seq<Packet>)
    requires Conversation(s) && t == s.(casts := t.casts, packed := t.packed) && Says(s, t, [], [], fds, ps)
    ensures SavedInOrder(t) && Marks(t)
  {
    hide Own, Linear, Tracked, Marks, Says, HandleOrder, SaveOrder, Unsaved, Count;
    SameFlights(s, t);
    forall r ensures HandleOrder(t.log.handled, r) == SaveOrder(t.log.posted, r) + Unsaved(t, r) {
      BoundUnsaved(s, t, r);
      SilentSaves(s, t, r, fds, ps);
    }
    SilentMarks(s, t, Nothing, Nothing, fds, ps);
  }

  lemma LoopConversation(s: State, step: Step)
    requires Conversation(s) && Enabled(s, step) && (step.Look? || step.Give?)
    ensures var t := Apply(s, step); SavedInOrder(t) && Marks(t)
  {
    hide Account, SavedInOrder, Marks, Says, LookAt, GiveTo;
    var t, w := Apply(s, step), step.w;
    if step.Look? {
      CastSteps(s, w, step.fd);
      LookSays(s, w, step.fd);
      CastConversation(s, t, {}, []);
    } else {
      CastSteps(s, w, 0);
      GiveSays(s, w);
      CastConversation(s, t, {s.casts[w].chosen.value}, [s.casts[w].packet]);
    }
  }

  lemma TickMarks(s: State, fd: Fd, garbage: Command)
    requires Own(s) && Marks(s)
    ensures Marks(RequestFlush(s, fd, garbage))
  {
    hide Own, Marks, Route;
    OwnStaffed(s);
    if fd in s.users { RouteMarks(s, FlushEvent(fd, s.users[fd].room, garbage)); }
  }

  lemma StepKeepsConversation(s: State, step: Step)
    requires Conversation(s) && Enabled(s, step)
    ensures Conversation(Apply(s, step))
  {
    hide Account, SavedInOrder, Marks, Act, LookAt, GiveTo;
    StepKeepsAccount(s, step);
    if step.Work? { WorkConversation(s, step.w, step.found); }
    else if step.Look? || step.Give? { LoopConversation(s, step); }
    else { QuietConversation(s, step); }
  }
}
