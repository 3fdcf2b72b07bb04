/**
  Requests are linear: for any client input each dispatched request is in flight once, answered once, or lost once,
  and never two of these. Without further input every run ends, with every request answered or lost.
 */
module Tokens {
  import opened Bytes
  import opened RoomEvents
  import opened ServerState
  import opened History
  import opened Flights
  import opened Itinerary
  import opened Ownership
  import opened Requests

  predicate IsAnswered(s: State, tag: nat) {
    exists i :: 0 <= i < |s.log.answers| && s.log.answers[i].origin == Request(tag)
  }

  predicate IsLost(s: State, tag: nat) {
    exists i :: 0 <= i < |s.log.dropped| && s.log.dropped[i].origin == Request(tag)
  }

  ghost predicate IsInFlight(s: State, tag: nat) {
    exists f :: In(s, f) && f.event.origin == Request(tag)
  }

  ghost predicate OneFlight(s: State) {
    && (forall f | In(s, f) && f.event.origin.Request? ::
          f.event.origin.tag < s.log.issued && Count(s, f) == 1
          && !IsAnswered(s, f.event.origin.tag) && !IsLost(s, f.event.origin.tag))
    && (forall f, g | In(s, f) && In(s, g) && f.event.origin.Request? && f.event.origin == g.event.origin :: f == g)
  }

  ghost predicate OneEnd(s: State) {
    && (forall i | 0 <= i < |s.log.answers| ::
          s.log.answers[i].origin.Request? && s.log.answers[i].origin.tag < s.log.issued
          && !IsLost(s, s.log.answers[i].origin.tag))
    && (forall i, j | 0 <= i < j < |s.log.answers| :: s.log.answers[i].origin != s.log.answers[j].origin)
    && (forall i | 0 <= i < |s.log.dropped| ::
          s.log.dropped[i].origin.Request? && s.log.dropped[i].origin.tag < s.log.issued)
    && (forall i, j | 0 <= i < j < |s.log.dropped| :: s.log.dropped[i].origin != s.log.dropped[j].origin)
  }

  /** No request disappears: it is in flight, answered or lost. */
  ghost predicate Conserved(s: State) {
    forall tag | 0 <= tag < s.log.issued :: IsInFlight(s, tag) || IsAnswered(s, tag) || IsLost(s, tag)
  }

  ghost predicate Linear(s: State) {
    OneFlight(s) && OneEnd(s) && Conserved(s)
  }

  /** One event moves from `gone` to `come`, or meets its fate. */
  ghost predicate TokenMove(s: State, t: State, gone: Flight, come: Option<Flight>, fate: Fate) {
    && In(s, gone) && Moved(s, t, Some(gone), come) && Fated(s, t, fate)
    && (come.Some? <==> fate.Onward?)
    && (come.Some? ==> come.value.event.origin == gone.event.origin)
    && (fate.Replied? || fate.Lost? ==> fate.event.origin == gone.event.origin)
    && (fate.Over? ==> !gone.event.origin.Request?)
  }

  lemma AnsweredAfter(s: State, t: State, fate: Fate, origin: Origin, tag: nat)
    requires Fated(s, t, fate) && (fate.Replied? || fate.Lost? ==> fate.event.origin == origin)
    ensures IsAnswered(t, tag) <==> IsAnswered(s, tag) || (fate.Replied? && origin == Request(tag))
    ensures IsLost(t, tag) <==> IsLost(s, tag) || (fate.Lost? && origin == Request(tag))
  {
    Extended(s.log.answers, t.log.answers, tag);
    Extended(s.log.dropped, t.log.dropped, tag);
  }

  lemma Extended(before: seq<Event>, after: seq<Event>, tag: nat)
    requires before <= after && |after| <= |before| + 1
    ensures (exists i :: 0 <= i < |after| && after[i].origin == Request(tag)) <==>
            (exists i :: 0 <= i < |before| && before[i].origin == Request(tag))
            || (|after| > |before| && after[|before|].origin == Request(tag))
  {
    if i :| 0 <= i < |before| && before[i].origin == Request(tag) {
      assert after[i].origin == Request(tag);
    }
  }

  lemma MoveOneFlight(s: State, t: State, gone: Flight, come: Option<Flight>, fate: Fate)
    requires Linear(s) && TokenMove(s, t, gone, come, fate)
    ensures OneFlight(t)
  {
    hide Count, Fated, IsAnswered, IsLost, OneEnd, Conserved;
    forall f | In(t, f) && f.event.origin.Request?
      ensures f.event.origin.tag < t.log.issued && Count(t, f) == 1
              && !IsAnswered(t, f.event.origin.tag) && !IsLost(t, f.event.origin.tag)
    {
      MoveFlight(s, t, gone, come, fate, f);
    }
    forall f, g | In(t, f) && In(t, g) && f.event.origin.Request? && f.event.origin == g.event.origin
      ensures f == g
    {
      MoveFlight(s, t, gone, come, fate, f);
      MoveFlight(s, t, gone, come, fate, g);
    }
  }

  lemma MoveFlight(s: State, t: State, gone: Flight, come: Option<Flight>, fate: Fate, f: Flight)
    requires Linear(s) && TokenMove(s, t, gone, come, fate) && In(t, f) && f.event.origin.Request?
    ensures f.event.origin.tag < t.log.issued && Count(t, f) == 1
            && !IsAnswered(t, f.event.origin.tag) && !IsLost(t, f.event.origin.tag)
    ensures if come == Some(f) then In(s, gone) && gone.event.origin == f.event.origin
            else In(s, f) && f != gone && gone.event.origin != f.event.origin
  {
    hide Count, IsAnswered, IsLost, OneEnd, Conserved;
    AnsweredAfter(s, t, fate, gone.event.origin, f.event.origin.tag);
    assert t.log.issued == s.log.issued;
    if come == Some(f) {
      assert In(s, f) ==> f == gone;
    } else {
      assert In(s, f);
    }
  }

  lemma MoveOneEnd(s: State, t: State, gone: Flight, come: Option<Flight>, fate: Fate)
    requires Linear(s) && TokenMove(s, t, gone, come, fate)
    ensures OneEnd(t)
  {
    hide Count, Conserved;
    var origin := gone.event.origin;
    if origin.Request? {
      assert !IsAnswered(s, origin.tag) && !IsLost(s, origin.tag);
    }
  }

  lemma MoveConserved(s: State, t: State, gone: Flight, come: Option<Flight>, fate: Fate)
    requires Linear(s) && TokenMove(s, t, gone, come, fate)
    ensures Conserved(t)
  {
    hide Count, OneFlight, OneEnd, IsAnswered, IsLost;
    forall tag | 0 <= tag < t.log.issued ensures IsInFlight(t, tag) || IsAnswered(t, tag) || IsLost(t, tag) {
      AnsweredAfter(s, t, fate, gone.event.origin, tag);
      if IsInFlight(s, tag) {
        var f :| In(s, f) && f.event.origin == Request(tag);
        if f != gone {
          assert In(t, f);
        } else if come.Some? {
          assert In(t, come.value);
        }
      }
    }
  }

  lemma MoveLinear(s: State, t: State, gone: Flight, come: Option<Flight>, fate: Fate)
    requires Linear(s) && TokenMove(s, t, gone, come, fate)
    ensures Linear(t)
  {
    MoveOneFlight(s, t, gone, come, fate);
    MoveOneEnd(s, t, gone, come, fate);
    MoveConserved(s, t, gone, come, fate);
  }

  // ---- events that come ----

  /** A new event: a request under the next number, or one that is not a request. */
  ghost predicate NewEvent(s: State, t: State, come: Flight) {
    && Moved(s, t, Nothing, Some(come))
    && t.log.answers == s.log.answers && t.log.dropped == s.log.dropped
    && (if come.event.origin.Request? then come.event.origin.tag == s.log.issued && t.log.issued == s.log.issued + 1
        else t.log.issued == s.log.issued)
  }

  lemma SameEnds(s: State, t: State, tag: nat)
    requires t.log.answers == s.log.answers && t.log.dropped == s.log.dropped
    ensures IsAnswered(t, tag) == IsAnswered(s, tag) && IsLost(t, tag) == IsLost(s, tag)
  {}

  lemma FreshTag(s: State)
    requires Linear(s)
    ensures !IsAnswered(s, s.log.issued) && !IsLost(s, s.log.issued)
    ensures forall f | In(s, f) :: f.event.origin != Request(s.log.issued)
  {}

  lemma NewLinear(s: State, t: State, come: Flight)
    requires Linear(s) && NewEvent(s, t, come)
    ensures Linear(t)
  {
    FreshTag(s);
    NewOneFlight(s, t, come);
    NewConserved(s, t, come);
    assert OneEnd(t) by { hide Count; }
  }

  lemma NewOneFlight(s: State, t: State, come: Flight)
    requires Linear(s) && NewEvent(s, t, come)
    requires !IsAnswered(s, s.log.issued) && !IsLost(s, s.log.issued)
    requires forall f | In(s, f) :: f.event.origin != Request(s.log.issued)
    ensures OneFlight(t)
  {
    hide Count, IsAnswered, IsLost, Conserved, OneEnd;
    forall tag: nat ensures IsAnswered(t, tag) == IsAnswered(s, tag)
        && IsLost(t, tag) == IsLost(s, tag) { SameEnds(s, t, tag); }
    forall f | In(t, f) ensures f == come || (In(s, f) && Count(t, f) == Count(s, f)) {}
  }

  lemma NewConserved(s: State, t: State, come: Flight)
    requires Linear(s) && NewEvent(s, t, come)
    ensures Conserved(t)
  {
    hide Count, OneFlight, OneEnd, IsAnswered, IsLost;
    forall tag | 0 <= tag < t.log.issued ensures IsInFlight(t, tag) || IsAnswered(t, tag) || IsLost(t, tag) {
      SameEnds(s, t, tag);
      if tag == s.log.issued {
        assert In(t, come);
      } else if IsInFlight(s, tag) {
        var f :| In(s, f) && f.event.origin == Request(tag);
        assert In(t, f);
      }
    }
  }

  lemma StillLinear(s: State, t: State)
    requires Linear(s) && Moved(s, t, Nothing, Nothing) && SameTally(s, t)
    ensures Linear(t)
  {
    hide Count;
    forall tag: nat ensures IsAnswered(t, tag) == IsAnswered(s, tag)
        && IsLost(t, tag) == IsLost(s, tag) { SameEnds(s, t, tag); }
    forall tag: nat | IsInFlight(s, tag) ensures IsInFlight(t, tag) {
      var f :| In(s, f) && f.event.origin == Request(tag);
      assert In(t, f);
    }
    hide IsAnswered, IsLost, IsInFlight;
    assert forall f | In(t, f) :: In(s, f) && Count(t, f) == Count(s, f);
  }

  // ---- truthful trails ----

  /**
    A request can only be lost where its recipe goes on to the worker of a room that is no longer bound: before the
    LEAVE of a leave, and after the history load of a join or load; or because the server has no case for its command.
   */
  predicate LostOk(e: Event) {
    match e.plan
    case PlanLeave(r) => e.cursor == 2 && e.target == r
    case PlanJoin(r) => e.cursor == 4 && e.target == r
    case PlanLoad(r) => e.cursor == 1 && e.target == r
    case PlanIgnore => true
    case _ => false
  }

  ghost predicate Tracked(s: State) {
    && (forall f | In(s, f) :: TrailOk(f))
    && (forall i | 0 <= i < |s.log.answers| :: AnswerOk(s.log.answers[i]))
    && (forall i | 0 <= i < |s.log.dropped| :: LostOk(s.log.dropped[i]))
  }

  lemma MoveTracked(s: State, t: State, gone: Option<Flight>, come: Option<Flight>)
    requires Tracked(s) && Moved(s, t, gone, come) && (come.Some? ==> TrailOk(come.value))
    requires s.log.answers <= t.log.answers && s.log.dropped <= t.log.dropped
    requires forall i | |s.log.answers| <= i < |t.log.answers| :: AnswerOk(t.log.answers[i])
    requires forall i | |s.log.dropped| <= i < |t.log.dropped| :: LostOk(t.log.dropped[i])
    ensures Tracked(t)
  {
    hide Count, TrailOk, AnswerOk, LostOk;
    forall f | In(t, f) ensures TrailOk(f) { assert come == Some(f) || In(s, f); }
  }

  /** Every request at one place, every trail and answer truthful, every room owned. */
  ghost predicate Account(s: State) {
    Own(s) && Linear(s) && Tracked(s)
  }

  lemma NewAccount(s: State, t: State, come: Flight)
    requires Linear(s) && Tracked(s) && NewEvent(s, t, come) && TrailOk(come)
    ensures Linear(t) && Tracked(t)
  {
    hide Linear, TrailOk, AnswerOk;
    NewLinear(s, t, come);
    MoveTracked(s, t, Nothing, Some(come));
  }

  lemma StillAccount(s: State, t: State)
    requires Linear(s) && Tracked(s) && Moved(s, t, Nothing, Nothing) && SameTally(s, t)
    ensures Linear(t) && Tracked(t)
  {
    hide Linear, TrailOk, AnswerOk;
    StillLinear(s, t);
    MoveTracked(s, t, Nothing, Nothing);
  }

  lemma RouteAccount(s: State, e: Event)
    requires Linear(s) && Tracked(s) && Staffed(s) && !e.origin.Request?
    requires forall w :: TrailOk(Flight(Queued(w), e.(hops := e.hops + 1)))
    ensures Linear(Route(s, e)) && Tracked(Route(s, e))
  {
    hide Linear, Tracked, TrailOk, Count, Route;
    RouteFlights(s, e);
    RouteTally(s, e);
    var w := FindWorker(s, e.target);
    if w == 0 { StillAccount(s, Route(s, e)); }
    else { NewAccount(s, Route(s, e), Flight(Queued(w), e.(hops := e.hops + 1))); }
  }

  // ---- the steps ----

  lemma AcceptAccount(s: State, fd: Fd, id: int64, garbage: Command)
    requires Account(s)
    ensures Linear(AcceptClient(s, fd, id, garbage)) && Tracked(AcceptClient(s, fd, id, garbage))
  {
    hide Own, Linear, Tracked, Count;
    OwnBound(s);
    AcceptMoves(s, fd, id, garbage);
    NewAccount(s, AcceptClient(s, fd, id, garbage), Flight(Queued(LOBBY_WORKER_ID), ArrivalEvent(fd, garbage)));
  }

  lemma AskAccount(s: State, fd: Fd, cmd: Command, room: RoomId, body: seq<byte>)
    requires Account(s)
    ensures Linear(Dispatch(s, fd, cmd, room, body)) && Tracked(Dispatch(s, fd, cmd, room, body))
  {
    hide Own, Linear, Tracked, Count;
    OwnBound(s);
    AskMoves(s, fd, cmd, room, body);
    NewAccount(s, Dispatch(s, fd, cmd, room, body), AskCome(s, fd, cmd, room, body));
  }

  lemma DepartAccount(s: State, fd: Fd, room: RoomId, garbage: Command)
    requires Linear(s) && Tracked(s) && Staffed(s)
    ensures Linear(Route(s, DepartEvent(fd, room, garbage))) && Tracked(Route(s, DepartEvent(fd, room, garbage)))
    ensures Staffed(Route(s, DepartEvent(fd, room, garbage)))
  {
    hide Linear, Tracked, Count;
    RouteAccount(s, DepartEvent(fd, room, garbage));
    if FindWorker(s, room) == 0 {} else {}
  }

  lemma TickAccount(s: State, fd: Fd, garbage: Command)
    requires Account(s)
    ensures Linear(RequestFlush(s, fd, garbage)) && Tracked(RequestFlush(s, fd, garbage))
  {
    hide Own, Linear, Tracked, Count, Route;
    OwnBound(s);
    if fd in s.users { RouteAccount(s, FlushEvent(fd, s.users[fd].room, garbage)); }
  }

  lemma CloseAccount(s: State, fd: Fd, garbage: Command)
    requires Account(s) && fd in s.users
    ensures Linear(CloseSession(s, fd, garbage)) && Tracked(CloseSession(s, fd, garbage))
  {
    hide Own, Linear, Tracked, Count, Route;
    OwnBound(s);
    var room := s.users[fd].room;
    var t := Route(s, DepartEvent(fd, room, garbage));
    DepartAccount(s, fd, room, garbage);
    DepartAccount(t, fd, LOBBY_ROOM_ID, garbage);
    var u := if room != LOBBY_ROOM_ID then Route(t, DepartEvent(fd, LOBBY_ROOM_ID, garbage)) else t;
    SameFlights(u, u.(users := u.users - {fd}));
    StillAccount(u, u.(users := u.users - {fd}));
  }

  lemma TakenTrail(w: WorkerId, e: Event)
    requires TrailOk(Flight(Queued(w), e))
    ensures TrailOk(Flight(Running(w), e))
  {}

  lemma StartAccount(s: State, w: WorkerId, k: nat)
    requires Account(s) && 1 <= w <= s.n && w !in s.running && k < |Queue(s, w)|
    ensures Linear(Take(s, w, k)) && Tracked(Take(s, w, k))
  {
    hide Own, Linear, TrailOk, AnswerOk, Count;
    var e := Queue(s, w)[k];
    StartMoves(s, w, k);
    TakenTrail(w, e);
    MoveLinear(s, Take(s, w, k), Flight(Queued(w), e), Some(Flight(Running(w), e)), Onward);
    MoveTracked(s, Take(s, w, k), Some(Flight(Queued(w), e)), Some(Flight(Running(w), e)));
  }

  /** The event that leaves a worker keeps its number; one that is over was no request. */
  lemma FateFits(s: State, w: WorkerId)
    requires Moving(s, w)
    ensures var e, fate, next := s.running[w], FateOf(s, w), NextFlight(s, w);
            && (next.Some? <==> fate.Onward?)
            && (next.Some? ==> next.value.event.origin == e.origin)
            && (fate.Replied? || fate.Lost? ==> fate.event.origin == e.origin)
            && (fate.Lost? && e.origin.Request? ==> LostOk(fate.event))
            && (fate.Over? ==> !e.origin.Request?)
  {
    hide CodeAt;
    var e := s.running[w];
    assert FindWorker(s, LOBBY_ROOM_ID) != 0;
    hide Bound, FindWorker;
    match e.plan
    case PlanCreate(_) =>
    case PlanJoin(_) =>
    case PlanLeave(_) =>
    case _ =>
  }

  lemma WorkAccount(s: State, w: WorkerId, found: RoomId)
    requires Account(s) && w in s.running
    ensures Linear(Act(s, w, found)) && Tracked(Act(s, w, found))
  {
    hide Own, Linear, TrailOk, AnswerOk, LostOk, Count, Act, FateOf, NextFlight, Bound, OnCourse;
    var f, fate := Flight(Running(w), s.running[w]), FateOf(s, w);
    OwnRunning(s, w);
    OwnStaffed(s);
    WorkMoves(s, w, found);
    WorkTally(s, w, found);
    FateFits(s, w);
    MoveLinear(s, Act(s, w, found), f, NextFlight(s, w), fate);
    if fate.Onward? { OnwardTrail(s, w); }
    if fate.Replied? { ReplyOk(s, w); }
    MoveTracked(s, Act(s, w, found), Some(f), NextFlight(s, w));
  }

  lemma OwnStaffed(s: State)
    requires Own(s)
    ensures Staffed(s)
  {}

  lemma LostLoad(home: map<RoomId, WorkerId>, room: RoomId, before: int64, e: Event, e': Event)
    requires OnCourse(home, Flight(AwaitsHistory(room, before), e))
    requires e'.plan == e.plan && e'.cursor == e.cursor && e'.target == LastRoom(e)
    ensures LostOk(e')
  {
    match e.plan
    case PlanJoin(_) =>
    case PlanLoad(_) =>
  }

  lemma QueryKeepsOrigin(s: State, o: DbOutcome)
    requires s.jobs != [] && QueryGone(s).Some? && OnCourse(s.log.home, QueryGone(s).value)
    ensures var origin, fate, come := QueryGone(s).value.event.origin, QueryFate(s, o), QueryCome(s, o);
            && (come.Some? <==> fate.Onward?) && !fate.Over? && !fate.Replied?
            && (come.Some? ==> come.value.event.origin == origin)
            && (fate.Lost? ==> fate.event.origin == origin && LostOk(fate.event))
  {
    hide FindWorker, OnCourse, LoadResult, LostOk;
    match s.jobs[0]
    case CreateJob(_) =>
    case HandJob(_, _) =>
    case LoadJob(e, room, before) =>
      LoadKeeps(s, e, room, before, o);
      LostLoad(s.log.home, room, before, e, LoadResult(s, e, room, before, o));
  }

  lemma QueryAccount(s: State, o: DbOutcome)
    requires Account(s) && s.jobs != [] && OutcomeOk(s, s.jobs[0], o)
    ensures Linear(FinishJob(s, o)) && Tracked(FinishJob(s, o))
  {
    hide Own, Linear, TrailOk, AnswerOk, LostOk, Count, FinishJob, QueryGone, QueryCome, QueryFate, OnCourse, OutcomeOk;
    OwnBound(s);
    OwnStaffed(s);
    QueryMoves(s, o);
    QueryTally(s, o);
    var t, gone, come := FinishJob(s, o), QueryGone(s), QueryCome(s, o);
    if gone.Nothing? {
      QueryNothing(s, o);
      StillAccount(s, t);
    } else {
      OwnFlight(s, gone.value);
      if come.Some? { QueryTrail(s, o); }
      QueryKeepsOrigin(s, o);
      MoveLinear(s, t, gone.value, come, QueryFate(s, o));
      MoveTracked(s, t, gone, come);
    }
  }

  lemma QueryNothing(s: State, o: DbOutcome)
    requires s.jobs != [] && QueryGone(s).Nothing?
    ensures QueryCome(s, o).Nothing?
  {}

  /** Accounts do not read casts or packets. */
  lemma SameAccount(s: State, t: State)
    requires Linear(s) && Tracked(s) && t == s.(casts := t.casts, packed := t.packed)
    ensures Linear(t) && Tracked(t)
  {
    hide Linear, Tracked, Count;
    SameFlights(s, t);
    StillAccount(s, t);
  }

  lemma CastSteps(s: State, w: WorkerId, fd: Fd)
    requires w in s.casts
    ensures LookAt(s, w, fd) == s.(casts := LookAt(s, w, fd).casts, packed := LookAt(s, w, fd).packed)
    ensures s.casts[w].chosen.Some? ==> GiveTo(s, w) == s.(casts := GiveTo(s, w).casts, packed := GiveTo(s, w).packed)
  {}

  lemma StepKeepsAccount(s: State, step: Step)
    requires Account(s) && Enabled(s, step)
    ensures Account(Apply(s, step))
  {
    StepKeepsOwn(s, step);
    hide Own, Linear, Tracked, AcceptClient, Dispatch, RequestFlush, CloseSession, Take, Act, LookAt, GiveTo, FinishJob;
    match step
    case Accept(fd, id, garbage) => AcceptAccount(s, fd, id, garbage);
    case Ask(fd, cmd, room, body) => AskAccount(s, fd, cmd, room, body);
    case Tick(fd, garbage) => TickAccount(s, fd, garbage);
    case Close(fd, garbage) => CloseAccount(s, fd, garbage);
    case Start(w, k) => StartAccount(s, w, k);
    case Work(w, found) => WorkAccount(s, w, found);
    case Look(w, fd) => CastSteps(s, w, fd); SameAccount(s, LookAt(s, w, fd));
    case Give(w) => CastSteps(s, w, 0); SameAccount(s, GiveTo(s, w));
    case Query(o) => QueryAccount(s, o);
  }

  lemma InitAccount(n: nat)
    requires n >= 1
    ensures Account(Init(n))
  {
    InitOwn(n);
    hide Own;
    forall f ensures Count(Init(n), f) == 0 { EmptyCount(Init(n), n, f); }
  }

  lemma {:induction false} RunAccounts(states: seq<State>, steps: seq<Step>, n: nat, i: nat)
    requires Run(states, steps, n) && i < |states|
    ensures Account(states[i])
  {
    hide Account, Enabled, Apply, Init;
    if i == 0 {
      InitAccount(n);
    } else {
      RunAccounts(states, steps, n, i - 1);
      assert Next(states[i - 1], steps[i - 1], states[i]);
      StepKeepsAccount(states[i - 1], steps[i - 1]);
    }
  }
}
