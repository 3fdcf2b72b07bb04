/**
  Exactly one response, for any client input: at rest a request of a known command has been answered, once, if and only
  if the room it was routed to was bound at every re-route of the run.
 */
module Responses {
  import opened Bytes
  import opened RoomEvents
  import opened ServerState
  import opened History
  import opened Flights
  import opened Itinerary
  import opened Ownership
  import opened Requests
  import opened Tokens
  import opened Quiescence
  import opened Talk
  import opened Footing

  /**
    The room that a step routes the request to, if it is a re-route: on to another worker, or back from a history
    load.
   */
  function RerouteOf(s: State, step: Step, tag: nat): Option<RoomId> {
    if step.Work? && Executes(s, step.w) && s.running[step.w].origin == Request(tag)
       && (ActionAt(s, step.w).command.RequestJoinRoom? || ActionAt(s, step.w).command.RequestLeaveRoom?)
    then Some(ActionAt(s, step.w).room)
    else if step.Query? && s.jobs != [] && s.jobs[0].LoadJob? && s.jobs[0].event.origin == Request(tag)
    then Some(LastRoom(s.jobs[0].event))
    else Nothing
  }

  /** The step does not re-route the request to an unbound room. */
  predicate FindsRoom(s: State, step: Step, tag: nat) {
    RerouteOf(s, step, tag).Some? ==> RerouteOf(s, step, tag).value in s.bindings
  }

  // ---- a re-route to an unbound room loses the request, and nothing else does ----

  lemma Drops(s: State, t: State, fate: Fate, tag: nat)
    requires Fated(s, t, fate)
    ensures IsLost(t, tag) <==> IsLost(s, tag) || (fate.Lost? && fate.event.origin == Request(tag))
  {
    Extended(s.log.dropped, t.log.dropped, tag);
  }

  lemma WorkDrops(s: State, w: WorkerId, found: RoomId, tag: nat)
    requires Own(s) && w in s.running
    ensures var e := s.running[w];
            IsLost(Act(s, w, found), tag) <==>
              IsLost(s, tag) || (e.origin == Request(tag) && (e.plan.PlanIgnore? || !FindsRoom(s, Work(w, found), tag)))
  {
    hide Own, Act, Fated, IsLost;
    OwnRunning(s, w);
    WorkTally(s, w, found);
    Drops(s, Act(s, w, found), FateOf(s, w), tag);
    FateFits(s, w);
    hide FateOf, FindsRoom;
    if s.running[w].origin == Request(tag) { WorkFate(s, w, found, tag); }
  }

  lemma WorkFate(s: State, w: WorkerId, found: RoomId, tag: nat)
    requires Moving(s, w) && s.running[w].origin == Request(tag)
    ensures FateOf(s, w).Lost? <==> s.running[w].plan.PlanIgnore? || !FindsRoom(s, Work(w, found), tag)
    ensures FateOf(s, w).Lost? ==> FateOf(s, w).event.origin == Request(tag)
  {
    hide CodeAt;
    match s.running[w].plan
    case PlanCreate(_) => if s.running[w].cursor == 3 {} else {}
    case PlanJoin(_) => if s.running[w].cursor == 1 {} else {}
    case PlanLeave(_) => if s.running[w].cursor == 1 {} else {}
    case _ =>
  }

  lemma QueryDrops(s: State, o: DbOutcome, tag: nat)
    requires Own(s) && s.jobs != [] && OutcomeOk(s, s.jobs[0], o)
    ensures IsLost(FinishJob(s, o), tag) <==> IsLost(s, tag) || !FindsRoom(s, Query(o), tag)
  {
    hide Own, FinishJob, IsLost, Fated, OutcomeOk;
    OwnStaffed(s);
    QueryTally(s, o);
    if s.jobs[0].SaveJob? {
      SameLost(s, FinishJob(s, o), tag);
    } else {
      Drops(s, FinishJob(s, o), QueryFate(s, o), tag);
      LoadFate(s, o, tag);
    }
  }

  lemma SameLost(s: State, t: State, tag: nat)
    requires t.log.dropped == s.log.dropped
    ensures IsLost(t, tag) == IsLost(s, tag)
  {}

  lemma LoadFate(s: State, o: DbOutcome, tag: nat)
    requires Staffed(s) && s.jobs != [] && !s.jobs[0].SaveJob?
    ensures QueryFate(s, o).Lost? && QueryFate(s, o).event.origin == Request(tag) <==> !FindsRoom(s, Query(o), tag)
  {
    hide LoadResult;
    match s.jobs[0]
    case LoadJob(e, room, before) => LoadKeeps(s, e, room, before, o);
    case _ =>
  }

  lemma OtherDrops(s: State, step: Step)
    requires Enabled(s, step) && !step.Work? && !step.Query?
    ensures Apply(s, step).log.dropped == s.log.dropped && Apply(s, step).log.issued >= s.log.issued
  {
    hide Route, CloseSession, Unused;
    match step
    case Tick(fd, garbage) => if fd in s.users { RouteKeepsRequests(s, FlushEvent(fd, s.users[fd].room, garbage)); }
    case Close(fd, garbage) => CloseKeepsRequests(s, fd, garbage);
    case _ =>
  }

  /** A step loses the request exactly if it re-routes it to an unbound room, or executes it without a recipe. */
  lemma StepDrops(s: State, step: Step, tag: nat)
    requires Own(s) && Enabled(s, step)
    ensures IsLost(Apply(s, step), tag) <==>
              || IsLost(s, tag) || !FindsRoom(s, step, tag)
              || (step.Work? && s.running[step.w].origin == Request(tag) && s.running[step.w].plan.PlanIgnore?)
  {
    hide Own, Act, FinishJob, IsLost, OutcomeOk, FoundOk;
    if step.Work? {
      WorkDrops(s, step.w, step.found, tag);
      if s.running[step.w].origin != Request(tag) { NotMineFinds(s, step, tag); }
    } else if step.Query? {
      QueryDrops(s, step.outcome, tag);
    } else {
      hide Enabled, Apply;
      OtherDrops(s, step);
      SameLost(s, Apply(s, step), tag);
    }
  }

  lemma NotMineFinds(s: State, step: Step, tag: nat)
    requires step.Work? && step.w in s.running && s.running[step.w].origin != Request(tag)
    ensures FindsRoom(s, step, tag)
  {}

  // ---- a request stays what it was made at its dispatch ----

  /** The server has no case for the command; there was no such room; the request has a recipe of its own. */
  datatype Kind = Swallowed | Rejected | Planned

  function KindOf(p: Plan): Kind {
    if p.PlanIgnore? then Swallowed else if p.PlanReject? then Rejected else Planned
  }

  /** What stays with a request: its session, its command, and what the main thread made of it. */
  datatype Ticket = Ticket(fd: Fd, command: Command, kind: Kind, room: RoomId, body: seq<byte>)

  /** The room a recipe is about, but for a create, whose room is the database's to choose. */
  function RoomIn(p: Plan): RoomId {
    match p
    case PlanJoin(r) => r
    case PlanLeave(r) => r
    case PlanSend(r) => r
    case PlanLoad(r) => r
    case _ => 0
  }

  predicate Bears(e: Event, tag: nat, ticket: Ticket) {
    e.origin == Request(tag) ==> ticket == Ticket(e.fd, e.initial, KindOf(e.plan), RoomIn(e.plan), e.request)
  }

  predicate AllBear(es: seq<Event>, tag: nat, ticket: Ticket) {
    forall k | 0 <= k < |es| :: Bears(es[k], tag, ticket)
  }

  /** Wherever the request is, or if it has been answered or lost, it is of this session and kind. */
  ghost predicate Known(s: State, tag: nat, ticket: Ticket) {
    && (forall f | In(s, f) :: Bears(f.event, tag, ticket))
    && AllBear(s.log.answers, tag, ticket) && AllBear(s.log.dropped, tag, ticket)
  }

  lemma MoveKnown(s: State, t: State, gone: Option<Flight>, come: Option<Flight>, tag: nat, ticket: Ticket)
    requires Known(s, tag, ticket) && Moved(s, t, gone, come) && (come.Some? ==> Bears(come.value.event, tag, ticket))
    requires AllBear(t.log.answers, tag, ticket) && AllBear(t.log.dropped, tag, ticket)
    ensures Known(t, tag, ticket)
  {
    hide Count, AllBear, Bears;
    forall f | In(t, f) ensures Bears(f.event, tag, ticket) {
      assert come == Some(f) || In(s, f);
    }
  }

  lemma FateBears(s: State, t: State, fate: Fate, tag: nat, ticket: Ticket)
    requires Fated(s, t, fate) && AllBear(s.log.answers, tag, ticket) && AllBear(s.log.dropped, tag, ticket)
    requires fate.Replied? || fate.Lost? ==> Bears(fate.event, tag, ticket)
    ensures AllBear(t.log.answers, tag, ticket) && AllBear(t.log.dropped, tag, ticket)
  {
    hide Bears;
  }

  lemma RouteKnown(s: State, e: Event, tag: nat, ticket: Ticket)
    requires Staffed(s) && Known(s, tag, ticket) && !e.origin.Request?
    ensures Known(Route(s, e), tag, ticket) && Staffed(Route(s, e))
  {
    hide Count, Route, AllBear;
    RouteFlights(s, e);
    RouteTally(s, e);
    RouteStaffed(s, e);
    var w := FindWorker(s, e.target);
    FateBears(s, Route(s, e), if w == 0 then Lost(e) else Onward, tag, ticket);
    hide Known;
    MoveKnown(s, Route(s, e), Nothing, if w == 0 then Nothing else Some(Flight(Queued(w), e.(hops := e.hops + 1))),
              tag, ticket);
  }

  lemma CloseKnown(s: State, d: Fd, garbage: Command, tag: nat, ticket: Ticket)
    requires Staffed(s) && Known(s, tag, ticket) && d in s.users
    ensures Known(CloseSession(s, d, garbage), tag, ticket)
  {
    hide Known, Count, Route, Staffed;
    var room := s.users[d].room;
    var t := Route(s, DepartEvent(d, room, garbage));
    RouteKnown(s, DepartEvent(d, room, garbage), tag, ticket);
    RouteKnown(t, DepartEvent(d, LOBBY_ROOM_ID, garbage), tag, ticket);
    var u := if room != LOBBY_ROOM_ID then Route(t, DepartEvent(d, LOBBY_ROOM_ID, garbage)) else t;
    SameKnown(u, u.(users := u.users - {d}), tag, ticket);
  }

  lemma SameKnown(s: State, t: State, tag: nat, ticket: Ticket)
    requires Known(s, tag, ticket) && t.log == s.log && SameTraffic(s, t)
    ensures Known(t, tag, ticket)
  {
    SameFlights(s, t);
    hide Count, AllBear, Bears;
    MoveKnown(s, t, Nothing, Nothing, tag, ticket);
  }

  lemma WorkKnown(s: State, w: WorkerId, found: RoomId, tag: nat, ticket: Ticket)
    requires Own(s) && w in s.running && Known(s, tag, ticket)
    ensures Known(Act(s, w, found), tag, ticket)
  {
    hide Own, Count, Act, OnCourse, Bound, NextFlight, FateOf, AllBear, Fated;
    OwnRunning(s, w);
    OwnStaffed(s);
    WorkMoves(s, w, found);
    WorkTally(s, w, found);
    FateFits(s, w);
    NextMine(s, w);
    assert Bears(s.running[w], tag, ticket);
    FateBears(s, Act(s, w, found), FateOf(s, w), tag, ticket);
    MoveKnown(s, Act(s, w, found), Some(Flight(Running(w), s.running[w])), NextFlight(s, w), tag, ticket);
  }

  /** The callbacks keep session, number and kind. */
  lemma QueryBears(s: State, o: DbOutcome, tag: nat, ticket: Ticket)
    requires Own(s) && s.jobs != [] && !s.jobs[0].SaveJob? && Bears(s.jobs[0].event, tag, ticket)
    ensures QueryCome(s, o).Some? ==> Bears(QueryCome(s, o).value.event, tag, ticket)
    ensures QueryFate(s, o).Lost? ==> Bears(QueryFate(s, o).event, tag, ticket)
    ensures QueryFate(s, o).Lost? || QueryFate(s, o).Onward?
  {
    hide Own, Count, LoadResult, FindWorker, Resolve;
    HeadIsIn(s);
    OwnFlight(s, Flight(JobPlace(s.jobs[0]), s.jobs[0].event));
    match s.jobs[0]
    case LoadJob(e, room, before) => LoadKeeps(s, e, room, before, o);
    case _ =>
  }

  lemma QueryKnown(s: State, o: DbOutcome, tag: nat, ticket: Ticket)
    requires Own(s) && s.jobs != [] && OutcomeOk(s, s.jobs[0], o) && Known(s, tag, ticket)
    ensures Known(FinishJob(s, o), tag, ticket)
  {
    hide Own, Count, FinishJob, OutcomeOk, QueryCome, QueryFate, AllBear, Bears, Fated;
    QueryMoves(s, o);
    QueryTally(s, o);
    if s.jobs[0].SaveJob? {
      QueryNothing(s, o);
    } else {
      assert Bears(s.jobs[0].event, tag, ticket);
      QueryBears(s, o, tag, ticket);
      FateBears(s, FinishJob(s, o), QueryFate(s, o), tag, ticket);
    }
    MoveKnown(s, FinishJob(s, o), QueryGone(s), QueryCome(s, o), tag, ticket);
  }

  lemma InputKnown(s: State, step: Step, tag: nat, ticket: Ticket)
    requires Staffed(s) && Enabled(s, step) && !Internal(step) && Known(s, tag, ticket) && tag < s.log.issued
    ensures Known(Apply(s, step), tag, ticket)
  {
    hide Known, Count, Staffed, Route, AcceptClient, Dispatch, CloseSession, Unused;
    match step
    case Accept(d, id, garbage) => AcceptKnown(s, d, id, garbage, tag, ticket);
    case Ask(d, cmd, room, body) => AskedKnown(s, d, cmd, room, body, tag, ticket);
    case Tick(d, garbage) =>
      if d in s.users { RouteKnown(s, FlushEvent(d, s.users[d].room, garbage), tag, ticket); }
    case Close(d, garbage) => CloseKnown(s, d, garbage, tag, ticket);
  }

  lemma AcceptKnown(s: State, d: Fd, id: int64, garbage: Command, tag: nat, ticket: Ticket)
    requires Staffed(s) && Known(s, tag, ticket)
    ensures Known(AcceptClient(s, d, id, garbage), tag, ticket)
  {
    hide Count, AllBear;
    AcceptMoves(s, d, id, garbage);
    MoveKnown(s, AcceptClient(s, d, id, garbage), Nothing,
              Some(Flight(Queued(LOBBY_WORKER_ID), ArrivalEvent(d, garbage))),
              tag, ticket);
  }

  lemma AskedKnown(s: State, d: Fd, cmd: Command, room: RoomId, body: seq<byte>, tag: nat, ticket: Ticket)
    requires Staffed(s) && Known(s, tag, ticket)
    requires tag < s.log.issued || Bears(AskCome(s, d, cmd, room, body).event, tag, ticket)
    ensures Known(Dispatch(s, d, cmd, room, body), tag, ticket)
  {
    hide Count, AllBear, Dispatch;
    AskMoves(s, d, cmd, room, body);
    AskTally(s, d, cmd, room, body);
    MoveKnown(s, Dispatch(s, d, cmd, room, body), Nothing, Some(AskCome(s, d, cmd, room, body)), tag, ticket);
  }

  lemma StepKnown(s: State, step: Step, tag: nat, ticket: Ticket)
    requires Own(s) && Enabled(s, step) && Known(s, tag, ticket) && tag < s.log.issued
    ensures Known(Apply(s, step), tag, ticket)
  {
    OwnStaffed(s);
    hide Own, Known, Staffed, Apply, Enabled;
    if !Internal(step) { InputKnown(s, step, tag, ticket); }
    else if step.Look? || step.Give? { LoopKnown(s, step, tag, ticket); }
    else { ThreadKnown(s, step, tag, ticket); }
  }

  lemma LoopKnown(s: State, step: Step, tag: nat, ticket: Ticket)
    requires Enabled(s, step) && (step.Look? || step.Give?) && Known(s, tag, ticket)
    ensures Known(Apply(s, step), tag, ticket)
  {
    hide Known, Count, LookAt, GiveTo;
    CastSteps(s, step.w, if step.Look? then step.fd else 0);
    SameKnown(s, Apply(s, step), tag, ticket);
  }

  lemma ThreadKnown(s: State, step: Step, tag: nat, ticket: Ticket)
    requires Own(s) && Enabled(s, step) && (step.Start? || step.Work? || step.Query?) && Known(s, tag, ticket)
    ensures Known(Apply(s, step), tag, ticket)
  {
    hide Own, Known, Count, Take, Act, FinishJob, InTurn, FoundOk, OutcomeOk;
    match step
    case Start(w, k) => StartKnown(s, w, k, tag, ticket);
    case Work(w, found) => WorkKnown(s, w, found, tag, ticket);
    case Query(o) => QueryKnown(s, o, tag, ticket);
  }

  lemma StartKnown(s: State, w: WorkerId, k: nat, tag: nat, ticket: Ticket)
    requires 1 <= w <= s.n && w !in s.running && k < |Queue(s, w)| && Known(s, tag, ticket)
    ensures Known(Take(s, w, k), tag, ticket)
  {
    StartMoves(s, w, k);
    TakenLogs(s, w, k);
    hide Count, Take, AllBear, Bears;
    var e := Queue(s, w)[k];
    MoveKnown(s, Take(s, w, k), Some(Flight(Queued(w), e)), Some(Flight(Running(w), e)), tag, ticket);
  }

  lemma TakenLogs(s: State, w: WorkerId, k: nat)
    requires k < |Queue(s, w)|
    ensures Take(s, w, k).log == s.log
  {}

  /** What the main thread makes of a request. */
  function TicketOf(s: State, fd: Fd, cmd: Command, room: RoomId, body: seq<byte>): Ticket {
    if FirstTarget(cmd, room) !in s.bindings then Ticket(fd, cmd, Rejected, 0, [])
    else if cmd.CmdOther? then Ticket(fd, cmd, Swallowed, 0, body)
    else Ticket(fd, cmd, Planned, if cmd.CmdCreateRoom? then 0 else room, body)
  }


  lemma AskKnown(s: State, fd: Fd, cmd: Command, room: RoomId, body: seq<byte>)
    requires Account(s)
    ensures Known(Dispatch(s, fd, cmd, room, body), s.log.issued, TicketOf(s, fd, cmd, room, body))
    ensures !IsLost(Dispatch(s, fd, cmd, room, body), s.log.issued)
    ensures Dispatch(s, fd, cmd, room, body).log.issued == s.log.issued + 1
  {
    hide Own, Linear, Tracked, Count, Dispatch, IsLost;
    OwnStaffed(s);
    FreshTag(s);
    FreshLogs(s);
    AskBears(s, fd, cmd, room, body);
    AskTally(s, fd, cmd, room, body);
    SameLost(s, Dispatch(s, fd, cmd, room, body), s.log.issued);
    hide Staffed, AllBear;
    AskedKnown(s, fd, cmd, room, body, s.log.issued, TicketOf(s, fd, cmd, room, body));
  }

  lemma FreshLogs(s: State)
    requires Linear(s)
    ensures forall ticket ::
              AllBear(s.log.answers, s.log.issued, ticket) && AllBear(s.log.dropped, s.log.issued, ticket)
  {}

  lemma AskBears(s: State, fd: Fd, cmd: Command, room: RoomId, body: seq<byte>)
    requires Staffed(s)
    ensures Bears(AskCome(s, fd, cmd, room, body).event, s.log.issued, TicketOf(s, fd, cmd, room, body))
  {}

  lemma AskTally(s: State, fd: Fd, cmd: Command, room: RoomId, body: seq<byte>)
    ensures Dispatch(s, fd, cmd, room, body).log == s.log.(issued := s.log.issued + 1)
  {}

  // ---- over whole runs ----

  /** The step is this request's dispatch. */
  predicate Dispatches(s: State, step: Step, tag: nat) {
    step.Ask? && s.log.issued == tag
  }

  lemma StepIssues(s: State, step: Step)
    requires Own(s) && Enabled(s, step)
    ensures Apply(s, step).log.issued >= s.log.issued
  {
    hide Own, Act, FinishJob, OutcomeOk, FoundOk, FateOf, QueryFate;
    if step.Work? {
      OwnRunning(s, step.w);
      WorkTally(s, step.w, step.found);
    } else if step.Query? {
      QueryTally(s, step.outcome);
    } else {
      hide Enabled, Apply;
      OtherDrops(s, step);
    }
  }

  /** From its dispatch on a request is of the kind the main thread found it to be. */
  lemma {:induction false} StaysKnown(states: seq<State>, steps: seq<Step>, n: nat, q: nat, i: nat, tag: nat)
    requires Run(states, steps, n) && q < i < |states| && Dispatches(states[q], steps[q], tag)
    ensures Known(states[i], tag, TicketOf(states[q], steps[q].fd, steps[q].cmd, steps[q].room, steps[q].body))
            && tag < states[i].log.issued
  {
    hide Own, Linear, Tracked, Known, Enabled, Apply, Init, TicketOf;
    RunAccounts(states, steps, n, i - 1);
    assert Next(states[i - 1], steps[i - 1], states[i]);
    if i == q + 1 {
      DispatchKnown(states[q], steps[q], tag);
    } else {
      StaysKnown(states, steps, n, q, i - 1, tag);
      StepKnown(states[i - 1], steps[i - 1], tag,
                TicketOf(states[q], steps[q].fd, steps[q].cmd, steps[q].room, steps[q].body));
      StepIssues(states[i - 1], steps[i - 1]);
    }
  }

  lemma DispatchKnown(s: State, step: Step, tag: nat)
    requires Account(s) && Enabled(s, step) && Dispatches(s, step, tag)
    ensures Known(Apply(s, step), tag, TicketOf(s, step.fd, step.cmd, step.room, step.body))
            && !IsLost(Apply(s, step), tag)
    ensures tag < Apply(s, step).log.issued
  {
    hide Account, Known, IsLost, Dispatch;
    AskKnown(s, step.fd, step.cmd, step.room, step.body);
  }

  /**
    A request of a known command is lost exactly if one of the steps since its dispatch re-routed it to an unbound
    room.
   */
  lemma {:induction false} LostIffUnbound(states: seq<State>, steps: seq<Step>, n: nat, q: nat, i: nat, tag: nat)
    requires Run(states, steps, n) && q < i < |states| && Dispatches(states[q], steps[q], tag)
             && !steps[q].cmd.CmdOther?
    ensures IsLost(states[i], tag) <==> exists k | q < k < i :: !FindsRoom(states[k], steps[k], tag)
  {
    hide Account, Known, Enabled, Apply, Init, IsLost, FindsRoom, TicketOf;
    if i == q + 1 {
      RunAccounts(states, steps, n, q);
      assert Next(states[q], steps[q], states[i]);
      DispatchKnown(states[q], steps[q], tag);
    } else {
      LostIffUnbound(states, steps, n, q, i - 1, tag);
      RunLoses(states, steps, n, q, i - 1, tag);
    }
  }

  lemma RunLoses(states: seq<State>, steps: seq<Step>, n: nat, q: nat, i: nat, tag: nat)
    requires Run(states, steps, n) && q < i < |steps| && Dispatches(states[q], steps[q], tag) && !steps[q].cmd.CmdOther?
    ensures IsLost(states[i + 1], tag) <==> IsLost(states[i], tag) || !FindsRoom(states[i], steps[i], tag)
  {
    hide Account, Known, Enabled, Apply, Init, IsLost, FindsRoom;
    RunAccounts(states, steps, n, i);
    assert Next(states[i], steps[i], states[i + 1]);
    StaysKnown(states, steps, n, q, i, tag);
    StepLoses(states[i], steps[i], tag, TicketOf(states[q], steps[q].fd, steps[q].cmd, steps[q].room, steps[q].body));
  }

  lemma StepLoses(s: State, step: Step, tag: nat, ticket: Ticket)
    requires Account(s) && Enabled(s, step) && Known(s, tag, ticket) && ticket.kind != Swallowed
    ensures IsLost(Apply(s, step), tag) <==> IsLost(s, tag) || !FindsRoom(s, step, tag)
  {
    hide Own, Linear, Tracked, Apply, Count, IsLost, FindsRoom;
    StepDrops(s, step, tag);
    if step.Work? { WorkingKnown(s, step.w, tag, ticket); }
  }

  lemma WorkingKnown(s: State, w: WorkerId, tag: nat, ticket: Ticket)
    requires Own(s) && w in s.running && Known(s, tag, ticket)
    ensures Bears(s.running[w], tag, ticket)
  {
    hide Own, Count, Bears;
    OwnStaffed(s);
    RunningIsIn(s, w);
  }

  predicate AnsweredAt(s: State, k: nat, tag: nat) {
    k < |s.log.answers| && s.log.answers[k].origin == Request(tag)
  }

  lemma AnsweredSomewhere(s: State, tag: nat)
    ensures IsAnswered(s, tag) <==> exists k :: AnsweredAt(s, k, tag)
  {
    if IsAnswered(s, tag) {
      var k :| 0 <= k < |s.log.answers| && s.log.answers[k].origin == Request(tag);
      assert AnsweredAt(s, k, tag);
    }
  }

  /**
    Exactly one response: with no work left, a request of a known command has been answered, and only once, if and only
    if every re-route of it since its dispatch found the room bound.
   */
  lemma ExactlyOneResponse(states: seq<State>, steps: seq<Step>, n: nat, q: nat, i: nat, tag: nat)
    requires Run(states, steps, n) && q < i < |states| && Dispatches(states[q], steps[q], tag)
             && !steps[q].cmd.CmdOther?
    requires WorkLeft(states[i]) == 0
    ensures (exists k :: AnsweredAt(states[i], k, tag)) <==>
            forall k | q < k < i :: FindsRoom(states[k], steps[k], tag)
    ensures forall j, k | AnsweredAt(states[i], j, tag) && AnsweredAt(states[i], k, tag) :: j == k
  {
    hide Run, WorkLeft, FindsRoom, Own, Tracked, Dispatches, IsLost;
    LostIffUnbound(states, steps, n, q, i, tag);
    StaysKnown(states, steps, n, q, i, tag);
    EveryRequestEnds(states, steps, n, i, tag);
    RunAccounts(states, steps, n, i);
    AnsweredSomewhere(states[i], tag);
  }

  /** Any answer to a request goes to the session that sent it and carries its command. */
  lemma AnsweredToItsSender(states: seq<State>, steps: seq<Step>, n: nat, q: nat, i: nat, tag: nat, k: nat)
    requires Run(states, steps, n) && q < i < |states| && Dispatches(states[q], steps[q], tag)
    requires AnsweredAt(states[i], k, tag)
    ensures states[i].log.answers[k].fd == steps[q].fd && states[i].log.answers[k].initial == steps[q].cmd
  {
    hide Next, Init, Count;
    StaysKnown(states, steps, n, q, i, tag);
    assert Bears(states[i].log.answers[k], tag,
                 TicketOf(states[q], steps[q].fd, steps[q].cmd, steps[q].room, steps[q].body));
  }

  /**
    A request with a command byte the server has no case for: with no work left it has been swallowed without an answer
    if and only if its room was bound when it was dispatched; otherwise it has exactly one answer, on its own session,
    that there is no such room.
   */
  lemma UnknownIsSwallowedIffBound(states: seq<State>, steps: seq<Step>, n: nat, q: nat, i: nat, tag: nat)
    requires Run(states, steps, n) && q < i < |states| && Dispatches(states[q], steps[q], tag) && steps[q].cmd.CmdOther?
    requires WorkLeft(states[i]) == 0
    ensures IsLost(states[i], tag) && !IsAnswered(states[i], tag) <==> steps[q].room in states[q].bindings
    ensures steps[q].room !in states[q].bindings ==>
              exists k: nat :: AnsweredAt(states[i], k, tag) && states[i].log.answers[k].fd == steps[q].fd
                               && ResponseTo(states[i].log.answers[k]) == Response(steps[q].cmd, RoomNotFound, [])
    ensures forall j, k | AnsweredAt(states[i], j, tag) && AnsweredAt(states[i], k, tag) :: j == k
  {
    hide Next, Init, WorkLeft, FindsRoom, Own, OneFlight, Conserved, Count;
    StaysKnown(states, steps, n, q, i, tag);
    EveryRequestEnds(states, steps, n, i, tag);
    RunAccounts(states, steps, n, i);
    AnsweredSomewhere(states[i], tag);
    if steps[q].room !in states[q].bindings {
      var k: nat :| AnsweredAt(states[i], k, tag);
      assert AnswerOk(states[i].log.answers[k]);
    }
  }
}
