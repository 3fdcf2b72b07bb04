/**
  What a client is sent for a history load, in any run of the server: the bytes of the answer to a JOIN or a LOAD are a
  page of the room's stored messages, the newest below the cursor in the body of its request.
 */
module Loads {
  import opened Bytes
  import opened RoomEvents
  import opened ServerState
  import opened History
  import opened Flights
  import opened Itinerary
  import opened Ownership
  import opened Requests
  import opened Tokens
  import opened Delivery
  import opened Responses
  import opened Outcomes
  import opened Payload
  import MessageList
  import Pagination
  import Quiescence
  import Reader

  // ---- a page ----

  /**
    At most fifty messages stored for the room, in strictly descending order, below the cursor; if there are fewer than
    fifty, all of them, and otherwise all of them down to the last one.
   */
  ghost predicate Newest(store: seq<Row>, r: RoomId, before: int64, ms: seq<MessageList.Message>) {
    && |ms| <= 50
    && (forall i, j | 0 <= i < j < |ms| :: ms[i].id > ms[j].id)
    && (forall m | m in ms :: m.id < before && Pagination.StoredAs(store, r, m))
    && (forall q | 0 <= q < |store| && store[q].room == r && store[q].message.id < before ::
          store[q].message in ms || (|ms| == 50 && store[q].message.id < ms[49].id))
  }

  lemma PageIsNewest(store: seq<Row>, r: RoomId, before: int64)
    requires Pagination.StoreOk(store)
    ensures Newest(store, r, before, Page(store, r, before))
  {
    hide Older, Pagination.StoreOk, Pagination.StoredAs;
    var page, o := Page(store, r, before), Older(store, r, before);
    Pagination.OlderIs(store, r, before);
    assert forall i | 0 <= i < |page| :: page[i] == o[i];
    forall m | m in page ensures m in o {}
    forall q | 0 <= q < |store| && store[q].room == r && store[q].message.id < before
      ensures store[q].message in page || (|page| == 50 && store[q].message.id < page[49].id)
    {
      assert store[q].message in o;
      var x :| 0 <= x < |o| && o[x] == store[q].message;
      if x < |page| { assert page[x] == o[x]; }
    }
  }

  /** The bytes are such a page, and nothing else. */
  ghost predicate IsPage(body: seq<byte>, store: seq<Row>, r: RoomId, before: int64) {
    var parsed := MessageList.Parsed(body);
    parsed.Got? && parsed.rest == [] && Newest(store, r, before, parsed.value)
  }

  lemma PageParses(store: seq<Row>, r: RoomId, before: int64)
    requires Pagination.StoreOk(store)
    ensures IsPage(MessageList.Serialized(Page(store, r, before)), store, r, before)
    ensures MessageList.Parsed(MessageList.Serialized(Page(store, r, before))).value == Page(store, r, before)
  {
    hide Newest, Page, MessageList.Serialized, MessageList.Parsed, Pagination.StoreOk;
    var page := Page(store, r, before);
    PageIsNewest(store, r, before);
    Pagination.PageSmall(store, r, before);
    MessageList.RoundTrip(page, []);
    assert MessageList.Serialized(page) + [] == MessageList.Serialized(page);
  }

  // ---- from the query to the answer ----

  /** Back from a history load that succeeded. */
  predicate Back(f: Flight) {
    && f.event.result == Success && !f.place.AwaitsHistory?
    && ((f.event.plan.PlanJoin? && f.event.cursor == 4) || (f.event.plan.PlanLoad? && f.event.cursor == 1))
  }

  /** The same request with the same page. */
  predicate SameLoad(e: Event, e': Event) {
    e.origin == e'.origin && e.plan == e'.plan && e.request == e'.request && e.response == e'.response
    && e.mark == e'.mark && e.fd == e'.fd && e.initial == e'.initial
  }

  /** The database answers the load of event `e` with its page. */
  predicate FetchesNow(s: State, step: Step, e: Event) {
    && step == Query(Loaded) && s.jobs != [] && s.jobs[0].LoadJob? && s.jobs[0].event.origin == e.origin
    && s.jobs[0].event.mark == e.mark && s.jobs[0].event.plan == e.plan && s.jobs[0].event.fd == e.fd
    && s.jobs[0].room == RoomIn(e.plan) && s.jobs[0].before == CursorIn(e.request)
    && e.response == MessageList.Serialized(Page(s.store, s.jobs[0].room, s.jobs[0].before))
  }

  lemma NextIsNotBack(s: State, w: WorkerId)
    requires Moving(s, w) && NextFlight(s, w).Some?
    ensures !Back(NextFlight(s, w).value)
  {
    match s.running[w].plan
    case PlanJoin(_) => if s.running[w].cursor == 3 {} else if s.running[w].cursor == 2 {} else {}
    case PlanLoad(_) => if s.running[w].cursor == 0 {} else {}
    case PlanCreate(_) =>
    case _ =>
  }

  lemma ReplyIsBack(s: State, w: WorkerId)
    requires Moving(s, w) && FateOf(s, w).Replied? && FateOf(s, w).event.result == Success
    requires s.running[w].plan.PlanJoin? || s.running[w].plan.PlanLoad?
    ensures Back(Flight(Running(w), s.running[w])) && SameLoad(s.running[w], FateOf(s, w).event)
  {
    hide Bound, CodeAt;
    match s.running[w].plan
    case PlanJoin(_) => if s.running[w].cursor == 4 {} else {}
    case PlanLoad(_) => if s.running[w].cursor == 1 {} else {}
  }

  lemma PlanStays(s: State, w: WorkerId)
    requires Moving(s, w) && FateOf(s, w).Replied?
    ensures FateOf(s, w).event.plan == s.running[w].plan && FateOf(s, w).event.origin == s.running[w].origin
            && FateOf(s, w).event.fd == s.running[w].fd && FateOf(s, w).event.initial == s.running[w].initial
  {
    hide OnCourse, Bound, CodeAt;
  }

  /** The load callback of a successful query. */
  lemma CallbackFetches(s: State, o: DbOutcome)
    requires s.jobs != [] && OutcomeOk(s, s.jobs[0], o) && QueryGone(s).Some? && QueryCome(s, o).Some?
    requires OnCourse(s.log.home, QueryGone(s).value) && Back(QueryCome(s, o).value)
    ensures FetchesNow(s, Query(o), QueryCome(s, o).value.event)
  {
    hide FindWorker, Resolve, Page, MessageList.Serialized;
    CursorIs(s.jobs[0].event.request);
    match s.jobs[0]
    case LoadJob(e, room, before) => LoadedFetches(s, e, room, before, o);
    case CreateJob(e) => if o.Created? {} else {}
    case HandJob(e, w) =>
  }

  lemma LoadedFetches(s: State, e: Event, room: RoomId, before: int64, o: DbOutcome)
    requires s.jobs != [] && s.jobs[0] == LoadJob(e, room, before) && OutcomeOk(s, s.jobs[0], o)
    requires OnCourse(s.log.home, Flight(AwaitsHistory(room, before), e)) && CursorOf(e.request) == CursorIn(e.request)
    ensures var e' := LoadResult(s, e, room, before, o);
            e'.result == Success ==> FetchesNow(s, Query(o), e') && FetchesNow(s, Query(o), e'.(hops := e'.hops + 1))
  {
    hide Page, MessageList.Serialized, CursorOf, CursorIn;
    match e.plan
    case PlanJoin(_) =>
    case PlanLoad(_) =>
  }

  // ---- what a step does to the loads that are back ----

  /** An event that is back was back before, or the database has just answered its load. */
  ghost predicate BackFrom(s: State, step: Step, f: Flight) {
    (exists g :: In(s, g) && Back(g) && SameLoad(g.event, f.event)) || FetchesNow(s, step, f.event)
  }

  lemma StillBack(s: State, step: Step, f: Flight)
    requires In(s, f) && Back(f)
    ensures BackFrom(s, step, f)
  {
    hide Count, Back;
    assert SameLoad(f.event, f.event);
  }

  lemma MovedIn(s: State, t: State, gone: Option<Flight>, come: Option<Flight>, f: Flight)
    requires Moved(s, t, gone, come) && In(t, f)
    ensures In(s, f) || come == Some(f)
  {
    hide Count;
  }

  lemma WorkBack(s: State, w: WorkerId, found: RoomId, f: Flight)
    requires Own(s) && w in s.running && In(Act(s, w, found), f) && Back(f)
    ensures BackFrom(s, Work(w, found), f)
  {
    hide Own, In, Act, NextFlight, Moved, Back, BackFrom, OnCourse, Bound;
    OwnRunning(s, w);
    OwnStaffed(s);
    WorkMoves(s, w, found);
    MovedIn(s, Act(s, w, found), Some(Flight(Running(w), s.running[w])), NextFlight(s, w), f);
    if NextFlight(s, w).Some? { NextIsNotBack(s, w); }
    StillBack(s, Work(w, found), f);
  }

  lemma StartBack(s: State, w: WorkerId, k: nat, f: Flight)
    requires 1 <= w <= s.n && w !in s.running && k < |Queue(s, w)| && In(Take(s, w, k), f) && Back(f)
    ensures BackFrom(s, Start(w, k), f)
  {
    hide Count, Take;
    var e := Queue(s, w)[k];
    StartMoves(s, w, k);
    if !In(s, f) {
      assert SameLoad(e, f.event) && Back(Flight(Queued(w), e));
    } else {
      StillBack(s, Start(w, k), f);
    }
  }

  lemma QueryBack(s: State, o: DbOutcome, f: Flight)
    requires Own(s) && s.jobs != [] && OutcomeOk(s, s.jobs[0], o) && In(FinishJob(s, o), f) && Back(f)
    ensures BackFrom(s, Query(o), f)
  {
    hide Own, Count, FinishJob, OutcomeOk, QueryGone, QueryCome, Moved, Back, BackFrom, OnCourse;
    QueryMoves(s, o);
    MovedIn(s, FinishJob(s, o), QueryGone(s), QueryCome(s, o), f);
    if In(s, f) {
      StillBack(s, Query(o), f);
    } else {
      if QueryGone(s).Nothing? { QueryNothing(s, o); }
      OwnFlight(s, QueryGone(s).value);
      CallbackFetches(s, o);
      hide FetchesNow;
      assert BackFrom(s, Query(o), f) by { FetchedBack(s, Query(o), f); }
    }
  }

  lemma FetchedBack(s: State, step: Step, f: Flight)
    requires FetchesNow(s, step, f.event)
    ensures BackFrom(s, step, f)
  {}

  /** What the main thread sends is at the start of its recipe. */
  predicate Starts(s: State, t: State, f: Flight) {
    In(t, f) ==> In(s, f) || f.event.cursor == 0
  }

  lemma RouteStarts(s: State, e: Event, f: Flight)
    requires Staffed(s) && e.cursor == 0
    ensures Starts(s, Route(s, e), f) && Staffed(Route(s, e))
  {
    hide Count, Route, Staffed;
    RouteFlights(s, e);
    RouteStaffed(s, e);
  }

  lemma CloseStarts(s: State, d: Fd, garbage: Command, f: Flight)
    requires Staffed(s) && d in s.users
    ensures Starts(s, CloseSession(s, d, garbage), f)
  {
    hide Count, Route, Staffed;
    var room := s.users[d].room;
    var t := Route(s, DepartEvent(d, room, garbage));
    RouteStarts(s, DepartEvent(d, room, garbage), f);
    RouteStarts(t, DepartEvent(d, LOBBY_ROOM_ID, garbage), f);
    var u := if room != LOBBY_ROOM_ID then Route(t, DepartEvent(d, LOBBY_ROOM_ID, garbage)) else t;
    SameFlights(u, u.(users := u.users - {d}));
  }

  lemma InputStarts(s: State, step: Step, f: Flight)
    requires Staffed(s) && Enabled(s, step) && !Internal(step)
    ensures Starts(s, Apply(s, step), f)
  {
    hide Count, Staffed, Route, AcceptClient, Dispatch, CloseSession, Unused, Starts;
    match step
    case Accept(d, id, garbage) => AcceptStarts(s, d, id, garbage, f);
    case Ask(d, cmd, room, body) => AskStarts(s, d, cmd, room, body, f);
    case Tick(d, garbage) =>
      if d in s.users { RouteStarts(s, FlushEvent(d, s.users[d].room, garbage), f); }
      else { assert Starts(s, s, f) by { SameStarts(s, f); } }
    case Close(d, garbage) => CloseStarts(s, d, garbage, f);
  }

  lemma SameStarts(s: State, f: Flight)
    ensures Starts(s, s, f)
  {
    hide Count;
  }

  lemma AcceptStarts(s: State, d: Fd, id: int64, garbage: Command, f: Flight)
    requires Staffed(s)
    ensures Starts(s, AcceptClient(s, d, id, garbage), f)
  {
    hide Count, AcceptClient;
    AcceptMoves(s, d, id, garbage);
  }

  lemma AskStarts(s: State, d: Fd, cmd: Command, room: RoomId, body: seq<byte>, f: Flight)
    requires Staffed(s)
    ensures Starts(s, Dispatch(s, d, cmd, room, body), f)
  {
    hide Count, Dispatch;
    AskMoves(s, d, cmd, room, body);
  }

  lemma StepBack(s: State, step: Step, f: Flight)
    requires Own(s) && Enabled(s, step) && In(Apply(s, step), f) && Back(f)
    ensures BackFrom(s, step, f)
  {
    OwnStaffed(s);
    hide Own, Staffed, In, BackFrom, Back, Act, FinishJob, Take, LookAt, GiveTo, AcceptClient, Dispatch, RequestFlush,
         CloseSession, OutcomeOk, FoundOk, InTurn, Unused;
    match step
    case Work(w, found) => WorkBack(s, w, found, f);
    case Start(w, k) => StartBack(s, w, k, f);
    case Query(o) => QueryBack(s, o, f);
    case _ => QuietBack(s, step, f);
  }

  lemma QuietBack(s: State, step: Step, f: Flight)
    requires Staffed(s) && Enabled(s, step) && !step.Work? && !step.Start? && !step.Query?
    requires In(Apply(s, step), f) && Back(f)
    ensures BackFrom(s, step, f)
  {
    hide Staffed, BackFrom, Apply, Count, Enabled;
    if Internal(step) { LoopFlights(s, step); } else { InputStarts(s, step, f); }
    assert f.event.cursor > 0;
    StillBack(s, step, f);
  }

  lemma LoopFlights(s: State, step: Step)
    requires Enabled(s, step) && (step.Look? || step.Give?)
    ensures forall f :: Count(Apply(s, step), f) == Count(s, f)
  {
    hide Count, LookAt, GiveTo;
    CastSteps(s, step.w, if step.Look? then step.fd else 0);
    SameFlights(s, Apply(s, step));
  }

  // ---- what is answered ----

  /** An answer that says Success to a JOIN or a LOAD. */
  predicate Supplied(e: Event) {
    e.result == Success && (e.plan.PlanJoin? || e.plan.PlanLoad?)
  }

  /** A new answer to a load is given to an event that is back. */
  lemma StepSupplies(s: State, step: Step, k: nat)
    requires Own(s) && Enabled(s, step)
    requires |s.log.answers| <= k < |Apply(s, step).log.answers| && Supplied(Apply(s, step).log.answers[k])
    ensures exists g :: In(s, g) && Back(g) && SameLoad(g.event, Apply(s, step).log.answers[k])
  {
    hide Own, Act, In, FateOf, OnCourse, Bound, Back, Supplied, FoundOk;
    if step.Work? {
      var w := step.w;
      OwnRunning(s, w);
      OwnStaffed(s);
      WorkMoves(s, w, step.found);
      WorkTally(s, w, step.found);
      PlanStays(s, w);
      assert Supplied(FateOf(s, w).event) && Apply(s, step).log.answers[k] == FateOf(s, w).event;
      WorkSupplies(s, w);
      assert In(s, Flight(Running(w), s.running[w]));
    } else {
      hide Apply, Enabled;
      QuietAnswers(s, step);
    }
  }

  lemma WorkSupplies(s: State, w: WorkerId)
    requires Moving(s, w) && FateOf(s, w).Replied? && Supplied(FateOf(s, w).event)
    ensures Back(Flight(Running(w), s.running[w])) && SameLoad(s.running[w], FateOf(s, w).event)
  {
    hide OnCourse, Bound, FateOf, Back, SameLoad;
    PlanStays(s, w);
    ReplyIsBack(s, w);
  }

  lemma AnswersGrow(s: State, step: Step)
    requires Own(s) && Enabled(s, step)
    ensures s.log.answers <= Apply(s, step).log.answers
  {
    hide Own, Act, FateOf, FoundOk;
    if step.Work? {
      WorkTally(s, step.w, step.found);
    } else {
      hide Apply, Enabled;
      QuietAnswers(s, step);
    }
  }

  // ---- every run ----

  /** Before step `i` the database answered the load of this event. */
  ghost predicate Fetched(states: seq<State>, steps: seq<Step>, i: nat, e: Event)
    requires i <= |steps| && i < |states|
  {
    exists k: nat :: k < i && FetchesNow(states[k], steps[k], e)
  }

  ghost predicate AllFetched(states: seq<State>, steps: seq<Step>, i: nat)
    requires i <= |steps| && i < |states|
  {
    && (forall f | In(states[i], f) && Back(f) :: Fetched(states, steps, i, f.event))
    && (forall k | 0 <= k < |states[i].log.answers| && Supplied(states[i].log.answers[k]) ::
          Fetched(states, steps, i, states[i].log.answers[k]))
  }

  lemma FetchedLater(states: seq<State>, steps: seq<Step>, i: nat, e: Event, e': Event)
    requires i < |steps| && i + 1 < |states| && SameLoad(e, e') && Fetched(states, steps, i, e)
    ensures Fetched(states, steps, i + 1, e')
  {
    var k: nat :| k < i && FetchesNow(states[k], steps[k], e);
    SameFetch(states[k], steps[k], e, e');
    hide FetchesNow;
  }

  lemma SameFetch(s: State, step: Step, e: Event, e': Event)
    requires FetchesNow(s, step, e) && SameLoad(e, e')
    ensures FetchesNow(s, step, e')
  {}

  lemma {:induction false} RunFetches(states: seq<State>, steps: seq<Step>, n: nat, i: nat)
    requires Run(states, steps, n) && i < |states|
    ensures AllFetched(states, steps, i)
  {
    hide Own, Enabled, Apply, In, Back, Fetched, Supplied, SameLoad;
    if i == 0 {
      NothingInFlight(n);
    } else {
      hide Init;
      RunFetches(states, steps, n, i - 1);
      RunOwns(states, steps, n, i - 1);
      assert Next(states[i - 1], steps[i - 1], states[i]);
      forall f | In(states[i], f) && Back(f) ensures Fetched(states, steps, i, f.event) {
        StepBack(states[i - 1], steps[i - 1], f);
        BackFetched(states, steps, i, f);
      }
      forall k | 0 <= k < |states[i].log.answers| && Supplied(states[i].log.answers[k])
        ensures Fetched(states, steps, i, states[i].log.answers[k])
      {
        SuppliedFetched(states, steps, n, i, k);
      }
    }
  }

  lemma NothingInFlight(n: nat)
    ensures forall f :: !In(Init(n), f)
    ensures Init(n).log.answers == []
  {
    forall f ensures !In(Init(n), f) { EmptyCount(Init(n), n, f); }
  }

  lemma BackFetched(states: seq<State>, steps: seq<Step>, i: nat, f: Flight)
    requires 0 < i <= |steps| && i < |states| && AllFetched(states, steps, i - 1)
    requires BackFrom(states[i - 1], steps[i - 1], f)
    ensures Fetched(states, steps, i, f.event)
  {
    hide In, Back, FetchesNow, SameLoad;
    if !FetchesNow(states[i - 1], steps[i - 1], f.event) {
      var g :| In(states[i - 1], g) && Back(g) && SameLoad(g.event, f.event);
      FetchedLater(states, steps, i - 1, g.event, f.event);
    }
  }

  lemma SuppliedFetched(states: seq<State>, steps: seq<Step>, n: nat, i: nat, k: nat)
    requires Run(states, steps, n) && 0 < i < |states| && AllFetched(states, steps, i - 1)
    requires k < |states[i].log.answers| && Supplied(states[i].log.answers[k])
    ensures Fetched(states, steps, i, states[i].log.answers[k])
  {
    hide Own, Enabled, Apply, In, Back, Fetched, Supplied, SameLoad, Init;
    var s := states[i - 1];
    RunOwns(states, steps, n, i - 1);
    assert Next(s, steps[i - 1], states[i]);
    AnswersGrow(s, steps[i - 1]);
    var e := states[i].log.answers[k];
    if k < |s.log.answers| {
      assert SameLoad(e, e) by { SameItself(e); }
      FetchedLater(states, steps, i - 1, e, e);
    } else {
      StepSupplies(s, steps[i - 1], k);
      var g :| In(s, g) && Back(g) && SameLoad(g.event, e);
      FetchedLater(states, steps, i - 1, g.event, e);
    }
  }

  lemma SameItself(e: Event)
    ensures SameLoad(e, e)
  {}

  // ---- which request is answered ----

  /** Only a dispatch issues a number, and one at a time. */
  lemma StepNumbers(s: State, step: Step)
    requires Own(s) && Enabled(s, step)
    ensures Apply(s, step).log.issued == s.log.issued + if step.Ask? then 1 else 0
  {
    hide Own, Act, FinishJob, OutcomeOk, FoundOk, FateOf, QueryFate, Route, CloseSession, Unused, InTurn;
    match step
    case Work(w, found) => WorkTally(s, w, found);
    case Query(o) => QueryTally(s, o);
    case Tick(fd, garbage) =>
      if fd in s.users { Quiescence.RouteKeepsRequests(s, FlushEvent(fd, s.users[fd].room, garbage)); }
    case Close(fd, garbage) => Quiescence.CloseKeepsRequests(s, fd, garbage);
    case _ =>
  }

  /** Every number issued is that of a request dispatched. */
  lemma {:induction false} DispatchOf(states: seq<State>, steps: seq<Step>, n: nat, i: nat, tag: nat) returns (q: nat)
    requires Run(states, steps, n) && i < |states| && tag < states[i].log.issued
    ensures q < i && Dispatches(states[q], steps[q], tag)
  {
    hide Own, Enabled, Apply;
    assert i > 0;
    hide Init;
    RunOwns(states, steps, n, i - 1);
    assert Next(states[i - 1], steps[i - 1], states[i]);
    StepNumbers(states[i - 1], steps[i - 1]);
    if tag < states[i - 1].log.issued { q := DispatchOf(states, steps, n, i - 1, tag); } else { q := i - 1; }
  }

  lemma {:induction false} IssuedGrows(states: seq<State>, steps: seq<Step>, n: nat, i: nat, j: nat)
    requires Run(states, steps, n) && i <= j < |states|
    ensures states[i].log.issued <= states[j].log.issued
  {
    hide Own, Enabled, Apply, Init;
    if i < j {
      IssuedGrows(states, steps, n, i, j - 1);
      RunOwns(states, steps, n, j - 1);
      assert Next(states[j - 1], steps[j - 1], states[j]);
      StepNumbers(states[j - 1], steps[j - 1]);
    }
  }

  // ---- what is stored fits the format ----

  lemma StoreFits(states: seq<State>, steps: seq<Step>, n: nat, i: nat)
    requires Run(states, steps, n) && i < |states|
    ensures Pagination.StoreOk(states[i].store)
  {
    hide Next, Init, StoreSorted;
    Reader.Sorted(states, steps, n, i);
    forall q | 0 <= q < |states[i].store| ensures MessageList.SmallMessage(states[i].store[q].message) {
      RowFits(states, steps, n, i, q);
    }
  }

  lemma RowFits(states: seq<State>, steps: seq<Step>, n: nat, i: nat, q: nat)
    requires Run(states, steps, n) && i < |states| && q < |states[i].store|
    ensures MessageList.SmallMessage(states[i].store[q].message)
  {
    hide Next, Init, PostsAt, SenderAt, FromRequest, CursorIn, Count;
    StoredAsSaid(states, steps, n, i, q);
    RunFiled(states, steps, n, i);
    var h := states[i].log.handled[states[i].store[q].serial];
    var d := DispatchOf(states, steps, n, i, h.origin.tag);
    BodyArrives(states, steps, n, d, i, h.origin.tag);
  }

  // ---- from the answer to the packet ----

  /** Step `j` answers request `tag`, with packet `x` of the session. */
  ghost predicate Responds(states: seq<State>, steps: seq<Step>, j: nat, tag: nat, fd: Fd, x: nat) {
    && j < |steps| && j + 1 < |states| && |Packed(states[j], fd)| == x < |Packed(states[j + 1], fd)|
    && var l, l' := states[j].log, states[j + 1].log;
       |l'.answers| == |l.answers| + 1 && l'.answers[|l.answers|].origin == Request(tag)
  }

  predicate PlanIs(e: Event) {
    (e.initial.CmdJoinRoom? ==> e.plan.PlanJoin?) && (e.initial.CmdLoadMessage? ==> e.plan.PlanLoad?)
  }

  lemma SuccessIsRequest(s: State, w: WorkerId)
    requires Moving(s, w) && FateOf(s, w).Replied? && FateOf(s, w).event.result == Success
    ensures var e := FateOf(s, w).event;
            e.origin.Request? && PlanIs(e)
  {
    hide Bound, CodeAt;
    match s.running[w].plan
    case PlanArrive =>
    case _ =>
  }

  /** A packet that is an answer with Success is recorded as an answer by the step that packs it. */
  lemma StepResponds(states: seq<State>, steps: seq<Step>, n: nat, j: nat, fd: Fd, x: nat) returns (e: Event)
    requires Run(states, steps, n) && j < |steps| && |Packed(states[j], fd)| <= x < |Packed(states[j + 1], fd)|
    requires Packed(states[j + 1], fd)[x].Response? && Packed(states[j + 1], fd)[x].status == Success
    ensures x == |Packed(states[j], fd)| && e.origin.Request? && e.fd == fd && steps[j].Work?
    ensures PlanIs(e)
    ensures Packed(states[j + 1], fd)[x] == ResponseTo(e) && states[j + 1].log.answers == states[j].log.answers + [e]
  {
    hide Next, Init, IsTold, FateOf, Own, OnCourse, Bound;
    EveryPacketHasACause(states, steps, n, j, fd);
    var s, t, w := states[j], states[j + 1], steps[j].w;
    PackedByWork(states, steps, n, j, fd, x);
    e := FateOf(s, w).event;
    RunOwns(states, steps, n, j);
    OwnRunning(s, w);
    WorkIsAct(states, steps, n, j);
    WorkTally(s, w, steps[j].found);
    SuccessIsRequest(s, w);
  }

  lemma WorkIsAct(states: seq<State>, steps: seq<Step>, n: nat, j: nat)
    requires Run(states, steps, n) && j < |steps| && steps[j].Work?
    ensures steps[j].w in states[j].running && states[j + 1] == Act(states[j], steps[j].w, steps[j].found)
  {
    hide Act, FoundOk;
    assert Next(states[j], steps[j], states[j + 1]);
  }

  lemma PackedByWork(states: seq<State>, steps: seq<Step>, n: nat, j: nat, fd: Fd, x: nat)
    requires Run(states, steps, n) && j < |steps| && |Packed(states[j], fd)| <= x < |Packed(states[j + 1], fd)|
    requires Packed(states[j + 1], fd)[x].Response?
    ensures steps[j].Work? && x == |Packed(states[j], fd)|
    ensures IsAnsweredWith(states[j], steps[j].w, fd, Packed(states[j + 1], fd)[x])
  {
    hide Next, Init, IsTold, IsAnsweredWith;
    EveryPacketHasACause(states, steps, n, j, fd);
    var s, t := states[j], states[j + 1];
    if p :| Receives(s, t, fd, p) && steps[j].Work? && IsAnsweredWith(s, steps[j].w, fd, p) {
      assert Packed(t, fd)[x] == p;
    }
  }

  // ---- over whole runs ----

  /** What is packed on a session stays there. */
  lemma {:induction false} PackedGrows(states: seq<State>, steps: seq<Step>, n: nat, i: nat, j: nat, fd: Fd)
    requires Run(states, steps, n) && i <= j < |states|
    ensures Packed(states[i], fd) <= Packed(states[j], fd)
  {
    hide Next, Init, Packed, IsTold, IsAnsweredWith, WasThere;
    if i < j {
      PackedGrows(states, steps, n, i, j - 1, fd);
      EveryPacketHasACause(states, steps, n, j - 1, fd);
    }
  }

  /** The step that packed a packet. */
  lemma {:induction false} PackedAt(states: seq<State>, steps: seq<Step>, n: nat, i: nat, fd: Fd,
                                    x: nat) returns (j: nat)
    requires Run(states, steps, n) && i < |states| && x < |Packed(states[i], fd)|
    ensures j < i && |Packed(states[j], fd)| <= x < |Packed(states[j + 1], fd)|
    ensures Packed(states[j + 1], fd)[x] == Packed(states[i], fd)[x]
  {
    hide Next;
    assert i > 0;
    hide Init;
    if x < |Packed(states[i - 1], fd)| {
      PackedGrows(states, steps, n, i - 1, i, fd);
      j := PackedAt(states, steps, n, i - 1, fd, x);
    } else {
      j := i - 1;
    }
  }

  /** The request asks for a page of history: `q` is its dispatch. */
  predicate AsksForPage(step: Step) {
    step.Ask? && (step.cmd.CmdJoinRoom? || step.cmd.CmdLoadMessage?)
  }

  /** The database answers the load of request `tag`, from what is stored in room `r` below `before`. */
  predicate Queries(s: State, step: Step, tag: nat, r: RoomId, before: int64) {
    step == Query(Loaded) && s.jobs != [] && s.jobs[0].LoadJob? && s.jobs[0].event.origin == Request(tag)
    && s.jobs[0].room == r && s.jobs[0].before == before
  }

  /** The packet answers a JOIN or a LOAD with Success. */
  predicate BringsPage(p: Packet) {
    p.Response? && p.status == Success && (p.command.CmdJoinRoom? || p.command.CmdLoadMessage?)
  }

  lemma AnswerOld(s: State, k: nat)
    requires Account(s) && k < |s.log.answers| && s.log.answers[k].origin.Request?
    ensures s.log.answers[k].origin.tag < s.log.issued && AnswerOk(s.log.answers[k])
  {
    hide Own, OneFlight, Conserved, Count, AnswerOk;
  }

  lemma HeadOld(s: State)
    requires Linear(s) && s.jobs != [] && s.jobs[0].LoadJob? && s.jobs[0].event.origin.Request?
    ensures s.jobs[0].event.origin.tag < s.log.issued
  {
    hide Linear, Count;
    HeadIsIn(s);
    InFlightOld(s, Flight(JobPlace(s.jobs[0]), s.jobs[0].event));
  }

  /** The request that an answer with a page answers. */
  lemma RequestOf(states: seq<State>, steps: seq<Step>, n: nat, j: nat, e: Event) returns (q: nat)
    requires Run(states, steps, n) && j + 1 < |states| && e.origin.Request? && Supplied(e) && PlanIs(e)
    requires states[j + 1].log.answers == states[j].log.answers + [e]
    requires e.initial.CmdJoinRoom? || e.initial.CmdLoadMessage?
    ensures q <= j && Dispatches(states[q], steps[q], e.origin.tag) && AsksForPage(steps[q])
    ensures steps[q].cmd == e.initial && steps[q].fd == e.fd && steps[q].room == RoomIn(e.plan)
            && steps[q].body == e.request && e.plan == PlanOf(e.initial, steps[q].room)
  {
    hide Next, Init, Known, Own, Linear, Tracked, AnswerOk;
    RunAccounts(states, steps, n, j + 1);
    var a, tag := |states[j].log.answers|, e.origin.tag;
    AnswerOld(states[j + 1], a);
    q := DispatchOf(states, steps, n, j + 1, tag);
    StaysKnown(states, steps, n, q, j + 1, tag);
    KnownAnswer(states[j + 1], a, tag, TicketOf(states[q], steps[q].fd, steps[q].cmd, steps[q].room, steps[q].body));
  }

  lemma KnownAnswer(s: State, k: nat, tag: nat, ticket: Ticket)
    requires Known(s, tag, ticket) && k < |s.log.answers|
    ensures Bears(s.log.answers[k], tag, ticket)
  {
    hide Count, Bears;
  }

  lemma FetchOf(states: seq<State>, steps: seq<Step>, i: nat, e: Event) returns (k: nat)
    requires 0 < i <= |steps| && i < |states| && AllFetched(states, steps, i) && Supplied(e)
    requires e in states[i].log.answers && !steps[i - 1].Query?
    ensures k < i - 1 && FetchesNow(states[k], steps[k], e)
  {
    hide In, Supplied;
    var a :| 0 <= a < |states[i].log.answers| && states[i].log.answers[a] == e;
    k :| k < i && FetchesNow(states[k], steps[k], e);
  }

  lemma RunLinear(states: seq<State>, steps: seq<Step>, n: nat, i: nat)
    requires Run(states, steps, n) && i < |states|
    ensures Linear(states[i])
  {
    hide Run, Own, Linear, Tracked;
    RunAccounts(states, steps, n, i);
  }

  /** The query whose page an answer has is run after its dispatch. */
  lemma AfterDispatch(states: seq<State>, steps: seq<Step>, n: nat, q: nat, k: nat, e: Event)
    requires Run(states, steps, n) && q < |states| && k < |states| && k < |steps| && FetchesNow(states[k], steps[k], e)
    requires e.origin == Request(states[q].log.issued)
    ensures q < k
  {
    hide Next, Init, Linear;
    RunLinear(states, steps, n, k);
    HeadOld(states[k]);
    if k <= q { IssuedGrows(states, steps, n, k, q); }
  }

  /** Where an answer with a page comes from: its request and its query. */
  lemma SourceOf(states: seq<State>, steps: seq<Step>, n: nat, j: nat, e: Event) returns (q: nat, k: nat)
    requires Run(states, steps, n) && j < |steps| && steps[j].Work? && e.origin.Request? && Supplied(e) && PlanIs(e)
    requires states[j + 1].log.answers == states[j].log.answers + [e]
    requires e.initial.CmdJoinRoom? || e.initial.CmdLoadMessage?
    ensures q < k < j && AsksForPage(steps[q]) && steps[q].cmd == e.initial && steps[q].fd == e.fd
    ensures e.origin == Request(states[q].log.issued) && e.plan == PlanOf(e.initial, steps[q].room)
            && e.request == steps[q].body && RoomIn(e.plan) == steps[q].room
    ensures FetchesNow(states[k], steps[k], e)
  {
    hide Next, Init, RoomIn, FetchesNow, Supplied, AllFetched;
    q := RequestOf(states, steps, n, j, e);
    RunFetches(states, steps, n, j + 1);
    k := FetchOf(states, steps, j + 1, e);
    AfterDispatch(states, steps, n, q, k, e);
  }

  /** The page of an answer: what its load found, from the very function that makes it. */
  lemma PageFetched(states: seq<State>, steps: seq<Step>, n: nat, i: nat, fd: Fd, x: nat)
    returns (q: nat, k: nat, j: nat, e: Event)
    requires Run(states, steps, n) && i < |states| && x < |Packed(states[i], fd)|
             && BringsPage(Packed(states[i], fd)[x])
    ensures q < k < j < i && AsksForPage(steps[q]) && steps[q].fd == fd && e.plan == PlanOf(steps[q].cmd, steps[q].room)
    ensures steps[q].cmd == Packed(states[i], fd)[x].command && RoomIn(e.plan) == steps[q].room
    ensures e.origin == Request(states[q].log.issued) && Responds(states, steps, j, states[q].log.issued, fd, x)
            && states[j + 1].log.answers == states[j].log.answers + [e]
    ensures FetchesNow(states[k], steps[k], e) && e.request == steps[q].body
            && e.response == Packed(states[i], fd)[x].body && e.fd == fd
  {
    hide Next, Init, Packed, RoomIn, FetchesNow, PlanIs, PlanOf;
    j := PackedAt(states, steps, n, i, fd, x);
    e := StepResponds(states, steps, n, j, fd, x);
    assert Supplied(e) by { PlanSupplies(e); }
    q, k := SourceOf(states, steps, n, j, e);
  }

  lemma PlanSupplies(e: Event)
    requires e.result == Success && PlanIs(e) && (e.initial.CmdJoinRoom? || e.initial.CmdLoadMessage?)
    ensures Supplied(e)
  {}

  /**
    The bytes of the answer to a JOIN or a LOAD, packed on the session that sent it: they parse, with nothing left over,
    as the newest messages stored for the room of the request below the cursor in its body (or simply the newest, if it
    has none) at the moment the database ran the load, which is after the request was dispatched.
   */
  lemma PageArrives(states: seq<State>, steps: seq<Step>, n: nat, i: nat, fd: Fd, x: nat)
    returns (q: nat, k: nat, j: nat)
    requires Run(states, steps, n) && i < |states| && x < |Packed(states[i], fd)|
             && BringsPage(Packed(states[i], fd)[x])
    ensures q < k < j < i && steps[q].Ask? && steps[q].fd == fd && steps[q].cmd == Packed(states[i], fd)[x].command
    ensures Responds(states, steps, j, states[q].log.issued, fd, x)
    ensures Queries(states[k], steps[k], states[q].log.issued, steps[q].room, CursorIn(steps[q].body))
    ensures IsPage(Packed(states[i], fd)[x].body, states[k].store, steps[q].room, CursorIn(steps[q].body))
  {
    hide Next, Init, Packed, RoomIn, CursorIn, Responds, IsPage, Page, MessageList.Serialized;
    var e;
    q, k, j, e := PageFetched(states, steps, n, i, fd, x);
    StoreFits(states, steps, n, k);
    PageParses(states[k].store, steps[q].room, CursorIn(steps[q].body));
  }
}
