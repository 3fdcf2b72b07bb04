/**
  The order of requests, for any client input: the messages of a room are broadcast and saved in the order in which
  the main thread dispatched them, and every session receives them in that order.
 */
module Turns {
  import opened Bytes
  import opened RoomEvents
  import opened ServerState
  import opened History
  import opened Flights
  import opened Itinerary
  import opened Ownership
  import opened Requests
  import opened Tokens
  import opened Talk
  import opened Broadcasts
  import opened Lines
  import opened Quiescence
  import opened Responses
  import opened Delivery
  import opened Casting

  // ---- increasing numbers ----

  predicate Increasing(ts: seq<nat>) {
    forall i, j | 0 <= i < j < |ts| :: ts[i] < ts[j]
  }

  predicate Below(ts: seq<nat>, bound: nat) {
    forall i | 0 <= i < |ts| :: ts[i] < bound
  }

  predicate Rising(ts: seq<nat>, bound: nat) {
    Increasing(ts) && Below(ts, bound)
  }

  lemma Drop(a: seq<nat>, x: seq<nat>, b: seq<nat>, bound: nat)
    requires Rising(a + x + b, bound)
    ensures Rising(a + b, bound)
  {
    var whole := a + x + b;
    forall i | 0 <= i < |a + b| ensures (a + b)[i] == whole[if i < |a| then i else i + |x|] {}
  }

  lemma Raise(ts: seq<nat>, x: nat)
    requires Rising(ts, x)
    ensures Rising(ts + [x], x + 1)
  {}

  // ---- who is in line for a worker ----

  function TagOf(o: Origin): nat {
    if o.Request? then o.tag else 0
  }

  /** A request on the worker the main thread sent it to. */
  predicate Fresh(e: Event) {
    e.origin.Request? && e.hops == 0
  }

  predicate At(home: map<RoomId, WorkerId>, r: RoomId, w: WorkerId) {
    r in home && home[r] == w
  }

  /** The numbers under which the messages of a worker's rooms were dispatched, in the order they were broadcast. */
  function SaidTags(handled: seq<Handled>, home: map<RoomId, WorkerId>, w: WorkerId): seq<nat> {
    if handled == [] then []
    else
      var h := handled[|handled| - 1];
      SaidTags(handled[..|handled| - 1], home, w) + if At(home, h.room, w) then [TagOf(h.origin)] else []
  }

  function RunTag(running: map<WorkerId, Event>, w: WorkerId): seq<nat> {
    if w in running && Fresh(running[w]) && running[w].cursor == 0 then [running[w].origin.tag] else []
  }

  function OneTag(e: Event): seq<nat> {
    if Fresh(e) then [e.origin.tag] else []
  }

  function QueueTags(q: seq<Event>): seq<nat> {
    if q == [] then [] else OneTag(q[0]) + QueueTags(q[1..])
  }

  /** Broadcast already, about to be executed, and waiting in the worker's queue. */
  function Line(s: State, w: WorkerId): seq<nat> {
    SaidTags(s.log.handled, s.log.home, w) + RunTag(s.running, w) + QueueTags(Queue(s, w))
  }

  predicate Housed(s: State) {
    forall m | 0 <= m < |s.log.handled| :: s.log.handled[m].room in s.log.home && s.log.handled[m].origin.Request?
  }

  /** The line of every worker is in the order of dispatch. */
  ghost predicate InLine(s: State) {
    Housed(s) && forall w :: Rising(Line(s, w), s.log.issued)
  }

  lemma SaidAppend(handled: seq<Handled>, h: Handled, home: map<RoomId, WorkerId>, w: WorkerId)
    ensures SaidTags(handled + [h], home, w)
            == SaidTags(handled, home, w) + if At(home, h.room, w) then [TagOf(h.origin)] else []
  {
    assert (handled + [h])[..|handled|] == handled;
  }

  lemma {:induction false} SaidSame(handled: seq<Handled>, home: map<RoomId, WorkerId>, later: map<RoomId, WorkerId>,
                                    w: WorkerId)
    requires Grows(home, later) && forall m | 0 <= m < |handled| :: handled[m].room in home
    ensures SaidTags(handled, later, w) == SaidTags(handled, home, w)
  {
    if handled != [] {
      assert handled[|handled| - 1].room in home;
      SaidSame(handled[..|handled| - 1], home, later, w);
    }
  }

  lemma {:induction false} TagsAppend(q: seq<Event>, e: Event)
    ensures QueueTags(q + [e]) == QueueTags(q) + OneTag(e)
  {
    hide OneTag;
    if q == [] {
      assert q + [e] == [e] && [e][1..] == [];
    } else {
      assert (q + [e])[1..] == q[1..] + [e];
      TagsAppend(q[1..], e);
    }
  }

  lemma ComingTag(come: Option<Flight>, w: WorkerId)
    ensures QueueTags(Coming(come, w))
            == if come.Some? && come.value.place == Queued(w) then OneTag(come.value.event) else []
  {
    if come.Some? { assert [come.value.event][1..] == []; }
  }

  /** Whoever is taken leaves the line, and of the main thread's events only the first can be. */
  lemma {:induction false} TagsWithout(q: seq<Event>, k: nat)
    requires k < |q| && InTurn(q, k)
    ensures QueueTags(q) == OneTag(q[k]) + QueueTags(Without(q, k))
  {
    if k == 0 {
      assert Without(q, 0) == q[1..];
    } else {
      assert Without(q, k)[1..] == Without(q[1..], k - 1) && Without(q, k)[0] == q[0];
      assert FromMain(q[k]) ==> !FromMain(q[0]);
      assert InTurn(q[1..], k - 1) by {
        assert forall j | 0 <= j < k - 1 :: q[1..][j] == q[j + 1];
      }
      TagsWithout(q[1..], k - 1);
    }
  }

  // ---- the steps ----

  lemma Grown(s: State, t: State, come: Option<Flight>, w: WorkerId)
    requires Grow(s, t, come)
    ensures QueueTags(Queue(t, w)) == QueueTags(Queue(s, w)) + QueueTags(Coming(come, w))
    ensures come.Some? && !Fresh(come.value.event) ==> QueueTags(Coming(come, w)) == []
  {
    if Coming(come, w) == [] {
      assert Queue(t, w) == Queue(s, w);
    } else {
      TagsAppend(Queue(s, w), come.value.event);
    }
  }

  /** A step of the main or DB thread that adds at most an event to a queue. */
  lemma QuietInLine(s: State, t: State, come: Option<Flight>)
    requires InLine(s) && Grow(s, t, come) && t.log.handled == s.log.handled && t.running == s.running
    requires Grows(s.log.home, t.log.home)
    requires if come.Some? && come.value.place.Queued? && Fresh(come.value.event)
             then come.value.event.origin.tag == s.log.issued && t.log.issued == s.log.issued + 1
             else t.log.issued == s.log.issued
    ensures InLine(t)
  {
    hide Grow, Rising, SaidTags, RunTag, QueueTags, Queue, Coming;
    forall w ensures Rising(Line(t, w), t.log.issued) {
      Grown(s, t, come, w);
      SaidSame(s.log.handled, s.log.home, t.log.home, w);
      OneMore(s, come, w);
    }
  }

  lemma OneMore(s: State, come: Option<Flight>, w: WorkerId)
    requires Rising(Line(s, w), s.log.issued)
    requires come.Some? && come.value.place.Queued? && Fresh(come.value.event)
             ==> come.value.event.origin.tag == s.log.issued
    ensures var said, run, wait := SaidTags(s.log.handled, s.log.home, w), RunTag(s.running, w), QueueTags(Queue(s, w));
            Rising(said + run + (wait + QueueTags(Coming(come, w))),
                   if come.Some? && come.value.place.Queued? && Fresh(come.value.event) then s.log.issued + 1
                   else s.log.issued)
  {
    hide SaidTags, RunTag, Queue;
    var said, run, wait := SaidTags(s.log.handled, s.log.home, w), RunTag(s.running, w), QueueTags(Queue(s, w));
    var more := QueueTags(Coming(come, w));
    ComingTag(come, w);
    assert more == [] || (come.Some? && come.value.place.Queued? && Fresh(come.value.event) && more == [s.log.issued]);
    assert said + run + (wait + more) == Line(s, w) + more;
    Raise(Line(s, w), s.log.issued);
  }

  /** A worker broadcasts only requests it was sent by the main thread. */
  lemma SpeaksInTurn(s: State, w: WorkerId)
    requires Account(s) && w in s.running
    ensures Speaks(s, w) ==> RunTag(s.running, w) == [TagOf(SaidBy(s, w)[0].origin)] && SaidBy(s, w)[0].origin.Request?
                             && At(s.log.home, SaidBy(s, w)[0].room, w)
    ensures forall v :: QueueTags(Coming(NextFlight(s, w), v)) == []
    ensures RunTag(RunningAfter(s, w), w) == []
  {
    hide Own, Linear, OnCourse, Count, QueueTags;
    OwnRunning(s, w);
    OwnStaffed(s);
    RunningIsIn(s, w);
    SendActions(s, w);
    SendIsRequest(s.log.home, Flight(Running(w), s.running[w]));
    assert TrailOk(Flight(Running(w), s.running[w]));
    hide Tracked, Bound, Speaks, TrailOk;
    NextHops(s, w);
    forall v ensures QueueTags(Coming(NextFlight(s, w), v)) == [] {
      ComingTag(NextFlight(s, w), v);
    }
  }

  lemma SendIsRequest(home: map<RoomId, WorkerId>, f: Flight)
    requires OnCourse(home, f)
    ensures f.event.plan.PlanSend? ==> f.event.origin.Request?
  {}

  lemma NextHops(s: State, w: WorkerId)
    requires w in s.running
    ensures var next := NextFlight(s, w);
            next.Some? ==> next.value.event.cursor > 0 && (next.value.place.Queued? ==> next.value.event.hops > 0)
  {
    hide CodeAt, FindWorker;
  }

  lemma WorkInLine(s: State, w: WorkerId, found: RoomId)
    requires Account(s) && InLine(s) && w in s.running
    ensures InLine(Act(s, w, found))
  {
    var t := Act(s, w, found);
    hide Account, InLine, Act, NextFlight, RunTag, QueueTags, Grow, Queue, Coming, Speaks, SaidBy;
    SpeaksInTurn(s, w);
    WorkFacts(s, w, found);
    SaidOne(s, w);
    assert InLine(t) by { WorkLines(s, t, w); }
  }

  lemma WorkFacts(s: State, w: WorkerId, found: RoomId)
    requires Account(s) && w in s.running
    ensures var t := Act(s, w, found);
            && t.running == RunningAfter(s, w) && t.log.handled == s.log.handled + SaidBy(s, w)
            && t.log.home == s.log.home && t.log.issued == s.log.issued && Grow(s, t, NextFlight(s, w))
  {
    hide Own, Linear, Tracked, Act, OnCourse, Bound, NextFlight, SaidBy, JobsBy, HearersOf, PacketsOf, Grow, FateOf;
    OwnRunning(s, w);
    if Executes(s, w) && ActionAt(s, w).command.SaveMessage? { SaveSucceeds(s, w); }
    WorkRuns(s, w, found);
    WorkSays(s, w, found);
    WorkUnbinds(s, w, found);
    WorkTally(s, w, found);
    WorkGrows(s, w, found);
  }

  lemma WorkLines(s: State, t: State, w: WorkerId)
    requires InLine(s) && w in s.running && t.running == RunningAfter(s, w)
    requires t.log.home == s.log.home && t.log.issued == s.log.issued
    requires t.log.handled == s.log.handled + SaidBy(s, w) && Grow(s, t, NextFlight(s, w))
    requires forall v :: QueueTags(Coming(NextFlight(s, w), v)) == []
    requires RunTag(t.running, w) == []
    requires SaidBy(s, w) == if Speaks(s, w) then [SaidBy(s, w)[0]] else []
    requires Speaks(s, w) ==> RunTag(s.running, w) == [TagOf(SaidBy(s, w)[0].origin)]
                              && SaidBy(s, w)[0].origin.Request? && At(s.log.home, SaidBy(s, w)[0].room, w)
    ensures InLine(t)
  {
    hide NextFlight, SaidBy, Speaks, RunTag, QueueTags, SaidTags, Rising, Grow, Queue, Coming, Line, RunningAfter;
    forall v ensures Rising(Line(t, v), t.log.issued) {
      Grown(s, t, NextFlight(s, w), v);
      assert QueueTags(Coming(NextFlight(s, w), v)) == [];
      WorkLine(s, t, w, v);
    }
  }

  lemma SaidOne(s: State, w: WorkerId)
    ensures SaidBy(s, w) == if Speaks(s, w) then [SaidBy(s, w)[0]] else []
  {}

  lemma WorkLine(s: State, t: State, w: WorkerId, v: WorkerId)
    requires w in s.running && t.running == RunningAfter(s, w) && t.log.home == s.log.home
             && t.log.issued == s.log.issued
    requires t.log.handled == s.log.handled + SaidBy(s, w) && QueueTags(Queue(t, v)) == QueueTags(Queue(s, v))
    requires RunTag(t.running, w) == [] && Rising(Line(s, v), s.log.issued)
    requires SaidBy(s, w) == if Speaks(s, w) then [SaidBy(s, w)[0]] else []
    requires Speaks(s, w) ==> RunTag(s.running, w) == [TagOf(SaidBy(s, w)[0].origin)]
                              && At(s.log.home, SaidBy(s, w)[0].room, w)
    ensures Rising(Line(t, v), t.log.issued)
  {
    hide SaidBy, Speaks, NextFlight, QueueTags, SaidTags, Rising, Queue, Fresh;
    var said, wait := SaidTags(s.log.handled, s.log.home, v), QueueTags(Queue(s, v));
    if Speaks(s, w) { SaidAppend(s.log.handled, SaidBy(s, w)[0], s.log.home, v); }
    if v != w {
      assert RunTag(t.running, v) == RunTag(s.running, v);
      if !Speaks(s, w) { assert t.log.handled == s.log.handled; }
      assert said + [] == said;
      assert Line(t, v) == Line(s, v);
    } else if Speaks(s, w) {
      hide RunTag;
      assert said + RunTag(s.running, w) + [] + wait == Line(s, w);
    } else {
      hide RunTag;
      assert said + [] == said && t.log.handled == s.log.handled;
      Drop(said, RunTag(s.running, w), wait, s.log.issued);
    }
  }

  lemma StartInLine(s: State, w: WorkerId, k: nat)
    requires InLine(s) && w !in s.running && k < |Queue(s, w)| && InTurn(Queue(s, w), k)
    ensures InLine(Take(s, w, k))
  {
    hide QueueTags, SaidTags, Rising, InTurn;
    var t, e := Take(s, w, k), Queue(s, w)[k];
    forall v ensures Rising(Line(t, v), t.log.issued) {
      if v == w {
        var said := SaidTags(s.log.handled, s.log.home, w);
        TagsWithout(Queue(s, w), k);
        assert Queue(t, w) == Without(Queue(s, w), k);
        assert Line(s, w) == said + OneTag(e) + QueueTags(Queue(t, w));
        Drop(said, OneTag(e), QueueTags(Queue(t, w)), s.log.issued);
        assert said + [] == said;
        assert RunTag(t.running, w) == [] || RunTag(t.running, w) == OneTag(e);
        assert Line(t, w) == said + RunTag(t.running, w) + QueueTags(Queue(t, w));
      } else {
        assert Queue(t, v) == Queue(s, v) && RunTag(t.running, v) == RunTag(s.running, v);
        assert Line(t, v) == Line(s, v);
      }
    }
  }

  lemma RouteInLine(s: State, e: Event)
    requires InLine(s) && !e.origin.Request?
    ensures InLine(Route(s, e))
  {
    hide Route, InLine, Grow;
    RouteGrows(s, e);
    RouteRuns(s, e);
    RouteTally(s, e);
    RouteSays(s, e, {});
    RouteUnbinds(s, e);
    var w := FindWorker(s, e.target);
    QuietInLine(s, Route(s, e), if w == 0 then Nothing else Some(Flight(Queued(w), e.(hops := e.hops + 1))));
  }

  lemma CloseInLine(s: State, fd: Fd, garbage: Command)
    requires InLine(s) && fd in s.users
    ensures InLine(CloseSession(s, fd, garbage))
  {
    hide Route, InLine;
    var room := s.users[fd].room;
    var t := Route(s, DepartEvent(fd, room, garbage));
    RouteInLine(s, DepartEvent(fd, room, garbage));
    RouteInLine(t, DepartEvent(fd, LOBBY_ROOM_ID, garbage));
    var u := if room != LOBBY_ROOM_ID then Route(t, DepartEvent(fd, LOBBY_ROOM_ID, garbage)) else t;
    SameInLine(u, u.(users := u.users - {fd}));
  }

  lemma SameInLine(s: State, t: State)
    requires InLine(s) && t.queues == s.queues && t.running == s.running && t.log == s.log
    ensures InLine(t)
  {
    hide Rising, QueueTags, SaidTags, RunTag;
    forall w ensures Rising(Line(t, w), t.log.issued) { assert Line(t, w) == Line(s, w); }
  }

  lemma QueryInLine(s: State, o: DbOutcome)
    requires Account(s) && InLine(s) && s.jobs != [] && OutcomeOk(s, s.jobs[0], o)
    ensures InLine(FinishJob(s, o))
  {
    hide Own, Linear, Tracked, InLine, FinishJob, OutcomeOk, Grow, QueryFate;
    QueryGrows(s, o);
    QueryRuns(s, o);
    QueryTally(s, o);
    QuerySays(s, o);
    QueryBinds(s, o);
    QueryHops(s, o);
    QuietInLine(s, FinishJob(s, o), QueryCome(s, o));
  }

  lemma QueryHops(s: State, o: DbOutcome)
    requires s.jobs != []
    ensures var come := QueryCome(s, o); come.Some? && come.value.place.Queued? ==> come.value.event.hops > 0
  {
    hide LoadResult, Resolved, Report;
  }

  lemma StepInLine(s: State, step: Step)
    requires Account(s) && InLine(s) && Enabled(s, step)
    ensures InLine(Apply(s, step))
  {
    hide Account, InLine, AcceptClient, Dispatch, CloseSession, Take, Act, FinishJob, Grow, Unused, OutcomeOk, FoundOk;
    match step
    case Accept(fd, id, garbage) =>
      AcceptGrows(s, fd, id, garbage);
      AcceptKeeps(s, fd, id, garbage);
      QuietInLine(s, Apply(s, step), Some(Flight(Queued(LOBBY_WORKER_ID), ArrivalEvent(fd, garbage))));
    case Ask(fd, cmd, room, body) =>
      AskGrows(s, fd, cmd, room, body);
      AskTally(s, fd, cmd, room, body);
      AskRuns(s, step);
      QuietInLine(s, Apply(s, step), Some(AskCome(s, fd, cmd, room, body)));
    case Tick(fd, garbage) =>
      if fd in s.users { RouteInLine(s, FlushEvent(fd, s.users[fd].room, garbage)); }
    case Close(fd, garbage) => CloseInLine(s, fd, garbage);
    case Start(w, k) => StartInLine(s, w, k);
    case Work(w, found) => WorkInLine(s, w, found);
    case Look(w, fd) => SameInLine(s, LookAt(s, w, fd));
    case Give(w) => SameInLine(s, GiveTo(s, w));
    case Query(o) => QueryInLine(s, o);
  }

  lemma AcceptKeeps(s: State, fd: Fd, id: int64, garbage: Command)
    ensures var t := AcceptClient(s, fd, id, garbage); t.running == s.running && t.log == s.log
  {}

  lemma {:induction false} RunInLine(states: seq<State>, steps: seq<Step>, n: nat, i: nat)
    requires Run(states, steps, n) && i < |states|
    ensures InLine(states[i]) && Account(states[i])
  {
    hide Account, Enabled, Apply, InLine;
    RunAccounts(states, steps, n, i);
    if i == 0 {
      InitInLine(n);
    } else {
      RunInLine(states, steps, n, i - 1);
      assert Next(states[i - 1], steps[i - 1], states[i]);
      StepInLine(states[i - 1], steps[i - 1]);
    }
  }

  lemma InitInLine(n: nat)
    ensures InLine(Init(n))
  {
    forall w ensures Line(Init(n), w) == [] {}
  }

  // ---- the order of dispatch is the order of everything ----

  lemma {:induction false} SaidIn(handled: seq<Handled>, home: map<RoomId, WorkerId>, w: WorkerId, x: nat)
    requires x < |handled| && At(home, handled[x].room, w)
    ensures TagOf(handled[x].origin) in SaidTags(handled, home, w)
  {
    if x < |handled| - 1 { SaidIn(handled[..|handled| - 1], home, w, x); }
  }

  lemma {:induction false} SaidRises(handled: seq<Handled>, home: map<RoomId, WorkerId>, w: WorkerId, x: nat, y: nat)
    requires x < y < |handled| && At(home, handled[x].room, w) && At(home, handled[y].room, w)
    requires Increasing(SaidTags(handled, home, w))
    ensures TagOf(handled[x].origin) < TagOf(handled[y].origin)
  {
    var last := |handled| - 1;
    var before := SaidTags(handled[..last], home, w);
    assert Increasing(before) by {
      assert forall i | 0 <= i < |before| :: SaidTags(handled, home, w)[i] == before[i];
    }
    if y == last {
      SaidIn(handled[..last], home, w, x);
      var i :| 0 <= i < |before| && before[i] == TagOf(handled[x].origin);
      var whole := SaidTags(handled, home, w);
      assert whole == before + [TagOf(handled[y].origin)];
      assert whole[i] == before[i] && whole[|before|] == TagOf(handled[y].origin);
    } else {
      SaidRises(handled[..last], home, w, x, y);
    }
  }

  lemma InLineRises(s: State, x: nat, y: nat)
    requires InLine(s) && x < y < |s.log.handled| && s.log.handled[x].room == s.log.handled[y].room
    ensures var h := s.log.handled;
            h[x].origin.Request? && h[y].origin.Request? && h[x].origin.tag < h[y].origin.tag < s.log.issued
  {
    hide RunTag, QueueTags, SaidTags, Queue;
    var home, w := s.log.home, s.log.home[s.log.handled[x].room];
    var said := SaidTags(s.log.handled, home, w);
    assert Rising(Line(s, w), s.log.issued);
    assert forall k | 0 <= k < |said| :: said[k] == Line(s, w)[k];
    SaidRises(s.log.handled, home, w, x, y);
    SaidIn(s.log.handled, home, w, y);
    assert TagOf(s.log.handled[y].origin) in said;
  }

  /** In any run: of two messages of a room the one dispatched first is broadcast first. */
  lemma HandledAsDispatched(states: seq<State>, steps: seq<Step>, n: nat, i: nat, x: nat, y: nat)
    requires Run(states, steps, n) && i < |states| && x < y < |states[i].log.handled|
    requires states[i].log.handled[x].room == states[i].log.handled[y].room
    ensures var h := states[i].log.handled;
            h[x].origin.Request? && h[y].origin.Request? && h[x].origin.tag < h[y].origin.tag < states[i].log.issued
  {
    hide Run, Account, InLine;
    RunInLine(states, steps, n, i);
    InLineRises(states[i], x, y);
  }

  lemma {:induction false} RunIssues(states: seq<State>, steps: seq<Step>, n: nat, i: nat, j: nat)
    requires Run(states, steps, n) && i <= j < |states|
    ensures states[i].log.issued <= states[j].log.issued
  {
    hide Own, Enabled, Apply, Init;
    if i < j {
      RunIssues(states, steps, n, i, j - 1);
      RunOwns(states, steps, n, j - 1);
      assert Next(states[j - 1], steps[j - 1], states[j]);
      StepIssues(states[j - 1], steps[j - 1]);
    }
  }

  lemma AskIssues(states: seq<State>, steps: seq<Step>, n: nat, p: nat, q: nat)
    requires Run(states, steps, n) && p < q < |steps| && steps[p].Ask?
    ensures states[p].log.issued < states[q].log.issued
  {
    hide Init, Dispatch;
    assert Next(states[p], steps[p], states[p + 1]);
    AskTally(states[p], steps[p].fd, steps[p].cmd, steps[p].room, steps[p].body);
    RunIssues(states, steps, n, p + 1, q);
  }

  lemma {:induction false} SaveIn(posted: seq<Job>, r: RoomId, j: nat)
    requires j < |posted| && posted[j].SaveJob? && posted[j].room == r
    ensures posted[j].serial in SaveOrder(posted, r)
  {
    if j < |posted| - 1 { SaveIn(posted[..|posted| - 1], r, j); }
  }

  lemma {:induction false} SavesRise(posted: seq<Job>, r: RoomId, j: nat, k: nat)
    requires j < k < |posted| && posted[j].SaveJob? && posted[k].SaveJob? && posted[j].room == posted[k].room == r
    requires Increasing(SaveOrder(posted, r))
    ensures posted[j].serial < posted[k].serial
  {
    var last := |posted| - 1;
    var before := SaveOrder(posted[..last], r);
    assert Increasing(before) by {
      assert forall i | 0 <= i < |before| :: SaveOrder(posted, r)[i] == before[i];
    }
    if k == last {
      SaveIn(posted[..last], r, j);
      var i :| 0 <= i < |before| && before[i] == posted[j].serial;
      var whole := SaveOrder(posted, r);
      assert whole == before + [posted[k].serial];
      assert whole[i] == before[i] && whole[|before|] == posted[k].serial;
    } else {
      SavesRise(posted[..last], r, j, k);
    }
  }

  /** Message `x` was dispatched as a request at step `p`. */
  ghost predicate DispatchedAt(states: seq<State>, steps: seq<Step>, p: nat, h: Handled) {
    p < |steps| && p < |states| && steps[p].Ask? && h.origin == Request(states[p].log.issued)
  }

  /**
    In any run: of two messages of a room, by whomever, the one the main thread dispatched first is broadcast first,
    every session that receives both receives it first, and it is handed to the database first.
   */
  lemma OrderOfDispatch(states: seq<State>, steps: seq<Step>, n: nat, p: nat, q: nat, i: nat, x: nat, y: nat)
    requires Run(states, steps, n) && p < q && i < |states|
    requires x < |states[i].log.handled| && y < |states[i].log.handled|
    requires states[i].log.handled[x].room == states[i].log.handled[y].room
    requires DispatchedAt(states, steps, p, states[i].log.handled[x])
    requires DispatchedAt(states, steps, q, states[i].log.handled[y])
    ensures x < y
    ensures forall fd, a, b | 0 <= a < |Packed(states[i], fd)| && 0 <= b < |Packed(states[i], fd)|
                              && IsMessage(Packed(states[i], fd)[a], x) && IsMessage(Packed(states[i], fd)[b], y) ::
                                 a < b
    ensures forall j, k | 0 <= j < |states[i].log.posted| && 0 <= k < |states[i].log.posted|
                          && IsSave(states[i].log.posted[j], states[i].log.handled[x].room, x)
                          && IsSave(states[i].log.posted[k], states[i].log.handled[x].room, y) :: j < k
  {
    hide Run, Account, Marks, Live, Stored, SavedInOrder, CastOk, SaveOrder, SaidTags;
    AskIssues(states, steps, n, p, q);
    if y < x { HandledAsDispatched(states, steps, n, i, y, x); }
    RunDelivers(states, steps, n, i);
    forall fd, a, b | 0 <= a < |Packed(states[i], fd)| && 0 <= b < |Packed(states[i], fd)|
                      && IsMessage(Packed(states[i], fd)[a], x) && IsMessage(Packed(states[i], fd)[b], y)
      ensures a < b
    {
      assert StreamOk(states[i].log.handled, fd, Packed(states[i], fd));
    }
    var r, posted := states[i].log.handled[x].room, states[i].log.posted;
    SavedAsHandled(states, steps, n, i, r);
    forall j, k | 0 <= j < |posted| && 0 <= k < |posted| && IsSave(posted[j], r, x) && IsSave(posted[k], r, y)
      ensures j < k
    {
      if k < j { SavesRise(posted, r, k, j); }
    }
  }

  predicate IsMessage(p: Packet, x: nat) {
    p.Broadcast? && p.serial == x
  }

  predicate IsSave(j: Job, r: RoomId, x: nat) {
    j.SaveJob? && j.room == r && j.serial == x
  }
}
