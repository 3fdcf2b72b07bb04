/**
  Left alone, the server comes to rest: every internal step uses up work, work left means a step can be taken,
  and at rest every request ever dispatched has been answered or lost.
 */
module Quiescence {
  import opened Bytes
  import opened RoomEvents
  import opened ServerState
  import opened History
  import opened Flights
  import opened Itinerary
  import opened Ownership
  import opened Requests
  import opened Tokens
  import opened Talk
  import opened Broadcasts
  import opened Casting
  import opened Delivery
  import opened Rooms

  /** More steps than one action and the loop over the members of a room can take. */
  const STEPS: nat := 2004

  function Left(e: Event): nat {
    if e.cursor <= |e.actions| then |e.actions| - e.cursor else 0
  }

  function QueueWork(q: seq<Event>): nat {
    if q == [] then 0 else STEPS * Left(q[0]) + 2 + QueueWork(q[1..])
  }

  function HeldWork(running: map<WorkerId, Event>, w: WorkerId): nat {
    if w in running then STEPS * Left(running[w]) + 1 else 0
  }

  function CastWork(casts: map<WorkerId, Cast>, w: WorkerId): nat {
    if w in casts then 2 * |casts[w].left| + (if casts[w].chosen.Some? then 1 else 0) else 0
  }

  function LoadWork(s: State, w: WorkerId): nat {
    QueueWork(Queue(s, w)) + HeldWork(s.running, w) + CastWork(s.casts, w)
  }

  function WorkersWork(s: State, n: nat): nat {
    if n == 0 then 0 else WorkersWork(s, n - 1) + LoadWork(s, n)
  }

  function JobWork(j: Job): nat {
    match j
    case SaveJob(_, _, _, _) => 1
    case HandJob(e, _) => STEPS * Left(e) + 3
    case CreateJob(e) => STEPS * Left(e) + 4
    case LoadJob(e, _, _) => STEPS * Left(e) + 3
  }

  function JobsWork(jobs: seq<Job>): nat {
    if jobs == [] then 0 else JobWork(jobs[0]) + JobsWork(jobs[1..])
  }

  /** An upper bound on the internal steps left. */
  function WorkLeft(s: State): nat {
    WorkersWork(s, s.n) + JobsWork(s.jobs)
  }

  lemma {:induction false} QueueWorkAppend(q: seq<Event>, e: Event)
    ensures QueueWork(q + [e]) == QueueWork(q) + STEPS * Left(e) + 2
  {
    if q == [] {
      assert q + [e] == [e] && [e][1..] == [];
    } else {
      assert (q + [e])[1..] == q[1..] + [e];
      QueueWorkAppend(q[1..], e);
    }
  }

  lemma {:induction false} QueueWorkRemove(q: seq<Event>, k: nat)
    requires k < |q|
    ensures QueueWork(q) == QueueWork(Without(q, k)) + STEPS * Left(q[k]) + 2
  {
    if k == 0 {
      assert Without(q, 0) == q[1..];
    } else {
      assert Without(q, k)[1..] == Without(q[1..], k - 1) && Without(q, k)[0] == q[0];
      QueueWorkRemove(q[1..], k - 1);
    }
  }

  lemma {:induction false} JobsWorkAppend(jobs: seq<Job>, j: Job)
    ensures JobsWork(jobs + [j]) == JobsWork(jobs) + JobWork(j)
  {
    if jobs == [] {
      assert jobs + [j] == [j] && [j][1..] == [];
    } else {
      assert (jobs + [j])[1..] == jobs[1..] + [j];
      JobsWorkAppend(jobs[1..], j);
    }
  }

  lemma {:induction false} WorkersChange(s: State, t: State, w: WorkerId, n: nat)
    requires forall v | 1 <= v <= n && v != w :: LoadWork(s, v) == LoadWork(t, v)
    ensures n < w ==> WorkersWork(t, n) == WorkersWork(s, n)
    ensures 1 <= w <= n ==> WorkersWork(t, n) - LoadWork(t, w) == WorkersWork(s, n) - LoadWork(s, w)
  {
    if n > 0 {
      WorkersChange(s, t, w, n - 1);
      if n != w { assert LoadWork(s, n) == LoadWork(t, n); }
    }
  }

  lemma SameWork(s: State, t: State)
    requires SameTraffic(s, t) && t.casts == s.casts
    ensures WorkLeft(t) == WorkLeft(s)
  {
    WorkersChange(s, t, 1, s.n);
  }

  lemma PostWork(s: State, w: WorkerId, e: Event)
    requires 1 <= w <= s.n
    ensures WorkLeft(Post(s, w, e)) == WorkLeft(s) + STEPS * Left(e) + 2
  {
    QueueWorkAppend(Queue(s, w), e);
    WorkersChange(s, Post(s, w, e), w, s.n);
  }

  lemma ReleaseWork(s: State, w: WorkerId)
    requires 1 <= w <= s.n && w in s.running
    ensures WorkLeft(Release(s, w)) == WorkLeft(s) - STEPS * Left(s.running[w]) - 1
  {
    WorkersChange(s, Release(s, w), w, s.n);
  }

  lemma HoldWork(s: State, w: WorkerId, e: Event)
    requires 1 <= w <= s.n && w in s.running
    ensures WorkLeft(Hold(s, w, e)) == WorkLeft(s) - STEPS * Left(s.running[w]) + STEPS * Left(e)
  {
    WorkersChange(s, Hold(s, w, e), w, s.n);
  }

  lemma TakeWork(s: State, w: WorkerId, k: nat)
    requires 1 <= w <= s.n && w !in s.running && k < |Queue(s, w)|
    ensures WorkLeft(Take(s, w, k)) == WorkLeft(s) - 1
  {
    QueueWorkRemove(Queue(s, w), k);
    WorkersChange(s, Take(s, w, k), w, s.n);
  }

  lemma SubmitWork(s: State, j: Job)
    ensures WorkLeft(Submit(s, j)) == WorkLeft(s) + JobWork(j)
  {
    JobsWorkAppend(s.jobs, j);
    WorkersChange(s, Submit(s, j), 1, s.n);
  }

  lemma HandWork(s: State, j: Job)
    ensures WorkLeft(Hand(s, j)) == WorkLeft(s) + JobWork(j)
  {
    assert Hand(s, j).jobs[1..] == s.jobs;
    WorkersChange(s, Hand(s, j), 1, s.n);
  }

  lemma PopWork(s: State)
    requires s.jobs != []
    ensures WorkLeft(s.(jobs := s.jobs[1..])) == WorkLeft(s) - JobWork(s.jobs[0])
  {
    WorkersChange(s, s.(jobs := s.jobs[1..]), 1, s.n);
  }

  lemma RouteWork(s: State, e: Event)
    requires Staffed(s)
    ensures WorkLeft(Route(s, e)) <= WorkLeft(s) + STEPS * Left(e) + 2
  {
    hide WorkLeft;
    var w := FindWorker(s, e.target);
    if w == 0 { SameWork(s, Discard(s, e)); } else { PostWork(s, w, e.(hops := e.hops + 1)); }
  }

  lemma RespondWork(s: State, e: Event)
    ensures WorkLeft(Respond(s, e)) == WorkLeft(s) && WorkLeft(Discard(s, e)) == WorkLeft(s)
  {
    SameWork(s, Respond(s, e));
    SameWork(s, Discard(s, e));
  }

  lemma LeaveWork(s: State, w: WorkerId, fd: Fd, room: RoomId)
    ensures WorkLeft(LeaveRoomAt(s, w, fd, room)) == WorkLeft(s)
  {
    if LeaveRoomCode(s, w, fd, room) == Success { SameWork(s, LeaveRoomAt(s, w, fd, room)); }
  }

  lemma DisconnectWork(s: State, w: WorkerId, fd: Fd, room: RoomId, found: RoomId)
    ensures WorkLeft(DisconnectAt(s, w, fd, room, found)) == WorkLeft(s)
  {
    hide WorkLeft, LeaveRoomAt;
    LeaveWork(s, w, fd, room);
    LeaveWork(s, w, fd, found);
    if LeaveRoomCode(s, w, fd, room) == Success {} else {}
  }

  lemma EffectFields(s: State, w: WorkerId, e: Event, a: Action)
    requires Local(a.command) && w !in s.casts
    ensures var t := Effect(s, w, e, a);
            && t.n == s.n && t.queues == s.queues && t.running == s.running && t.jobs == s.jobs
            && (forall v | v != w :: CastWork(t.casts, v) == CastWork(s.casts, v))
            && (CastWork(t.casts, w) == 0
                || (Key(w, a.room) in s.rooms && CastWork(t.casts, w) <= 2 * |s.rooms[Key(w, a.room)].members|))
  {
    hide Count, CreateRoomAt, JoinRoomAt, LeaveRoomAt, BroadcastAt, CastWork;
    EffectFlights(s, w, e, a);
    CreateKeeps(s, w, a.room);
    JoinKeeps(s, w, e.fd, a.room);
    LeaveKeeps(s, w, e.fd, a.room);
    BroadcastWork(s, w, e, a.room);
  }

  lemma BroadcastWork(s: State, w: WorkerId, e: Event, room: RoomId)
    requires w !in s.casts
    ensures CastWork(s.casts, w) == 0
    ensures var t := BroadcastAt(s, w, e.fd, room, e.request, e.origin);
            && (forall v | v != w :: CastWork(t.casts, v) == CastWork(s.casts, v))
            && (CastWork(t.casts, w) == 0
                || (Key(w, room) in s.rooms && CastWork(t.casts, w) <= 2 * |s.rooms[Key(w, room)].members|))
  {
    hide UserIdOf;
    if BroadcastCode(s, w, room) == Success {}
  }

  /** An action starts at most one loop, over at most as many members as a room can hold. */
  lemma EffectWork(s: State, w: WorkerId, e: Event, a: Action)
    requires Local(a.command) && 1 <= w <= s.n && w !in s.casts && Roomy(s)
    ensures WorkLeft(Effect(s, w, e, a)) <= WorkLeft(s) + 2 * LOBBY_CAPACITY
  {
    hide Effect;
    EffectFields(s, w, e, a);
    WorkersChange(s, Effect(s, w, e, a), w, s.n);
  }

  lemma LocalWork(s: State, w: WorkerId, e: Event, a: Action, found: RoomId)
    requires Staffed(s) && w in s.running && w !in s.casts && Roomy(s) && Local(a.command)
             && Left(e) < Left(s.running[w])
    ensures WorkLeft(Execute(s, w, e, a, found)) < WorkLeft(s)
  {
    hide WorkLeft, Effect, Respond, Roomy, CastWork, CodeAt;
    EffectFields(s, w, e, a);
    EffectWork(s, w, e, a);
    var t, c := Effect(s, w, e, a), CodeAt(s, w, e, a);
    if c == Success {
      HoldWork(t, w, Report(Marked(s, e, a), c));
    } else {
      var u := CleanUp(t, Marked(s, e, a));
      SameWork(t, u);
      ReleaseWork(u, w);
      RespondWork(Release(u, w), Report(Marked(s, e, a), c));
    }
  }

  lemma SaveWork(s: State, w: WorkerId, e: Event, a: Action, found: RoomId)
    requires Staffed(s) && w in s.running && a.command.SaveMessage? && Left(e) < Left(s.running[w])
    ensures WorkLeft(Execute(s, w, e, a, found)) < WorkLeft(s)
  {
    hide WorkLeft, Respond;
    var j := SaveJob(a.room, UserIdOf(s, e.fd), e.request, e.mark);
    SubmitWork(s, j);
    var t := Submit(s, j);
    HoldWork(t, w, e);
    ReleaseWork(t, w);
    RespondWork(Release(t, w), e);
    if e.result == Success {} else {}
  }

  lemma ExecuteWork(s: State, w: WorkerId, e: Event, a: Action, found: RoomId)
    requires Staffed(s) && w in s.running && w !in s.casts && Roomy(s) && Left(e) < Left(s.running[w])
    ensures WorkLeft(Execute(s, w, e, a, found)) < WorkLeft(s)
  {
    hide WorkLeft, Submit, Respond, Route, DisconnectAt, Settle, Effect, Hold, Roomy;
    var u := Release(s, w);
    ReleaseWork(s, w);
    match a.command
    case RequestDbCreateRoom => SubmitWork(u, CreateJob(e));
    case RequestDbLoadMessage => SubmitWork(u, LoadJob(e, a.room, CursorOf(e.request)));
    case RequestJoinRoom => RouteWork(u, e.(target := a.room));
    case RequestLeaveRoom => RouteWork(u, e.(target := a.room));
    case SaveMessage => SaveWork(s, w, e, a, found);
    case SendResponse => RespondWork(u, e);
    case Flush =>
    case DisconnectSession => DisconnectWork(u, w, e.fd, e.target, found);
    case _ => LocalWork(s, w, e, a, found);
  }

  lemma ActWork(s: State, w: WorkerId, found: RoomId)
    requires Staffed(s) && w in s.running && w !in s.casts && Roomy(s)
    ensures WorkLeft(Act(s, w, found)) < WorkLeft(s)
  {
    hide WorkLeft, Execute, Respond, Discard, Roomy;
    var e, u := s.running[w], Release(s, w);
    ReleaseWork(s, w);
    RespondWork(u, e);
    if e.cursor >= |e.actions| {
    } else if Failed(e.result) {
    } else {
      ExecuteWork(s, w, e.(cursor := e.cursor + 1), e.actions[e.cursor], found);
    }
  }

  lemma BindWork(s: State, id: RoomId, w: WorkerId)
    ensures WorkLeft(Bind(s, id, w)) == WorkLeft(s) && Bind(s, id, w).n == s.n
  {
    SameWork(s, Bind(s, id, w));
  }

  /** The callbacks leave the actions to do as they are. */
  lemma LeftSame(s: State, e: Event, o: DbOutcome, room: RoomId, before: int64)
    ensures o.Created? ==> Left(Resolved(e, o.id)) == Left(e)
    ensures Left(Report(e, DbError).(hops := e.hops + 1)) == Left(e) && Left(e.(hops := e.hops + 1)) == Left(e)
    ensures Left(LoadResult(s, e, room, before, o)) == Left(e)
  {}

  lemma QueryWork(s: State, o: DbOutcome)
    requires Own(s) && s.jobs != [] && OutcomeOk(s, s.jobs[0], o)
    ensures WorkLeft(FinishJob(s, o)) < WorkLeft(s)
  {
    hide Own, OnCourse, WorkLeft, Post, Hand, Route, Resolved, Report, LoadResult, Bind, Left;
    OwnBound(s);
    var t := s.(jobs := s.jobs[1..]);
    PopWork(s);
    match s.jobs[0]
    case SaveJob(_, _, _, _) => SameWork(t, FinishJob(s, o));
    case CreateJob(e) =>
      LeftSame(s, e, o, 0, 0);
      if o.Created? {
        BindWork(t, o.id, o.worker);
        HandWork(Bind(t, o.id, o.worker), HandJob(Resolved(e, o.id), o.worker));
      } else {
        PostWork(t, LOBBY_WORKER_ID, Report(e, DbError).(hops := e.hops + 1));
      }
    case HandJob(e, w) =>
      HeadIsIn(s);
      OwnFlight(s, Flight(Crossing(w), e));
      HandedOnCourse(s, w, e);
      LeftSame(s, e, o, 0, 0);
      PostWork(t, w, e.(hops := e.hops + 1));
    case LoadJob(e, room, before) =>
      LeftSame(s, e, o, room, before);
      RouteWork(t, LoadResult(s, e, room, before, o));
  }

  /** A step inside the loop of worker `w` changes the work left by what it changes of that loop. */
  lemma CastsChange(s: State, t: State, w: WorkerId)
    requires t == s.(casts := t.casts, packed := t.packed) && 1 <= w <= s.n
    requires forall v | v != w :: CastWork(t.casts, v) == CastWork(s.casts, v)
    ensures WorkLeft(t) - CastWork(t.casts, w) == WorkLeft(s) - CastWork(s.casts, w)
  {
    hide CastWork;
    WorkersChange(s, t, w, s.n);
  }

  lemma LookWork(s: State, w: WorkerId, fd: Fd)
    requires Staffed(s) && Streams(s) && w in s.casts && s.casts[w].chosen.Nothing? && fd in s.casts[w].left
    ensures WorkLeft(LookAt(s, w, fd)) < WorkLeft(s)
  {
    assert CastOk(s, w);
    hide WorkLeft, Streams, CastOk, StreamOk;
    CastsChange(s, LookAt(s, w, fd), w);
  }

  lemma GiveWork(s: State, w: WorkerId)
    requires Staffed(s) && Streams(s) && w in s.casts && s.casts[w].chosen.Some?
    ensures WorkLeft(GiveTo(s, w)) < WorkLeft(s)
  {
    assert CastOk(s, w);
    hide WorkLeft, Streams, CastOk, StreamOk, PackedWith;
    CastsChange(s, GiveTo(s, w), w);
  }

  /** Every internal step uses up work. */
  lemma StepUsesWork(s: State, step: Step)
    requires Own(s) && Streams(s) && Roomy(s) && Enabled(s, step) && Internal(step)
    ensures WorkLeft(Apply(s, step)) < WorkLeft(s)
  {
    OwnStaffed(s);
    hide Own, WorkLeft, Streams, Roomy, Act, LookAt, GiveTo, FinishJob, Take;
    match step
    case Start(w, k) => TakeWork(s, w, k);
    case Work(w, found) => ActWork(s, w, found);
    case Look(w, fd) => LookWork(s, w, fd);
    case Give(w) => GiveWork(s, w);
    case Query(o) => QueryWork(s, o);
  }

  // ---- work left means a step can be taken ----

  lemma {:induction false} BusyWorker(s: State, n: nat) returns (w: WorkerId)
    requires WorkersWork(s, n) > 0
    ensures 1 <= w <= n && (w in s.running || w in s.casts || Queue(s, w) != [])
  {
    if LoadWork(s, n) > 0 { w := n; } else { w := BusyWorker(s, n - 1); }
  }

  lemma SomeFound(s: State, w: WorkerId, fd: Fd) returns (found: RoomId)
    ensures FoundOk(s, w, fd, found)
  {
    if k :| k in s.rooms && k.worker == w && fd in s.rooms[k].members {
      assert Key(w, k.room) == k;
      found := k.room;
    } else {
      found := 0;
    }
  }

  /** While work is left some thread can take a step. */
  lemma Progress(s: State) returns (step: Step)
    requires WorkLeft(s) > 0 && Streams(s)
    ensures Internal(step) && Enabled(s, step)
  {
    if s.jobs != [] {
      step := match s.jobs[0]
              case SaveJob(_, _, _, _) => Query(NotSaved)
              case CreateJob(_) => Query(NotCreated)
              case HandJob(_, _) => Query(Handed)
              case LoadJob(_, _, _) => Query(Loaded);
    } else {
      var w := BusyWorker(s, s.n);
      if w in s.casts {
        assert CastOk(s, w);
        var left := s.casts[w].left;
        assert (forall x :: x !in left) ==> left == {};
        if s.casts[w].chosen.Some? {
          step := Give(w);
        } else {
          var fd :| fd in left;
          step := Look(w, fd);
        }
      } else if w in s.running {
        var found := SomeFound(s, w, s.running[w].fd);
        step := Work(w, found);
      } else {
        step := Start(w, 0);
      }
    }
  }

  // ---- at rest nothing is in flight ----

  lemma {:induction false} IdleWorkers(s: State, n: nat, f: Flight)
    requires WorkersWork(s, n) == 0
    ensures WorkerCount(s, n, f) == 0
  {
    if n > 0 { IdleWorkers(s, n - 1, f); }
  }

  lemma AtRest(s: State)
    requires WorkLeft(s) == 0
    ensures forall f :: !In(s, f)
  {
    forall f ensures !In(s, f) { IdleWorkers(s, s.n, f); }
  }

  /** At rest, in any run: every request has exactly one end. */
  lemma EveryRequestEnds(states: seq<State>, steps: seq<Step>, n: nat, i: nat, tag: nat)
    requires Run(states, steps, n) && i < |states| && WorkLeft(states[i]) == 0 && tag < states[i].log.issued
    ensures IsAnswered(states[i], tag) != IsLost(states[i], tag)
  {
    hide WorkLeft, Own, Tracked, Count;
    RunAccounts(states, steps, n, i);
    AtRest(states[i]);
    hide OneFlight;
    assert !IsInFlight(states[i], tag);
  }

  /** In any run, at any moment: a request is at exactly one place, and its answer or loss is final and truthful. */
  lemma RequestsAreLinear(states: seq<State>, steps: seq<Step>, n: nat, i: nat, tag: nat)
    requires Run(states, steps, n) && i < |states| && tag < states[i].log.issued
    ensures var s := states[i];
            && (IsInFlight(s, tag) || IsAnswered(s, tag) || IsLost(s, tag))
            && !(IsInFlight(s, tag) && (IsAnswered(s, tag) || IsLost(s, tag)))
            && !(IsAnswered(s, tag) && IsLost(s, tag))
            && (forall f, g | In(s, f) && In(s, g) && f.event.origin == Request(tag) == g.event.origin ::
                  f == g && Count(s, f) == 1)
            && (forall i, j | 0 <= i < j < |s.log.answers| :: s.log.answers[i].origin != s.log.answers[j].origin)
  {
    hide Own, Tracked, Count;
    RunAccounts(states, steps, n, i);
  }

  /**
    Every answer ever given is truthful, and a request is lost only on the way to an unbound room or for an unknown
    command.
   */
  lemma AnswersAreTruthful(states: seq<State>, steps: seq<Step>, n: nat, i: nat)
    requires Run(states, steps, n) && i < |states|
    ensures forall k | 0 <= k < |states[i].log.answers| :: AnswerOk(states[i].log.answers[k])
    ensures forall k | 0 <= k < |states[i].log.dropped| :: LostOk(states[i].log.dropped[k])
  {
    hide Own, Linear, AnswerOk, LostOk, TrailOk;
    RunAccounts(states, steps, n, i);
  }

  lemma RunStreams(states: seq<State>, steps: seq<Step>, n: nat, i: nat)
    requires Run(states, steps, n) && i < |states|
    ensures Streams(states[i])
  {
    hide Conversation, Streams, Live, Stored;
    RunDelivers(states, steps, n, i);
  }

  /** A stretch of internal steps is no longer than the work it started with. */
  lemma {:induction false} BoundedStretch(states: seq<State>, steps: seq<Step>, n: nat, i: nat, j: nat)
    requires Run(states, steps, n) && i <= j < |states|
    requires forall k | i <= k < j :: Internal(steps[k])
    ensures j - i <= WorkLeft(states[i]) - WorkLeft(states[j])
  {
    hide WorkLeft, Own, Streams, Roomy, Enabled, Apply, Init;
    if i < j {
      BoundedStretch(states, steps, n, i, j - 1);
      assert Next(states[j - 1], steps[j - 1], states[j]);
      RunOwns(states, steps, n, j - 1);
      RunStreams(states, steps, n, j - 1);
      CapacityHolds(states, steps, n, j - 1);
      StepUsesWork(states[j - 1], steps[j - 1]);
    }
  }

  // ---- a request is lost exactly where its room is unbound ----

  predicate UnboundOrUnknown(s: State, e: Event) {
    e.plan.PlanIgnore? || e.target !in s.bindings
  }

  lemma WorkLoses(s: State, w: WorkerId)
    requires Moving(s, w) && FateOf(s, w).Lost? && s.running[w].origin.Request?
    ensures UnboundOrUnknown(s, FateOf(s, w).event)
  {
    hide CodeAt;
    FateFits(s, w);
    match s.running[w].plan
    case _ =>
  }

  lemma QueryLoses(s: State, o: DbOutcome)
    requires Staffed(s) && s.jobs != [] && QueryFate(s, o).Lost?
    ensures UnboundOrUnknown(s, QueryFate(s, o).event)
  {
    hide LoadResult;
  }

  lemma RouteKeepsRequests(s: State, e: Event)
    requires !e.origin.Request?
    ensures Route(s, e).log.dropped == s.log.dropped && Route(s, e).log.issued == s.log.issued
  {
    hide Route;
    RouteTally(s, e);
  }

  lemma CloseKeepsRequests(s: State, fd: Fd, garbage: Command)
    requires fd in s.users
    ensures CloseSession(s, fd, garbage).log.dropped == s.log.dropped
    ensures CloseSession(s, fd, garbage).log.issued == s.log.issued
  {
    hide Route;
    var room := s.users[fd].room;
    RouteKeepsRequests(s, DepartEvent(fd, room, garbage));
    RouteKeepsRequests(Route(s, DepartEvent(fd, room, garbage)), DepartEvent(fd, LOBBY_ROOM_ID, garbage));
    if room != LOBBY_ROOM_ID {} else {}
  }

  /**
    In any run, the step that loses a request finds the room it is routed to unbound, or has no case for its command.
   */
  lemma LostOnlyUnbound(states: seq<State>, steps: seq<Step>, n: nat, i: nat)
    requires Run(states, steps, n) && i < |steps|
    ensures var before, after := states[i].log.dropped, states[i + 1].log.dropped;
            after == before || (|after| == |before| + 1 && after[..|before|] == before
                                && UnboundOrUnknown(states[i], after[|before|]))
  {
    hide Own, Act, FinishJob, Route, CloseSession, FateOf, QueryFate, QueryGone, UnboundOrUnknown, Bound, OnCourse,
         Init, OutcomeOk, FoundOk, Unused;
    RunOwns(states, steps, n, i);
    assert Next(states[i], steps[i], states[i + 1]);
    var s, step := states[i], steps[i];
    match step
    case Accept(_, _, _) =>
    case Ask(_, _, _, _) =>
    case Tick(fd, garbage) =>
      if fd in s.users { RouteKeepsRequests(s, FlushEvent(fd, s.users[fd].room, garbage)); }
    case Close(fd, garbage) => CloseKeepsRequests(s, fd, garbage);
    case Start(_, _) =>
    case Look(_, _) =>
    case Give(_) =>
    case Work(w, found) =>
      OwnRunning(s, w);
      WorkTally(s, w, found);
      FateFits(s, w);
      if FateOf(s, w).Lost? && s.running[w].origin.Request? { WorkLoses(s, w); }
    case Query(o) =>
      OwnStaffed(s);
      QueryTally(s, o);
      if QueryFate(s, o).Lost? { QueryLoses(s, o); }
  }
}
