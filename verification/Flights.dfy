/**
  The events in flight: how many copies of an event sit at each place, over all queues, workers and DB jobs,
  and how each way of moving an event changes the count. The invariants of the other modules are stated over it.
 */
module Flights {
  import opened RoomEvents
  import opened Bytes
  import opened ServerState
  import History

  /**
    Where an event is: in a worker's queue, executing, inside a DB job with the job's parameters, or on its way from
    the DB thread to a worker.
   */
  datatype Place =
    | Queued(worker: WorkerId) | Running(worker: WorkerId)
    | AwaitsRoom | AwaitsHistory(room: RoomId, before: int64) | Crossing(worker: WorkerId)
  datatype Flight = Flight(place: Place, event: Event)

  function One(f: Flight, g: Flight): nat {
    if f == g then 1 else 0
  }

  function QueueCount(w: WorkerId, q: seq<Event>, f: Flight): nat {
    if q == [] then 0 else One(f, Flight(Queued(w), q[0])) + QueueCount(w, q[1..], f)
  }

  function HeldCount(running: map<WorkerId, Event>, w: WorkerId, f: Flight): nat {
    if w in running then One(f, Flight(Running(w), running[w])) else 0
  }

  /** What worker `w` has: its queue and the event it is executing. */
  function Load(s: State, w: WorkerId, f: Flight): nat {
    QueueCount(w, Queue(s, w), f) + HeldCount(s.running, w, f)
  }

  function WorkerCount(s: State, n: nat, f: Flight): nat {
    if n == 0 then 0 else WorkerCount(s, n - 1, f) + Load(s, n, f)
  }

  function JobPlace(j: Job): Place
    requires !j.SaveJob?
  {
    match j
    case CreateJob(_) => AwaitsRoom
    case HandJob(_, w) => Crossing(w)
    case LoadJob(_, room, before) => AwaitsHistory(room, before)
  }

  function JobOne(j: Job, f: Flight): nat {
    if j.SaveJob? then 0 else One(f, Flight(JobPlace(j), j.event))
  }

  function JobCount(jobs: seq<Job>, f: Flight): nat {
    if jobs == [] then 0 else JobOne(jobs[0], f) + JobCount(jobs[1..], f)
  }

  /** How many times `f` is in flight. */
  function Count(s: State, f: Flight): nat {
    WorkerCount(s, s.n, f) + JobCount(s.jobs, f)
  }

  predicate In(s: State, f: Flight) {
    Count(s, f) > 0
  }

  /** Only workers 1..n exist. */
  predicate Staffed(s: State) {
    && s.n >= 1
    && (forall w | w in s.queues :: 1 <= w <= s.n)
    && (forall w | w in s.running :: 1 <= w <= s.n)
    && (forall r | r in s.bindings :: 1 <= s.bindings[r] <= s.n)
  }

  lemma {:induction false} QueueAppend(w: WorkerId, q: seq<Event>, e: Event, f: Flight)
    ensures QueueCount(w, q + [e], f) == QueueCount(w, q, f) + One(f, Flight(Queued(w), e))
  {
    if q == [] {
      assert q + [e] == [e] && [e][1..] == [];
    } else {
      assert (q + [e])[1..] == q[1..] + [e];
      QueueAppend(w, q[1..], e, f);
    }
  }

  lemma {:induction false} QueueRemove(w: WorkerId, q: seq<Event>, k: nat, f: Flight)
    requires k < |q|
    ensures QueueCount(w, q, f) == QueueCount(w, Without(q, k), f) + One(f, Flight(Queued(w), q[k]))
  {
    if k == 0 {
      assert Without(q, 0) == q[1..];
    } else {
      assert Without(q, k)[1..] == Without(q[1..], k - 1) && Without(q, k)[0] == q[0];
      QueueRemove(w, q[1..], k - 1, f);
    }
  }

  lemma {:induction false} JobAppend(jobs: seq<Job>, j: Job, f: Flight)
    ensures JobCount(jobs + [j], f) == JobCount(jobs, f) + JobOne(j, f)
  {
    if jobs == [] {
      assert jobs + [j] == [j] && [j][1..] == [];
    } else {
      assert (jobs + [j])[1..] == jobs[1..] + [j];
      JobAppend(jobs[1..], j, f);
    }
  }

  /** Two states that differ at worker `w` only differ in flights by what worker `w` has. */
  lemma {:induction false} WorkerChange(s: State, t: State, w: WorkerId, n: nat, f: Flight)
    requires forall v | 1 <= v <= n && v != w :: Load(s, v, f) == Load(t, v, f)
    ensures n < w ==> WorkerCount(t, n, f) == WorkerCount(s, n, f)
    ensures 1 <= w <= n ==> WorkerCount(t, n, f) - Load(t, w, f) == WorkerCount(s, n, f) - Load(s, w, f)
  {
    if n > 0 {
      WorkerChange(s, t, w, n - 1, f);
      if n != w { assert Load(s, n, f) == Load(t, n, f); }
    }
  }

  /** Flights depend on the queues, the running events and the jobs only. */
  lemma SameFlights(s: State, t: State)
    requires t.n == s.n && t.queues == s.queues && t.running == s.running && t.jobs == s.jobs
    ensures forall f :: Count(t, f) == Count(s, f)
  {
    forall f ensures Count(t, f) == Count(s, f) { WorkerChange(s, t, 1, s.n, f); }
  }

  lemma PostFlights(s: State, w: WorkerId, e: Event)
    requires 1 <= w <= s.n
    ensures forall f :: Count(Post(s, w, e), f) == Count(s, f) + One(f, Flight(Queued(w), e))
  {
    forall f ensures Count(Post(s, w, e), f) == Count(s, f) + One(f, Flight(Queued(w), e)) {
      QueueAppend(w, Queue(s, w), e, f);
      WorkerChange(s, Post(s, w, e), w, s.n, f);
    }
  }

  lemma ReleaseFlights(s: State, w: WorkerId)
    requires 1 <= w <= s.n && w in s.running
    ensures forall f :: Count(Release(s, w), f) == Count(s, f) - One(f, Flight(Running(w), s.running[w]))
  {
    forall f ensures Count(Release(s, w), f) == Count(s, f) - One(f, Flight(Running(w), s.running[w])) {
      WorkerChange(s, Release(s, w), w, s.n, f);
    }
  }

  lemma HoldFlights(s: State, w: WorkerId, e: Event)
    requires 1 <= w <= s.n && w in s.running
    ensures forall f :: Count(Hold(s, w, e), f)
                        == Count(s, f) - One(f, Flight(Running(w), s.running[w])) + One(f, Flight(Running(w), e))
  {
    forall f ensures Count(Hold(s, w, e), f)
                     == Count(s, f) - One(f, Flight(Running(w), s.running[w])) + One(f, Flight(Running(w), e)) {
      WorkerChange(s, Hold(s, w, e), w, s.n, f);
    }
  }

  lemma TakeFlights(s: State, w: WorkerId, k: nat)
    requires 1 <= w <= s.n && w !in s.running && k < |Queue(s, w)|
    ensures forall f :: Count(Take(s, w, k), f) == Count(s, f) - One(f, Flight(Queued(w), Queue(s, w)[k]))
                                                + One(f, Flight(Running(w), Queue(s, w)[k]))
  {
    forall f ensures Count(Take(s, w, k), f) == Count(s, f) - One(f, Flight(Queued(w), Queue(s, w)[k]))
                                             + One(f, Flight(Running(w), Queue(s, w)[k])) {
      QueueRemove(w, Queue(s, w), k, f);
      WorkerChange(s, Take(s, w, k), w, s.n, f);
    }
  }

  lemma SubmitFlights(s: State, j: Job)
    ensures forall f :: Count(Submit(s, j), f) == Count(s, f) + JobOne(j, f)
  {
    SameFlights(s, Submit(s, j).(jobs := s.jobs));
    forall f ensures Count(Submit(s, j), f) == Count(s, f) + JobOne(j, f) {
      JobAppend(s.jobs, j, f);
      WorkerChange(Submit(s, j).(jobs := s.jobs), Submit(s, j), 1, s.n, f);
    }
  }

  lemma HandFlights(s: State, j: Job)
    ensures forall f :: Count(Hand(s, j), f) == Count(s, f) + JobOne(j, f)
  {
    var t := Hand(s, j);
    assert t.jobs[1..] == s.jobs;
    forall f ensures Count(t, f) == Count(s, f) + JobOne(j, f) { WorkerChange(s, t, 1, s.n, f); }
  }

  lemma PopJobFlights(s: State)
    requires s.jobs != []
    ensures forall f :: Count(s.(jobs := s.jobs[1..]), f) == Count(s, f) - JobOne(s.jobs[0], f)
  {
    forall f ensures Count(s.(jobs := s.jobs[1..]), f) == Count(s, f) - JobOne(s.jobs[0], f) {
      WorkerChange(s, s.(jobs := s.jobs[1..]), 1, s.n, f);
    }
  }

  // ---- where one iteration of the action loop takes the event ----

  function Opt(f: Flight, o: Option<Flight>): nat {
    if o.Some? then One(f, o.value) else 0
  }

  /** Where the event running on `w` is after one iteration; nothing if it is answered, discarded or done. */
  function NextFlight(s: State, w: WorkerId): Option<Flight>
    requires w in s.running
  {
    var e := s.running[w];
    if e.cursor >= |e.actions| || Failed(e.result) then Nothing
    else
      var a := e.actions[e.cursor];
      var e1 := e.(cursor := e.cursor + 1);
      match a.command
      case RequestDbCreateRoom => Some(Flight(AwaitsRoom, e1))
      case RequestDbLoadMessage => Some(Flight(AwaitsHistory(a.room, History.CursorOf(e.request)), e1))
      case RequestJoinRoom =>
        if FindWorker(s, a.room) == 0 then Nothing
        else Some(Flight(Queued(FindWorker(s, a.room)), e1.(target := a.room, hops := e1.hops + 1)))
      case RequestLeaveRoom =>
        if FindWorker(s, a.room) == 0 then Nothing
        else Some(Flight(Queued(FindWorker(s, a.room)), e1.(target := a.room, hops := e1.hops + 1)))
      case SaveMessage => if e.result == Success then Some(Flight(Running(w), e1)) else Nothing
      case SendResponse => Nothing
      case Flush => Nothing
      case DisconnectSession => Nothing
      case _ =>
        assert Local(a.command);
        var c := CodeAt(s, w, e, a);
        if c == Success then Some(Flight(Running(w), Report(Marked(s, e1, a), c))) else Nothing
  }

  lemma RouteStaffed(s: State, e: Event)
    requires Staffed(s)
    ensures Staffed(Route(s, e))
  {
    if FindWorker(s, e.target) == 0 {} else {}
  }

  lemma RouteFlights(s: State, e: Event)
    requires Staffed(s)
    ensures Route(s, e).n == s.n
    ensures forall f :: Count(Route(s, e), f) == Count(s, f) +
              (if FindWorker(s, e.target) == 0 then 0
               else One(f, Flight(Queued(FindWorker(s, e.target)), e.(hops := e.hops + 1))))
  {
    hide Count;
    var w := FindWorker(s, e.target);
    if w == 0 {
      assert Route(s, e) == Discard(s, e);
      SameFlights(s, Discard(s, e));
    } else {
      assert Route(s, e) == Post(s, w, e.(hops := e.hops + 1));
      PostFlights(s, w, e.(hops := e.hops + 1));
    }
  }

  lemma RespondFlights(s: State, e: Event)
    ensures forall f :: Count(Respond(s, e), f) == Count(s, f)
  {
    var t := Respond(s, e);
    assert t.n == s.n && t.queues == s.queues && t.running == s.running && t.jobs == s.jobs;
    SameFlights(s, t);
  }

  lemma SettleFlights(s: State, w: WorkerId, e: Event, c: Code)
    requires 1 <= w <= s.n && w in s.running
    ensures forall f :: Count(Settle(s, w, e, c), f) == Count(s, f) - One(f, Flight(Running(w), s.running[w]))
              + (if c == Success then One(f, Flight(Running(w), Report(e, c))) else 0)
  {
    hide Count;
    if c == Success {
      HoldFlights(s, w, Report(e, c));
    } else {
      var t := CleanUp(s, e);
      assert t.n == s.n && t.queues == s.queues && t.running == s.running && t.jobs == s.jobs;
      SameFlights(s, t);
      ReleaseFlights(t, w);
      RespondFlights(Release(t, w), Report(e, c));
    }
  }

  lemma WorkFlights(s: State, w: WorkerId, found: RoomId)
    requires Staffed(s) && w in s.running
    ensures forall f :: Count(Act(s, w, found), f)
                        == Count(s, f) - One(f, Flight(Running(w), s.running[w])) + Opt(f, NextFlight(s, w))
  {
    hide Count;
    var e := s.running[w];
    ReleaseFlights(s, w);
    var u := Release(s, w);
    if e.cursor >= |e.actions| {
      assert Act(s, w, found) == Discard(u, e);
      SameFlights(u, Discard(u, e));
    } else if Failed(e.result) {
      assert Act(s, w, found) == Respond(u, e);
      RespondFlights(u, e);
    } else {
      var e1, a := e.(cursor := e.cursor + 1), e.actions[e.cursor];
      assert Act(s, w, found) == Execute(s, w, e1, a, found);
      ExecuteFlights(s, w, e1, a, found);
    }
  }

  predicate SameTraffic(s: State, t: State) {
    t.n == s.n && t.queues == s.queues && t.running == s.running && t.jobs == s.jobs
  }

  /** What a JOIN and the start of a broadcast leave alone. */
  lemma JoinKeeps(s: State, w: WorkerId, fd: Fd, room: RoomId)
    ensures var t := JoinRoomAt(s, w, fd, room);
            SameTraffic(s, t) && t.bindings == s.bindings && t.log.home == s.log.home && t.rooms.Keys == s.rooms.Keys
                && t.casts == s.casts
  {}

  lemma BroadcastKeeps(s: State, w: WorkerId, fd: Fd, room: RoomId, text: seq<byte>, origin: Origin)
    ensures var t := BroadcastAt(s, w, fd, room, text, origin);
            && SameTraffic(s, t) && t.bindings == s.bindings && t.log.home == s.log.home && t.rooms == s.rooms
               && t.users == s.users
  {
    hide WithCast, UserIdOf;
    if BroadcastCode(s, w, room) == Success {}
  }

  lemma CreateKeeps(s: State, w: WorkerId, room: RoomId)
    ensures var t := CreateRoomAt(s, w, room);
            && SameTraffic(s, t) && t.bindings == s.bindings && t.log.home == s.log.home
               && t.rooms.Keys == s.rooms.Keys + {Key(w, room)}
            && t.users == s.users && t.casts == s.casts
  {}

  lemma LeaveKeeps(s: State, w: WorkerId, fd: Fd, room: RoomId)
    ensures var t := LeaveRoomAt(s, w, fd, room);
            && SameTraffic(s, t) && t.log.home == s.log.home && t.users == s.users
            && t.casts == s.casts
  {
    if LeaveRoomCode(s, w, fd, room) == Success {}
  }

  lemma EffectFlights(s: State, w: WorkerId, e: Event, a: Action)
    requires Local(a.command)
    ensures SameTraffic(s, Effect(s, w, e, a))
    ensures forall f :: Count(Effect(s, w, e, a), f) == Count(s, f)
  {
    hide Count, CreateRoomAt, JoinRoomAt, LeaveRoomAt, BroadcastAt;
    CreateKeeps(s, w, a.room);
    JoinKeeps(s, w, e.fd, a.room);
    LeaveKeeps(s, w, e.fd, a.room);
    BroadcastKeeps(s, w, e.fd, a.room, e.request, e.origin);
    SameFlights(s, Effect(s, w, e, a));
  }

  lemma LocalFlights(s: State, w: WorkerId, e: Event, a: Action, found: RoomId)
    requires Staffed(s) && w in s.running && Local(a.command)
    ensures var c := CodeAt(s, w, e, a);
            forall f :: Count(Execute(s, w, e, a, found), f) == Count(s, f) - One(f, Flight(Running(w), s.running[w]))
              + (if c == Success then One(f, Flight(Running(w), Report(Marked(s, e, a), c))) else 0)
  {
    hide Count;
    EffectFlights(s, w, e, a);
    SettleFlights(Effect(s, w, e, a), w, Marked(s, e, a), CodeAt(s, w, e, a));
  }

  lemma LeaveFlights(s: State, w: WorkerId, fd: Fd, room: RoomId)
    ensures forall f :: Count(LeaveRoomAt(s, w, fd, room), f) == Count(s, f)
  {
    if LeaveRoomCode(s, w, fd, room) == Success { SameFlights(s, LeaveRoomAt(s, w, fd, room)); }
  }

  lemma SaveFlights(s: State, w: WorkerId, e: Event, a: Action, found: RoomId)
    requires Staffed(s) && w in s.running && a.command.SaveMessage?
    ensures forall f :: Count(Execute(s, w, e, a, found), f) == Count(s, f) - One(f, Flight(Running(w), s.running[w]))
              + (if e.result == Success then One(f, Flight(Running(w), e)) else 0)
  {
    hide Count;
    var j := SaveJob(a.room, UserIdOf(s, e.fd), e.request, e.mark);
    SubmitFlights(s, j);
    var t := Submit(s, j);
    if e.result == Success {
      HoldFlights(t, w, e);
      assert Execute(s, w, e, a, found) == Hold(t, w, e);
    } else {
      ReleaseFlights(t, w);
      RespondFlights(Release(t, w), e);
      assert Execute(s, w, e, a, found) == Respond(Release(t, w), e);
    }
  }

  lemma HandOnFlights(s: State, w: WorkerId, e: Event, a: Action, found: RoomId)
    requires Staffed(s) && w in s.running && !Local(a.command) && !a.command.SaveMessage?
    requires s.running[w].cursor < |s.running[w].actions| && !Failed(s.running[w].result)
    requires a == s.running[w].actions[s.running[w].cursor] && e == s.running[w].(cursor := s.running[w].cursor + 1)
    ensures forall f :: Count(Execute(s, w, e, a, found), f)
                        == Count(s, f) - One(f, Flight(Running(w), s.running[w])) + Opt(f, NextFlight(s, w))
  {
    hide Count, Respond, DisconnectAt, Route, Settle, Effect, CodeAt, UserIdOf, History.CursorOf, Submit;
    var u := Release(s, w);
    ReleaseFlights(s, w);
    match a.command
    case RequestDbCreateRoom => SubmitFlights(u, CreateJob(e));
    case RequestDbLoadMessage => SubmitFlights(u, LoadJob(e, a.room, History.CursorOf(e.request)));
    case RequestJoinRoom => RouteFlights(u, e.(target := a.room));
    case RequestLeaveRoom => RouteFlights(u, e.(target := a.room));
    case SendResponse => RespondFlights(u, e);
    case Flush =>
    case DisconnectSession => DisconnectFlights(u, w, e.fd, e.target, found);
  }

  lemma DisconnectFlights(s: State, w: WorkerId, fd: Fd, room: RoomId, found: RoomId)
    ensures forall f :: Count(DisconnectAt(s, w, fd, room, found), f) == Count(s, f)
  {
    hide Count, LeaveRoomAt, LeaveRoomCode;
    LeaveFlights(s, w, fd, room);
    LeaveFlights(s, w, fd, found);
    if LeaveRoomCode(s, w, fd, room) == Success {} else {}
  }

  lemma ExecuteFlights(s: State, w: WorkerId, e: Event, a: Action, found: RoomId)
    requires Staffed(s) && w in s.running
    requires s.running[w].cursor < |s.running[w].actions| && !Failed(s.running[w].result)
    requires a == s.running[w].actions[s.running[w].cursor] && e == s.running[w].(cursor := s.running[w].cursor + 1)
    ensures forall f :: Count(Execute(s, w, e, a, found), f)
                        == Count(s, f) - One(f, Flight(Running(w), s.running[w])) + Opt(f, NextFlight(s, w))
  {
    if Local(a.command) {
      hide Count, Execute;
      LocalFlights(s, w, e, a, found);
      assert CodeAt(s, w, e, a) == CodeAt(s, w, s.running[w], a);
    } else if a.command.SaveMessage? {
      hide Count, Execute;
      SaveFlights(s, w, e, a, found);
    } else {
      HandOnFlights(s, w, e, a, found);
    }
  }
}
