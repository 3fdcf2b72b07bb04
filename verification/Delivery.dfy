/**
  Nothing falls between history and live traffic, for any client input: a message of a room either has its save job
  ahead of the joiner's history load, or its broadcast is packed on the joiner's session while it stays.
 */
module Delivery {
  import opened Bytes
  import opened RoomEvents
  import opened ServerState
  import opened History
  import opened Flights
  import opened Itinerary
  import opened Ownership
  import opened Requests
  import opened Tokens
  import opened Talk
  import opened Broadcasts
  import opened Places
  import opened Casting

  predicate Got(ps: seq<Packet>, serial: nat) {
    exists j :: 0 <= j < |ps| && ps[j].Broadcast? && ps[j].serial == serial
  }

  /** The worker is in the middle of telling message `m` and the session has yet to receive it. */
  predicate Underway(s: State, w: WorkerId, m: nat, fd: Fd) {
    w in s.casts && s.casts[w].packet.Broadcast? && s.casts[w].packet.serial == m && fd in Targets(s.casts[w])
  }

  /** Everything others said in the room since the session joined is packed on it, or being told right now. */
  ghost predicate CaughtUp(s: State, k: Key, fd: Fd) {
    && fd in s.log.since && s.log.since[fd] <= |s.log.handled|
    && forall m | s.log.since[fd] <= m < |s.log.handled| && s.log.handled[m].room == k.room
       && s.log.handled[m].fd != fd ::
         Got(Packed(s, fd), m) || Underway(s, k.worker, m, fd)
  }

  ghost predicate Live(s: State) {
    forall k, fd | Here(s, k, fd) :: CaughtUp(s, k, fd)
  }

  // ---- live traffic ----

  lemma GotGrows(ps: seq<Packet>, more: seq<Packet>, serial: nat)
    requires Got(ps, serial)
    ensures Got(ps + more, serial)
  {
    var j :| 0 <= j < |ps| && ps[j].Broadcast? && ps[j].serial == serial;
    assert (ps + more)[j] == ps[j];
  }

  lemma GotNow(ps: seq<Packet>, p: Packet)
    requires p.Broadcast?
    ensures Got(ps + [p], p.serial)
  {
    assert (ps + [p])[|ps|] == p;
  }

  /** A message that is said is on its way to everybody who is there. */
  lemma StartsUnderway(s: State, t: State, w: WorkerId, k: Key, fd: Fd)
    requires w in s.running && Speaks(s, w) && Housed(s) && Here(s, k, fd) && t.casts == CastsAfter(s, w)
    requires k.room == ActionAt(s, w).room
    ensures Underway(t, k.worker, |s.log.handled|, fd)
  {
    hide FateOf, UserIdOf;
    assert k == Key(w, ActionAt(s, w).room);
  }

  lemma StaysUnderway(s: State, t: State, w: WorkerId, v: WorkerId, m: nat, fd: Fd)
    requires Underway(s, v, m, fd) && w !in s.casts && t.casts == CastsAfter(s, w)
    ensures Underway(t, v, m, fd)
  {
    hide UserIdOf;
  }

  lemma StaysCaughtUp(s: State, t: State, w: WorkerId, k: Key, fd: Fd)
    requires w in s.running && w !in s.casts && Housed(s) && Here(s, k, fd) && CaughtUp(s, k, fd)
             && t.casts == CastsAfter(s, w)
    requires Says(s, t, SaidBy(s, w), JobsBy(s, w), HearersOf(s, w), PacketsOf(s, w))
    requires fd in t.log.since && t.log.since[fd] == s.log.since[fd]
    ensures CaughtUp(t, k, fd)
  {
    hide FateOf, UserIdOf, JobsBy, HearersOf, PacketsOf, Got, CastsAfter, Here, Underway, Housed;
    var heard := if fd in HearersOf(s, w) then PacketsOf(s, w) else [];
    assert Packed(t, fd) == Packed(s, fd) + heard;
    assert |SaidBy(s, w)| <= 1 && (SaidBy(s, w) != [] ==> Speaks(s, w) && SaidBy(s, w)[0].room == ActionAt(s, w).room);
    hide SaidBy, Speaks;
    forall m | t.log.since[fd] <= m < |t.log.handled| && t.log.handled[m].room == k.room && t.log.handled[m].fd != fd
      ensures Got(Packed(t, fd), m) || Underway(t, k.worker, m, fd)
    {
      if m < |s.log.handled| {
        assert t.log.handled[m] == s.log.handled[m];
        if Got(Packed(s, fd), m) { GotGrows(Packed(s, fd), heard, m); }
        else { StaysUnderway(s, t, w, k.worker, m, fd); }
      } else {
        assert t.log.handled[m] == SaidBy(s, w)[0];
        StartsUnderway(s, t, w, k, fd);
      }
    }
  }

  /** Looking at somebody who is there keeps the message on its way to that session. */
  lemma LookCaughtUp(s: State, w: WorkerId, d: Fd, k: Key, fd: Fd)
    requires Streams(s) && w in s.casts && s.casts[w].chosen.Nothing? && d in s.casts[w].left
    requires Here(s, k, fd) && CaughtUp(s, k, fd)
    ensures CaughtUp(LookAt(s, w, d), k, fd)
  {
    hide StreamOk, AllBefore, Got;
    var t, c := LookAt(s, w, d), s.casts[w];
    assert CastOk(s, w);
    forall m | t.log.since[fd] <= m < |t.log.handled| && t.log.handled[m].room == k.room && t.log.handled[m].fd != fd
      ensures Got(Packed(t, fd), m) || Underway(t, k.worker, m, fd)
    {
      if !Got(Packed(s, fd), m) && k.worker == w && d == fd { assert IsMeant(s, c, fd); }
    }
  }

  lemma GiveCaughtUp(s: State, w: WorkerId, k: Key, fd: Fd)
    requires Streams(s) && w in s.casts && s.casts[w].chosen.Some? && Here(s, k, fd) && CaughtUp(s, k, fd)
    ensures CaughtUp(GiveTo(s, w), k, fd)
  {
    hide StreamOk, AllBefore;
    var t, c := GiveTo(s, w), s.casts[w];
    assert CastOk(s, w);
    var heard := if fd == c.chosen.value then [c.packet] else [];
    assert Packed(t, fd) == Packed(s, fd) + heard by { GivePacked(s, w, fd); }
    hide Packed;
    forall m | t.log.since[fd] <= m < |t.log.handled| && t.log.handled[m].room == k.room && t.log.handled[m].fd != fd
      ensures Got(Packed(t, fd), m) || Underway(t, k.worker, m, fd)
    {
      if Got(Packed(s, fd), m) {
        GotGrows(Packed(s, fd), heard, m);
      } else if k.worker == w && fd == c.chosen.value {
        GotNow(Packed(s, fd), c.packet);
      }
    }
  }

  lemma GivePacked(s: State, w: WorkerId, fd: Fd)
    requires w in s.casts && s.casts[w].chosen.Some?
    ensures Packed(GiveTo(s, w), fd) == Packed(s, fd) + if fd == s.casts[w].chosen.value then [s.casts[w].packet]
            else []
  {
    GiveSays(s, w);
    hide GiveTo;
  }

  lemma LookLive(s: State, w: WorkerId, d: Fd)
    requires Live(s) && Streams(s) && w in s.casts && s.casts[w].chosen.Nothing? && d in s.casts[w].left
    ensures Live(LookAt(s, w, d))
  {
    hide CaughtUp, Streams;
    forall k, fd | Here(LookAt(s, w, d), k, fd) ensures CaughtUp(LookAt(s, w, d), k, fd) {
      assert Here(s, k, fd);
      LookCaughtUp(s, w, d, k, fd);
    }
  }

  lemma GiveLive(s: State, w: WorkerId)
    requires Live(s) && Streams(s) && w in s.casts && s.casts[w].chosen.Some?
    ensures Live(GiveTo(s, w))
  {
    hide CaughtUp, Streams;
    forall k, fd | Here(GiveTo(s, w), k, fd) ensures CaughtUp(GiveTo(s, w), k, fd) {
      assert Here(s, k, fd);
      GiveCaughtUp(s, w, k, fd);
    }
  }

  lemma WorkLive(s: State, w: WorkerId, found: RoomId)
    requires Live(s) && Own(s) && w in s.running && w !in s.casts
    requires Says(s, Act(s, w, found), SaidBy(s, w), JobsBy(s, w), HearersOf(s, w), PacketsOf(s, w))
    ensures Live(Act(s, w, found))
  {
    var t := Act(s, w, found);
    WorkPlaces(s, w, found);
    WorkCasts(s, w, found);
    assert Housed(s);
    hide CastsAfter, Own, Act, Says, SaidBy, JobsBy, HearersOf, PacketsOf, Here, JoinsNow, Got;
    forall k, fd | Here(t, k, fd) ensures CaughtUp(t, k, fd) {
      if Here(s, k, fd) && fd in t.log.since && fd in s.log.since && t.log.since[fd] == s.log.since[fd] {
        StaysCaughtUp(s, t, w, k, fd);
      }
    }
  }

  lemma QuietLive(s: State, t: State)
    requires Live(s) && NobodyJoins(s, t) && Says(s, t, [], [], {}, []) && t.casts == s.casts
    ensures Live(t)
  {
    forall k, fd | Here(t, k, fd) ensures CaughtUp(t, k, fd) {
      assert Here(s, k, fd) && CaughtUp(s, k, fd);
      assert Packed(t, fd) == Packed(s, fd) + [] == Packed(s, fd);
      assert t.log.handled == s.log.handled;
    }
  }

  // ---- the DB queue and the store ----

  predicate InStore(store: seq<Row>, j: Job)
    requires j.SaveJob?
  {
    exists q :: 0 <= q < |store| && store[q].serial == j.serial && store[q].room == j.room
        && store[q].message.content == j.text
  }

  /** The posted jobs that are still queued; a callback half way is not one of them. */
  function StillQueued(jobs: seq<Job>): seq<Job> {
    if jobs != [] && jobs[0].HandJob? then jobs[1..] else jobs
  }

  function DoneJobs(s: State): nat {
    if |StillQueued(s.jobs)| <= |s.log.posted| then |s.log.posted| - |StillQueued(s.jobs)| else 0
  }

  /** The queue is what is left of all jobs posted, in order; every save job that left it is stored or failed. */
  ghost predicate Stored(s: State) {
    && |StillQueued(s.jobs)| <= |s.log.posted| && StillQueued(s.jobs) == s.log.posted[DoneJobs(s)..]
    && (forall p | 0 <= p < |s.log.posted| :: !s.log.posted[p].HandJob?)
    && (forall p | 0 <= p < DoneJobs(s) && s.log.posted[p].SaveJob? ::
          InStore(s.store, s.log.posted[p]) || s.log.posted[p].serial in s.log.lost)
    && StoreSorted(s.store)
  }

  predicate SameDb(s: State, t: State) {
    t.store == s.store && t.log.lost == s.log.lost && t.jobs == s.jobs && t.log.posted == s.log.posted
  }

  lemma PostedStored(s: State, t: State, js: seq<Job>)
    requires Stored(s) && t.store == s.store && t.log.lost == s.log.lost
    requires t.jobs == s.jobs + js && t.log.posted == s.log.posted + js && forall p | 0 <= p < |js| :: !js[p].HandJob?
    ensures Stored(t)
  {
    var d := DoneJobs(s);
    assert StillQueued(t.jobs) == StillQueued(s.jobs) + js;
    assert t.log.posted[d..] == s.log.posted[d..] + js;
    assert forall p | 0 <= p < d :: t.log.posted[p] == s.log.posted[p];
  }

  lemma StoreGrows(store: seq<Row>, row: Row, j: Job)
    requires j.SaveJob? && InStore(store, j)
    ensures InStore(store + [row], j)
  {
    var q :| 0 <= q < |store| && store[q].serial == j.serial && store[q].room == j.room
        && store[q].message.content == j.text;
    assert (store + [row])[q] == store[q];
  }

  lemma PopStored(s: State, t: State)
    requires Stored(s) && s.jobs != [] && !s.jobs[0].HandJob? && StillQueued(t.jobs) == s.jobs[1..]
    requires t.log.posted == s.log.posted && s.log.lost <= t.log.lost
    requires t.store == s.store || (|t.store| == |s.store| + 1 && t.store[..|s.store|] == s.store)
    requires StoreSorted(t.store)
    requires s.jobs[0].SaveJob? ==> InStore(t.store, s.jobs[0]) || s.jobs[0].serial in t.log.lost
    ensures Stored(t)
  {
    var d := DoneJobs(s);
    assert s.log.posted[d] == s.jobs[0];
    assert StillQueued(t.jobs) == t.log.posted[d + 1..];
    forall p | 0 <= p < d + 1 && t.log.posted[p].SaveJob?
      ensures InStore(t.store, t.log.posted[p]) || t.log.posted[p].serial in t.log.lost
    {
      if p < d && InStore(s.store, s.log.posted[p]) && t.store != s.store {
        assert t.store == s.store + [t.store[|s.store|]];
        StoreGrows(s.store, t.store[|s.store|], s.log.posted[p]);
      }
    }
  }

  ghost predicate DbPosts(s: State, t: State, js: seq<Job>) {
    t.store == s.store && t.log.lost == s.log.lost && t.jobs == s.jobs + js && t.log.posted == s.log.posted + js
  }

  lemma SettleDb(s: State, w: WorkerId, e: Event, c: Code)
    ensures DbPosts(s, Settle(s, w, e, c), [])
  {
    if c == Success {} else if e.origin.Request? {} else {}
  }

  lemma EffectDb(s: State, w: WorkerId, e: Event, a: Action)
    requires Local(a.command)
    ensures SameDb(s, Effect(s, w, e, a))
  {
    match a.command
    case CreateRoom =>
    case JoinRoom => if JoinRoomCode(s, w, e.fd, a.room) == Success {} else {}
    case LeaveRoom => if LeaveRoomCode(s, w, e.fd, a.room) == Success {}
    case SendMessage => if BroadcastCode(s, w, a.room) == Success {}
  }

  lemma LocalDb(s: State, w: WorkerId, e: Event, a: Action, found: RoomId)
    requires Local(a.command)
    ensures DbPosts(s, Execute(s, w, e, a, found), [])
  {
    hide Settle, Effect;
    EffectDb(s, w, e, a);
    SettleDb(Effect(s, w, e, a), w, Marked(s, e, a), CodeAt(s, w, e, a));
  }

  lemma RouteDb(s: State, w: WorkerId, e: Event)
    ensures DbPosts(s, Route(Release(s, w), e), [])
    ensures SameDb(s, Route(s, e))
  {
    if FindWorker(s, e.target) == 0 { if e.origin.Request? {} else {} } else {}
  }

  lemma LeaveDb(s: State, w: WorkerId, fd: Fd, room: RoomId)
    ensures SameDb(s, LeaveRoomAt(s, w, fd, room))
  {
    if LeaveRoomCode(s, w, fd, room) == Success {}
  }

  lemma DisconnectDb(s: State, w: WorkerId, e: Event, found: RoomId)
    ensures DbPosts(s, DisconnectAt(Release(s, w), w, e.fd, e.target, found), [])
  {
    hide LeaveRoomAt;
    var u := Release(s, w);
    LeaveDb(u, w, e.fd, e.target);
    LeaveDb(u, w, e.fd, found);
    if LeaveRoomCode(u, w, e.fd, e.target) == Success {} else {}
  }

  lemma PassDb(s: State, w: WorkerId, e: Event, j: Job)
    ensures DbPosts(s, Submit(Release(s, w), j), [j]) && DbPosts(s, Hold(Submit(s, j), w, e), [j])
    ensures DbPosts(s, Respond(Release(s, w), e), []) && DbPosts(s, Discard(Release(s, w), e), [])
            && DbPosts(s, Release(s, w), [])
  {
    if e.origin.Request? {} else {}
  }

  lemma WorkDb(s: State, w: WorkerId, found: RoomId)
    requires w in s.running
    requires Executes(s, w) && ActionAt(s, w).command.SaveMessage? ==> s.running[w].result == Success
    ensures DbPosts(s, Act(s, w, found), JobsBy(s, w))
  {
    hide DbPosts, Route, DisconnectAt, Submit, Respond, Discard, Hold, Release, Settle, Effect, UserIdOf, CodeAt;
    PassDb(s, w, s.running[w], CreateJob(s.running[w]));
    if Executes(s, w) {
      var e, a := s.running[w].(cursor := s.running[w].cursor + 1), ActionAt(s, w);
      match a.command
      case RequestDbCreateRoom => PassDb(s, w, e, CreateJob(e));
      case RequestDbLoadMessage => PassDb(s, w, e, LoadJob(e, a.room, CursorOf(e.request)));
      case RequestJoinRoom => RouteDb(s, w, e.(target := a.room));
      case RequestLeaveRoom => RouteDb(s, w, e.(target := a.room));
      case SaveMessage => PassDb(s, w, e, SaveJob(a.room, UserIdOf(s, e.fd), e.request, e.mark));
      case SendResponse => PassDb(s, w, e, CreateJob(e));
      case Flush =>
      case DisconnectSession => DisconnectDb(s, w, e, found);
      case _ => LocalDb(s, w, e, a, found);
    }
  }

  lemma SortedAppend(store: seq<Row>, row: Row)
    requires StoreSorted(store) && LastId(store) < row.message.id < INT64_MAX
    ensures StoreSorted(store + [row])
  {
    var longer := store + [row];
    forall i, j | 0 <= i < j < |longer| ensures longer[i].message.id < longer[j].message.id {
      if j == |store| && i < |store| - 1 { assert store[i].message.id < store[|store| - 1].message.id; }
    }
  }

  lemma SavedInStore(s: State, o: DbOutcome)
    requires Stored(s) && s.jobs != [] && s.jobs[0].SaveJob? && OutcomeOk(s, s.jobs[0], o)
    ensures Stored(FinishJob(s, o))
  {
    hide Route, Post, Bind, LoadResult, Resolved, StoreSorted;
    NoHandLeft(s);
    var t := FinishJob(s, o);
    if o.Saved? {
      var row := t.store[|s.store|];
      SortedAppend(s.store, row);
      assert InStore(t.store, s.jobs[0]) by { assert t.store[|s.store|].serial == s.jobs[0].serial; }
      hide InStore;
      PopStored(s, t);
    } else {
      hide InStore;
      PopStored(s, t);
    }
  }

  lemma QueryStored(s: State, o: DbOutcome)
    requires Stored(s) && s.jobs != [] && OutcomeOk(s, s.jobs[0], o)
    ensures Stored(FinishJob(s, o))
  {
    hide Route, Post, LoadResult, Stored;
    match s.jobs[0]
    case SaveJob(_, _, _, _) => SavedInStore(s, o);
    case CreateJob(_) => CreatedStored(s, o);
    case HandJob(_, _) => HandedStored(s, o);
    case LoadJob(e, room, before) => LoadedStored(s, LoadResult(s, e, room, before, o));
  }

  lemma CreatedStored(s: State, o: DbOutcome)
    requires Stored(s) && s.jobs != [] && s.jobs[0].CreateJob?
    ensures Stored(FinishJob(s, o))
  {
    hide Route, LoadResult, InStore;
    NoHandLeft(s);
    if o.Created? { PopStored(s, FinishJob(s, o)); } else { PopStored(s, FinishJob(s, o)); }
  }

  lemma HandedStored(s: State, o: DbOutcome)
    requires Stored(s) && s.jobs != [] && s.jobs[0].HandJob?
    ensures Stored(FinishJob(s, o))
  {
    hide Route, LoadResult, InStore, StoreSorted;
    NoHandLeft(s);
    assert StillQueued(FinishJob(s, o).jobs) == StillQueued(s.jobs);
  }

  /** Only the head of the queue can be a callback half way. */
  lemma NoHandLeft(s: State)
    requires Stored(s) && s.jobs != []
    ensures StillQueued(s.jobs[1..]) == s.jobs[1..]
  {
    if |s.jobs| > 1 {
      var q, d := StillQueued(s.jobs), DoneJobs(s);
      var k := if s.jobs[0].HandJob? then 0 else 1;
      assert s.jobs[1] == q[k] && q[k] == s.log.posted[d + k];
    }
  }

  lemma LoadedStored(s: State, e: Event)
    requires Stored(s) && s.jobs != [] && s.jobs[0].LoadJob?
    ensures Stored(Route(s.(jobs := s.jobs[1..]), e))
  {
    hide Route, InStore;
    NoHandLeft(s);
    RouteDb(s.(jobs := s.jobs[1..]), 0, e);
    PopStored(s, Route(s.(jobs := s.jobs[1..]), e));
  }

  lemma SameStored(s: State, t: State)
    requires Stored(s) && SameDb(s, t)
    ensures Stored(t)
  {}

  lemma QuietStored(s: State, step: Step)
    requires Stored(s) && Enabled(s, step) && !step.Work?
    ensures Stored(Apply(s, step))
  {
    hide Stored, Route, FinishJob;
    var t := Apply(s, step);
    match step
    case Accept(_, _, _) => SameStored(s, t);
    case Ask(_, _, _, _) => SameStored(s, t);
    case Tick(fd, garbage) =>
      if fd in s.users { RouteDb(s, 0, FlushEvent(fd, s.users[fd].room, garbage)); } SameStored(s, t);
    case Close(fd, garbage) =>
      var room := s.users[fd].room;
      RouteDb(s, 0, DepartEvent(fd, room, garbage));
      RouteDb(Route(s, DepartEvent(fd, room, garbage)), 0, DepartEvent(fd, LOBBY_ROOM_ID, garbage));
      if room != LOBBY_ROOM_ID { SameStored(s, t); } else { SameStored(s, t); }
    case Start(_, _) => SameStored(s, t);
    case Look(_, _) => SameStored(s, t);
    case Give(_) => SameStored(s, t);
    case Query(o) => QueryStored(s, o);
  }

  // ---- every run ----

  ghost predicate Delivers(s: State) {
    Conversation(s) && Streams(s) && Live(s) && Stored(s)
  }

  lemma JobsByWorkers(s: State, w: WorkerId)
    ensures forall p | 0 <= p < |JobsBy(s, w)| :: !JobsBy(s, w)[p].HandJob?
  {}

  lemma WorkDelivers(s: State, w: WorkerId, found: RoomId)
    requires Delivers(s) && w in s.running && w !in s.casts
    ensures Streams(Act(s, w, found)) && Live(Act(s, w, found)) && Stored(Act(s, w, found))
  {
    hide Own, Linear, Tracked, Streams, SavedInOrder, Marks, Live, Stored, Act, JobsBy, SaidBy, HearersOf, PacketsOf,
         OnCourse, Bound, Says;
    OwnRunning(s, w);
    SendActions(s, w);
    WorkSays(s, w, found);
    WorkLive(s, w, found);
    WorkStreams(s, w, found);
    WorkDb(s, w, found);
    JobsByWorkers(s, w);
    PostedStored(s, Act(s, w, found), JobsBy(s, w));
  }

  lemma QuietDelivers(s: State, step: Step)
    requires Delivers(s) && Enabled(s, step) && !step.Work? && !step.Look? && !step.Give?
    ensures Streams(Apply(s, step)) && Live(Apply(s, step)) && Stored(Apply(s, step))
  {
    ConversationOwns(s);
    hide Own, Conversation, Streams, Live, Stored, Says, NobodyJoins, AcceptClient, Dispatch, RequestFlush,
         CloseSession, Take, FinishJob;
    QuietPlaces(s, step);
    SilentStep(s, step);
    QuietFields(s, step);
    QuietLive(s, Apply(s, step));
    QuietStepStreams(s, step);
    QuietStored(s, step);
  }

  lemma ConversationOwns(s: State)
    requires Conversation(s)
    ensures Own(s)
  {}

  lemma StepKeepsDelivers(s: State, step: Step)
    requires Delivers(s) && Enabled(s, step)
    ensures Delivers(Apply(s, step))
  {
    hide Conversation, Streams, Live, Stored, Act, LookAt, GiveTo;
    StepKeepsConversation(s, step);
    if step.Work? {
      WorkDelivers(s, step.w, step.found);
    } else if step.Look? {
      LookLive(s, step.w, step.fd);
      LookStreams(s, step.w, step.fd);
      QuietStored(s, step);
    } else if step.Give? {
      GiveLive(s, step.w);
      GiveStreams(s, step.w);
      QuietStored(s, step);
    } else {
      QuietDelivers(s, step);
    }
  }

  lemma InitDelivers(n: nat)
    requires n >= 1
    ensures Delivers(Init(n))
  {
    InitAccount(n);
    hide Account;
    forall f ensures Count(Init(n), f) == 0 { EmptyCount(Init(n), n, f); }
  }

  lemma {:induction false} RunDelivers(states: seq<State>, steps: seq<Step>, n: nat, i: nat)
    requires Run(states, steps, n) && i < |states|
    ensures Delivers(states[i])
  {
    hide Delivers, Enabled, Apply, Init;
    if i == 0 {
      InitDelivers(n);
    } else {
      RunDelivers(states, steps, n, i - 1);
      assert Next(states[i - 1], steps[i - 1], states[i]);
      StepKeepsDelivers(states[i - 1], steps[i - 1]);
    }
  }

  /**
    No gap. For the history load of any JOIN, at any later moment: a message of that room by anyone else either has
    its save job ahead of the load, or, if the session has stayed since, its broadcast is packed on the session or the
    worker is in the middle of that broadcast and has yet to come to the session.
   */
  lemma NothingFallsBetween(states: seq<State>, steps: seq<Step>, n: nat, i: nat, p: nat, k: Key, m: nat)
    requires Run(states, steps, n) && i < |states|
    requires var s := states[i];
             && p < |s.log.posted| && s.log.posted[p].LoadJob? && s.log.posted[p].event.plan == PlanJoin(k.room)
             && m < |s.log.handled| && s.log.handled[m].room == k.room
                && s.log.handled[m].fd != s.log.posted[p].event.fd
    ensures var s, e := states[i], states[i].log.posted[p].event;
            || m in SaveOrder(s.log.posted[..p], k.room)
            || (Here(s, k, e.fd) && e.fd in s.log.since && s.log.since[e.fd] == e.mark ==>
                  Got(Packed(s, e.fd), m) || Underway(s, k.worker, m, e.fd))
  {
    hide Account, Streams, SavedInOrder, Stored, SaveOrder, Got;
    RunDelivers(states, steps, n, i);
    var s, e := states[i], states[i].log.posted[p].event;
    assert LoadCovered(s.log.handled, s.log.posted[..p], s.log.posted[p].event);
    if m >= e.mark && Here(s, k, e.fd) { assert CaughtUp(s, k, e.fd); }
  }

  /** What is ahead of a load in the job queue is in the store, or failed, when the load runs. */
  lemma LoadSeesEarlierSaves(states: seq<State>, steps: seq<Step>, n: nat, i: nat, r: RoomId, m: nat)
    requires Run(states, steps, n) && i < |states|
    requires var s := states[i]; s.jobs != [] && s.jobs[0].LoadJob? && m in SaveOrder(s.log.posted[..DoneJobs(s)], r)
    ensures var s := states[i];
            m in s.log.lost || exists q :: 0 <= q < |s.store| && s.store[q].room == r && s.store[q].serial == m
  {
    hide Conversation, Live;
    RunDelivers(states, steps, n, i);
    var s := states[i];
    var j := SaveJobOf(s.log.posted[..DoneJobs(s)], r, m);
    assert s.log.posted[j] == s.log.posted[..DoneJobs(s)][j];
    if m !in s.log.lost {
      var q :| 0 <= q < |s.store| && s.store[q].serial == m && s.store[q].room == r
          && s.store[q].message.content == s.log.posted[j].text;
    }
  }

  lemma {:induction false} SaveJobOf(posted: seq<Job>, r: RoomId, m: nat) returns (j: nat)
    requires m in SaveOrder(posted, r)
    ensures j < |posted| && posted[j].SaveJob? && posted[j].room == r && posted[j].serial == m
  {
    var last := |posted| - 1;
    if posted[last].SaveJob? && posted[last].room == r && posted[last].serial == m {
      j := last;
    } else {
      j := SaveJobOf(posted[..last], r, m);
    }
  }

  /** Any two sessions receive any two broadcasts of a room in the same order: the order that room handled them in. */
  lemma SameOrderEverywhere(states: seq<State>, steps: seq<Step>, n: nat, i: nat, a: Fd, b: Fd, x: nat, y: nat,
                            x': nat, y': nat)
    requires Run(states, steps, n) && i < |states|
    requires var ps, qs := Packed(states[i], a), Packed(states[i], b);
             && x < |ps| && y < |ps| && x' < |qs| && y' < |qs|
             && ps[x].Broadcast? && ps[y].Broadcast? && qs[x'].Broadcast? && qs[y'].Broadcast?
             && ps[x].room == ps[y].room && ps[x].serial == qs[x'].serial && ps[y].serial == qs[y'].serial
    ensures var ps, qs := Packed(states[i], a), Packed(states[i], b);
            && (x < y <==> x' < y') && (x < y <==> ps[x].serial < ps[y].serial)
            && ps[x].room == qs[x'].room && ps[x].text == qs[x'].text
  {
    hide Account, SavedInOrder, Marks, Live, Stored;
    RunDelivers(states, steps, n, i);
    assert StreamOk(states[i].log.handled, a, Packed(states[i], a));
    assert StreamOk(states[i].log.handled, b, Packed(states[i], b));
  }

  /**
    The save jobs of a room are its messages in the order handled, one each; at most the last one is still to be
    posted.
   */
  lemma SavedAsHandled(states: seq<State>, steps: seq<Step>, n: nat, i: nat, r: RoomId)
    requires Run(states, steps, n) && i < |states|
    ensures var saved, said := SaveOrder(states[i].log.posted, r), HandleOrder(states[i].log.handled, r);
            && saved <= said && |said| <= |saved| + 1
            && (forall x, y | 0 <= x < y < |saved| :: saved[x] < saved[y])
            && (forall x | 0 <= x < |saved| ::
                  saved[x] < |states[i].log.handled| && states[i].log.handled[saved[x]].room == r)
  {
    hide Account, Streams, Marks, Live, Stored;
    RunDelivers(states, steps, n, i);
    HandleOrderIs(states[i].log.handled, r);
    assert HandleOrder(states[i].log.handled, r) == SaveOrder(states[i].log.posted, r) + Unsaved(states[i], r);
    hide SaveOrder, HandleOrder;
    var saved, said := SaveOrder(states[i].log.posted, r), HandleOrder(states[i].log.handled, r);
    assert forall x | 0 <= x < |saved| :: saved[x] == said[x];
  }

  /** A send answered with Success was broadcast under its own number and has its save job. */
  lemma AnsweredSendIsSaved(states: seq<State>, steps: seq<Step>, n: nat, i: nat, k: nat)
    requires Run(states, steps, n) && i < |states| && k < |states[i].log.answers|
    requires states[i].log.answers[k].plan.PlanSend? && states[i].log.answers[k].result == Success
    ensures var s, e := states[i], states[i].log.answers[k];
            && e.mark < |s.log.handled| && s.log.handled[e.mark] == Handled(e.plan.room, e.fd, e.request, e.origin)
            && e.mark in SaveOrder(s.log.posted, e.plan.room)
  {
    hide Account, Streams, SavedInOrder, Live, Stored, SaveOrder;
    RunDelivers(states, steps, n, i);
  }

  // ---- where packets come from ----

  /** The worker sends `fd`, which it has found to be there, the packet of its broadcast. */
  predicate IsTold(s: State, w: WorkerId, fd: Fd, p: Packet) {
    w in s.casts && s.casts[w].chosen == Some(fd) && p == s.casts[w].packet
  }

  /**
    At step `j` worker `w` looked at `fd` during the broadcast of packet `p`: the session was a member of the packet's
    room, that room was its user's current one, and the message was somebody else's.
   */
  ghost predicate WasThere(states: seq<State>, steps: seq<Step>, j: nat, w: WorkerId, fd: Fd, p: Packet) {
    j < |steps| && j < |states| && steps[j] == Look(w, fd) && w in states[j].casts && p == states[j].casts[w].packet
    && p.Broadcast? && Here(states[j], Key(w, p.room), fd) && fd != states[j].casts[w].sender
  }

  /** The worker answers an event of `fd`. */
  predicate IsAnsweredWith(s: State, w: WorkerId, fd: Fd, p: Packet) {
    w in s.running && FateOf(s, w).Replied? && FateOf(s, w).event.fd == fd && p == ResponseTo(FateOf(s, w).event)
  }

  lemma HearersAre(s: State, w: WorkerId, fd: Fd)
    requires w in s.running
    ensures fd in HearersOf(s, w) ==> |PacketsOf(s, w)| == 1 && IsAnsweredWith(s, w, fd, PacketsOf(s, w)[0])
    ensures FateOf(s, w).Replied? ==>
              FateOf(s, w).event.fd in HearersOf(s, w) && PacketsOf(s, w) == [ResponseTo(FateOf(s, w).event)]
  {
    hide FateOf;
  }

  ghost predicate Receives(s: State, t: State, fd: Fd, p: Packet) {
    Packed(t, fd) == Packed(s, fd) + [p]
  }

  lemma WorkCauses(s: State, w: WorkerId, found: RoomId, fd: Fd)
    requires Own(s) && w in s.running
    ensures var t := Act(s, w, found);
            Packed(t, fd) == Packed(s, fd) || exists p :: Receives(s, t, fd, p) && IsAnsweredWith(s, w, fd, p)
    ensures var t := Act(s, w, found);
            t.log.answers != s.log.answers ==>
              && |t.log.answers| == |s.log.answers| + 1
              && var e := t.log.answers[|s.log.answers|]; e.origin.Request? && Receives(s, t, e.fd, ResponseTo(e))
  {
    hide Own, Act, FateOf, HearersOf, PacketsOf, SaidBy, JobsBy, IsAnsweredWith, Bound, OnCourse;
    var t := Act(s, w, found);
    OwnRunning(s, w);
    if Executes(s, w) && ActionAt(s, w).command.SaveMessage? { SaveSucceeds(s, w); }
    WorkSays(s, w, found);
    WorkTally(s, w, found);
    HearersAre(s, w, fd);
    if fd in HearersOf(s, w) {
      assert PacketsOf(s, w) == [PacketsOf(s, w)[0]];
      assert Receives(s, t, fd, PacketsOf(s, w)[0]);
    } else {
      assert Packed(t, fd) == Packed(s, fd) + [];
    }
  }

  lemma GiveCauses(s: State, w: WorkerId, fd: Fd)
    requires w in s.casts && s.casts[w].chosen.Some?
    ensures var t := GiveTo(s, w);
            Packed(t, fd) == Packed(s, fd)
                || (Receives(s, t, fd, s.casts[w].packet) && IsTold(s, w, fd, s.casts[w].packet))
  {
    GivePacked(s, w, fd);
    hide GiveTo;
    if fd != s.casts[w].chosen.value { assert Packed(s, fd) + [] == Packed(s, fd); }
  }

  /** A member is chosen by looking at it, and only by that. */
  lemma ChosenBefore(s: State, step: Step, t: State, w: WorkerId, fd: Fd)
    requires Own(s) && Streams(s) && Next(s, step, t) && w in t.casts && t.casts[w].chosen == Some(fd)
    ensures w in s.casts
    ensures if step == Look(w, fd) then IsMeant(s, s.casts[w], fd) && fd in s.casts[w].left
            && t.casts[w].packet == s.casts[w].packet
            else t.casts[w] == s.casts[w]
  {
    hide Own, Streams, Act, FinishJob, Route, CloseSession, OutcomeOk, FoundOk, Unused, UserIdOf;
    match step
    case Work(v, found) => WorkCasts(s, v, found);
    case Look(v, d) =>
    case Give(v) =>
    case _ => QuietFields(s, step);
  }

  /** Whoever is about to receive a broadcast was found to be there when the worker last looked. */
  lemma {:induction false} ChosenWasThere(states: seq<State>, steps: seq<Step>, n: nat, i: nat, w: WorkerId,
                                          fd: Fd) returns (j: nat)
    requires Run(states, steps, n) && i < |states| && w in states[i].casts && states[i].casts[w].chosen == Some(fd)
    ensures j < i && WasThere(states, steps, j, w, fd, states[i].casts[w].packet)
    ensures forall k | j < k < i :: steps[k] != Give(w)
  {
    hide Own, Conversation, Streams, Live, Stored, Enabled, Apply, Next;
    assert states[0].casts == map[];
    RunDelivers(states, steps, n, i - 1);
    RunOwns(states, steps, n, i - 1);
    assert Next(states[i - 1], steps[i - 1], states[i]);
    ChosenBefore(states[i - 1], steps[i - 1], states[i], w, fd);
    if steps[i - 1] == Look(w, fd) {
      j := i - 1;
      CastIsHere(states[j], w, fd);
    } else {
      j := ChosenWasThere(states, steps, n, i - 1, w, fd);
      NotGiven(states[i - 1], steps[i - 1], states[i], w);
    }
  }

  lemma CastIsHere(s: State, w: WorkerId, fd: Fd)
    requires Streams(s) && w in s.casts && fd in s.casts[w].left && IsMeant(s, s.casts[w], fd)
    ensures var p := s.casts[w].packet; p.Broadcast? && Here(s, Key(w, p.room), fd) && fd != s.casts[w].sender
  {
    assert CastOk(s, w);
  }

  lemma NotGiven(s: State, step: Step, t: State, w: WorkerId)
    requires Next(s, step, t) && w in t.casts && t.casts[w].chosen.Some?
    ensures step != Give(w)
  {
    hide Act, FinishJob, Route, CloseSession;
  }

  lemma QuietAnswers(s: State, step: Step)
    requires Own(s) && Enabled(s, step) && !step.Work?
    ensures Apply(s, step).log.answers == s.log.answers
  {
    hide Own, FinishJob, Route, CloseSession, QueryFate, QueryGone;
    match step
    case Query(o) =>
      QueryTally(s, o);
      if QueryGone(s).Some? { QueryNeverReplies(s, o); }
    case Tick(fd, garbage) => if fd in s.users { RouteTally(s, FlushEvent(fd, s.users[fd].room, garbage)); }
    case Close(fd, garbage) => CloseAnswers(s, fd, garbage);
    case _ =>
  }

  lemma QueryNeverReplies(s: State, o: DbOutcome)
    requires s.jobs != []
    ensures !QueryFate(s, o).Replied?
  {
    hide LoadResult, FindWorker;
  }

  lemma CloseAnswers(s: State, fd: Fd, garbage: Command)
    requires fd in s.users
    ensures CloseSession(s, fd, garbage).log.answers == s.log.answers
  {
    hide Route;
    var room := s.users[fd].room;
    RouteTally(s, DepartEvent(fd, room, garbage));
    RouteTally(Route(s, DepartEvent(fd, room, garbage)), DepartEvent(fd, LOBBY_ROOM_ID, garbage));
    if room != LOBBY_ROOM_ID {} else {}
  }

  /**
    In any run, at any step: a session receives at most one packet, either the answer to its own event or a message of
    somebody else in a room that the session was in, as its current one, when the worker last looked; and a request is
    recorded as answered by exactly the step that packs its response on its own session.
   */
  lemma EveryPacketHasACause(states: seq<State>, steps: seq<Step>, n: nat, i: nat, fd: Fd)
    requires Run(states, steps, n) && i < |steps|
    ensures var s, t := states[i], states[i + 1];
            || Packed(t, fd) == Packed(s, fd)
            || (exists p :: Receives(s, t, fd, p) && steps[i].Work? && IsAnsweredWith(s, steps[i].w, fd, p))
            || (exists p, j: nat :: Receives(s, t, fd, p) && steps[i].Give? && IsTold(s, steps[i].w, fd, p)
                               && j < i && WasThere(states, steps, j, steps[i].w, fd, p))
    ensures var s, t := states[i], states[i + 1];
            t.log.answers != s.log.answers ==>
              && |t.log.answers| == |s.log.answers| + 1
              && var e := t.log.answers[|s.log.answers|]; e.origin.Request? && Receives(s, t, e.fd, ResponseTo(e))
  {
    hide Own, Conversation, Streams, Live, Stored, Act, LookAt, GiveTo, FinishJob, Route, CloseSession, IsTold,
         WasThere, IsAnsweredWith, Receives, Init, OutcomeOk, FoundOk, Unused;
    RunOwns(states, steps, n, i);
    assert Next(states[i], steps[i], states[i + 1]);
    var s, t := states[i], states[i + 1];
    if steps[i].Work? { WorkCauses(s, steps[i].w, steps[i].found, fd); } else { QuietAnswers(s, steps[i]); }
    if steps[i].Give? {
      var w := steps[i].w;
      GiveCauses(s, w, fd);
      if Packed(t, fd) != Packed(s, fd) { ToldWasThere(states, steps, n, i, w, fd); }
    } else if !steps[i].Work? {
      SilentStep(s, steps[i]);
      assert Packed(t, fd) == Packed(s, fd) + [];
    }
  }

  lemma ToldWasThere(states: seq<State>, steps: seq<Step>, n: nat, i: nat, w: WorkerId, fd: Fd)
    requires Run(states, steps, n) && i < |states| && w in states[i].casts
             && IsTold(states[i], w, fd, states[i].casts[w].packet)
    ensures exists j: nat :: j < i && WasThere(states, steps, j, w, fd, states[i].casts[w].packet)
  {
    hide Run, WasThere;
    var j := ChosenWasThere(states, steps, n, i, w, fd);
  }
}
