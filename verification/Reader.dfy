/**
  Page after page of a room's history, as the database answers the loads in any run of the server: the pages join, and
  with what a session is sent they are everything said in the room.
 */
module Reader {
  import opened Bytes
  import opened MessageList
  import opened RoomEvents
  import opened ServerState
  import opened History
  import opened Ownership
  import opened Requests
  import opened Tokens
  import opened Talk
  import opened Broadcasts
  import opened Places
  import opened Casting
  import opened Delivery
  import Pagination

  // ---- the database only grows ----

  ghost predicate DbGrows(s: State, t: State) {
    s.store <= t.store && s.log.posted <= t.log.posted && s.log.lost <= t.log.lost
  }

  lemma PostsGrow(s: State, t: State, js: seq<Job>)
    requires DbPosts(s, t, js)
    ensures DbGrows(s, t)
  {}

  lemma QueryGrowsDb(s: State, o: DbOutcome)
    requires s.jobs != []
    ensures DbGrows(s, FinishJob(s, o))
  {
    hide Route, Post, LoadResult, Resolved, Report, Hand, Bind;
    match s.jobs[0]
    case SaveJob(_, _, _, _) => if o.Saved? {} else {}
    case CreateJob(e) => CreateKeepsDb(s.(jobs := s.jobs[1..]), o, e);
    case HandJob(e, w) => PostKeepsDb(s.(jobs := s.jobs[1..]), w, e.(hops := e.hops + 1));
    case LoadJob(e, room, before) => RouteDb(s.(jobs := s.jobs[1..]), 0, LoadResult(s, e, room, before, o));
  }

  lemma CreateKeepsDb(s: State, o: DbOutcome, e: Event)
    ensures o.Created? ==> DbGrows(s, Hand(Bind(s, o.id, o.worker), HandJob(Resolved(e, o.id), o.worker)))
    ensures DbGrows(s, Post(s, LOBBY_WORKER_ID, Report(e, DbError).(hops := e.hops + 1)))
  {
    hide Resolved, Report;
  }

  lemma PostKeepsDb(s: State, w: WorkerId, e: Event)
    ensures DbGrows(s, Post(s, w, e))
  {}

  lemma QuietDb(s: State, step: Step)
    requires Enabled(s, step) && !step.Work? && !step.Query?
    ensures DbGrows(s, Apply(s, step))
  {
    hide Route;
    match step
    case Accept(_, _, _) =>
    case Ask(_, _, _, _) =>
    case Tick(fd, garbage) => if fd in s.users { RouteDb(s, 0, FlushEvent(fd, s.users[fd].room, garbage)); }
    case Close(fd, garbage) =>
      var room := s.users[fd].room;
      RouteDb(s, 0, DepartEvent(fd, room, garbage));
      RouteDb(Route(s, DepartEvent(fd, room, garbage)), 0, DepartEvent(fd, LOBBY_ROOM_ID, garbage));
      if room != LOBBY_ROOM_ID {} else {}
    case Start(_, _) =>
    case Look(_, _) =>
    case Give(_) =>
  }

  lemma StepDb(s: State, step: Step)
    requires Own(s) && Enabled(s, step)
    ensures DbGrows(s, Apply(s, step))
  {
    hide Own, DbGrows, DbPosts, Act, FinishJob, JobsBy, OutcomeOk, FoundOk;
    if step.Work? {
      OwnRunning(s, step.w);
      if Executes(s, step.w) && ActionAt(s, step.w).command.SaveMessage? { SaveSucceeds(s, step.w); }
      WorkDb(s, step.w, step.found);
      PostsGrow(s, Apply(s, step), JobsBy(s, step.w));
    } else if step.Query? {
      QueryGrowsDb(s, step.outcome);
    } else {
      QuietDb(s, step);
    }
  }

  lemma {:induction false} RunDb(states: seq<State>, steps: seq<Step>, n: nat, i: nat, j: nat)
    requires Run(states, steps, n) && i <= j < |states|
    ensures DbGrows(states[i], states[j])
  {
    hide Own, Enabled, Apply, Init;
    if i < j {
      RunDb(states, steps, n, i, j - 1);
      RunOwns(states, steps, n, j - 1);
      assert Next(states[j - 1], steps[j - 1], states[j]);
      StepDb(states[j - 1], steps[j - 1]);
    }
  }

  // ---- page after page ----

  /** The database answers a load in room `r`. */
  predicate Loads(s: State, step: Step, r: RoomId) {
    step == Query(Loaded) && s.jobs != [] && s.jobs[0].LoadJob? && s.jobs[0].room == r
  }

  /** The page it answers with. */
  function PageAt(s: State): seq<Message>
    requires s.jobs != [] && s.jobs[0].LoadJob?
  {
    Page(s.store, s.jobs[0].room, s.jobs[0].before)
  }

  /**
    The loads answered at the steps `ks` are the newest page and then each what is older than the last message of the
    one before, as a client asks that keeps the last message it was shown as its cursor.
   */
  ghost predicate ReadsOn(states: seq<State>, steps: seq<Step>, r: RoomId, ks: seq<nat>) {
    && |states| == |steps| + 1 && ks != []
    && (forall x | 0 <= x < |ks| :: ks[x] < |steps| && Loads(states[ks[x]], steps[ks[x]], r))
    && (forall x, y | 0 <= x < y < |ks| :: ks[x] < ks[y])
    && states[ks[0]].jobs[0].before == INT64_MAX
    && forall x {:trigger ks[x]} | 0 < x < |ks| :: Follows(states[ks[x - 1]], states[ks[x]])
  }

  /** The later load asks for what is older than the last message of the earlier page. */
  predicate Follows(s: State, t: State) {
    && s.jobs != [] && s.jobs[0].LoadJob? && t.jobs != [] && t.jobs[0].LoadJob? && PageAt(s) != []
    && t.jobs[0].before == PageAt(s)[|PageAt(s)| - 1].id
  }

  function PagesOf(states: seq<State>, ks: seq<nat>): seq<Message>
    requires forall x | 0 <= x < |ks| :: ks[x] < |states| && states[ks[x]].jobs != [] && states[ks[x]].jobs[0].LoadJob?
  {
    if ks == [] then [] else PagesOf(states, ks[..|ks| - 1]) + PageAt(states[ks[|ks| - 1]])
  }

  /** Messages stored later have larger ids, so they do not change what is older than a stored one. */
  lemma {:induction false} OlderSame(store: seq<Row>, later: seq<Row>, r: RoomId, before: int64)
    requires store <= later && StoreSorted(later) && before <= LastId(store)
    ensures Older(later, r, before) == Older(store, r, before)
  {
    if store != later {
      var front, last := later[..|later| - 1], later[|later| - 1];
      assert store <= front && StoreSorted(front);
      OlderSame(store, front, r, before);
      assert later == front + [last] && last.message.id >= before;
      Pagination.OlderKept(front, last, r, before);
    }
  }

  /** What the pages leave for the rest. */
  function Rest(store: seq<Row>, r: RoomId, page: seq<Message>): seq<Message> {
    if page == [] then [] else Older(store, r, page[|page| - 1].id)
  }

  lemma PageRest(store: seq<Row>, r: RoomId, before: int64)
    requires StoreSorted(store)
    ensures var page := Page(store, r, before);
            && Older(store, r, before) == page + Rest(store, r, page)
            && (page != [] ==> page[|page| - 1].id <= LastId(store))
  {
    hide Older, StoreSorted;
    var page, o := Page(store, r, before), Older(store, r, before);
    Pagination.PageSplits(store, r, before);
    if page != [] {
      Pagination.OlderMembers(store, r, before);
      assert o[|page| - 1] == page[|page| - 1] && o[|page| - 1] in o;
    }
  }

  lemma Sorted(states: seq<State>, steps: seq<Step>, n: nat, i: nat)
    requires Run(states, steps, n) && i < |states|
    ensures StoreSorted(states[i].store)
  {
    hide Run, Conversation, Streams, Live;
    RunDelivers(states, steps, n, i);
  }

  /** The pages and what the last of them leaves are everything stored when the first was made. */
  ghost predicate Joined(states: seq<State>, steps: seq<Step>, r: RoomId, ks: seq<nat>)
    requires ReadsOn(states, steps, r, ks)
  {
    var store, page := states[ks[0]].store, PageAt(states[ks[|ks| - 1]]);
    && Older(store, r, INT64_MAX) == PagesOf(states, ks) + Rest(store, r, page)
    && (page != [] ==> page[|page| - 1].id <= LastId(store))
  }

  lemma OnePage(states: seq<State>, steps: seq<Step>, n: nat, r: RoomId, ks: seq<nat>)
    requires Run(states, steps, n) && ReadsOn(states, steps, r, ks) && |ks| == 1
    ensures Joined(states, steps, r, ks)
  {
    hide Run, Older, Page, StoreSorted, LastId, Rest;
    Sorted(states, steps, n, ks[0]);
    PageRest(states[ks[0]].store, r, INT64_MAX);
    assert PagesOf(states, ks[..0]) == [];
    assert PagesOf(states, ks) == [] + PageAt(states[ks[0]]) == PageAt(states[ks[0]]);
  }

  lemma NextPage(states: seq<State>, steps: seq<Step>, n: nat, r: RoomId, ks: seq<nat>)
    requires Run(states, steps, n) && ReadsOn(states, steps, r, ks) && |ks| > 1
    requires ReadsOn(states, steps, r, ks[..|ks| - 1]) && Joined(states, steps, r, ks[..|ks| - 1])
    requires Follows(states[ks[|ks| - 2]], states[ks[|ks| - 1]])
    ensures Joined(states, steps, r, ks)
  {
    hide Run, Older, Page, PagesOf, Rest, LastId;
    var front := ks[..|ks| - 1];
    var store, before := states[ks[0]].store, states[ks[|ks| - 1]].jobs[0].before;
    var page := PageAt(states[ks[|ks| - 1]]);
    assert front[0] == ks[0] && front[|front| - 1] == ks[|ks| - 2];
    RestFollows(store, r, states[ks[|ks| - 2]], states[ks[|ks| - 1]]);
    PageOfOld(states, steps, n, r, ks);
    PagesUnfold(states, ks);
    assert PagesOf(states, front) + (page + Rest(store, r, page)) == PagesOf(states, ks) + Rest(store, r, page);
  }

  lemma RestFollows(store: seq<Row>, r: RoomId, s: State, t: State)
    requires Follows(s, t)
    ensures Rest(store, r, PageAt(s)) == Older(store, r, t.jobs[0].before)
  {}

  lemma PagesUnfold(states: seq<State>, ks: seq<nat>)
    requires ks != []
    requires forall x | 0 <= x < |ks| :: ks[x] < |states| && states[ks[x]].jobs != [] && states[ks[x]].jobs[0].LoadJob?
    ensures PagesOf(states, ks) == PagesOf(states, ks[..|ks| - 1]) + PageAt(states[ks[|ks| - 1]])
  {}

  /** A later page, seen from the old store. */
  lemma PageOfOld(states: seq<State>, steps: seq<Step>, n: nat, r: RoomId, ks: seq<nat>)
    requires Run(states, steps, n) && ReadsOn(states, steps, r, ks) && |ks| > 1
    requires states[ks[|ks| - 1]].jobs[0].before <= LastId(states[ks[0]].store)
    ensures var store, s := states[ks[0]].store, states[ks[|ks| - 1]];
            var before, page := s.jobs[0].before, PageAt(s);
            && Older(store, r, before) == page + Rest(store, r, page)
            && (page != [] ==> page[|page| - 1].id <= LastId(store))
  {
    hide Run, Older, Page, LastId;
    LaterStore(states, steps, n, r, ks);
    PageRest(states[ks[|ks| - 1]].store, r, states[ks[|ks| - 1]].jobs[0].before);
    LastPage(states, steps, n, r, ks);
  }

  lemma LaterStore(states: seq<State>, steps: seq<Step>, n: nat, r: RoomId, ks: seq<nat>)
    requires Run(states, steps, n) && ReadsOn(states, steps, r, ks)
    requires states[ks[|ks| - 1]].jobs[0].before <= LastId(states[ks[0]].store)
    ensures var s := states[ks[|ks| - 1]];
            StoreSorted(s.store) && Older(s.store, r, s.jobs[0].before) ==
                Older(states[ks[0]].store, r, s.jobs[0].before)
  {
    hide Run, Older, Page, StoreSorted, LastId;
    var k := ks[|ks| - 1];
    Sorted(states, steps, n, k);
    RunDb(states, steps, n, ks[0], k);
    OlderSame(states[ks[0]].store, states[k].store, r, states[k].jobs[0].before);
  }

  /** Pages join, however many there are and whatever is stored meanwhile. */
  lemma {:induction false} PagesJoin(states: seq<State>, steps: seq<Step>, n: nat, r: RoomId, ks: seq<nat>)
    requires Run(states, steps, n) && ReadsOn(states, steps, r, ks)
    ensures Joined(states, steps, r, ks)
  {
    hide Run, Joined, Follows, PageAt, Loads;
    if |ks| == 1 {
      OnePage(states, steps, n, r, ks);
    } else {
      FrontReads(states, steps, r, ks);
      PagesJoin(states, steps, n, r, ks[..|ks| - 1]);
      NextPage(states, steps, n, r, ks);
    }
  }

  lemma FrontReads(states: seq<State>, steps: seq<Step>, r: RoomId, ks: seq<nat>)
    requires ReadsOn(states, steps, r, ks) && |ks| > 1
    ensures var front := ks[..|ks| - 1];
            && ReadsOn(states, steps, r, front) && front[0] == ks[0]
            && Follows(states[front[|front| - 1]], states[ks[|ks| - 1]])
  {
    hide Page, Follows, Loads;
    var front := ks[..|ks| - 1];
    assert forall x | 0 <= x < |front| :: front[x] == ks[x];
    assert ks[|ks| - 1 - 1] == front[|front| - 1];
  }

  /** The last page is of the old store, and so is what it leaves. */
  lemma LastPage(states: seq<State>, steps: seq<Step>, n: nat, r: RoomId, ks: seq<nat>)
    requires Run(states, steps, n) && ReadsOn(states, steps, r, ks) && |ks| > 1
    requires states[ks[|ks| - 1]].jobs[0].before <= LastId(states[ks[0]].store)
    ensures var store, s := states[ks[0]].store, states[ks[|ks| - 1]];
            var page := PageAt(s);
            page != [] ==>
              && page[|page| - 1].id <= LastId(store)
              && Older(s.store, r, page[|page| - 1].id) == Older(store, r, page[|page| - 1].id)
  {
    hide Run, Older, Page;
    var store, s := states[ks[0]].store, states[ks[|ks| - 1]];
    Sorted(states, steps, n, ks[|ks| - 1]);
    RunDb(states, steps, n, ks[0], ks[|ks| - 1]);
    var page := PageAt(s);
    if page != [] {
      Pagination.OlderMembers(s.store, r, s.jobs[0].before);
      Pagination.PageSplits(s.store, r, s.jobs[0].before);
      assert page[|page| - 1] in Older(s.store, r, s.jobs[0].before);
      OlderSame(store, s.store, r, page[|page| - 1].id);
    }
  }

  // ---- everything said in the room ----

  /** Message `m` was stored in the room's history under this number. */
  predicate InHistory(store: seq<Row>, r: RoomId, m: nat, pages: seq<Message>) {
    exists q :: 0 <= q < |store| && store[q].room == r && store[q].serial == m && store[q].message in pages
  }

  /** The load at the head of the DB queue is the next of those posted. */
  lemma NextPosted(s: State)
    requires Stored(s) && s.jobs != [] && s.jobs[0].LoadJob?
    ensures DoneJobs(s) < |s.log.posted| && s.log.posted[DoneJobs(s)] == s.jobs[0]
  {
    assert StillQueued(s.jobs)[0] == s.log.posted[DoneJobs(s)..][0];
  }

  /** The row stored for a message that is ahead of the load is among what the pages show. */
  lemma Shown(store: seq<Row>, r: RoomId, m: nat)
    requires StoreSorted(store) && exists q :: 0 <= q < |store| && store[q].room == r && store[q].serial == m
    ensures InHistory(store, r, m, Older(store, r, INT64_MAX))
  {
    var q :| 0 <= q < |store| && store[q].room == r && store[q].serial == m;
    Pagination.OlderHasAll(store, r, INT64_MAX, q);
  }

  /**
    The loads of a session that has joined room `r`, up to an empty page: every message said in the room by anyone else
    is in these pages; or storing it failed; or, as long as the session has stayed, its broadcast is packed on it or
    about to be.
   */
  lemma EverythingSaidIsLoaded(states: seq<State>, steps: seq<Step>, n: nat, w: WorkerId, r: RoomId, ks: seq<nat>,
                               i: nat, m: nat)
    requires Run(states, steps, n) && ReadsOn(states, steps, r, ks) && ks[0] <= i < |states|
    requires states[ks[0]].jobs[0].event.plan == PlanJoin(r) && PageAt(states[ks[|ks| - 1]]) == []
    requires m < |states[i].log.handled| && states[i].log.handled[m].room == r
             && states[i].log.handled[m].fd != states[ks[0]].jobs[0].event.fd
    ensures var s, e := states[i], states[ks[0]].jobs[0].event;
            || InHistory(states[ks[0]].store, r, m, PagesOf(states, ks)) || m in s.log.lost
            || (Here(s, Key(w, r), e.fd) && e.fd in s.log.since && s.log.since[e.fd] == e.mark ==>
                  Got(Packed(s, e.fd), m) || Underway(s, w, m, e.fd))
  {
    hide Run, Older, Page, Conversation, Streams, Live, SaveOrder, Got, Underway, Here, StoreSorted, InHistory;
    var s := states[ks[0]];
    var p := DoneJobs(s);
    RunDelivers(states, steps, n, ks[0]);
    NextPosted(s);
    RunDb(states, steps, n, ks[0], i);
    assert states[i].log.posted[p] == s.jobs[0] && states[i].log.posted[..p] == s.log.posted[..p];
    NothingFallsBetween(states, steps, n, i, p, Key(w, r), m);
    if m in SaveOrder(s.log.posted[..p], r) {
      LoadSeesEarlierSaves(states, steps, n, ks[0], r, m);
      PagesJoin(states, steps, n, r, ks);
      assert PagesOf(states, ks) + [] == PagesOf(states, ks);
      Sorted(states, steps, n, ks[0]);
      if m !in s.log.lost { Shown(s.store, r, m); }
    }
  }
}
