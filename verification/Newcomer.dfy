/**
  A client that enters a room and reads its history to the end, in any run of the server: the pages in the bytes it is
  sent and the broadcasts packed on its session are everything said in the room.
 */
module Newcomer {
  import opened Bytes
  import opened RoomEvents
  import opened ServerState
  import opened History
  import opened Tokens
  import opened Places
  import opened Delivery
  import opened Outcomes
  import opened Loads
  import MessageList
  import Pagination
  import Ownership
  import Reader

  /** Packet `x` of the session is the answer, with Success, to the request dispatched at step `q`. */
  ghost predicate Answers(states: seq<State>, steps: seq<Step>, i: nat, fd: Fd, q: nat, x: nat)
    requires i < |states| == |steps| + 1
  {
    && q < |steps| && AsksForPage(steps[q]) && steps[q].fd == fd
    && x < |Packed(states[i], fd)| && BringsPage(Packed(states[i], fd)[x])
    && exists j: nat :: j < i && Responds(states, steps, j, states[q].log.issued, fd, x)
  }

  /** The messages that the client reads in the packet. */
  function PageIn(s: State, fd: Fd, x: nat): seq<MessageList.Message>
    requires x < |Packed(s, fd)| && BringsPage(Packed(s, fd)[x])
  {
    match MessageList.Parsed(Packed(s, fd)[x].body)
    case Short => []
    case Got(ms, _) => ms
  }

  function PagesIn(s: State, fd: Fd, xs: seq<nat>): seq<MessageList.Message>
    requires forall y | 0 <= y < |xs| :: xs[y] < |Packed(s, fd)| && BringsPage(Packed(s, fd)[xs[y]])
  {
    if xs == [] then [] else PagesIn(s, fd, xs[..|xs| - 1]) + PageIn(s, fd, xs[|xs| - 1])
  }

  /**
    The client of `fd` joins room `r` and then asks for page after page: with the id of the last message of the page
    before, once that page is packed. The requests are dispatched at the steps `qs`, their answers are the packets `xs`.
   */
  ghost predicate Reads(states: seq<State>, steps: seq<Step>, i: nat, fd: Fd, r: RoomId, qs: seq<nat>, xs: seq<nat>) {
    && i < |states| == |steps| + 1 && |qs| == |xs| > 0
    && (forall y | 0 <= y < |xs| :: Answers(states, steps, i, fd, qs[y], xs[y]) && steps[qs[y]].room == r)
    && steps[qs[0]].cmd == CmdJoinRoom && |steps[qs[0]].body| < 8
    && forall y {:trigger qs[y]} | 0 < y < |xs| :: AsksOn(states, steps, i, fd, qs[y], xs[y - 1])
  }

  /** The request asks for what is older than the page in packet `x`. */
  ghost predicate AsksOn(states: seq<State>, steps: seq<Step>, i: nat, fd: Fd, q: nat, x: nat) {
    && i < |states| && q < |steps| && q < |states| && steps[q].Ask? && steps[q].cmd == CmdLoadMessage
    && x < |Packed(states[q], fd)| && x < |Packed(states[i], fd)| && BringsPage(Packed(states[i], fd)[x])
    && var page := PageIn(states[i], fd, x);
       page != [] && steps[q].body == I64Bytes(page[|page| - 1].id)
  }

  // ---- the loads behind the answers ----

  /** Step `k` is the query behind packet `x`, the answer to the request of step `q`, which step `j` packs. */
  ghost predicate Behind(states: seq<State>, steps: seq<Step>, i: nat, fd: Fd, q: nat, x: nat, k: nat, j: nat)
    requires i < |states| == |steps| + 1 && Answers(states, steps, i, fd, q, x)
  {
    && q < k < j < i && Queries(states[k], steps[k], states[q].log.issued, steps[q].room, CursorIn(steps[q].body))
    && |Packed(states[j], fd)| == x < |Packed(states[j + 1], fd)|
    && var e := states[k].jobs[0].event;
       && e.plan == PlanOf(steps[q].cmd, steps[q].room) && e.fd == fd
       && PageIn(states[i], fd, x) == Reader.PageAt(states[k])
       && |states[j].log.answers| < |states[j + 1].log.answers|
       && var a := states[j + 1].log.answers[|states[j].log.answers|];
          a.mark == e.mark && a.origin == Request(states[q].log.issued)
  }

  /** A packet is packed at one step. */
  lemma OneStep(states: seq<State>, steps: seq<Step>, n: nat, fd: Fd, x: nat, j: nat, j': nat)
    requires Run(states, steps, n) && j < |steps| && j' < |steps|
    requires |Packed(states[j], fd)| == x < |Packed(states[j + 1], fd)|
    requires |Packed(states[j'], fd)| == x < |Packed(states[j' + 1], fd)|
    ensures j == j'
  {
    hide Next, Init, Packed;
    if j < j' { PackedGrows(states, steps, n, j + 1, j', fd); }
    if j' < j { PackedGrows(states, steps, n, j' + 1, j, fd); }
  }

  /** A number is issued at one step. */
  lemma OneDispatch(states: seq<State>, steps: seq<Step>, n: nat, q: nat, q': nat)
    requires Run(states, steps, n) && q < |steps| && q' < |steps| && steps[q].Ask? && steps[q'].Ask?
    requires states[q].log.issued == states[q'].log.issued
    ensures q == q'
  {
    hide Init, Ownership.Own, Enabled, Apply;
    assert Next(states[q], steps[q], states[q + 1]) && Next(states[q'], steps[q'], states[q' + 1]);
    Ownership.RunOwns(states, steps, n, q);
    Ownership.RunOwns(states, steps, n, q');
    StepNumbers(states[q], steps[q]);
    StepNumbers(states[q'], steps[q']);
    if q < q' { IssuedGrows(states, steps, n, q + 1, q'); }
    if q' < q { IssuedGrows(states, steps, n, q' + 1, q); }
  }

  lemma BehindAnswer(states: seq<State>, steps: seq<Step>, n: nat, i: nat, fd: Fd, q: nat, x: nat)
    returns (k: nat, j: nat)
    requires Run(states, steps, n) && i < |states| && Answers(states, steps, i, fd, q, x)
    ensures Behind(states, steps, i, fd, q, x, k, j)
  {
    hide Next, Init, Packed, CursorIn, PlanOf, Page, MessageList.Serialized, MessageList.Parsed, Newest;
    var q', e;
    q', k, j, e := PageFetched(states, steps, n, i, fd, x);
    var j': nat :| j' < i && Responds(states, steps, j', states[q].log.issued, fd, x);
    OneStep(states, steps, n, fd, x, j, j');
    OneDispatch(states, steps, n, q, q');
    StoreFits(states, steps, n, k);
    PageParses(states[k].store, states[k].jobs[0].room, states[k].jobs[0].before);
  }

  // ---- all pages ----

  /** The queries behind the first answers, and the steps that pack them. */
  ghost predicate AllBehind(states: seq<State>, steps: seq<Step>, i: nat, fd: Fd, qs: seq<nat>, xs: seq<nat>,
                            ks: seq<nat>, js: seq<nat>)
  {
    && i < |states| == |steps| + 1 && |ks| == |js| <= |qs| == |xs|
    && forall y {:trigger ks[y]} | 0 <= y < |ks| ::
         Answers(states, steps, i, fd, qs[y], xs[y]) && Behind(states, steps, i, fd, qs[y], xs[y], ks[y], js[y])
  }

  lemma {:induction false} FindBehind(states: seq<State>, steps: seq<Step>, n: nat, i: nat, fd: Fd, r: RoomId,
                                      qs: seq<nat>, xs: seq<nat>, len: nat) returns (ks: seq<nat>, js: seq<nat>)
    requires Run(states, steps, n) && Reads(states, steps, i, fd, r, qs, xs) && len <= |xs|
    ensures |ks| == len && AllBehind(states, steps, i, fd, qs, xs, ks, js)
  {
    hide Run, Answers, Behind, AsksOn;
    if len == 0 {
      ks, js := [], [];
    } else {
      var ks', js' := FindBehind(states, steps, n, i, fd, r, qs, xs, len - 1);
      var k, j := BehindAnswer(states, steps, n, i, fd, qs[len - 1], xs[len - 1]);
      ks, js := ks' + [k], js' + [j];
    }
  }

  /** Each load is answered after the page before it was packed. */
  lemma InOrder(states: seq<State>, steps: seq<Step>, n: nat, i: nat, fd: Fd, r: RoomId, qs: seq<nat>, xs: seq<nat>,
                ks: seq<nat>, js: seq<nat>, y: nat)
    requires Run(states, steps, n) && Reads(states, steps, i, fd, r, qs, xs)
    requires AllBehind(states, steps, i, fd, qs, xs, ks, js) && 0 < y < |ks|
    ensures ks[y - 1] < ks[y] && Reader.Follows(states[ks[y - 1]], states[ks[y]])
  {
    hide Next, Init, Packed, Page, CursorIn, PlanOf;
    assert AsksOn(states, steps, i, fd, qs[y], xs[y - 1]);
    assert Behind(states, steps, i, fd, qs[y - 1], xs[y - 1], ks[y - 1], js[y - 1]);
    assert Behind(states, steps, i, fd, qs[y], xs[y], ks[y], js[y]);
    if qs[y] <= js[y - 1] { PackedGrows(states, steps, n, qs[y], js[y - 1], fd); }
    Reader.Sorted(states, steps, n, ks[y - 1]);
    LastIsPositive(states[ks[y - 1]]);
    CursorOfLast(Reader.PageAt(states[ks[y - 1]])[|Reader.PageAt(states[ks[y - 1]])| - 1].id);
  }

  lemma LastIsPositive(s: State)
    requires s.jobs != [] && s.jobs[0].LoadJob? && StoreSorted(s.store) && Reader.PageAt(s) != []
    ensures Reader.PageAt(s)[|Reader.PageAt(s)| - 1].id > 0
  {
    hide Older;
    var o, page := Older(s.store, s.jobs[0].room, s.jobs[0].before), Reader.PageAt(s);
    Pagination.OlderMembers(s.store, s.jobs[0].room, s.jobs[0].before);
    assert page[|page| - 1] == o[|page| - 1] && o[|page| - 1] in o;
  }

  lemma CursorOfLast(id: int64)
    requires id > 0
    ensures CursorIn(I64Bytes(id)) == id
  {
    I64RoundTrip(id);
    assert I64Bytes(id)[..8] == I64Bytes(id);
  }

  lemma {:induction false} Chain(ks: seq<nat>, x: nat, y: nat)
    requires forall z {:trigger ks[z]} | 0 < z < |ks| :: ks[z - 1] < ks[z]
    requires x < y < |ks|
    ensures ks[x] < ks[y]
  {
    assert ks[y - 1] < ks[y];
    if x < y - 1 { Chain(ks, x, y - 1); }
  }

  /** The loads behind the answers are read on, page after page. */
  lemma LoadsReadOn(states: seq<State>, steps: seq<Step>, n: nat, i: nat, fd: Fd, r: RoomId, qs: seq<nat>, xs: seq<nat>,
                    ks: seq<nat>, js: seq<nat>)
    requires Run(states, steps, n) && Reads(states, steps, i, fd, r, qs, xs)
    requires AllBehind(states, steps, i, fd, qs, xs, ks, js) && |ks| == |xs|
    ensures Reader.ReadsOn(states, steps, r, ks)
    ensures states[ks[0]].jobs[0].event.plan == PlanJoin(r) && states[ks[0]].jobs[0].event.fd == fd
  {
    hide Run, Answers, AsksOn, Packed, Reader.PageAt, PageIn, Reader.Follows;
    assert Behind(states, steps, i, fd, qs[0], xs[0], ks[0], js[0]);
    forall y | 0 < y < |ks| ensures ks[y - 1] < ks[y] && Reader.Follows(states[ks[y - 1]], states[ks[y]]) {
      InOrder(states, steps, n, i, fd, r, qs, xs, ks, js, y);
    }
    forall x, y | 0 <= x < y < |ks| ensures ks[x] < ks[y] { Chain(ks, x, y); }
    forall y | 0 <= y < |ks| ensures ks[y] < |steps| && Reader.Loads(states[ks[y]], steps[ks[y]], r) {
      assert Behind(states, steps, i, fd, qs[y], xs[y], ks[y], js[y]);
    }
  }

  lemma {:induction false} SamePages(states: seq<State>, steps: seq<Step>, i: nat, fd: Fd, qs: seq<nat>, xs: seq<nat>,
                                     ks: seq<nat>, js: seq<nat>, len: nat)
    requires AllBehind(states, steps, i, fd, qs, xs, ks, js) && |ks| == |xs| && len <= |xs|
    requires forall y | 0 <= y < |xs| :: xs[y] < |Packed(states[i], fd)| && BringsPage(Packed(states[i], fd)[xs[y]])
    requires forall y | 0 <= y < |ks| ::
               ks[y] < |states| && states[ks[y]].jobs != [] && states[ks[y]].jobs[0].LoadJob?
    ensures PagesIn(states[i], fd, xs[..len]) == Reader.PagesOf(states, ks[..len])
  {
    hide Answers, PageIn, Reader.PageAt, Packed;
    if len > 0 {
      SamePages(states, steps, i, fd, qs, xs, ks, js, len - 1);
      assert xs[..len][..len - 1] == xs[..len - 1] && ks[..len][..len - 1] == ks[..len - 1];
      assert Behind(states, steps, i, fd, qs[len - 1], xs[len - 1], ks[len - 1], js[len - 1]);
    }
  }

  // ---- everything said in the room ----

  lemma {:induction false} AnswersGrowOn(states: seq<State>, steps: seq<Step>, n: nat, i: nat, j: nat)
    requires Run(states, steps, n) && i <= j < |states|
    ensures states[i].log.answers <= states[j].log.answers
  {
    hide Ownership.Own, Enabled, Apply, Init;
    if i < j {
      AnswersGrowOn(states, steps, n, i, j - 1);
      Ownership.RunOwns(states, steps, n, j - 1);
      assert Next(states[j - 1], steps[j - 1], states[j]);
      AnswersGrow(states[j - 1], steps[j - 1]);
    }
  }

  /** The answer on record to the first request is that of its load. */
  lemma MarkIs(states: seq<State>, steps: seq<Step>, n: nat, i: nat, fd: Fd, q: nat, x: nat, k: nat, j: nat, a: nat)
    requires Run(states, steps, n) && i < |states| && Answers(states, steps, i, fd, q, x)
    requires Behind(states, steps, i, fd, q, x, k, j)
    requires a < |states[i].log.answers| && states[i].log.answers[a].origin == Request(states[q].log.issued)
    ensures states[i].log.answers[a].mark == states[k].jobs[0].event.mark
  {
    hide Next, Init, OneFlight, Conserved, Answers, Reader.PageAt, PageIn, Packed, CursorIn;
    RunLinear(states, steps, n, i);
    AnswersGrowOn(states, steps, n, j + 1, i);
    var b := |states[j].log.answers|;
    assert states[i].log.answers[b] == states[j + 1].log.answers[b];
  }

  /** What the client reads are the pages of the loads. */
  lemma PagesAreLoads(states: seq<State>, steps: seq<Step>, n: nat, i: nat, fd: Fd, r: RoomId, qs: seq<nat>,
                      xs: seq<nat>, ks: seq<nat>, js: seq<nat>)
    requires Run(states, steps, n) && Reads(states, steps, i, fd, r, qs, xs)
    requires AllBehind(states, steps, i, fd, qs, xs, ks, js) && |ks| == |xs| && Reader.ReadsOn(states, steps, r, ks)
    ensures PagesIn(states[i], fd, xs) == Reader.PagesOf(states, ks)
    ensures Reader.PageAt(states[ks[|ks| - 1]]) == PageIn(states[i], fd, xs[|xs| - 1])
  {
    hide Run, Answers, AsksOn, PageIn, PagesIn, Reader.PageAt, Reader.PagesOf, Packed, Reader.Follows, Queries;
    AllBring(states, steps, i, fd, r, qs, xs);
    SamePages(states, steps, i, fd, qs, xs, ks, js, |xs|);
    assert xs[..|xs|] == xs && ks[..|ks|] == ks;
    var last := |xs| - 1;
    assert Behind(states, steps, i, fd, qs[last], xs[last], ks[last], js[last]);
  }

  lemma AllBring(states: seq<State>, steps: seq<Step>, i: nat, fd: Fd, r: RoomId, qs: seq<nat>, xs: seq<nat>)
    requires Reads(states, steps, i, fd, r, qs, xs)
    ensures forall y | 0 <= y < |xs| :: xs[y] < |Packed(states[i], fd)| && BringsPage(Packed(states[i], fd)[xs[y]])
  {
    hide AsksOn, Packed, BringsPage;
  }

  lemma StillInHistory(store: seq<Row>, later: seq<Row>, r: RoomId, m: nat, pages: seq<MessageList.Message>)
    requires store <= later && Reader.InHistory(store, r, m, pages)
    ensures Reader.InHistory(later, r, m, pages)
  {
    var q :| 0 <= q < |store| && store[q].room == r && store[q].serial == m && store[q].message in pages;
    assert later[q] == store[q];
  }

  /**
    The client of `fd` joins room `r` and reads, in the bytes of the answers packed on its session, the page that comes
    with the join and then page after page until one is empty. Then every message said in the room by anyone else is in
    these pages; or storing it failed; or, as long as the session has stayed since that join, its broadcast is packed on
    the session or about to be.
   */
  lemma EverythingSaidIsRead(states: seq<State>, steps: seq<Step>, n: nat, i: nat, fd: Fd, w: WorkerId, r: RoomId,
                             qs: seq<nat>, xs: seq<nat>, a: nat, m: nat)
    requires Run(states, steps, n) && Reads(states, steps, i, fd, r, qs, xs)
    requires PageIn(states[i], fd, xs[|xs| - 1]) == []
    requires a < |states[i].log.answers| && states[i].log.answers[a].origin == Request(states[qs[0]].log.issued)
    requires m < |states[i].log.handled| && states[i].log.handled[m].room == r && states[i].log.handled[m].fd != fd
    ensures var s := states[i];
            || Reader.InHistory(s.store, r, m, PagesIn(s, fd, xs)) || m in s.log.lost
            || (Here(s, Key(w, r), fd) && fd in s.log.since && s.log.since[fd] == s.log.answers[a].mark ==>
                  Got(Packed(s, fd), m) || Underway(s, w, m, fd))
  {
    hide Run, Answers, AsksOn, PageIn, Packed, Got, Underway, Here, Reader.InHistory, Reader.PageAt,
         Reader.Follows, CursorIn, Queries, PagesIn, Reader.PagesOf, Reader.DbGrows;
    var ks, js := FindBehind(states, steps, n, i, fd, r, qs, xs, |xs|);
    assert Behind(states, steps, i, fd, qs[0], xs[0], ks[0], js[0]);
    LoadsReadOn(states, steps, n, i, fd, r, qs, xs, ks, js);
    PagesAreLoads(states, steps, n, i, fd, r, qs, xs, ks, js);
    MarkIs(states, steps, n, i, fd, qs[0], xs[0], ks[0], js[0], a);
    Reader.EverythingSaidIsLoaded(states, steps, n, w, r, ks, i, m);
    if Reader.InHistory(states[ks[0]].store, r, m, Reader.PagesOf(states, ks)) {
      Kept(states, steps, n, ks[0], i, r, m, Reader.PagesOf(states, ks));
    }
  }

  lemma Kept(states: seq<State>, steps: seq<Step>, n: nat, k: nat, i: nat, r: RoomId, m: nat,
             pages: seq<MessageList.Message>)
    requires Run(states, steps, n) && k <= i < |states| && Reader.InHistory(states[k].store, r, m, pages)
    ensures Reader.InHistory(states[i].store, r, m, pages)
  {
    hide Run, Reader.InHistory;
    Reader.RunDb(states, steps, n, k, i);
    StillInHistory(states[k].store, states[i].store, r, m, pages);
  }
}
