/**
  Reading a room's history page by page (client/src/Client.cpp, server/src/room/RoomWorker.cpp,
  server/src/db/MessageRepository.h), with messages stored while pages are asked for, queried and received.
 */
module Pagination {
  import opened Bytes
  import opened Codec
  import opened MessageList
  import opened History

  /** Ids are positive and grow with insertion; contents fit the message format. */
  predicate StoreOk(store: seq<Row>) {
    StoreSorted(store) && forall i | 0 <= i < |store| :: SmallMessage(store[i].message)
  }

  predicate Descending(ms: seq<Message>) {
    forall i, j | 0 <= i < j < |ms| :: ms[i].id > ms[j].id
  }

  // ---- the query ----

  predicate StoredAs(store: seq<Row>, room: int64, m: Message) {
    exists k :: 0 <= k < |store| && store[k].room == room && store[k].message == m
  }

  lemma {:induction false} OlderMembers(store: seq<Row>, room: int64, before: int64)
    requires StoreSorted(store)
    ensures forall m | m in Older(store, room, before) ::
              0 < m.id < before && m.id <= LastId(store) && StoredAs(store, room, m)
  {
    if store != [] {
      var last, front := store[|store| - 1], store[..|store| - 1];
      OlderMembers(front, room, before);
      LastBound(store);
      forall m | m in Older(store, room, before)
        ensures 0 < m.id < before && m.id <= LastId(store) && StoredAs(store, room, m)
      {
        if m in Older(front, room, before) {
          var k :| 0 <= k < |front| && front[k].room == room && front[k].message == m;
          assert store[k] == front[k];
        } else {
          assert store[|store| - 1].message == m;
        }
      }
    }
  }

  lemma {:induction false} OlderSmall(store: seq<Row>, room: int64, before: int64)
    requires forall i | 0 <= i < |store| :: SmallMessage(store[i].message)
    ensures forall m | m in Older(store, room, before) :: SmallMessage(m)
  {
    hide SmallMessage;
    if store != [] { OlderSmall(store[..|store| - 1], room, before); }
  }

  lemma {:induction false} OlderHasAll(store: seq<Row>, room: int64, before: int64, k: nat)
    requires k < |store| && store[k].room == room && store[k].message.id < before
    ensures store[k].message in Older(store, room, before)
  {
    var front := store[..|store| - 1];
    if k < |front| {
      assert front[k] == store[k];
      OlderHasAll(front, room, before, k);
    }
  }

  lemma {:induction false} OlderDescends(store: seq<Row>, room: int64, before: int64)
    requires StoreSorted(store)
    ensures Descending(Older(store, room, before))
  {
    if store != [] {
      var front := store[..|store| - 1];
      var o, o' := Older(store, room, before), Older(front, room, before);
      OlderDescends(front, room, before);
      OlderMembers(front, room, before);
      LastBound(store);
      assert forall i | 0 <= i < |o'| :: o'[i] in o';
    }
  }

  /** The query selects exactly the room's messages below the cursor, newest first. */
  lemma OlderIs(store: seq<Row>, room: int64, before: int64)
    requires StoreOk(store)
    ensures var o := Older(store, room, before);
            && Descending(o)
            && (forall m | m in o ::
                  0 < m.id < before && m.id <= LastId(store) && SmallMessage(m) && StoredAs(store, room, m))
            && (forall k | 0 <= k < |store| && store[k].room == room && store[k].message.id < before ::
                store[k].message in o)
  {
    hide Older, StoredAs, StoreSorted, SmallMessage;
    OlderDescends(store, room, before);
    OlderMembers(store, room, before);
    OlderSmall(store, room, before);
    forall k | 0 <= k < |store| && store[k].room == room && store[k].message.id < before
      ensures store[k].message in Older(store, room, before)
    {
      OlderHasAll(store, room, before, k);
    }
  }

  lemma LastBound(store: seq<Row>)
    requires StoreSorted(store) && store != []
    ensures LastId(store[..|store| - 1]) < LastId(store)
  {}

  /** A lower cursor that is above everything selected selects the same. */
  lemma {:induction false} OlderAll(store: seq<Row>, room: int64, a: int64, b: int64)
    requires b <= a && forall m | m in Older(store, room, a) :: m.id < b
    ensures Older(store, room, a) == Older(store, room, b)
  {
    if store != [] {
      var o := Older(store, room, a);
      assert forall m | m in Older(store[..|store| - 1], room, a) :: m in o;
      assert store[|store| - 1].room == room && store[|store| - 1].message.id < a ==> o[0] in o;
      OlderAll(store[..|store| - 1], room, a, b);
    }
  }

  /** A message stored later is not older than the cursor. */
  lemma OlderKept(store: seq<Row>, row: Row, room: int64, before: int64)
    requires row.message.id >= before
    ensures Older(store + [row], room, before) == Older(store, room, before)
  {
    assert (store + [row])[..|store|] == store;
  }

  lemma OlderUnfold(store: seq<Row>, room: int64, before: int64)
    requires store != []
    ensures var last, front := store[|store| - 1], store[..|store| - 1];
            && store == front + [last]
            && Older(store, room, before) ==
               (if last.room == room && last.message.id < before then [last.message] else [])
                   + Older(front, room, before)
  {}

  lemma Bounded(store: seq<Row>, room: int64, before: int64, i: nat)
    requires StoreSorted(store) && store != [] && i < |Older(store[..|store| - 1], room, before)|
    ensures Older(store[..|store| - 1], room, before)[i].id < store[|store| - 1].message.id
  {
    var front := store[..|store| - 1];
    OlderMembers(front, room, before);
    assert Older(front, room, before)[i] in Older(front, room, before);
    LastBound(store);
  }

  /** The newest message is the last one stored: the others are those older than it. */
  lemma OlderFirst(store: seq<Row>, room: int64, before: int64)
    requires StoreSorted(store) && store != [] && store[|store| - 1].room == room
             && store[|store| - 1].message.id < before
    ensures Older(store[..|store| - 1], room, before) == Older(store, room, store[|store| - 1].message.id)
  {
    hide Older, StoredAs, SmallMessage;
    var last, front := store[|store| - 1], store[..|store| - 1];
    assert store == front + [last];
    OlderMembers(front, room, before);
    LastBound(store);
    OlderAll(front, room, before, last.message.id);
    OlderKept(front, last, room, last.message.id);
  }

  lemma ConsSuffix(x: Message, o': seq<Message>, i: nat)
    requires i <= |o'|
    ensures ([x] + o')[i + 1..] == o'[i..] && ([x] + o')[i] == if i == 0 then x else o'[i - 1]
  {}

  /** The messages after the `i`-th are those older than it. */
  lemma {:induction false} OlderSuffix(store: seq<Row>, room: int64, before: int64, i: nat)
    requires StoreSorted(store) && i < |Older(store, room, before)|
    ensures Older(store, room, before)[i + 1..] == Older(store, room, Older(store, room, before)[i].id)
  {
    assert store != [];
    hide Older, StoreSorted;
    var last, front := store[|store| - 1], store[..|store| - 1];
    var o' := Older(front, room, before);
    FrontOk(store);
    OlderUnfold(store, room, before);
    if last.room == room && last.message.id < before {
      ConsSuffix(last.message, o', i);
      if i == 0 {
        OlderFirst(store, room, before);
      } else {
        OlderSuffix(front, room, before, i - 1);
        Bounded(store, room, before, i - 1);
        OlderKept(front, last, room, o'[i - 1].id);
      }
    } else {
      assert [] + o' == o';
      OlderSuffix(front, room, before, i);
      Bounded(store, room, before, i);
      OlderKept(front, last, room, o'[i].id);
    }
  }

  lemma FrontOk(store: seq<Row>)
    requires StoreSorted(store) && store != []
    ensures StoreSorted(store[..|store| - 1])
  {}

  /** A page is the newest part of what is older than the cursor; the rest is older than its last message. */
  lemma PageSplits(store: seq<Row>, room: int64, before: int64)
    requires StoreSorted(store)
    ensures var page := Page(store, room, before);
            if page == [] then Older(store, room, before) == []
            else Older(store, room, before) == page + Older(store, room, page[|page| - 1].id)
    ensures Page(store, room, before) <= Older(store, room, before)
  {
    hide Older;
    var page, o := Page(store, room, before), Older(store, room, before);
    if page != [] {
      OlderSuffix(store, room, before, |page| - 1);
      assert o == o[..|page|] + o[|page|..];
    }
  }

  lemma OkSorted(store: seq<Row>)
    requires StoreOk(store)
    ensures StoreSorted(store)
  {}

  lemma PageSmall(store: seq<Row>, room: int64, before: int64)
    requires StoreOk(store)
    ensures Small(Page(store, room, before))
  {
    hide Older;
    var page, o := Page(store, room, before), Older(store, room, before);
    OlderIs(store, room, before);
    forall i | 0 <= i < |page| ensures SmallMessage(page[i]) { assert page[i] in o; }
  }

  // ---- the reader ----

  /** A load on its way to the database with its cursor, or on its way back with a page. */
  datatype Load = NoLoad | Asked(body: seq<byte>) | Answered(body: seq<byte>) | Refused

  /** `seen` collects the messages of all pages since the client entered the room. */
  datatype Reading = Reading(store: seq<Row>, room: int64, oldest: int64, seen: seq<Message>, load: Load)

  /** `print_history`: a list that does not parse or is empty leaves the cursor alone. */
  function Printed(r: Reading, body: seq<byte>): Reading {
    match Parsed(body)
    case Short => r
    case Got(ms, _) => if ms == [] then r else r.(oldest := ms[|ms| - 1].id, seen := r.seen + ms)
  }

  /**
    A message is stored; the client asks (an empty body is the load inside a join); the database answers with a page or
    fails, and the answer then carries an error and no page; the client reads.
   */
  datatype Step = Insert(row: Row) | Ask(first: bool) | Query | Refuse | Receive

  predicate Enabled(r: Reading, step: Step) {
    match step
    case Insert(row) => LastId(r.store) < row.message.id < INT64_MAX && SmallMessage(row.message)
    case Ask(first) => r.load.NoLoad? && (first ==> r.oldest == 0)
    case Query => r.load.Asked?
    case Refuse => r.load.Asked?
    case Receive => r.load.Answered? || r.load.Refused?
  }

  function Apply(r: Reading, step: Step): Reading
    requires Enabled(r, step)
  {
    match step
    case Insert(row) => r.(store := r.store + [row])
    case Ask(first) => r.(load := Asked(if first then [] else I64Bytes(r.oldest)))
    case Query => r.(load := Answered(Serialized(Page(r.store, r.room, CursorOf(r.load.body)))))
    case Refuse => r.(load := Refused)
    case Receive => if r.load.Refused? then r.(load := NoLoad) else Printed(r, r.load.body).(load := NoLoad)
  }

  function Cursor(r: Reading): int64 {
    if r.oldest <= 0 then INT64_MAX else r.oldest
  }

  /** Everything up to the first message seen is what was seen, then what is older than the cursor. */
  ghost predicate Complete(r: Reading) {
    if r.seen == [] then r.oldest == 0
    else && 0 < r.seen[0].id <= LastId(r.store) && r.seen[0].id < INT64_MAX && r.oldest == r.seen[|r.seen| - 1].id
         && 0 < r.oldest
         && Older(r.store, r.room, r.seen[0].id + 1) == r.seen + Older(r.store, r.room, r.oldest)
  }

  /**
    A page on its way back continues exactly where the client is: with older messages, or with the newest of its
    moment.
   */
  ghost predicate Continues(r: Reading, page: seq<Message>) {
    if page == [] then r.seen == [] || Older(r.store, r.room, r.oldest) == []
    else && Small(page) && 0 < page[|page| - 1].id && 0 < page[0].id <= LastId(r.store) && page[0].id < INT64_MAX
         && (if r.seen == [] then Older(r.store, r.room, page[0].id + 1) ==
             page + Older(r.store, r.room, page[|page| - 1].id)
             else Older(r.store, r.room, r.oldest) == page + Older(r.store, r.room, page[|page| - 1].id))
  }

  ghost predicate LoadOk(r: Reading) {
    match r.load
    case NoLoad => true
    case Refused => true
    case Asked(body) => CursorOf(body) == Cursor(r)
    case Answered(body) => exists page :: body == Serialized(page) && Small(page) && Continues(r, page)
  }

  ghost predicate Inv(r: Reading) {
    StoreOk(r.store) && Complete(r) && LoadOk(r)
  }

  lemma InsertComplete(r: Reading, row: Row)
    requires StoreOk(r.store) && Complete(r) && Enabled(r, Insert(row))
    ensures Complete(r.(store := r.store + [row]))
  {
    hide StoreOk, Older;
    if r.seen != [] {
      InsertStore(r.store, row);
      OlderKept(r.store, row, r.room, r.seen[0].id + 1);
      SeenBelow(r);
      OlderKept(r.store, row, r.room, r.oldest);
    }
  }

  lemma InsertContinues(r: Reading, row: Row, page: seq<Message>)
    requires StoreOk(r.store) && Complete(r) && Enabled(r, Insert(row)) && Continues(r, page)
    ensures Continues(r.(store := r.store + [row]), page)
  {
    hide StoreOk, Older, Small;
    InsertStore(r.store, row);
    if r.seen != [] {
      SeenBelow(r);
      OlderKept(r.store, row, r.room, r.oldest);
    }
    if page != [] {
      PageBelow(r, page);
      OlderKept(r.store, row, r.room, page[|page| - 1].id);
      OlderKept(r.store, row, r.room, page[0].id + 1);
    }
  }

  lemma InsertKeeps(r: Reading, row: Row)
    requires Inv(r) && Enabled(r, Insert(row))
    ensures Inv(Apply(r, Insert(row)))
  {
    hide StoreOk, Serialized, Small, Older, Complete, Continues;
    InsertStore(r.store, row);
    InsertComplete(r, row);
    if r.load.Answered? {
      var page: seq<Message> :| r.load.body == Serialized(page) && Small(page) && Continues(r, page);
      InsertContinues(r, row, page);
    }
  }

  lemma InsertStore(store: seq<Row>, row: Row)
    requires StoreOk(store) && LastId(store) < row.message.id < INT64_MAX && SmallMessage(row.message)
    ensures StoreOk(store + [row]) && LastId(store) < LastId(store + [row])
  {
    var t := store + [row];
    forall i, j | 0 <= i < j < |t| ensures t[i].message.id < t[j].message.id {
      if j == |store| { LastIsMost(store, i); }
    }
  }

  lemma LastIsMost(store: seq<Row>, i: nat)
    requires StoreOk(store) && i < |store|
    ensures store[i].message.id <= LastId(store)
  {}

  lemma SeenBelow(r: Reading)
    requires StoreOk(r.store) && Complete(r) && r.seen != []
    ensures r.oldest <= r.seen[0].id
  {
    OlderIs(r.store, r.room, r.seen[0].id + 1);
    var o := Older(r.store, r.room, r.seen[0].id + 1);
    assert o[|r.seen| - 1] == r.seen[|r.seen| - 1] && o[|r.seen| - 1] in o;
  }

  lemma PageBelow(r: Reading, page: seq<Message>)
    requires StoreOk(r.store) && Continues(r, page) && page != []
    ensures page[|page| - 1].id <= page[0].id
  {
    var before := if r.seen == [] then page[0].id + 1 else r.oldest;
    OlderIs(r.store, r.room, before);
    var o := Older(r.store, r.room, before);
    assert o[0] == page[0] && o[|page| - 1] == page[|page| - 1];
  }

  lemma AskKeeps(r: Reading, first: bool)
    requires Inv(r) && Enabled(r, Ask(first))
    ensures Inv(Apply(r, Ask(first)))
  {
    hide StoreOk, Older;
    I64RoundTrip(r.oldest);
    assert I64Bytes(r.oldest)[..8] == I64Bytes(r.oldest);
  }

  /** The query answers with the page that continues where the client is. */
  lemma QueryContinues(r: Reading)
    requires StoreOk(r.store) && Complete(r)
    ensures Continues(r, Page(r.store, r.room, Cursor(r))) && Small(Page(r.store, r.room, Cursor(r)))
  {
    hide Older, Page;
    var page, before := Page(r.store, r.room, Cursor(r)), Cursor(r);
    PageSplits(r.store, r.room, before);
    PageSmall(r.store, r.room, before);
    OlderIs(r.store, r.room, before);
    var o := Older(r.store, r.room, before);
    if page != [] {
      assert page[0] == o[0] && page[|page| - 1] == o[|page| - 1] && o[0] in o && o[|page| - 1] in o;
      if r.seen == [] {
        OlderSuffix(r.store, r.room, before, 0);
        OlderFrom(r.store, r.room, before);
      }
    }
  }

  /** The newest message and everything older is everything below the cursor. */
  lemma OlderFrom(store: seq<Row>, room: int64, before: int64)
    requires StoreOk(store) && Older(store, room, before) != [] && Older(store, room, before)[0].id < INT64_MAX
    ensures Older(store, room, Older(store, room, before)[0].id + 1) == Older(store, room, before)
  {
    hide Older;
    var o := Older(store, room, before);
    OlderIs(store, room, before);
    assert o[0] in o;
    OlderAll(store, room, before, o[0].id + 1);
  }

  lemma QueryKeeps(r: Reading)
    requires Inv(r) && Enabled(r, Query)
    ensures Inv(Apply(r, Query))
  {
    hide StoreOk, Older, Page, Serialized, Small, CursorOf, Complete, Continues;
    QueryContinues(r);
    var page := Page(r.store, r.room, Cursor(r));
    var t := Apply(r, Query);
    assert t.load.body == Serialized(page);
    SameReader(r, t, page);
  }

  lemma SameReader(r: Reading, t: Reading, page: seq<Message>)
    requires t == r.(load := t.load)
    ensures Complete(t) == Complete(r) && Continues(t, page) == Continues(r, page)
  {}

  /** The client reads exactly the page the database sent. */
  lemma ReceiveKeeps(r: Reading)
    requires Inv(r) && Enabled(r, Receive)
    ensures Inv(Apply(r, Receive))
  {
    hide StoreOk, Older, Serialized, Small, Parsed;
    if r.load.Refused? { return; }
    var page: seq<Message> :| r.load.body == Serialized(page) && Small(page) && Continues(r, page);
    RoundTrip(page, []);
    assert Serialized(page) + [] == Serialized(page);
    var t := Apply(r, Receive);
    if page != [] {
      assert t.seen == r.seen + page && t.seen[|t.seen| - 1] == page[|page| - 1];
      if r.seen != [] {
        assert r.seen + (page + Older(r.store, r.room, t.oldest)) == t.seen + Older(r.store, r.room, t.oldest);
      } else {
        assert t.seen == page;
      }
    }
  }

  lemma RefuseKeeps(r: Reading)
    requires Inv(r) && Enabled(r, Refuse)
    ensures Inv(Apply(r, Refuse))
  {
    hide StoreOk, Older;
  }

  lemma StepKeepsInv(r: Reading, step: Step)
    requires Inv(r) && Enabled(r, step)
    ensures Inv(Apply(r, step))
  {
    hide Inv, Apply;
    match step
    case Insert(row) => InsertKeeps(r, row);
    case Ask(first) => AskKeeps(r, first);
    case Query => QueryKeeps(r);
    case Refuse => RefuseKeeps(r);
    case Receive => ReceiveKeeps(r);
  }

  // ---- every run ----

  predicate Next(r: Reading, step: Step, t: Reading) {
    Enabled(r, step) && t == Apply(r, step)
  }

  /** A run since the client entered the room, with whatever was stored by then. */
  predicate Run(rs: seq<Reading>, steps: seq<Step>) {
    && |rs| == |steps| + 1 && StoreOk(rs[0].store) && rs[0].oldest == 0 && rs[0].seen == [] && rs[0].load.NoLoad?
    && forall i {:trigger steps[i]} | 0 <= i < |steps| :: Next(rs[i], steps[i], rs[i + 1])
  }

  lemma {:induction false} RunKeepsInv(rs: seq<Reading>, steps: seq<Step>, i: nat)
    requires Run(rs, steps) && i < |rs|
    ensures Inv(rs[i])
  {
    if i > 0 {
      hide Inv, Enabled, Apply;
      RunKeepsInv(rs, steps, i - 1);
      assert Next(rs[i - 1], steps[i - 1], rs[i]);
      StepKeepsInv(rs[i - 1], steps[i - 1]);
    }
  }

  /**
    The pages read so far, one after the other, are strictly descending and are exactly the room's stored messages
    from the first one returned down to the cursor: no gap, no duplicate.
   */
  lemma PagesAreComplete(rs: seq<Reading>, steps: seq<Step>, i: nat)
    requires Run(rs, steps) && i < |rs| && rs[i].seen != []
    ensures var r := rs[i];
            && Descending(r.seen) && r.oldest == r.seen[|r.seen| - 1].id
            && (forall m | m in r.seen :: StoredAs(r.store, r.room, m))
            && (forall k | 0 <= k < |r.store| && r.store[k].room == r.room
                && r.oldest <= r.store[k].message.id <= r.seen[0].id ::
                  r.store[k].message in r.seen)
  {
    hide StoreOk, Older;
    RunKeepsInv(rs, steps, i);
    var r := rs[i];
    var o := Older(r.store, r.room, r.seen[0].id + 1);
    OlderIs(r.store, r.room, r.seen[0].id + 1);
    OlderIs(r.store, r.room, r.oldest);
    assert forall k | 0 <= k < |r.seen| :: r.seen[k] == o[k];
    forall m | m in r.seen ensures m in o {}
    forall k | 0 <= k < |r.store| && r.store[k].room == r.room && r.oldest <= r.store[k].message.id <= r.seen[0].id
      ensures r.store[k].message in r.seen
    {
      assert r.store[k].message in o;
    }
  }

  /** An empty page after others means that nothing older is stored. */
  lemma EmptyPageIsTheEnd(rs: seq<Reading>, steps: seq<Step>, i: nat)
    requires Run(rs, steps) && i < |rs| && rs[i].load.Answered? && Parsed(rs[i].load.body) == Got([], [])
             && rs[i].seen != []
    ensures forall k | 0 <= k < |rs[i].store| && rs[i].store[k].room == rs[i].room ::
            rs[i].store[k].message.id >= rs[i].oldest
  {
    hide StoreOk, Older, Serialized, Small, Parsed;
    RunKeepsInv(rs, steps, i);
    var r := rs[i];
    var page: seq<Message> :| r.load.body == Serialized(page) && Small(page) && Continues(r, page);
    RoundTrip(page, []);
    assert Serialized(page) + [] == Serialized(page);
    OlderIs(r.store, r.room, r.oldest);
    assert forall m :: m !in Older(r.store, r.room, r.oldest);
  }

  /** A first page that is empty: the room had no message when the query ran. */
  lemma EmptyFirstPage(rs: seq<Reading>, steps: seq<Step>, i: nat)
    requires Run(rs, steps) && i < |steps| && steps[i].Query? && rs[i].seen == []
    ensures Parsed(rs[i + 1].load.body) == Got([], [])
            <==> forall k | 0 <= k < |rs[i].store| :: rs[i].store[k].room != rs[i].room
  {
    hide StoreOk, Older, Serialized, Small, Parsed;
    RunKeepsInv(rs, steps, i);
    assert Next(rs[i], steps[i], rs[i + 1]);
    var r := rs[i];
    var page := Page(r.store, r.room, INT64_MAX);
    OkSorted(r.store);
    PageSplits(r.store, r.room, INT64_MAX);
    PageSmall(r.store, r.room, INT64_MAX);
    OlderIs(r.store, r.room, INT64_MAX);
    RoundTrip(page, []);
    assert Serialized(page) + [] == Serialized(page);
    StoredBelow(r.store);
    if page == [] {
      assert forall m :: m !in Older(r.store, r.room, INT64_MAX);
    } else {
      assert page[0] in Older(r.store, r.room, INT64_MAX);
    }
  }

  lemma StoredBelow(store: seq<Row>)
    requires StoreOk(store)
    ensures forall k | 0 <= k < |store| :: store[k].message.id < INT64_MAX
  {}
}
