/** The stored messages and the history query (server/src/db/MessageRepository.h). */
module History {
  import opened Bytes
  import opened MessageList

  datatype Row = Row(room: int64, message: Message, serial: nat)

  const PAGE_LIMIT: nat := 50

  /** Messages of `room` with an id below `before`, newest first; `store` is in insertion order. */
  function Older(store: seq<Row>, room: int64, before: int64): seq<Message> {
    if store == [] then []
    else
      var last := store[|store| - 1];
      (if last.room == room && last.message.id < before then [last.message] else [])
      + Older(store[..|store| - 1], room, before)
  }

  /** The query: newest first, at most 50 rows. */
  function Page(store: seq<Row>, room: int64, before: int64): seq<Message> {
    var all := Older(store, room, before);
    if |all| <= PAGE_LIMIT then all else all[..PAGE_LIMIT]
  }

  /**
    The cursor a load request carries: the first eight body bytes, anything absent or not positive meaning "newest".
   */
  function CursorOf(body: seq<byte>): int64 {
    var asked := if |body| >= 8 then I64Value(body[..8]) else 0;
    if asked <= 0 then INT64_MAX else asked
  }

  function LastId(store: seq<Row>): int {
    if store == [] then 0 else store[|store| - 1].message.id
  }

  /** Stored messages have increasing positive ids. */
  predicate StoreSorted(store: seq<Row>) {
    && (forall i, j | 0 <= i < j < |store| :: store[i].message.id < store[j].message.id)
    && (forall i | 0 <= i < |store| :: 0 < store[i].message.id < INT64_MAX)
  }
}
