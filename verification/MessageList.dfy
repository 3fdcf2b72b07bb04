/** The wire format of a list of chat messages (protocol/Message.h). */
module MessageList {
  import opened Bytes
  import opened Codec

  datatype Message = Message(id: int64, sender: int64, epoch: int64, nick: seq<byte>, content: seq<byte>)

  function MessageBytes(m: Message): seq<byte> {
    I64Bytes(m.id) + I64Bytes(m.sender) + I64Bytes(m.epoch) + StrBytes(m.nick) + StrBytes(m.content)
  }

  function BodyBytes(ms: seq<Message>): seq<byte> {
    if ms == [] then [] else MessageBytes(ms[0]) + BodyBytes(ms[1..])
  }

  /** The format: a 32-bit count, then the messages. */
  function Serialized(ms: seq<Message>): seq<byte> {
    U32Bytes(|ms|) + BodyBytes(ms)
  }

  function TakeMessage(b: seq<byte>): Taken<Message> {
    match TakeI64(b)
    case Short => Short
    case Got(id, b1) =>
      match TakeI64(b1)
      case Short => Short
      case Got(sender, b2) =>
        match TakeI64(b2)
        case Short => Short
        case Got(epoch, b3) =>
          match TakeStr(b3)
          case Short => Short
          case Got(nick, b4) =>
            match TakeStr(b4)
            case Short => Short
            case Got(content, rest) => Got(Message(id, sender, epoch, nick, content), rest)
  }

  /** The next `n` messages. */
  function TakeMessages(b: seq<byte>, n: nat): Taken<seq<Message>> {
    if n == 0 then Got([], b)
    else
      match TakeMessage(b)
      case Short => Short
      case Got(m, b1) =>
        match TakeMessages(b1, n - 1)
        case Short => Short
        case Got(ms, rest) => Got([m] + ms, rest)
  }

  /** The list at the front of some bytes. */
  function Parsed(b: seq<byte>): Taken<seq<Message>> {
    match TakeU32(b)
    case Short => Short
    case Got(n, b1) => TakeMessages(b1, n)
  }

  predicate SmallMessage(m: Message) {
    |m.nick| < UINT32_LIMIT && |m.content| < UINT32_LIMIT
  }

  /** Every size fits its 32-bit field. */
  predicate Small(ms: seq<Message>) {
    |ms| < UINT32_LIMIT && forall i | 0 <= i < |ms| :: SmallMessage(ms[i])
  }

  // ---- the loops ----

  lemma {:induction false} BodyAppend(ms: seq<Message>, m: Message)
    ensures BodyBytes(ms + [m]) == BodyBytes(ms) + MessageBytes(m)
  {
    if ms == [] {
      assert ms + [m] == [m] && BodyBytes([m]) == MessageBytes(m) + BodyBytes([]);
    } else {
      assert (ms + [m])[1..] == ms[1..] + [m];
      BodyAppend(ms[1..], m);
    }
  }

  lemma BodyEmpty()
    ensures BodyBytes([]) == []
  {}

  method PutMessage(w: Writer, m: Message)
    modifies w
    ensures w.out == old(w.out) + MessageBytes(m)
  {
    w.Put(I64Bytes(m.id));
    w.Put(I64Bytes(m.sender));
    w.Put(I64Bytes(m.epoch));
    w.PutStr(m.nick);
    w.PutStr(m.content);
  }

  method Serialize(ms: seq<Message>) returns (b: seq<byte>)
    ensures b == Serialized(ms)
  {
    hide BodyBytes, MessageBytes;
    var w := new Writer();
    BodyEmpty();
    w.Put(U32Bytes(|ms|));
    for i := 0 to |ms|
      invariant w.out == U32Bytes(|ms|) + BodyBytes(ms[..i])
    {
      BodyAppend(ms[..i], ms[i]);
      assert ms[..i + 1] == ms[..i] + [ms[i]];
      PutMessage(w, ms[i]);
    }
    assert ms[..|ms|] == ms;
    b := w.out;
  }

  method ReadMessage(r: Reader) returns (ok: bool, m: Message)
    requires r.Valid()
    modifies r
    ensures r.Valid()
    ensures ok == TakeMessage(old(r.Rest())).Got?
    ensures ok ==> Got(m, r.Rest()) == TakeMessage(old(r.Rest()))
  {
    m := Message(0, 0, 0, [], []);
    var id, sender, epoch, nick, content;
    ok, id := r.TakeInt64();
    if !ok { return; }
    ok, sender := r.TakeInt64();
    if !ok { return; }
    ok, epoch := r.TakeInt64();
    if !ok { return; }
    ok, nick := r.TakeString();
    if !ok { return; }
    ok, content := r.TakeString();
    m := Message(id, sender, epoch, nick, content);
  }

  /** The messages read so far and those still to come. */
  function Onto(done: seq<Message>, t: Taken<seq<Message>>): Taken<seq<Message>> {
    match t
    case Short => Short
    case Got(ms, rest) => Got(done + ms, rest)
  }

  lemma OntoNext(done: seq<Message>, b: seq<byte>, n: nat)
    requires n > 0
    ensures TakeMessage(b).Got? ==>
              Onto(done, TakeMessages(b, n)) ==
                  Onto(done + [TakeMessage(b).value], TakeMessages(TakeMessage(b).rest, n - 1))
    ensures TakeMessage(b).Short? ==> Onto(done, TakeMessages(b, n)).Short?
  {
    hide TakeMessage;
    if TakeMessage(b).Got? {
      var m, t := TakeMessage(b).value, TakeMessages(TakeMessage(b).rest, n - 1);
      if t.Got? { assert done + ([m] + t.value) == (done + [m]) + t.value; }
    }
  }

  lemma OntoEnds(done: seq<Message>, b: seq<byte>)
    ensures Onto(done, TakeMessages(b, 0)) == Got(done, b)
  {
    assert done + [] == done;
  }

  lemma OntoNothing(t: Taken<seq<Message>>)
    ensures Onto([], t) == t
  {
    if t.Got? { assert [] + t.value == t.value; }
  }

  lemma ParsedFrom(b: seq<byte>)
    ensures Parsed(b) == if |b| < 4 then Short else TakeMessages(b[4..], U32Value(b[..4]))
  {}

  method Parse(body: seq<byte>) returns (ok: bool, out: seq<Message>)
    ensures ok == Parsed(body).Got?
    ensures ok ==> out == Parsed(body).value
  {
    hide TakeMessage, TakeMessages, Onto, Parsed, U32Value;
    var r := new Reader(body);
    out := [];
    ParsedFrom(body);
    var bytes;
    ok, bytes := r.Take(4);
    if !ok { return; }
    var count := U32Value(bytes);
    OntoNothing(TakeMessages(r.Rest(), count));
    var i := 0;
    while i < count
      invariant 0 <= i <= count && ok && r.Valid()
      invariant Onto(out, TakeMessages(r.Rest(), count - i)) == Parsed(body)
    {
      OntoNext(out, r.Rest(), count - i);
      var m;
      ok, m := ReadMessage(r);
      if !ok { return; }
      out := out + [m];
      i := i + 1;
    }
    OntoEnds(out, r.Rest());
  }

  // ---- round trips ----

  lemma TakeMessageBytes(m: Message, tail: seq<byte>)
    requires SmallMessage(m)
    ensures TakeMessage(MessageBytes(m) + tail) == Got(m, tail)
  {
    hide I64Bytes, StrBytes, TakeI64, TakeStr;
    var b4 := StrBytes(m.content) + tail;
    var b3 := StrBytes(m.nick) + b4;
    var b2 := I64Bytes(m.epoch) + b3;
    var b1 := I64Bytes(m.sender) + b2;
    assert MessageBytes(m) + tail == I64Bytes(m.id) + b1;
    TakeI64Bytes(m.id, b1);
    TakeI64Bytes(m.sender, b2);
    TakeI64Bytes(m.epoch, b3);
    TakeStrBytes(m.nick, b4);
    TakeStrBytes(m.content, tail);
  }

  lemma {:induction false} TakeBodyBytes(ms: seq<Message>, tail: seq<byte>)
    requires forall i | 0 <= i < |ms| :: SmallMessage(ms[i])
    ensures TakeMessages(BodyBytes(ms) + tail, |ms|) == Got(ms, tail)
  {
    hide TakeMessage, MessageBytes;
    if ms == [] {
      assert BodyBytes(ms) + tail == tail;
    } else {
      assert BodyBytes(ms) + tail == MessageBytes(ms[0]) + (BodyBytes(ms[1..]) + tail);
      TakeMessageBytes(ms[0], BodyBytes(ms[1..]) + tail);
      TakeBodyBytes(ms[1..], tail);
      assert [ms[0]] + ms[1..] == ms;
    }
  }

  lemma MessageTaken(b: seq<byte>)
    requires TakeMessage(b).Got?
    ensures b == MessageBytes(TakeMessage(b).value) + TakeMessage(b).rest && SmallMessage(TakeMessage(b).value)
  {
    hide I64Bytes, StrBytes, TakeI64, TakeStr;
    var b1 := TakeI64(b).rest;
    var b2 := TakeI64(b1).rest;
    var b3 := TakeI64(b2).rest;
    var b4 := TakeStr(b3).rest;
    I64Taken(b);
    I64Taken(b1);
    I64Taken(b2);
    StrTaken(b3);
    StrTaken(b4);
  }

  lemma {:induction false} BodyTaken(b: seq<byte>, n: nat)
    requires TakeMessages(b, n).Got?
    decreases n
    ensures var t := TakeMessages(b, n);
            b == BodyBytes(t.value) + t.rest && |t.value| == n && forall i | 0 <= i < n :: SmallMessage(t.value[i])
  {
    hide TakeMessage, MessageBytes;
    if n > 0 {
      MessageTaken(b);
      BodyTaken(TakeMessage(b).rest, n - 1);
      var t := TakeMessages(b, n);
      assert t.value[1..] == TakeMessages(TakeMessage(b).rest, n - 1).value;
    }
  }

  /** Whatever is accepted re-serializes to the front of the input, and its sizes fit their fields. */
  lemma AcceptedIsSerialized(b: seq<byte>)
    requires Parsed(b).Got?
    ensures b == Serialized(Parsed(b).value) + Parsed(b).rest && Small(Parsed(b).value)
  {
    hide TakeMessages, BodyBytes, TakeU32, U32Bytes;
    U32Taken(b);
    BodyTaken(TakeU32(b).rest, TakeU32(b).value);
  }

  /** A list is read back, whatever follows it, exactly when its sizes fit their 32-bit fields. */
  lemma RoundTrip(ms: seq<Message>, tail: seq<byte>)
    ensures Parsed(Serialized(ms) + tail) == Got(ms, tail) <==> Small(ms)
  {
    hide TakeMessages, BodyBytes, TakeU32, U32Bytes;
    if Small(ms) {
      assert Serialized(ms) + tail == U32Bytes(|ms|) + (BodyBytes(ms) + tail);
      TakeU32Bytes(|ms|, BodyBytes(ms) + tail);
      TakeBodyBytes(ms, tail);
    } else if Parsed(Serialized(ms) + tail).Got? {
      AcceptedIsSerialized(Serialized(ms) + tail);
    }
  }

  /** No strict prefix of a serialized list is accepted. */
  lemma PrefixRejected(ms: seq<Message>, k: nat)
    requires Small(ms) && k < |Serialized(ms)|
    ensures Parsed(Serialized(ms)[..k]).Short?
  {
    hide Parsed, Serialized, Small;
    var p, tail := Serialized(ms)[..k], Serialized(ms)[k..];
    if Parsed(p).Got? {
      var ms', rest := Parsed(p).value, Parsed(p).rest;
      AcceptedIsSerialized(p);
      assert Serialized(ms) + [] == p + tail == Serialized(ms') + (rest + tail);
      RoundTrip(ms', rest + tail);
      RoundTrip(ms, []);
    }
  }

  // ---- byte by byte ----

  /** A message: id, sender, time, the length of the nick and the nick, the length of the content and the content. */
  predicate MessageAt(b: seq<byte>, at: nat, m: Message) {
    var c := at + 28 + |m.nick|;
    && NumberAt(b, at, m.id) && NumberAt(b, at + 8, m.sender) && NumberAt(b, at + 16, m.epoch)
    && CountAt(b, at + 24, |m.nick|) && c + 4 + |m.content| <= |b| && b[at + 28..c] == m.nick
    && CountAt(b, c, |m.content|) && b[c + 4..c + 4 + |m.content|] == m.content
  }

  /** The length of a message on the wire. */
  function MessageSize(m: Message): nat {
    32 + |m.nick| + |m.content|
  }

  /** Where the `i`-th message of a list begins: after the count and the messages before it. */
  function OffsetOf(ms: seq<Message>, i: nat): nat
    requires i <= |ms|
  {
    if i == 0 then 4 else OffsetOf(ms, i - 1) + MessageSize(ms[i - 1])
  }

  lemma MessageSlices(m: Message, before: seq<byte>, after: seq<byte>)
    ensures var b, at, c := before + MessageBytes(m) + after, |before|, |before| + 28 + |m.nick|;
            && |MessageBytes(m)| == MessageSize(m) && |b| >= c + 4 + |m.content|
            && b[at..at + 8] == I64Bytes(m.id) && b[at + 8..at + 16] == I64Bytes(m.sender)
            && b[at + 16..at + 24] == I64Bytes(m.epoch) && b[at + 24..at + 28] == U32Bytes(|m.nick|)
            && b[at + 28..c] == m.nick && b[c..c + 4] == U32Bytes(|m.content|)
            && b[c + 4..c + 4 + |m.content|] == m.content
  {
    hide I64Bytes, U32Bytes;
  }

  lemma MessageLayout(m: Message, before: seq<byte>, after: seq<byte>)
    ensures |MessageBytes(m)| == MessageSize(m) && MessageAt(before + MessageBytes(m) + after, |before|, m)
  {
    hide I64Bytes, U32Bytes, MessageBytes, MessageSize;
    MessageSlices(m, before, after);
    I64Layout(m.id);
    I64Layout(m.sender);
    I64Layout(m.epoch);
    U32Layout(|m.nick|);
    U32Layout(|m.content|);
  }

  lemma {:induction false} BodyAt(ms: seq<Message>, i: nat, before: seq<byte>)
    requires i < |ms|
    ensures var at := |before| + OffsetOf(ms, i) - 4;
            MessageAt(before + BodyBytes(ms), at, ms[i])
    decreases i
  {
    hide MessageBytes, MessageAt;
    if i == 0 {
      MessageLayout(ms[0], before, BodyBytes(ms[1..]));
      assert before + BodyBytes(ms) == before + MessageBytes(ms[0]) + BodyBytes(ms[1..]);
    } else {
      MessageLayout(ms[0], [], []);
      BodyAt(ms[1..], i - 1, before + MessageBytes(ms[0]));
      OffsetShifts(ms, i);
      assert before + BodyBytes(ms) == before + MessageBytes(ms[0]) + BodyBytes(ms[1..]);
    }
  }

  lemma {:induction false} OffsetShifts(ms: seq<Message>, i: nat)
    requires 0 < i <= |ms|
    ensures OffsetOf(ms, i) == MessageSize(ms[0]) + OffsetOf(ms[1..], i - 1)
  {
    if i > 1 { OffsetShifts(ms, i - 1); }
  }

  /** The bytes of a list: the number of messages, then every message at its place, in order. */
  lemma ListLayout(ms: seq<Message>)
    ensures CountAt(Serialized(ms), 0, |ms|) && forall i | 0 <= i < |ms| ::
            MessageAt(Serialized(ms), OffsetOf(ms, i), ms[i])
  {
    hide BodyBytes, MessageAt, U32Bytes;
    U32Layout(|ms|);
    forall i | 0 <= i < |ms| ensures MessageAt(Serialized(ms), OffsetOf(ms, i), ms[i]) {
      BodyAt(ms, i, U32Bytes(|ms|));
    }
  }
}
