/** The length-prefixed binary protocol: | length:4 | type:2 | id:4 | payload |, big endian. */
module Framing {
  import opened Streaming
  import opened ByteBuffer

  type u16 = x: int | 0 <= x < 0x1_0000
  type u32 = x: int | 0 <= x < 0x1_0000_0000

  const MAX_BODY_SIZE: nat := 16 * 1024 * 1024

  datatype Message = Message(mtype: u16, id: u32, payload: Bytes)

  /** LOGIN_REQ (1) up to MEMBER_COUNT_UPDATE (15). */
  predicate IsValidMsgType(t: u16) { 1 <= t <= 15 }

  /** The messages a peer can decode again. */
  predicate Encodable(m: Message) { IsValidMsgType(m.mtype) && 6 + |m.payload| <= MAX_BODY_SIZE }

  function PutU16(n: u16): Bytes { [n / 0x100, n % 0x100] }

  function PutU32(n: u32): Bytes { PutU16(n / 0x1_0000) + PutU16(n % 0x1_0000) }

  function GetU16(b: Bytes): u16
    requires |b| >= 2
  {
    (b[0] as int) * 0x100 + b[1] as int
  }

  function GetU32(b: Bytes): u32
    requires |b| >= 4
  {
    GetU16(b) * 0x1_0000 + GetU16(b[2..])
  }

  /** `body_len` is computed in 32 bits. */
  function EncodeMessage(m: Message): (r: Bytes)
    ensures |r| == 10 + |m.payload|
  {
    PutU32((6 + |m.payload|) % 0x1_0000_0000) + PutU16(m.mtype) + PutU32(m.id) + m.payload
  }

  function EncodeAll(ms: seq<Message>): Bytes {
    if ms == [] then [] else EncodeAll(ms[..|ms| - 1]) + EncodeMessage(ms[|ms| - 1])
  }

  /** The framer keeps no state between calls. */
  datatype NoState = NoState

  function FrameStep(s: NoState, b: Bytes): (r: Outcome<NoState, Message>)
    ensures r.Move? ==> 10 <= r.used <= |b| && |r.emitted| == 1
  {
    if |b| < 4 then Wait
    else
      var body := GetU32(b);
      if body > MAX_BODY_SIZE || body < 6 then Fail
      else if |b| < 4 + body then Wait
      else if !IsValidMsgType(GetU16(b[4..])) then Fail
      else Move(NoState, 4 + body, [Message(GetU16(b[4..]), GetU32(b[6..]), b[10..4 + body])])
  }

  /** The framer's decisions in the bytes of the wire: the length is checked as soon as its four bytes are
      there, the type (1 to 15) when the frame is complete. */
  lemma FrameDecides(b: Bytes)
    ensures |b| < 4 ==> FrameStep(NoState, b) == Wait
    ensures |b| >= 4 ==>
              var body := ((b[0] as int * 256 + b[1] as int) * 256 + b[2] as int) * 256 + b[3] as int;
              var r := FrameStep(NoState, b);
              && (r.Wait? <==> 6 <= body <= 16777216 && |b| < 4 + body)
              && (r.Fail? <==> body < 6 || body > 16777216
                               || (|b| >= 4 + body && !(1 <= b[4] as int * 256 + b[5] as int <= 15)))
              && (r.Move? ==>
                    && r.used == 4 + body
                    && r.emitted == [Message(b[4] as int * 256 + b[5] as int,
                                             ((b[6] as int * 256 + b[7] as int) * 256 + b[8] as int) * 256 + b[9] as int,
                                             b[10..4 + body])])
  {
    if |b| >= 4 {
      assert b[2..][0] == b[2] && b[2..][1] == b[3];
      if |b| >= 10 {
        assert b[4..][0] == b[4] && b[4..][1] == b[5];
        assert b[6..][0] == b[6] && b[6..][1] == b[7] && b[6..][2..][0] == b[8] && b[6..][2..][1] == b[9];
      }
    }
  }

  function FrameRank(s: NoState): nat { 0 }

  lemma FrameIncremental()
    ensures Incremental(FrameStep, FrameRank)
  {
    forall s, a: Bytes, b: Bytes | !FrameStep(s, a).Wait? ensures FrameStep(s, a + b) == FrameStep(s, a) {
      FrameStable(s, a, b);
    }
  }

  lemma FrameStable(s: NoState, a: Bytes, b: Bytes)
    requires !FrameStep(s, a).Wait?
    ensures FrameStep(s, a + b) == FrameStep(s, a)
  {
    assert GetU32(a + b) == GetU32(a);
    var body := GetU32(a);
    if 6 <= body <= MAX_BODY_SIZE {
      assert (a + b)[10..4 + body] == a[10..4 + body];
    }
  }

  /** All complete frames of a byte sequence, as one recursive decoder. */
  function Decode(b: Bytes): Stream<NoState, Message> {
    FrameIncremental();
    Drain(FrameStep, FrameRank, NoState, b)
  }

  lemma DecodeStep(b: Bytes)
    ensures match FrameStep(NoState, b)
            case Wait => Decode(b) == Stream([], NoState, b, false)
            case Fail => Decode(b) == Stream([], NoState, b, true)
            case Move(_, used, ms) => used <= |b| && Decode(b) == var t := Decode(b[used..]); t.(out := ms + t.out)
  {
    FrameIncremental();
  }

  lemma {:induction false} DecodeAppend(a: Bytes, b: Bytes)
    ensures var d, whole := Decode(a), Decode(a + b);
            if d.failed then whole.failed && whole.out == d.out && whole.rest == d.rest + b
            else var more := Decode(d.rest + b); whole == more.(out := d.out + more.out)
  {
    FrameIncremental();
    DrainAppend(FrameStep, FrameRank, NoState, a, b);
    assert Decode(a).state == NoState;
  }

  /** Any split of the input gives the messages and the first error of the decoder on the whole stream. */
  lemma FramingChunkingIndependence(chunks: seq<Bytes>)
    ensures Incremental(FrameStep, FrameRank)
    ensures var fed, whole := Feed(FrameStep, FrameRank, NoState, [], chunks), Decode(Flatten(chunks));
            && fed.out == whole.out && fed.failed == whole.failed
            && (!fed.failed ==> fed.rest == whole.rest)
  {
    FrameIncremental();
    ChunkingIndependence(FrameStep, FrameRank, NoState, [], chunks);
    assert [] + Flatten(chunks) == Flatten(chunks);
  }

  lemma GetPutU16(n: u16, rest: Bytes)
    ensures GetU16(PutU16(n) + rest) == n
  {
  }

  lemma GetPutU32(n: u32, rest: Bytes)
    ensures GetU32(PutU32(n) + rest) == n
  {
    assert (PutU32(n) + rest)[2..] == PutU16(n % 0x1_0000) + rest;
    assert PutU32(n) + rest == PutU16(n / 0x1_0000) + (PutU16(n % 0x1_0000) + rest);
    GetPutU16(n / 0x1_0000, PutU16(n % 0x1_0000) + rest);
    GetPutU16(n % 0x1_0000, rest);
  }

  /** The header fields of an encoded message, read back at their offsets. */
  lemma EncodedFields(m: Message, rest: Bytes)
    ensures var b := EncodeMessage(m) + rest;
            && GetU32(b) == (6 + |m.payload|) % 0x1_0000_0000
            && GetU16(b[4..]) == m.mtype && GetU32(b[6..]) == m.id
            && b[10..10 + |m.payload|] == m.payload && b[10 + |m.payload|..] == rest
  {
    var len := PutU32((6 + |m.payload|) % 0x1_0000_0000);
    var kind, id := PutU16(m.mtype), PutU32(m.id);
    var b := EncodeMessage(m) + rest;
    assert b == len + (kind + (id + (m.payload + rest)));
    GetPutU32((6 + |m.payload|) % 0x1_0000_0000, kind + (id + (m.payload + rest)));
    assert b[4..] == kind + (id + (m.payload + rest));
    GetPutU16(m.mtype, id + (m.payload + rest));
    assert b[6..] == id + (m.payload + rest);
    GetPutU32(m.id, m.payload + rest);
  }

  /** Parsing an encoded message gives it back and leaves what follows it, exactly for the
      messages with a known type and at most 16 MiB - 6 bytes of payload. */
  lemma FramingRoundTrip(m: Message, rest: Bytes)
    ensures 1 <= m.mtype <= 15 && |m.payload| <= 16777210 <==>
            FrameStep(NoState, EncodeMessage(m) + rest) == Move(NoState, |EncodeMessage(m)|, [m])
    ensures Encodable(m) <==> 1 <= m.mtype <= 15 && |m.payload| <= 16777210
    ensures (EncodeMessage(m) + rest)[|EncodeMessage(m)|..] == rest
  {
    EncodedFields(m, rest);
  }

  /** A list of encodable messages survives encoding and decoding. */
  lemma {:induction false} DecodeEncodeAll(ms: seq<Message>)
    requires forall m :: m in ms ==> Encodable(m)
    ensures Decode(EncodeAll(ms)) == Stream(ms, NoState, [], false)
  {
    if ms == [] {
      DecodeStep([]);
    } else {
      var front, last := ms[..|ms| - 1], ms[|ms| - 1];
      DecodeEncodeAll(front);
      DecodeAppend(EncodeAll(front), EncodeMessage(last));
      FramingRoundTrip(last, []);
      assert EncodeMessage(last) + [] == EncodeMessage(last) == [] + EncodeMessage(last);
      DecodeStep(EncodeMessage(last));
      assert EncodeMessage(last)[|EncodeMessage(last)|..] == [];
      DecodeStep([]);
      assert front + ([last] + []) == ms;
    }
  }

  /** What a peer decodes from any prefix of an encoded list is a prefix of that list, without error. */
  lemma DecodePrefix(ms: seq<Message>, sent: Bytes)
    requires forall m :: m in ms ==> Encodable(m)
    requires sent <= EncodeAll(ms)
    ensures Decode(sent).out <= ms && !Decode(sent).failed
  {
    DecodeEncodeAll(ms);
    assert EncodeAll(ms) == sent + EncodeAll(ms)[|sent|..];
    DecodeAppend(sent, EncodeAll(ms)[|sent|..]);
  }

  datatype ParseResult = OK | NEED_MORE | ERROR

  /** The framer object: `parse` consumes from the buffer and fills `currentMessage`. */
  class MyProtocol {
    var currentMessage: Message

    constructor ()
    {
      currentMessage := Message(0, 0, []);
    }

    method Parse(buf: Buffer) returns (r: ParseResult)
      requires buf.Valid()
      modifies this, buf
      ensures buf.Valid() && buf.data == old(buf.data)
      ensures match FrameStep(NoState, old(buf.Contents()))
              case Wait => r == NEED_MORE && buf.Contents() == old(buf.Contents())
              case Fail => r == ERROR
              case Move(_, used, ms) =>
                && r == OK && [currentMessage] == ms
                && used <= |old(buf.Contents())| && buf.Contents() == old(buf.Contents())[used..]
      ensures r != OK ==> currentMessage == old(currentMessage)
    {
      var readable := buf.Readable();
      if readable < 4 { return NEED_MORE; }
      var bodyLen := PeekU32(buf);
      if bodyLen > MAX_BODY_SIZE { return ERROR; }
      if bodyLen < 6 { return ERROR; }
      if readable < 4 + bodyLen { return NEED_MORE; }
      var msg := TakeFrame(buf, bodyLen);
      if !IsValidMsgType(msg.mtype) { return ERROR; }
      currentMessage := msg;
      return OK;
    }
  }

  /** Reads the fields of a frame that has arrived completely, moving past each of them. */
  method TakeFrame(buf: Buffer, bodyLen: nat) returns (m: Message)
    requires buf.Valid() && 6 <= bodyLen && 4 + bodyLen <= |buf.Contents()|
    modifies buf
    ensures buf.Valid() && buf.data == old(buf.data)
    ensures var b := old(buf.Contents());
            && m == Message(GetU16(b[4..]), GetU32(b[6..]), b[10..4 + bodyLen])
            && buf.Contents() == b[4 + bodyLen..]
  {
    ghost var b := buf.Contents();
    buf.MoveReadPtr(4);
    var mtype := PeekU16(buf);
    buf.MoveReadPtr(2);
    assert buf.Contents() == b[6..];
    var id := PeekU32(buf);
    buf.MoveReadPtr(4);
    assert buf.Contents() == b[10..];
    Slices(b, 10, bodyLen - 6);
    var payload := Peek(buf, bodyLen - 6);
    if bodyLen > 6 {
      buf.MoveReadPtr(bodyLen - 6);
    }
    m := Message(mtype, id, payload);
  }

  lemma Slices(b: Bytes, m: nat, n: nat)
    requires m + n <= |b|
    ensures b[m..][..n] == b[m..m + n] && b[m..][n..] == b[m + n..]
  {
  }

  method Peek(buf: Buffer, len: nat) returns (bytes: Bytes)
    requires buf.Valid() && |buf.Contents()| >= len
    ensures bytes == buf.Contents()[..len]
  {
    bytes := buf.data[buf.readPtr..buf.readPtr + len];
  }

  method PeekU16(buf: Buffer) returns (n: u16)
    requires buf.Valid() && |buf.Contents()| >= 2
    ensures n == GetU16(buf.Contents())
  {
    var r := buf.readPtr;
    n := GetU16(buf.data[r..r + 2]);
  }

  method PeekU32(buf: Buffer) returns (n: u32)
    requires buf.Valid() && |buf.Contents()| >= 4
    ensures n == GetU32(buf.Contents())
  {
    var r := buf.readPtr;
    n := GetU32(buf.data[r..r + 4]);
  }

  /** The parse loop of a read event on a connection that stays connected: every message it
      hands on, and whether it ends in a protocol error, are those of the recursive decoder. */
  method ParseLoop(protocol: MyProtocol, buf: Buffer) returns (msgs: seq<Message>, failed: bool)
    requires buf.Valid()
    modifies protocol, buf
    ensures buf.Valid() && buf.data == old(buf.data)
    ensures var d := Decode(old(buf.Contents()));
            msgs == d.out && failed == d.failed && (!failed ==> buf.Contents() == d.rest)
  {
    hide FrameStep, Decode;
    msgs, failed := [], false;
    var more := true;
    ghost var whole := Decode(buf.Contents());
    while more
      invariant buf.Valid() && buf.data == old(buf.data)
      invariant more ==> !failed && whole == var d := Decode(buf.Contents()); d.(out := msgs + d.out)
      invariant !more ==> msgs == whole.out && failed == whole.failed && (!failed ==> buf.Contents() == whole.rest)
      decreases if more then 1 + |buf.Contents()| else 0
    {
      DecodeStep(buf.Contents());
      var r := protocol.Parse(buf);
      match r
      case OK => msgs := msgs + [protocol.currentMessage];
      case ERROR => more, failed := false, true;
      case NEED_MORE => more := false;
    }
  }
}
