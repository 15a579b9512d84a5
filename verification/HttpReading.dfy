/** The read loop of a connection that speaks HTTP, errors included: a rejected request is answered with
status 400 and the parser starts over, but the bytes of the rejected call stay in the buffer. */
module HttpReading {
  import opened Streaming
  import opened ByteBuffer
  import opened Framing
  import opened Http

  /** What one read makes of the bytes at hand. */
  datatype Reaction = Reaction(out: seq<HttpRequest>, rejected: bool, state: HttpState, kept: Bytes)

  function OnRead(s: HttpState, b: Bytes): Reaction
    requires Advances(HttpStep, HttpRank)
    decreases |b|, HttpRank(s)
  {
    var u := Until(HttpStep, HttpRank, s, b);
    if u.failed then Reaction([], true, INITIAL, b)
    else if u.out == [] then Reaction([], false, u.state, u.rest)
    else
      CallShape(s, b);
      var tail := OnRead(INITIAL, u.rest);
      tail.(out := u.out + tail.out)
  }

  /** Over a sequence of reads: the requests delivered, and how many reads ended in a rejection. */
  datatype Service = Service(out: seq<HttpRequest>, rejections: nat)

  function Served(s: HttpState, kept: Bytes, chunks: seq<Bytes>): Service
    requires Advances(HttpStep, HttpRank)
    decreases |chunks|
  {
    if chunks == [] then Service([], 0)
    else
      var r := OnRead(s, kept + chunks[0]);
      var tail := Served(r.state, r.kept, chunks[1..]);
      Service(r.out + tail.out, (if r.rejected then 1 else 0) + tail.rejections)
  }

  /** A call that finds a request finds one, moves on, and leaves the parser at its start. */
  lemma CallShape(s: HttpState, b: Bytes)
    requires Advances(HttpStep, HttpRank)
    ensures var u := Until(HttpStep, HttpRank, s, b);
            u.out != [] ==> u.state == INITIAL && !u.failed && |u.out| == 1
                            && (|u.rest| < |b| || (u.rest == b && HttpRank(INITIAL) < HttpRank(s)))
    ensures s.phase != DONE ==> Until(HttpStep, HttpRank, s, b).state.phase != DONE
  {
    UntilShrinks(HttpStep, HttpRank, s, b);
    CallEnds(s, b);
    hide HttpStep, Until, Advances;
  }

  lemma {:induction false} CallEnds(s: HttpState, b: Bytes)
    requires Advances(HttpStep, HttpRank)
    ensures var u := Until(HttpStep, HttpRank, s, b);
            && (u.out != [] ==> u.state == INITIAL && !u.failed && |u.out| == 1)
            && (u.out == [] && s.phase != DONE ==> u.state.phase != DONE)
    decreases |b|, HttpRank(s)
  {
    hide HttpStep, HttpRank;
    HttpStepShape(s, b);
    match HttpStep(s, b)
    case Wait =>
    case Fail =>
    case Move(next, used, emitted) =>
      if emitted == [] { CallEnds(next, b[used..]); }
  }

  // ----- without an error: the one-shot decoder -----

  lemma {:induction false} OnReadDrains(s: HttpState, b: Bytes)
    requires Advances(HttpStep, HttpRank)
    ensures var r, d := OnRead(s, b), Drain(HttpStep, HttpRank, s, b);
            && r.rejected == d.failed && r.out == d.out
            && (if d.failed then r.state == INITIAL else r.state == d.state && r.kept == d.rest)
    decreases |b|, HttpRank(s)
  {
    hide HttpStep, HttpRank, Advances, Drain, Until;
    DrainByCalls(HttpStep, HttpRank, s, b);
    CallShape(s, b);
    var u := Until(HttpStep, HttpRank, s, b);
    if u.out != [] { OnReadDrains(INITIAL, u.rest); }
  }

  /** Exactly the streams the one-shot decoder accepts are read without a rejection, in whatever pieces
      they arrive; and then the requests delivered are the decoder's. */
  lemma {:induction false} CleanStream(s: HttpState, kept: Bytes, chunks: seq<Bytes>)
    requires HttpStep(s, kept).Wait?
    ensures Advances(HttpStep, HttpRank)
    ensures var v, d := Served(s, kept, chunks), Drain(HttpStep, HttpRank, s, kept + Flatten(chunks));
            (v.rejections == 0 <==> !d.failed) && (!d.failed ==> v.out == d.out)
    decreases |chunks|
  {
    HttpIncremental();
    hide HttpStep, Advances, Stable;
    if chunks == [] {
      assert kept + Flatten(chunks) == kept;
      assert Drain(HttpStep, HttpRank, s, kept) == Stream([], s, kept, false);
    } else {
      hide Drain;
      var b := kept + chunks[0];
      OnReadDrains(s, b);
      DrainSettles(HttpStep, HttpRank, s, b);
      DrainAppend(HttpStep, HttpRank, s, b, Flatten(chunks[1..]));
      assert kept + Flatten(chunks) == b + Flatten(chunks[1..]);
      var r := OnRead(s, b);
      if !r.rejected { CleanStream(r.state, r.kept, chunks[1..]); }
    }
  }

  // ----- after an error -----

  /** Once a rejected request is in the buffer from its first line on, nothing is ever delivered again
      and every read ends in a rejection. */
  lemma {:induction false} StaysRejected(kept: Bytes, chunks: seq<Bytes>)
    requires Advances(HttpStep, HttpRank) && Until(HttpStep, HttpRank, INITIAL, kept).failed
    ensures Served(INITIAL, kept, chunks) == Service([], |chunks|)
    decreases |chunks|
  {
    HttpIncremental();
    hide HttpStep, Advances, Stable, Until, HttpRank;
    if chunks != [] {
      UntilKeepsFailing(HttpStep, HttpRank, INITIAL, kept, chunks[0]);
      StaysRejected(kept + chunks[0], chunks[1..]);
    }
  }

  /** With `kept` left behind by a rejection: all later reads are rejected and deliver nothing, if and
      only if `kept`, read as a new request, is rejected. */
  lemma StuckIff(kept: Bytes)
    ensures Advances(HttpStep, HttpRank)
    ensures (forall chunks :: Served(INITIAL, kept, chunks) == Service([], |chunks|))
            <==> Until(HttpStep, HttpRank, INITIAL, kept).failed
  {
    HttpIncremental();
    hide HttpStep, Advances, Stable, Until, HttpRank;
    if Until(HttpStep, HttpRank, INITIAL, kept).failed {
      forall chunks ensures Served(INITIAL, kept, chunks) == Service([], |chunks|) { StaysRejected(kept, chunks); }
    } else {
      OneRead(kept);
      CallShape(INITIAL, kept);
    }
  }

  /** A read that brings nothing new, and what its service is. */
  lemma OneRead(kept: Bytes)
    requires Advances(HttpStep, HttpRank)
    ensures var r := OnRead(INITIAL, kept);
            Served(INITIAL, kept, [[]]) == Service(r.out, if r.rejected then 1 else 0)
  {
    hide HttpStep, Advances, OnRead;
    assert kept + [] == kept;
    var r := OnRead(INITIAL, kept);
    var nothing: seq<Bytes> := [[]];
    assert nothing[1..] == [];
    assert Served(r.state, r.kept, []) == Service([], 0);
    assert r.out + [] == r.out;
  }

  // ----- the pieces in which a rejected stream arrives matter -----

  /** A request line and header fields, announcing a body length that is not accepted. */
  ghost predicate BadHead(r: HttpRequest, fields: seq<Field>) {
    && r.httpMethod != OTHER_METHOD && Word(r.path) && r.body == []
    && (forall f :: f in fields ==> GoodField(f))
    && r.header == Collected(fields, map[])
    && CONTENT_LENGTH in r.header && BodyLength(r.header[CONTENT_LENGTH]) == BadLength
  }

  function Head(r: HttpRequest, fields: seq<Field>): Bytes { RequestLine(r) + CRLF + FieldLines(fields) + CRLF }

  lemma BadHeadRead(r: HttpRequest, fields: seq<Field>, rest: Bytes)
    requires BadHead(r, fields)
    ensures Advances(HttpStep, HttpRank)
    ensures var u := Until(HttpStep, HttpRank, INITIAL, Head(r, fields) + rest);
            if rest == [] then u == Stream([], HttpState(BODY, r), [], false) else u.failed
  {
    var r1 := EMPTY_REQUEST.(httpMethod := r.httpMethod, path := r.path, version := r.version);
    assert Head(r, fields) + rest == RequestLine(r) + CRLF + (FieldLines(fields) + CRLF + rest);
    FirstLineRead(r, FieldLines(fields) + CRLF + rest);
    FieldsRead(fields, r1, rest);
    BadLengthRead(r, rest);
    assert r1.(header := r.header) == r;
    hide *;
  }

  lemma BadLengthRead(r: HttpRequest, rest: Bytes)
    requires r.body == [] && CONTENT_LENGTH in r.header && BodyLength(r.header[CONTENT_LENGTH]) == BadLength
    ensures Advances(HttpStep, HttpRank)
    ensures var u := Until(HttpStep, HttpRank, HttpState(HEADERS, r), CRLF + rest);
            if rest == [] then u == Stream([], HttpState(BODY, r), [], false) else u.failed
  {
    HttpIncremental();
    EmptyLineStep(r, rest);
    assert r.(body := []) == r && [] + rest == rest;
    UntilTurn(HttpStep, HttpRank, HttpState(HEADERS, r), CRLF + rest);
    UntilTurn(HttpStep, HttpRank, HttpState(BODY, r), rest);
    BodyRejected(r, rest);
    hide HttpStep, Until, Advances, Stable, BodyLength, CRLF;
  }

  lemma BodyRejected(r: HttpRequest, rest: Bytes)
    requires CONTENT_LENGTH in r.header && BodyLength(r.header[CONTENT_LENGTH]) == BadLength
    ensures HttpStep(HttpState(BODY, r), rest) == if rest == [] then Wait else Fail
  {
    hide BodyLength;
  }

  /** A rejected head followed by a good request. Arriving in one piece, the request is never delivered,
      whatever arrives later; arriving in two, it is the first one delivered, at the next read. */
  lemma {:induction false} SplitMatters(
    r: HttpRequest, fields: seq<Field>, w: HttpRequest, more: seq<Field>, next: Bytes, later: seq<Bytes>)
    requires BadHead(r, fields) && WellFormed(w, more) && (CONTENT_LENGTH in w.header ==> w.body != [])
    ensures Advances(HttpStep, HttpRank)
    ensures var a, b := Head(r, fields), FormatRequest(w, more);
            && Served(INITIAL, [], [a + b] + ([next] + later)) == Service([], 2 + |later|)
            && [w] <= Served(INITIAL, [], [a, b] + ([next] + later)).out
  {
    hide *;
    var a, b, rest := Head(r, fields), FormatRequest(w, more), [next] + later;
    BadHeadRead(r, fields, b);
    BadHeadRead(r, fields, []);
    FormatNotEmpty(w, more);
    BadLengthStuck(r, fields, b);
    assert w.body != [] ==> w.body + next != [];
    HttpRoundTrip(w, more, next);
    assert a + [] == a && |rest| == 1 + |later|;
    InOnePiece(a + b, rest);
    InTwoPieces(a, b, r, w, next, later);
  }

  lemma FormatNotEmpty(w: HttpRequest, more: seq<Field>)
    ensures FormatRequest(w, more) != []
  {
    hide RequestLine, FieldLines;
  }

  lemma BadLengthStuck(r: HttpRequest, fields: seq<Field>, b: Bytes)
    requires BadHead(r, fields) && b != []
    ensures Advances(HttpStep, HttpRank) && Until(HttpStep, HttpRank, HttpState(BODY, r), b).failed
  {
    HttpIncremental();
    BodyRejected(r, b);
    hide HttpStep, Advances, Stable;
  }

  lemma InOnePiece(b: Bytes, rest: seq<Bytes>)
    requires Advances(HttpStep, HttpRank) && Until(HttpStep, HttpRank, INITIAL, b).failed
    ensures Served(INITIAL, [], [b] + rest) == Service([], 1 + |rest|)
  {
    hide HttpStep, HttpRank, Advances, Until;
    assert [] + b == b && ([b] + rest)[1..] == rest;
    StaysRejected(b, rest);
  }

  lemma InTwoPieces(a: Bytes, b: Bytes, r: HttpRequest, w: HttpRequest, next: Bytes, later: seq<Bytes>)
    requires Advances(HttpStep, HttpRank)
    requires Until(HttpStep, HttpRank, INITIAL, a) == Stream([], HttpState(BODY, r), [], false)
    requires Until(HttpStep, HttpRank, HttpState(BODY, r), b).failed
    requires Until(HttpStep, HttpRank, INITIAL, b + next) == Stream([w], INITIAL, next, false)
    ensures [w] <= Served(INITIAL, [], [a, b] + ([next] + later)).out
  {
    hide HttpStep, HttpRank, Advances, Until;
    var rest := [next] + later;
    assert [] + a == a && [] + b == b;
    assert ([a, b] + rest)[1..] == [b] + rest && ([b] + rest)[1..] == rest && rest[1..] == later;
    assert Served(INITIAL, [], [a, b] + rest).out == [] + Served(HttpState(BODY, r), [], [b] + rest).out;
    assert Served(HttpState(BODY, r), [], [b] + rest).out == [] + Served(INITIAL, b, rest).out;
    assert [w] <= OnRead(INITIAL, b + next).out;
  }

  const POST_X: HttpRequest := HttpRequest(POST, Ascii("/"), HTTP11, map[CONTENT_LENGTH := [120]], [])
  const POST_FIELDS: seq<Field> := [(CONTENT_LENGTH, [120])]
  const GET_E: HttpRequest := HttpRequest(GET, Ascii("/e"), HTTP11, map[], [])

  /** `POST /` with `Content-Length: x`, then `GET /e`: the same bytes, and another outcome. */
  lemma {:induction false} SplitExample() returns (once: seq<Bytes>, twice: seq<Bytes>)
    ensures Flatten(once) == Flatten(twice)
    ensures Advances(HttpStep, HttpRank)
    ensures Served(INITIAL, [], once) == Service([], 2)
    ensures [GET_E] <= Served(INITIAL, [], twice).out
  {
    hide *;
    ExampleHead();
    ExampleRequest();
    SplitMatters(POST_X, POST_FIELDS, GET_E, [], [], []);
    var a, b, last: seq<Bytes> := Head(POST_X, POST_FIELDS), FormatRequest(GET_E, []), [[]];
    once, twice := [a + b] + last, [a, b] + last;
    assert last + [] == last;
    SameBytes(a, b, once, twice);
  }

  lemma SameBytes(a: Bytes, b: Bytes, once: seq<Bytes>, twice: seq<Bytes>)
    requires once == [a + b] + [[]] && twice == [a, b] + [[]]
    ensures Flatten(once) == Flatten(twice)
  {
    var last: seq<Bytes> := [[]];
    assert once[1..] == last && twice[1..] == [b] + last && twice[1..][1..] == last && last[1..] == [];
    assert Flatten(last) == [];
    assert (a + b) + [] == a + (b + []);
  }

  lemma ExampleRequest()
    ensures WellFormed(GET_E, []) && CONTENT_LENGTH !in GET_E.header
  {
    assert Collected([], map[]) == map[];
  }

  lemma ExampleHead()
    ensures BadHead(POST_X, POST_FIELDS)
  {
    assert POST_FIELDS[1..] == [];
    assert Collected(POST_FIELDS, map[]) == POST_X.header;
    assert !IsDigit([120][0]);
    assert FieldLine(POST_FIELDS[0]) == CONTENT_LENGTH + [58, 32] + [120];
  }

  // ----- the loop on the objects -----

  lemma OnReadTurn(s: HttpState, b: Bytes)
    requires Advances(HttpStep, HttpRank)
    ensures var u := Until(HttpStep, HttpRank, s, b);
            OnRead(s, b) ==
            if u.failed then Reaction([], true, INITIAL, b)
            else if u.out == [] then Reaction([], false, u.state, u.rest)
            else OnRead(INITIAL, u.rest).(out := u.out + OnRead(INITIAL, u.rest).out)
  {
    hide HttpStep, HttpRank, Advances, Until;
  }

  /** The parse loop of a read event: hands on requests, resetting the parser after each, until the
      parser waits or rejects; a rejection resets it too and takes nothing from the buffer. */
  method ReadLoop(protocol: HttpProtocol, buf: Buffer) returns (out: seq<HttpRequest>, rejected: bool)
    requires buf.Valid() && protocol.parseState != DONE
    modifies protocol, buf
    ensures buf.Valid() && buf.data == old(buf.data) && protocol.parseState != DONE
    ensures Advances(HttpStep, HttpRank)
    ensures Reaction(out, rejected, protocol.State(), buf.Contents()) == OnRead(old(protocol.State()), old(buf.Contents()))
  {
    HttpIncremental();
    hide HttpStep, HttpRank, Advances, Stable, Until, Reading, OnRead;
    out, rejected := [], false;
    ghost var whole := OnRead(protocol.State(), buf.Contents());
    var more := true;
    while more
      invariant buf.Valid() && buf.data == old(buf.data) && protocol.parseState != DONE
      invariant more ==> !rejected && whole == var r := OnRead(protocol.State(), buf.Contents()); r.(out := out + r.out)
      invariant !more ==> whole == Reaction(out, rejected, protocol.State(), buf.Contents())
      decreases if more then 1 else 0, |buf.Contents()|, HttpRank(protocol.State())
    {
      CallShape(protocol.State(), buf.Contents());
      OnReadTurn(protocol.State(), buf.Contents());
      var r := protocol.Parse(buf);
      match r {
        case OK =>
          out := out + [protocol.request];
          protocol.Reset();
        case ERROR =>
          protocol.Reset();
          more, rejected := false, true;
        case NEED_MORE =>
          more := false;
      }
    }
  }
}
