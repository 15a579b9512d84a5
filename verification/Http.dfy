/** The incremental HTTP/1.x request parser: request line, header fields, body by Content-Length. */
module Http {
  import opened Streaming
  import opened ByteBuffer
  import opened Framing

  datatype Method = GET | POST | OTHER_METHOD
  datatype Version = HTTP10 | HTTP11 | OTHER_VERSION
  datatype Phase = REQUEST_LINE | HEADERS | BODY | DONE

  datatype HttpRequest = HttpRequest(
    httpMethod: Method, path: Bytes, version: Version, header: map<Bytes, Bytes>, body: Bytes)

  /** What the parser remembers between calls. */
  datatype HttpState = HttpState(phase: Phase, request: HttpRequest)

  const EMPTY_REQUEST := HttpRequest(OTHER_METHOD, [], OTHER_VERSION, map[], [])
  const INITIAL := HttpState(REQUEST_LINE, EMPTY_REQUEST)
  const MAX_HTTP_BODY_SIZE: nat := 1024 * 1024

  function Ascii(s: string): (b: Bytes)
    requires forall i :: 0 <= i < |s| ==> s[i] < 128 as char
    ensures |b| == |s| && forall i :: 0 <= i < |s| ==> b[i] == s[i] as int
  {
    seq<byte>(|s|, i requires 0 <= i < |s| => s[i] as int as byte)
  }

  const CRLF: Bytes := [13, 10]
  const CONTENT_LENGTH: Bytes := Ascii("Content-Length")

  /** Index of the first CR LF pair, or the length when there is none. */
  function FindCrlf(b: Bytes): (n: nat)
    ensures n <= |b| && (n < |b| ==> n + 2 <= |b| && b[n] == 13 && b[n + 1] == 10)
    ensures forall i :: 0 <= i < n && i + 1 < |b| ==> !(b[i] == 13 && b[i + 1] == 10)
  {
    if b == [] then 0
    else if |b| >= 2 && b[0] == 13 && b[1] == 10 then 0
    else 1 + FindCrlf(b[1..])
  }

  predicate IsSpace(x: byte) { x == 32 || 9 <= x <= 13 }

  function SkipSpaces(b: Bytes): (r: Bytes)
    ensures |r| <= |b| && (r != [] ==> !IsSpace(r[0]))
  {
    if b != [] && IsSpace(b[0]) then SkipSpaces(b[1..]) else b
  }

  /** Length of the leading run of non-space bytes. */
  function WordLength(b: Bytes): (n: nat)
    ensures n <= |b| && (forall i :: 0 <= i < n ==> !IsSpace(b[i])) && (n < |b| ==> IsSpace(b[n]))
  {
    if b == [] || IsSpace(b[0]) then 0 else 1 + WordLength(b[1..])
  }

  /** `stream >> word`: the next word and what follows it. */
  function NextWord(b: Bytes): (r: (Bytes, Bytes)) {
    var t := SkipSpaces(b);
    var n := WordLength(t);
    (t[..n], t[n..])
  }

  function MethodOf(word: Bytes): Method {
    if word == Ascii("GET") then GET else if word == Ascii("POST") then POST else OTHER_METHOD
  }

  function VersionOf(word: Bytes): Version {
    if word == Ascii("HTTP/1.1") then HTTP11 else if word == Ascii("HTTP/1.0") then HTTP10 else OTHER_VERSION
  }

  /** lineContext: fills the request even when it rejects the method. */
  function LineContext(line: Bytes, r: HttpRequest): (HttpRequest, bool) {
    var (m, rest1) := NextWord(line);
    var (path, rest2) := NextWord(rest1);
    var (v, _) := NextWord(rest2);
    (r.(httpMethod := MethodOf(m), path := path, version := VersionOf(v)), MethodOf(m) != OTHER_METHOD)
  }

  function IndexOf(b: Bytes, x: byte): (n: nat)
    ensures n <= |b| && (n < |b| ==> b[n] == x) && (forall i :: 0 <= i < n ==> b[i] != x)
  {
    if b == [] || b[0] == x then 0 else 1 + IndexOf(b[1..], x)
  }

  function TrimLeft(b: Bytes): (r: Bytes)
    ensures |r| <= |b| && r == b[|b| - |r|..] && (r == [] || r[0] != 32)
    ensures forall i :: 0 <= i < |b| - |r| ==> b[i] == 32
  {
    if b != [] && b[0] == 32 then TrimLeft(b[1..]) else b
  }

  /** headerContext: key up to the colon, value without leading blanks. */
  function HeaderContext(line: Bytes, r: HttpRequest): (HttpRequest, bool) {
    var n := IndexOf(line, 58);
    if n == |line| then (r, false) else (r.(header := r.header[line[..n] := TrimLeft(line[n + 1..])]), true)
  }

  predicate IsDigit(x: byte) { 48 <= x <= 57 }

  function Decimal(b: Bytes): nat
    requires forall x :: x in b ==> IsDigit(x)
  {
    if b == [] then 0
    else
      assert IsDigit(b[|b| - 1]);
      Decimal(b[..|b| - 1]) * 10 + (b[|b| - 1] as int - 48)
  }

  datatype Length = BadLength | Length(n: nat)

  /** The body length announced, if it is digits only and at most 1 MiB; a value that overflows the
      conversion is rejected like one that is too large. */
  function BodyLength(value: Bytes): Length {
    if value == [] || exists x :: x in value && !IsDigit(x) then BadLength
    else if Decimal(value) > MAX_HTTP_BODY_SIZE then BadLength
    else Length(Decimal(value))
  }

  /** A length written in decimal. */
  function Digits(n: nat): (b: Bytes)
    ensures b != [] && forall x :: x in b ==> IsDigit(x)
  {
    if n < 10 then [48 + n] else Digits(n / 10) + [48 + n % 10]
  }

  lemma {:induction false} DecimalDigits(n: nat)
    ensures Decimal(Digits(n)) == n
  {
    if n < 10 {
      assert Digits(n)[..0] == [];
    } else {
      DecimalDigits(n / 10);
      assert Digits(n)[..|Digits(n)| - 1] == Digits(n / 10);
    }
  }

  /** Exactly the lengths up to 1 MiB are accepted, each as itself. */
  lemma BodyLengthOf(n: nat)
    ensures BodyLength(Digits(n)) == if n <= 1048576 then Length(n) else BadLength
  {
    DecimalDigits(n);
  }

  /** One turn of the parse loop; a finished request is emitted and the parser starts over. */
  function HttpStep(s: HttpState, b: Bytes): Outcome<HttpState, HttpRequest> {
    if b == [] then Wait
    else match s.phase
      case REQUEST_LINE =>
        var n := FindCrlf(b);
        if n == |b| then Wait
        else
          var (r, ok) := LineContext(b[..n], s.request);
          if ok then Move(HttpState(HEADERS, r), n + 2, []) else Fail
      case HEADERS =>
        var n := FindCrlf(b);
        if n == |b| then Wait
        else if n == 0 then
          if CONTENT_LENGTH in s.request.header then Move(HttpState(BODY, s.request), 2, [])
          else Move(INITIAL, 2, [s.request])
        else
          var (r, ok) := HeaderContext(b[..n], s.request);
          if ok then Move(HttpState(HEADERS, r), n + 2, []) else Fail
      case BODY =>
        if CONTENT_LENGTH !in s.request.header then Fail
        else (match BodyLength(s.request.header[CONTENT_LENGTH])
          case BadLength => Fail
          case Length(n) =>
            if |b| < n then Wait else Move(INITIAL, n, [s.request.(body := b[..n])]))
      case DONE => Move(INITIAL, 0, [s.request])
  }

  /** Only a body of length zero, or a request not yet collected, moves on without consuming. */
  function HttpRank(s: HttpState): nat {
    if s.phase == BODY || s.phase == DONE then 1 else 0
  }

  /** Nothing happens without input, and a finished request starts the parser over. */
  lemma HttpStepShape(s: HttpState, b: Bytes)
    ensures b == [] ==> HttpStep(s, b).Wait?
    ensures var r := HttpStep(s, b);
            r.Move? ==> r.next.phase != DONE && (r.emitted != [] ==> r.next == INITIAL && |r.emitted| == 1)
  {
  }

  /** The first CR LF pair of `b` is at `n`. */
  lemma FindCrlfAt(b: Bytes, n: nat)
    requires n + 2 <= |b| && b[n] == 13 && b[n + 1] == 10
    requires forall i :: 0 <= i < n ==> !(b[i] == 13 && b[i + 1] == 10)
    ensures FindCrlf(b) == n
  {
    if n != 0 { FindCrlfAt(b[1..], n - 1); }
  }

  lemma FindCrlfStable(a: Bytes, b: Bytes)
    requires FindCrlf(a) < |a|
    ensures FindCrlf(a + b) == FindCrlf(a)
  {
    FindCrlfAt(a + b, FindCrlf(a));
  }

  lemma HttpStable(s: HttpState, a: Bytes, b: Bytes)
    requires !HttpStep(s, a).Wait?
    ensures HttpStep(s, a + b) == HttpStep(s, a)
  {
    if s.phase == REQUEST_LINE || s.phase == HEADERS {
      FindCrlfStable(a, b);
      assert (a + b)[..FindCrlf(a)] == a[..FindCrlf(a)];
    } else if s.phase == BODY && CONTENT_LENGTH in s.request.header {
      match BodyLength(s.request.header[CONTENT_LENGTH])
      case BadLength =>
      case Length(n) => assert (a + b)[..n] == a[..n];
    }
  }

  lemma HttpAdvances()
    ensures Advances(HttpStep, HttpRank)
  {
  }

  lemma HttpIncremental()
    ensures Incremental(HttpStep, HttpRank) && Advances(HttpStep, HttpRank)
  {
    HttpAdvances();
    hide HttpStep, Advances;
    forall s, a: Bytes, b: Bytes | !HttpStep(s, a).Wait? ensures HttpStep(s, a + b) == HttpStep(s, a) {
      HttpStable(s, a, b);
    }
  }

  /** Any split of the input gives the requests, the first error, and the leftover state of the
      one-shot parser. */
  lemma HttpChunkingIndependence(chunks: seq<Bytes>)
    ensures Incremental(HttpStep, HttpRank)
    ensures var fed, whole := Feed(HttpStep, HttpRank, INITIAL, [], chunks),
                              Drain(HttpStep, HttpRank, INITIAL, Flatten(chunks));
            && fed.out == whole.out && fed.failed == whole.failed && fed.state == whole.state
            && (!fed.failed ==> fed.rest == whole.rest)
  {
    HttpIncremental();
    ChunkingIndependence(HttpStep, HttpRank, INITIAL, [], chunks);
    assert [] + Flatten(chunks) == Flatten(chunks);
  }

  // ----- a formatted request is read back exactly -----

  type Field = (Bytes, Bytes)

  predicate Word(w: Bytes) { w != [] && forall i :: 0 <= i < |w| ==> !IsSpace(w[i]) }

  /** No CR LF pair inside. */
  predicate OneLine(line: Bytes) {
    forall i :: 0 <= i && i + 1 < |line| ==> !(line[i] == 13 && line[i + 1] == 10)
  }

  predicate GoodField(f: Field) {
    && (forall i :: 0 <= i < |f.0| ==> f.0[i] != 58) && (f.1 != [] ==> f.1[0] != 32)
    && OneLine(FieldLine(f))
  }

  function FieldLine(f: Field): Bytes { f.0 + [58, 32] + f.1 }

  function FieldLines(fields: seq<Field>): Bytes {
    if fields == [] then [] else FieldLine(fields[0]) + CRLF + FieldLines(fields[1..])
  }

  /** A later field with the same key replaces the earlier one. */
  function Collected(fields: seq<Field>, header: map<Bytes, Bytes>): map<Bytes, Bytes> {
    if fields == [] then header else Collected(fields[1..], header[fields[0].0 := fields[0].1])
  }

  function MethodWord(m: Method): Bytes { if m == GET then Ascii("GET") else Ascii("POST") }

  function VersionWord(v: Version): Bytes {
    match v
    case HTTP10 => Ascii("HTTP/1.0")
    case HTTP11 => Ascii("HTTP/1.1")
    case OTHER_VERSION => Ascii("HTTP/2")
  }

  function RequestLine(r: HttpRequest): Bytes {
    MethodWord(r.httpMethod) + [32] + r.path + [32] + VersionWord(r.version)
  }

  function FormatRequest(r: HttpRequest, fields: seq<Field>): Bytes {
    RequestLine(r) + CRLF + FieldLines(fields) + CRLF + r.body
  }

  /** The request says what its header fields say, and announces its body. */
  ghost predicate WellFormed(r: HttpRequest, fields: seq<Field>) {
    && r.httpMethod != OTHER_METHOD && Word(r.path)
    && (forall f :: f in fields ==> GoodField(f))
    && r.header == Collected(fields, map[])
    && (if CONTENT_LENGTH in r.header then BodyLength(r.header[CONTENT_LENGTH]) == Length(|r.body|) else r.body == [])
  }

  lemma LineFound(line: Bytes, rest: Bytes)
    requires OneLine(line)
    ensures var b := line + CRLF + rest;
            FindCrlf(b) == |line| < |b| && b[..|line|] == line && b[|line| + 2..] == rest
  {
    FindCrlfAt(line + CRLF + rest, |line|);
  }

  lemma {:induction false} WordLengthIs(b: Bytes, n: nat)
    requires n <= |b| && (forall i :: 0 <= i < n ==> !IsSpace(b[i])) && (n < |b| ==> IsSpace(b[n]))
    ensures WordLength(b) == n
  {
    if n != 0 {
      WordLengthIs(b[1..], n - 1);
    }
  }

  lemma NextWordAt(pad: Bytes, w: Bytes, t: Bytes)
    requires (pad == [] || pad == [32]) && Word(w) && (t != [] ==> IsSpace(t[0]))
    ensures NextWord(pad + w + t) == (w, t)
  {
    var b := pad + w + t;
    assert (w + t)[0] == w[0];
    assert SkipSpaces(w + t) == w + t;
    if pad == [] {
      assert b == w + t;
    } else {
      assert b[0] == 32 && b[1..] == w + t;
      assert SkipSpaces(b) == SkipSpaces(b[1..]);
    }
    WordLengthIs(w + t, |w|);
    assert (w + t)[..|w|] == w && (w + t)[|w|..] == t;
  }

  lemma KnownWords(m: Method, v: Version)
    ensures m != OTHER_METHOD ==> MethodOf(MethodWord(m)) == m
    ensures VersionOf(VersionWord(v)) == v
    ensures Word(MethodWord(m)) && Word(VersionWord(v))
  {
    assert Ascii("HTTP/1.0")[7] == 48 && Ascii("HTTP/1.1")[7] == 49;
  }

  lemma RequestLineIsOneLine(r: HttpRequest)
    requires Word(r.path)
    ensures OneLine(RequestLine(r))
  {
    var m, v := MethodWord(r.httpMethod), VersionWord(r.version);
    KnownWords(r.httpMethod, r.version);
    NoReturn(m, [32] + r.path);
    NoReturn(m + [32] + r.path, [32] + v);
    assert m + ([32] + r.path) == m + [32] + r.path;
    assert m + [32] + r.path + ([32] + v) == RequestLine(r);
  }

  /** Appending a blank and a word brings in no CR. */
  lemma NoReturn(head: Bytes, tail: Bytes)
    requires (forall i :: 0 <= i < |head| ==> head[i] != 13)
    requires |tail| > 1 && tail[0] == 32 && Word(tail[1..])
    ensures forall i :: 0 <= i < |head + tail| ==> (head + tail)[i] != 13
  {
    forall i | 0 <= i < |tail| ensures tail[i] != 13 {
      if i > 0 { assert !IsSpace(tail[1..][i - 1]); }
    }
  }

  lemma RequestLineRead(r: HttpRequest, into: HttpRequest)
    requires r.httpMethod != OTHER_METHOD && Word(r.path)
    ensures LineContext(RequestLine(r), into) ==
            (into.(httpMethod := r.httpMethod, path := r.path, version := r.version), true)
  {
    var m, v := MethodWord(r.httpMethod), VersionWord(r.version);
    KnownWords(r.httpMethod, r.version);
    var afterPath := [32] + v;
    var afterMethod := [32] + r.path + afterPath;
    hide MethodWord, VersionWord, MethodOf, VersionOf, NextWord, Word;
    assert RequestLine(r) == [] + m + afterMethod;
    assert afterPath == [32] + v + [];
    NextWordAt([], m, afterMethod);
    NextWordAt([32], r.path, afterPath);
    NextWordAt([32], v, []);
  }

  lemma IndexOfAt(key: Bytes, x: byte, t: Bytes)
    requires forall i :: 0 <= i < |key| ==> key[i] != x
    ensures IndexOf(key + [x] + t, x) == |key|
  {
    var b := key + [x] + t;
    if key != [] {
      assert b[0] == key[0] && b[1..] == key[1..] + [x] + t;
      IndexOfAt(key[1..], x, t);
    }
  }

  lemma TrimsOneBlank(v: Bytes)
    requires v != [] ==> v[0] != 32
    ensures TrimLeft([32] + v) == v
  {
    hide TrimLeft;
    var b, r := [32] + v, TrimLeft([32] + v);
    var removed := |b| - |r|;
    assert v != [] ==> b[1] == v[0];
    assert removed == 1;
    assert b[1..] == v;
  }

  lemma FieldRead(f: Field, into: HttpRequest)
    requires GoodField(f)
    ensures HeaderContext(FieldLine(f), into) == (into.(header := into.header[f.0 := f.1]), true)
  {
    var line := FieldLine(f);
    assert line == f.0 + [58] + ([32] + f.1);
    IndexOfAt(f.0, 58, [32] + f.1);
    assert line[..|f.0|] == f.0;
    assert line[|f.0| + 1..] == [32] + f.1;
    TrimsOneBlank(f.1);
    hide IndexOf, TrimLeft, OneLine;
  }

  lemma {:induction false} FieldsRead(fields: seq<Field>, r: HttpRequest, rest: Bytes)
    requires forall f :: f in fields ==> GoodField(f)
    ensures Advances(HttpStep, HttpRank)
    ensures Until(HttpStep, HttpRank, HttpState(HEADERS, r), FieldLines(fields) + CRLF + rest) ==
            Until(HttpStep, HttpRank, HttpState(HEADERS, r.(header := Collected(fields, r.header))), CRLF + rest)
  {
    HttpIncremental();
    if fields == [] {
      assert FieldLines(fields) + CRLF + rest == CRLF + rest;
    } else {
      var f, more := fields[0], FieldLines(fields[1..]) + CRLF + rest;
      assert GoodField(f);
      var b := FieldLines(fields) + CRLF + rest;
      assert b == FieldLine(f) + CRLF + more;
      LineFound(FieldLine(f), more);
      FieldRead(f, r);
      hide HeaderContext, GoodField, FieldLine, FindCrlf, LineContext, BodyLength;
      var next := r.(header := r.header[f.0 := f.1]);
      assert HttpStep(HttpState(HEADERS, r), b) == Move(HttpState(HEADERS, next), |FieldLine(f)| + 2, []);
      FieldsRead(fields[1..], next, rest);
      UntilTurn(HttpStep, HttpRank, HttpState(HEADERS, r), b);
      hide HttpStep, Until;
    }
  }

  /** A formatted request, followed by anything, is delivered as itself and leaves exactly what
      follows it. The one exception: with `Content-Length` announcing an empty body and nothing
      behind it, the parser stays in BODY until a further byte arrives. */
  lemma {:induction false} HttpRoundTrip(r: HttpRequest, fields: seq<Field>, rest: Bytes)
    requires WellFormed(r, fields)
    ensures Advances(HttpStep, HttpRank)
    ensures var u := Until(HttpStep, HttpRank, INITIAL, FormatRequest(r, fields) + rest);
            && (u == Stream([r], INITIAL, rest, false) <==> CONTENT_LENGTH !in r.header || r.body + rest != [])
            && (u != Stream([r], INITIAL, rest, false) ==> u == Stream([], HttpState(BODY, r), [], false))
  {
    var tail := FieldLines(fields) + CRLF + (r.body + rest);
    var b := FormatRequest(r, fields) + rest;
    var r1 := EMPTY_REQUEST.(httpMethod := r.httpMethod, path := r.path, version := r.version);
    assert b == RequestLine(r) + CRLF + tail;
    FirstLineRead(r, tail);
    FieldsRead(fields, r1, r.body + rest);
    EmptyLineRead(r, rest);
    assert r1.(header := r.header) == r.(body := []);
    hide *;
  }

  lemma FirstLineRead(r: HttpRequest, tail: Bytes)
    requires r.httpMethod != OTHER_METHOD && Word(r.path)
    ensures Advances(HttpStep, HttpRank)
    ensures Until(HttpStep, HttpRank, INITIAL, RequestLine(r) + CRLF + tail) ==
            Until(HttpStep, HttpRank, HttpState(HEADERS, EMPTY_REQUEST.(httpMethod := r.httpMethod, path := r.path, version := r.version)), tail)
  {
    HttpIncremental();
    var line, r1 := RequestLine(r), EMPTY_REQUEST.(httpMethod := r.httpMethod, path := r.path, version := r.version);
    var b := line + CRLF + tail;
    RequestLineIsOneLine(r);
    RequestLineRead(r, EMPTY_REQUEST);
    LineFound(line, tail);
    assert HttpStep(INITIAL, b) == Move(HttpState(HEADERS, r1), |line| + 2, []) by {
      hide LineContext, RequestLine, FindCrlf, OneLine, Word, Incremental, Stable;
    }
    UntilTurn(HttpStep, HttpRank, INITIAL, b);
    hide *;
  }

  /** From the empty line on. */
  lemma {:induction false} EmptyLineRead(r: HttpRequest, rest: Bytes)
    requires if CONTENT_LENGTH in r.header then BodyLength(r.header[CONTENT_LENGTH]) == Length(|r.body|) else r.body == []
    ensures Advances(HttpStep, HttpRank)
    ensures Until(HttpStep, HttpRank, HttpState(HEADERS, r.(body := [])), CRLF + (r.body + rest)) ==
            if CONTENT_LENGTH !in r.header || r.body + rest != [] then Stream([r], INITIAL, rest, false)
            else Stream([], HttpState(BODY, r), [], false)
  {
    hide Until, Incremental, Stable, FindCrlf, BodyLength, LineContext, HeaderContext, HttpStep;
    HttpIncremental();
    EmptyLineStep(r, rest);
    var b, s0, s1 := CRLF + (r.body + rest), HttpState(HEADERS, r.(body := [])), HttpState(BODY, r.(body := []));
    UntilTurn(HttpStep, HttpRank, s0, b);
    if CONTENT_LENGTH in r.header {
      BodyRead(r, rest);
      UntilTurn(HttpStep, HttpRank, s1, r.body + rest);
    }
  }

  lemma EmptyLineStep(r: HttpRequest, rest: Bytes)
    requires CONTENT_LENGTH !in r.header ==> r.body == []
    ensures var b := CRLF + (r.body + rest);
            && HttpStep(HttpState(HEADERS, r.(body := [])), b) ==
               (if CONTENT_LENGTH in r.header then Move(HttpState(BODY, r.(body := [])), 2, []) else Move(INITIAL, 2, [r]))
            && b[2..] == r.body + rest
  {
    hide FindCrlf, BodyLength, LineContext, HeaderContext;
    assert CRLF + (r.body + rest) == [] + CRLF + (r.body + rest);
    LineFound([], r.body + rest);
  }

  /** In state BODY: the body is taken, unless nothing at all has arrived. */
  lemma BodyRead(r: HttpRequest, rest: Bytes)
    requires CONTENT_LENGTH in r.header && BodyLength(r.header[CONTENT_LENGTH]) == Length(|r.body|)
    ensures HttpStep(HttpState(BODY, r.(body := [])), r.body + rest) ==
            if r.body + rest == [] then Wait else Move(INITIAL, |r.body|, [r])
    ensures (r.body + rest)[|r.body|..] == rest
  {
    hide BodyLength, FindCrlf;
    assert (r.body + rest)[..|r.body|] == r.body;
  }

  // ----- the parser object -----

  /** What one turn of the loop leaves: a finished request stays in the object, marked DONE. */
  predicate Turned(s: HttpState, view: Bytes, used: nat, go: bool, failed: bool, t: HttpState) {
    match HttpStep(s, view)
    case Wait => !go && !failed && t == s
    case Fail => failed
    case Move(next, n, out) =>
      go && !failed && used == n && if out == [] then t == next else t.phase == DONE && out == [t.request]
  }

  /** What the parser makes of unread bytes; a request already marked DONE is what it has found. */
  ghost function Reading(s: HttpState, b: Bytes): Stream<HttpState, HttpRequest>
    requires Advances(HttpStep, HttpRank)
  {
    if s.phase == DONE then Stream([s.request], INITIAL, b, false) else Until(HttpStep, HttpRank, s, b)
  }

  lemma TurnReads(s: HttpState, view: Bytes, used: nat, go: bool, failed: bool, t: HttpState)
    requires s.phase != DONE && used <= |view| && Turned(s, view, used, go, failed, t)
    ensures Advances(HttpStep, HttpRank)
    ensures if failed then Reading(s, view).failed
            else if go then Reading(s, view) == Reading(t, view[used..])
            else Reading(s, view) == Stream([], t, view, false)
  {
    HttpIncremental();
    HttpStepShape(s, view);
    UntilTurn(HttpStep, HttpRank, s, view);
    hide HttpStep, Until, Advances, Incremental, Stable;
  }

  lemma ReadingFound(s: HttpState, b: Bytes)
    requires s.phase == DONE
    ensures Advances(HttpStep, HttpRank) && Reading(s, b) == Stream([s.request], INITIAL, b, false)
  {
    HttpIncremental();
    hide HttpStep, Advances, Stable;
  }

  lemma ReadingNothing(s: HttpState)
    ensures Advances(HttpStep, HttpRank) && Until(HttpStep, HttpRank, s, []) == Stream([], s, [], false)
    ensures s.phase != DONE ==> Reading(s, []) == Stream([], s, [], false)
  {
    HttpIncremental();
    HttpStepShape(s, []);
    UntilTurn(HttpStep, HttpRank, s, []);
    hide HttpStep, Advances, Stable, Until;
  }

  lemma ReadingIs(s: HttpState, b: Bytes)
    requires b != []
    ensures Advances(HttpStep, HttpRank) && Until(HttpStep, HttpRank, s, b) == Reading(s, b)
  {
    HttpIncremental();
    UntilTurn(HttpStep, HttpRank, s, b);
    assert s.phase == DONE ==> HttpStep(s, b) == Move(INITIAL, 0, [s.request]) && b[0..] == b;
    hide HttpStep, Advances, Stable, Until;
  }

  /** How a scan that read `whole` ends: with an error, with a finished request in the parser's state, or
      waiting. */
  ghost predicate Ends(whole: Stream<HttpState, HttpRequest>, failed: bool, s: HttpState, rest: Bytes) {
    if failed then whole.failed
    else whole == if s.phase == DONE then Stream([s.request], INITIAL, rest, false) else Stream([], s, rest, false)
  }

  /** What a call returns, having read `u` from the unread bytes `before`, leaves the parser in `s` and
      `after` in the buffer: OK comes exactly with a request, and an error takes nothing. */
  ghost predicate Returns(u: Stream<HttpState, HttpRequest>, r: ParseResult, before: Bytes, s: HttpState, after: Bytes) {
    match r
    case OK => u.out == [s.request] && s.phase == DONE && after == u.rest
    case NEED_MORE => u.out == [] && !u.failed && s == u.state && after == u.rest
    case ERROR => u.failed && after == before
  }

  lemma EndsReturns(u: Stream<HttpState, HttpRequest>, failed: bool, before: Bytes, s: HttpState, rest: Bytes)
    requires Ends(u, failed, s, rest)
    ensures if failed then Returns(u, ERROR, before, s, before)
            else Returns(u, if s.phase == DONE then OK else NEED_MORE, before, s, rest)
  {
  }

  lemma NothingReturns(s: HttpState)
    ensures Advances(HttpStep, HttpRank) && Returns(Until(HttpStep, HttpRank, s, []), NEED_MORE, [], s, [])
  {
    ReadingNothing(s);
  }

  lemma EndsHere(s: HttpState, b: Bytes)
    requires s.phase == DONE || b == []
    ensures Advances(HttpStep, HttpRank) && Ends(Reading(s, b), false, s, b)
  {
    if s.phase == DONE { ReadingFound(s, b); } else { ReadingNothing(s); }
  }

  /** HttpContext and the request it fills; `Parse` is called on a connection's input buffer. */
  class HttpProtocol {
    var parseState: Phase
    var request: HttpRequest
    var isError: bool

    constructor ()
      ensures State() == INITIAL && !isError
    {
      parseState, request, isError := REQUEST_LINE, EMPTY_REQUEST, false;
    }

    function State(): HttpState
      reads this
    {
      HttpState(parseState, request)
    }

    method Reset()
      modifies this
      ensures State() == INITIAL && !isError
    {
      parseState, request, isError := REQUEST_LINE, EMPTY_REQUEST, false;
    }

    /** One call: OK exactly when the decoder reaches a request, which is then held in `request`;
        an error leaves the buffer as it was. */
    method Parse(buf: Buffer) returns (r: ParseResult)
      requires buf.Valid()
      modifies this, buf
      ensures buf.Valid() && buf.data == old(buf.data)
      ensures Advances(HttpStep, HttpRank)
      ensures Returns(Until(HttpStep, HttpRank, old(State()), old(buf.Contents())), r, old(buf.Contents()), State(), buf.Contents())
      ensures isError == r.ERROR?
    {
      hide HttpStep, Until, Advances, Incremental, Stable, Reading, Ends, Returns;
      ghost var before := buf.Contents();
      NothingReturns(State());
      isError := false;
      var len := buf.Readable();
      if len == 0 { return NEED_MORE; }
      ReadingIs(State(), before);
      ghost var u := Until(HttpStep, HttpRank, State(), before);
      var consumed, failed := Scan(buf.data[buf.readPtr..buf.writePtr]);
      EndsReturns(u, failed, before, State(), before[consumed..]);
      if failed {
        isError := true;
        return ERROR;
      }
      if consumed > 0 {
        buf.MoveReadPtr(consumed);
      }
      return if parseState == DONE then OK else NEED_MORE;
    }

    /** The parse loop over the unread bytes. */
    method Scan(data: Bytes) returns (consumed: nat, failed: bool)
      requires data != []
      modifies this
      ensures isError == old(isError) && consumed <= |data| && Advances(HttpStep, HttpRank)
      ensures Ends(Reading(old(State()), data), failed, State(), data[consumed..])
    {
      hide HttpStep, Until, Advances, Incremental, Stable, Reading, Ends;
      HttpIncremental();
      consumed, failed := 0, false;
      ghost var whole := Reading(State(), data);
      var view := data;
      while consumed < |data| && parseState != DONE
        invariant isError == old(isError) && consumed <= |data| && !failed
        invariant view == data[consumed..] && whole == Reading(State(), view)
        decreases |data| - consumed, if parseState == BODY then 1 else 0
      {
        var used, go, bad := Turn(view);
        if bad { return consumed, true; }
        if !go { return; }
        view, consumed := view[used..], consumed + used;
      }
      EndsHere(State(), view);
    }

    /** One turn of the loop: it ends the scan, or the rest is still to be read. */
    method Turn(view: Bytes) returns (used: nat, go: bool, failed: bool)
      requires view != [] && parseState != DONE
      modifies this
      ensures isError == old(isError) && used <= |view| && Advances(HttpStep, HttpRank)
      ensures go && !failed ==> used > 0 || (old(parseState) == BODY && parseState == DONE)
      ensures if go && !failed then Reading(old(State()), view) == Reading(State(), view[used..])
              else Ends(Reading(old(State()), view), failed, State(), view)
    {
      hide HttpStep, Until, Advances, Incremental, Stable, Reading;
      ghost var s := State();
      used, go, failed := Advance(view);
      TurnReads(s, view, used, go, failed, State());
    }

    /** The body of the parse loop on a non-empty view. */
    method Advance(view: Bytes) returns (used: nat, go: bool, failed: bool)
      requires view != [] && parseState != DONE
      modifies this
      ensures isError == old(isError) && used <= |view|
      ensures go && !failed ==> used > 0 || (old(parseState) == BODY && parseState == DONE)
      ensures Turned(old(State()), view, used, go, failed, State())
    {
      used, go, failed := 0, true, false;
      match parseState
      case REQUEST_LINE =>
        var pos := FindCrlf(view);
        if pos == |view| { go := false; return; }
        var (filled, ok) := LineContext(view[..pos], request);
        request := filled;
        if !ok { failed := true; return; }
        used, parseState := pos + 2, HEADERS;
      case HEADERS =>
        var pos := FindCrlf(view);
        if pos == |view| { go := false; return; }
        if pos == 0 {
          used, parseState := 2, if CONTENT_LENGTH in request.header then BODY else DONE;
          return;
        }
        var (filled, ok) := HeaderContext(view[..pos], request);
        request := filled;
        if !ok { failed := true; return; }
        used := pos + 2;
      case BODY =>
        if CONTENT_LENGTH !in request.header { failed := true; return; }
        match BodyLength(request.header[CONTENT_LENGTH]) {
          case BadLength => failed := true;
          case Length(n) =>
            if |view| < n { go := false; return; }
            request, used, parseState := request.(body := view[..n]), n, DONE;
        }
    }
  }
}
