/** The HTTP parser's decisions in the bytes of the wire: which request lines, header lines and bodies it
accepts, rejects or waits for, and what it reads from them. */
module HttpWire {
  import opened Streaming
  import opened Framing
  import opened Http

  // ----- words -----

  /** What `stream >> word` skips. */
  predicate Blank(x: byte) { x == 32 || 9 <= x <= 13 }

  predicate Gap(b: Bytes) { forall i :: 0 <= i < |b| ==> Blank(b[i]) }

  /** `w` is a whole word, or nothing at the very end; `t` follows it. */
  predicate Cut(w: Bytes, t: Bytes) {
    (forall i :: 0 <= i < |w| ==> !Blank(w[i])) && (t != [] ==> w != [] && Blank(t[0]))
  }

  lemma {:induction false} GapSkipped(pad: Bytes, b: Bytes)
    requires Gap(pad) && (b != [] ==> !Blank(b[0]))
    ensures SkipSpaces(pad + b) == b
  {
    if pad == [] {
      assert pad + b == b;
    } else {
      assert (pad + b)[0] == pad[0] && (pad + b)[1..] == pad[1..] + b;
      GapSkipped(pad[1..], b);
    }
  }

  lemma WordRead(pad: Bytes, w: Bytes, t: Bytes)
    requires Gap(pad) && Cut(w, t)
    ensures NextWord(pad + w + t) == (w, t)
  {
    assert pad + w + t == pad + (w + t);
    assert w + t != [] ==> (w + t)[0] == w[0];
    GapSkipped(pad, w + t);
    WordLengthIs(w + t, |w|);
    assert (w + t)[..|w|] == w && (w + t)[|w|..] == t;
  }

  // ----- lines -----

  /** No CR LF pair in it, not even begun at its end. */
  predicate Line(line: Bytes) { forall i :: 0 <= i < |line| - 1 ==> !(line[i] == 13 && line[i + 1] == 10) }

  lemma LineTaken(line: Bytes, tail: Bytes)
    requires Line(line)
    ensures var b := line + [13, 10] + tail;
            FindCrlf(b) == |line| < |b| && b[..|line|] == line && b[|line| + 2..] == tail
  {
    LineFound(line, tail);
  }

  /** Without a CR LF pair the parser waits, in the request line as in the header. */
  lemma NoLineWaits(r: HttpRequest, b: Bytes)
    requires Line(b)
    ensures HttpStep(HttpState(REQUEST_LINE, r), b) == Wait && HttpStep(HttpState(HEADERS, r), b) == Wait
  {
    assert FindCrlf(b) == |b|;
  }

  const GET_BYTES: Bytes := [71, 69, 84]
  const POST_BYTES: Bytes := [80, 79, 83, 84]
  const HTTP11_BYTES: Bytes := [72, 84, 84, 80, 47, 49, 46, 49]
  const HTTP10_BYTES: Bytes := [72, 84, 84, 80, 47, 49, 46, 48]
  const CONTENT_LENGTH_BYTES: Bytes := [67, 111, 110, 116, 101, 110, 116, 45, 76, 101, 110, 103, 116, 104]

  lemma NamesInBytes()
    ensures Ascii("GET") == GET_BYTES && Ascii("POST") == POST_BYTES
    ensures Ascii("HTTP/1.1") == HTTP11_BYTES && Ascii("HTTP/1.0") == HTTP10_BYTES
    ensures CONTENT_LENGTH == CONTENT_LENGTH_BYTES
  {
  }

  function VersionIn(v: Bytes): Version {
    if v == HTTP11_BYTES then HTTP11 else if v == HTTP10_BYTES then HTTP10 else OTHER_VERSION
  }

  lemma WordsDecide(m: Bytes, v: Bytes)
    ensures MethodOf(m) == if m == GET_BYTES then GET else if m == POST_BYTES then POST else OTHER_METHOD
    ensures VersionOf(v) == VersionIn(v)
  {
    NamesInBytes();
  }

  /** The request line: rejected on the spot if and only if its first word is neither GET nor POST;
      otherwise its first three words are method, path and version, however many blanks stand between
      them, and the header is read next. */
  lemma {:induction false} RequestLineDecides(
    a: Bytes, m: Bytes, b: Bytes, p: Bytes, c: Bytes, v: Bytes, d: Bytes, tail: Bytes)
    requires Gap(a) && Gap(b) && Gap(c)
    requires Cut(v, d) && Cut(p, c + v + d) && Cut(m, b + p + (c + v + d))
    requires Line(a + m + (b + p + (c + v + d)))
    ensures Advances(HttpStep, HttpRank)
    ensures var whole := a + m + (b + p + (c + v + d)) + [13, 10] + tail;
            Until(HttpStep, HttpRank, INITIAL, whole) ==
            if m == [71, 69, 84] || m == [80, 79, 83, 84] then
              var r := HttpRequest(if m == [71, 69, 84] then GET else POST, p, VersionIn(v), map[], []);
              Until(HttpStep, HttpRank, HttpState(HEADERS, r), tail)
            else Stream([], INITIAL, whole, true)
  {
    HttpAdvances();
    var line := a + m + (b + p + (c + v + d));
    var whole := line + [13, 10] + tail;
    WordRead(a, m, b + p + (c + v + d));
    WordRead(b, p, c + v + d);
    WordRead(c, v, d);
    WordsDecide(m, v);
    hide NextWord, MethodOf, VersionOf, Gap, Cut, Line, VersionIn;
    LineTaken(line, tail) by { assert Line(line); }
    LineDecision(line, whole);
    UntilTurn(HttpStep, HttpRank, INITIAL, whole);
    hide HttpStep, LineContext, Advances, Until;
  }

  lemma LineDecision(line: Bytes, whole: Bytes)
    requires FindCrlf(whole) == |line| < |whole| && whole[..|line|] == line
    ensures var (r, ok) := LineContext(line, EMPTY_REQUEST);
            HttpStep(INITIAL, whole) == if ok then Move(HttpState(HEADERS, r), |line| + 2, []) else Fail
  {
    hide LineContext, FindCrlf;
  }

  /** A header line: rejected if and only if it has no colon; otherwise the key is what stands before the
      first colon, the value what follows it after any blanks, and a later value replaces an earlier. */
  lemma {:induction false} HeaderLineDecides(r: HttpRequest, line: Bytes, tail: Bytes)
    requires Line(line) && line != []
    ensures Advances(HttpStep, HttpRank)
    ensures var s, whole := HttpState(HEADERS, r), line + [13, 10] + tail;
            && (58 !in line ==> Until(HttpStep, HttpRank, s, whole) == Stream([], s, whole, true))
            && forall key, pad: Bytes, value |
                 line == key + [58] + pad + value && 58 !in key && (forall x :: x in pad ==> x == 32)
                 && (value != [] ==> value[0] != 32) ::
                   Until(HttpStep, HttpRank, s, whole) ==
                   Until(HttpStep, HttpRank, HttpState(HEADERS, r.(header := r.header[key := value])), tail)
  {
    HttpAdvances();
    hide HttpStep, HeaderContext, Advances, Until, Line, IndexOf, FindCrlf, TrimLeft;
    if 58 !in line { NoColonRejected(r, line, tail); }
    forall key, pad: Bytes, value |
      line == key + [58] + pad + value && 58 !in key && (forall x :: x in pad ==> x == 32)
      && (value != [] ==> value[0] != 32)
      ensures Until(HttpStep, HttpRank, HttpState(HEADERS, r), line + [13, 10] + tail) ==
              Until(HttpStep, HttpRank, HttpState(HEADERS, r.(header := r.header[key := value])), tail)
    {
      FieldTaken(r, line, key, pad, value);
      ColonAccepted(r, line, r.(header := r.header[key := value]), tail);
    }
  }

  lemma NoColonRejected(r: HttpRequest, line: Bytes, tail: Bytes)
    requires Line(line) && line != [] && 58 !in line
    ensures Advances(HttpStep, HttpRank)
    ensures var s, whole := HttpState(HEADERS, r), line + [13, 10] + tail;
            Until(HttpStep, HttpRank, s, whole) == Stream([], s, whole, true)
  {
    HttpAdvances();
    var whole := line + [13, 10] + tail;
    assert IndexOf(line, 58) == |line|;
    assert HeaderContext(line, r) == (r, false);
    hide HttpStep, HeaderContext, Advances, Until, FindCrlf;
    LineTaken(line, tail);
    HeaderDecision(r, line, whole);
    UntilTurn(HttpStep, HttpRank, HttpState(HEADERS, r), whole);
  }

  lemma ColonAccepted(r: HttpRequest, line: Bytes, q: HttpRequest, tail: Bytes)
    requires Line(line) && line != [] && HeaderContext(line, r) == (q, true)
    ensures Advances(HttpStep, HttpRank)
    ensures Until(HttpStep, HttpRank, HttpState(HEADERS, r), line + [13, 10] + tail) ==
            Until(HttpStep, HttpRank, HttpState(HEADERS, q), tail)
  {
    HttpAdvances();
    hide HttpStep, HeaderContext, Advances, Until, FindCrlf;
    var whole := line + [13, 10] + tail;
    LineTaken(line, tail);
    HeaderDecision(r, line, whole);
    UntilTurn(HttpStep, HttpRank, HttpState(HEADERS, r), whole);
  }

  lemma HeaderDecision(r: HttpRequest, line: Bytes, whole: Bytes)
    requires FindCrlf(whole) == |line| < |whole| && whole[..|line|] == line && line != []
    ensures var (q, ok) := HeaderContext(line, r);
            HttpStep(HttpState(HEADERS, r), whole) == if ok then Move(HttpState(HEADERS, q), |line| + 2, []) else Fail
  {
    hide HeaderContext, FindCrlf;
  }

  lemma FieldTaken(r: HttpRequest, line: Bytes, key: Bytes, pad: Bytes, value: Bytes)
    requires line == key + [58] + pad + value && 58 !in key && (forall x :: x in pad ==> x == 32)
    requires value != [] ==> value[0] != 32
    ensures HeaderContext(line, r) == (r.(header := r.header[key := value]), true)
  {
    assert line == key + [58] + (pad + value);
    forall i | 0 <= i < |key| ensures key[i] != 58 { assert key[i] in key; }
    IndexOfAt(key, 58, pad + value);
    assert line[..|key|] == key && line[|key| + 1..] == pad + value;
    PadTrimmed(pad, value);
    hide IndexOf, TrimLeft;
  }

  lemma PadTrimmed(pad: Bytes, value: Bytes)
    requires (forall x :: x in pad ==> x == 32) && (value != [] ==> value[0] != 32)
    ensures TrimLeft(pad + value) == value
  {
    hide TrimLeft;
    var b, r := pad + value, TrimLeft(pad + value);
    var removed := |b| - |r|;
    forall i | 0 <= i < |pad| ensures b[i] == 32 { assert pad[i] in pad; }
    assert value != [] ==> b[|pad|] == value[0];
    assert b[|pad|..] == value;
  }

  // ----- from the empty line on -----

  /** The empty line: the request is complete, unless it has a field `Content-Length`. */
  lemma EmptyLineDecides(r: HttpRequest, tail: Bytes)
    ensures Advances(HttpStep, HttpRank)
    ensures Until(HttpStep, HttpRank, HttpState(HEADERS, r), [13, 10] + tail) ==
            if [67, 111, 110, 116, 101, 110, 116, 45, 76, 101, 110, 103, 116, 104] in r.header
            then Until(HttpStep, HttpRank, HttpState(BODY, r), tail)
            else Stream([r], INITIAL, tail, false)
  {
    HttpAdvances();
    NamesInBytes();
    var b := [13, 10] + tail;
    assert b == [] + [13, 10] + tail;
    LineTaken([], tail);
    assert HttpStep(HttpState(HEADERS, r), b) ==
           (if CONTENT_LENGTH in r.header then Move(HttpState(BODY, r), 2, []) else Move(INITIAL, 2, [r])) by {
      hide FindCrlf;
    }
    assert b[2..] == tail;
    UntilTurn(HttpStep, HttpRank, HttpState(HEADERS, r), b);
    hide HttpStep, Advances, Until, FindCrlf;
  }

  predicate AllDigits(x: Bytes) { x != [] && forall d :: d in x ==> 48 <= d <= 57 }

  function Power10(n: nat): nat { if n == 0 then 1 else 10 * Power10(n - 1) }

  /** Decimal notation: the value of a digit, and of one string after another. */
  lemma {:induction false} DecimalNotation(x: Bytes, y: Bytes)
    requires (forall d :: d in x ==> 48 <= d <= 57) && (forall d :: d in y ==> 48 <= d <= 57)
    ensures (forall d :: d in x ==> IsDigit(d)) && (forall d :: d in y ==> IsDigit(d)) && (forall d :: d in x + y ==> IsDigit(d))
    ensures Decimal(x + y) == Decimal(x) * Power10(|y|) + Decimal(y)
    ensures |x| == 1 ==> Decimal(x) == x[0] as int - 48
    decreases |y|
  {
    if |x| == 1 { assert x[..0] == []; assert Decimal(x[..0]) == 0; }
    if y == [] {
      assert x + y == x;
    } else {
      var front, last := y[..|y| - 1], y[|y| - 1];
      assert forall d :: d in front ==> d in y;
      DecimalNotation(x, front);
      assert last in y && (x + y)[..|x + y| - 1] == x + front && (x + y)[|x + y| - 1] == last;
      assert Decimal(x + y) == Decimal(x + front) * 10 + (last as int - 48);
      assert Decimal(y) == Decimal(front) * 10 + (last as int - 48);
      Tenfold(Decimal(x), Power10(|front|), Decimal(front));
    }
  }

  lemma Tenfold(a: nat, p: nat, b: nat)
    ensures (a * p + b) * 10 == a * (10 * p) + b * 10
  {
  }

  /** The body: rejected as soon as a byte of it is there, unless the length is in digits and at most
      1 MiB; otherwise the request is complete, with that many bytes, as soon as they are there. */
  lemma BodyDecides(r: HttpRequest, b: Bytes)
    requires [67, 111, 110, 116, 101, 110, 116, 45, 76, 101, 110, 103, 116, 104] in r.header
    ensures Advances(HttpStep, HttpRank)
    ensures var s, x := HttpState(BODY, r), r.header[[67, 111, 110, 116, 101, 110, 116, 45, 76, 101, 110, 103, 116, 104]];
            && (AllDigits(x) ==> forall d :: d in x ==> IsDigit(d))
            && Until(HttpStep, HttpRank, s, b) ==
               if b == [] then Stream([], s, b, false)
               else if !AllDigits(x) || Decimal(x) > 1048576 then Stream([], s, b, true)
               else if |b| < Decimal(x) then Stream([], s, b, false)
               else Stream([r.(body := b[..Decimal(x)])], INITIAL, b[Decimal(x)..], false)
  {
    hide HttpStep, Decimal, Advances, Until, BodyLength;
    HttpAdvances();
    NamesInBytes();
    UntilTurn(HttpStep, HttpRank, HttpState(BODY, r), b);
    BodyStep(r, b);
    LengthRead(r.header[CONTENT_LENGTH]);
    assert b[0..] == b;
  }

  /** A body without a length is rejected. */
  lemma BodyNeedsLength(r: HttpRequest, b: Bytes)
    requires [67, 111, 110, 116, 101, 110, 116, 45, 76, 101, 110, 103, 116, 104] !in r.header && b != []
    ensures Advances(HttpStep, HttpRank)
    ensures Until(HttpStep, HttpRank, HttpState(BODY, r), b) == Stream([], HttpState(BODY, r), b, true)
  {
    HttpAdvances();
    NamesInBytes();
    assert HttpStep(HttpState(BODY, r), b) == Fail;
    hide HttpStep, Advances;
  }

  lemma BodyStep(r: HttpRequest, b: Bytes)
    requires CONTENT_LENGTH in r.header
    ensures HttpStep(HttpState(BODY, r), b) ==
            if b == [] then Wait
            else match BodyLength(r.header[CONTENT_LENGTH])
                 case BadLength => Fail
                 case Length(n) => if |b| < n then Wait else Move(INITIAL, n, [r.(body := b[..n])])
  {
    hide BodyLength;
  }

  lemma LengthRead(x: Bytes)
    ensures AllDigits(x) ==> forall d :: d in x ==> IsDigit(d)
    ensures BodyLength(x) == if !AllDigits(x) || Decimal(x) > 1048576 then BadLength else Length(Decimal(x))
  {
    hide Decimal;
  }
}
