/** Byte streams and incremental decoders.

A decoder is a step function: from a parser state and the unread bytes it either waits for more
input, rejects the input, or consumes a prefix and emits messages. Both protocols of the server are
such decoders, and everything about "any chunking gives the same messages" is proved here once. */
module Streaming {

  type byte = x: int | 0 <= x < 256
  type Bytes = seq<byte>

  datatype Outcome<S, M> = Wait | Fail | Move(next: S, used: nat, emitted: seq<M>)

  /** What a run of the decoder leaves behind: messages, parser state, unread bytes, error flag. */
  datatype Stream<S, M> = Stream(out: seq<M>, state: S, rest: Bytes, failed: bool)

  type Decoder<!S, !M> = (S, Bytes) -> Outcome<S, M>

  /** Every move stays inside the input and either consumes a byte or lowers the rank. */
  ghost predicate Advances<S(!new), M(!new)>(step: Decoder<S, M>, rank: S -> nat) {
    forall s, b :: step(s, b).Move? ==>
      step(s, b).used <= |b| && (step(s, b).used > 0 || rank(step(s, b).next) < rank(s))
  }

  /** A decision once taken does not depend on bytes that arrive later. */
  ghost predicate Stable<S(!new), M(!new)>(step: Decoder<S, M>) {
    forall s, a, b {:trigger step(s, a + b)} :: !step(s, a).Wait? ==> step(s, a + b) == step(s, a)
  }

  ghost predicate Incremental<S(!new), M(!new)>(step: Decoder<S, M>, rank: S -> nat) {
    Advances(step, rank) && Stable(step)
  }

  /** One-shot decoding of everything at hand. */
  function Drain<S(!new), M(!new)>(step: Decoder<S, M>, rank: S -> nat, s: S, b: Bytes): Stream<S, M>
    requires Advances(step, rank)
    decreases |b|, rank(s)
  {
    match step(s, b)
    case Wait => Stream([], s, b, false)
    case Fail => Stream([], s, b, true)
    case Move(next, used, emitted) =>
      var tail := Drain(step, rank, next, b[used..]);
      tail.(out := emitted + tail.out)
  }

  /** Reading the input as a sequence of chunks; nothing is read after an error. */
  function Feed<S(!new), M(!new)>(step: Decoder<S, M>, rank: S -> nat, s: S, held: Bytes, chunks: seq<Bytes>): Stream<S, M>
    requires Advances(step, rank)
    decreases |chunks|
  {
    if chunks == [] then Drain(step, rank, s, held)
    else
      var first := Drain(step, rank, s, held + chunks[0]);
      if first.failed then first
      else
        var tail := Feed(step, rank, first.state, first.rest, chunks[1..]);
        tail.(out := first.out + tail.out)
  }

  function Flatten(chunks: seq<Bytes>): Bytes {
    if chunks == [] then [] else chunks[0] + Flatten(chunks[1..])
  }

  /** After draining, what is left is stuck: the decoder waits on it, or rejects it. */
  lemma {:induction false} DrainSettles<S(!new), M(!new)>(step: Decoder<S, M>, rank: S -> nat, s: S, b: Bytes)
    requires Advances(step, rank)
    ensures var d := Drain(step, rank, s, b);
            step(d.state, d.rest) == (if d.failed then Fail else Wait)
    decreases |b|, rank(s)
  {
    match step(s, b)
    case Wait =>
    case Fail =>
    case Move(next, used, _) => DrainSettles(step, rank, next, b[used..]);
  }

  /** Later bytes only continue an earlier run; they never change what it produced. */
  lemma {:induction false} DrainAppend<S(!new), M(!new)>(step: Decoder<S, M>, rank: S -> nat, s: S, a: Bytes, b: Bytes)
    requires Incremental(step, rank)
    ensures var d, whole := Drain(step, rank, s, a), Drain(step, rank, s, a + b);
            if d.failed then whole.failed && whole.out == d.out && whole.state == d.state && whole.rest == d.rest + b
            else var more := Drain(step, rank, d.state, d.rest + b);
                 whole == more.(out := d.out + more.out)
    decreases |a|, rank(s)
  {
    match step(s, a)
    case Wait =>
    case Fail => assert step(s, a + b) == step(s, a);
    case Move(next, used, emitted) =>
      assert step(s, a + b) == step(s, a);
      assert (a + b)[used..] == a[used..] + b;
      DrainAppend(step, rank, next, a[used..], b);
      var d := Drain(step, rank, next, a[used..]);
      if !d.failed {
        var more := Drain(step, rank, d.state, d.rest + b);
        assert emitted + (d.out + more.out) == (emitted + d.out) + more.out;
      }
  }

  /** Any split of a byte stream into reads yields the messages, the error, and (without an error)
      the parser state and unread bytes of the one-shot decoder on the whole stream. */
  lemma {:induction false} ChunkingIndependence<S(!new), M(!new)>(
    step: Decoder<S, M>, rank: S -> nat, s: S, held: Bytes, chunks: seq<Bytes>)
    requires Incremental(step, rank)
    ensures var fed, whole := Feed(step, rank, s, held, chunks), Drain(step, rank, s, held + Flatten(chunks));
            && fed.out == whole.out && fed.failed == whole.failed && fed.state == whole.state
            && (!fed.failed ==> fed.rest == whole.rest)
    decreases |chunks|
  {
    if chunks == [] {
      assert held + Flatten(chunks) == held;
    } else {
      var first := Drain(step, rank, s, held + chunks[0]);
      DrainAppend(step, rank, s, held + chunks[0], Flatten(chunks[1..]));
      assert held + Flatten(chunks) == (held + chunks[0]) + Flatten(chunks[1..]);
      if !first.failed {
        ChunkingIndependence(step, rank, first.state, first.rest, chunks[1..]);
      }
    }
  }

  /** One call of a parser that stops at the first message. */
  function Until<S(!new), M(!new)>(step: Decoder<S, M>, rank: S -> nat, s: S, b: Bytes): (r: Stream<S, M>)
    requires Advances(step, rank)
    ensures |r.rest| <= |b| && r.rest == b[|b| - |r.rest|..]
    decreases |b|, rank(s)
  {
    match step(s, b)
    case Wait => Stream([], s, b, false)
    case Fail => Stream([], s, b, true)
    case Move(next, used, emitted) =>
      if emitted != [] then Stream(emitted, next, b[used..], false) else Until(step, rank, next, b[used..])
  }

  lemma UntilTurn<S(!new), M(!new)>(step: Decoder<S, M>, rank: S -> nat, s: S, b: Bytes)
    requires Advances(step, rank)
    ensures step(s, b).Wait? ==> Until(step, rank, s, b) == Stream([], s, b, false)
    ensures step(s, b).Fail? ==> Until(step, rank, s, b) == Stream([], s, b, true)
    ensures step(s, b).Move? ==>
              var m := step(s, b);
              && m.used <= |b|
              && Until(step, rank, s, b) ==
                 if m.emitted == [] then Until(step, rank, m.next, b[m.used..])
                 else Stream(m.emitted, m.next, b[m.used..], false)
  {
  }

  /** Calling the parser again and again is the one-shot decoder. */
  lemma {:induction false} DrainByCalls<S(!new), M(!new)>(step: Decoder<S, M>, rank: S -> nat, s: S, b: Bytes)
    requires Advances(step, rank)
    ensures var u := Until(step, rank, s, b);
            if u.out == [] then Drain(step, rank, s, b) == u
            else !u.failed && var tail := Drain(step, rank, u.state, u.rest);
                 Drain(step, rank, s, b) == tail.(out := u.out + tail.out)
    decreases |b|, rank(s)
  {
    match step(s, b)
    case Wait =>
    case Fail =>
    case Move(next, used, emitted) =>
      if emitted == [] {
        DrainByCalls(step, rank, next, b[used..]);
        var tail := Drain(step, rank, next, b[used..]);
        assert [] + tail.out == tail.out;
      }
  }

  /** A call that finds a message moves on. */
  lemma {:induction false} UntilShrinks<S(!new), M(!new)>(step: Decoder<S, M>, rank: S -> nat, s: S, b: Bytes)
    requires Advances(step, rank)
    ensures var u := Until(step, rank, s, b);
            u.out != [] ==> |u.rest| < |b| || (u.rest == b && rank(u.state) < rank(s))
    decreases |b|, rank(s)
  {
    match step(s, b)
    case Wait =>
    case Fail =>
    case Move(next, used, emitted) =>
      assert used == 0 ==> b[used..] == b;
      if emitted == [] { UntilShrinks(step, rank, next, b[used..]); }
  }

  /** A call that rejects what is there rejects it whatever follows. */
  lemma {:induction false} UntilKeepsFailing<S(!new), M(!new)>(step: Decoder<S, M>, rank: S -> nat, s: S, a: Bytes, b: Bytes)
    requires Incremental(step, rank) && Until(step, rank, s, a).failed
    ensures Until(step, rank, s, a + b).failed
    decreases |a|, rank(s)
  {
    assert step(s, a + b) == step(s, a);
    match step(s, a)
    case Fail =>
    case Move(next, used, emitted) =>
      assert (a + b)[used..] == a[used..] + b;
      UntilKeepsFailing(step, rank, next, a[used..], b);
  }
}
