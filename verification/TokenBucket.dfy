/** Rate limiting by token buckets, one per key, refilled lazily; clock readings are reals. */
module TokenBucket {

  type Key = string

  datatype Bucket = Bucket(tokens: real, lastRefill: real)

  type Buckets = map<Key, Bucket>

  datatype Limits = Limits(rate: real, capacity: real) {
    predicate Ok() { rate >= 0.0 && capacity >= 0.0 }
  }

  function Min(x: real, y: real): real { if x <= y then x else y }

  /** Tokens that flow in over `span` seconds. */
  function Flow(l: Limits, span: real): real { span * l.rate }

  lemma FlowLaws(l: Limits, x: real, y: real)
    ensures Flow(l, x + y) == Flow(l, x) + Flow(l, y) && Flow(l, 0.0) == 0.0
    ensures l.rate >= 0.0 && x >= 0.0 ==> Flow(l, x) >= 0.0
    ensures l.rate >= 0.0 && y >= 0.0 ==> Flow(l, y) >= 0.0
  {
  }

  function Refill(l: Limits, b: Bucket, now: real): Bucket {
    Bucket(Min(l.capacity, b.tokens + Flow(l, now - b.lastRefill)), now)
  }

  /** A new key starts with a full bucket. */
  function Acquire(l: Limits, bs: Buckets, key: Key, now: real): (Buckets, bool) {
    var b := Refill(l, if key in bs then bs[key] else Bucket(l.capacity, now), now);
    if b.tokens >= 1.0 then (bs[key := b.(tokens := b.tokens - 1.0)], true) else (bs[key := b], false)
  }

  datatype Event = Attempt(key: Key, now: real) | Remove(key: Key)

  function After(l: Limits, bs: Buckets, e: Event): Buckets {
    match e
    case Attempt(key, now) => Acquire(l, bs, key, now).0
    case Remove(key) => bs - {key}
  }

  predicate Admitted(l: Limits, bs: Buckets, e: Event) { e.Attempt? && Acquire(l, bs, e.key, e.now).1 }

  /** The attempts come in clock order, none before `from` and none after `to`. */
  predicate Timed(es: seq<Event>, from: real, to: real) {
    if es == [] then from <= to
    else match es[0]
      case Attempt(_, now) => from <= now && Timed(es[1..], now, to)
      case Remove(_) => Timed(es[1..], from, to)
  }

  function RunOf(l: Limits, bs: Buckets, es: seq<Event>): Buckets
    decreases |es|
  {
    if es == [] then bs else RunOf(l, After(l, bs, es[0]), es[1..])
  }

  function AdmittedCount(l: Limits, bs: Buckets, es: seq<Event>, key: Key): nat
    decreases |es|
  {
    if es == [] then 0
    else (if es[0].key == key && Admitted(l, bs, es[0]) then 1 else 0) + AdmittedCount(l, After(l, bs, es[0]), es[1..], key)
  }

  /** Reachable tables: between zero and `capacity` tokens, refilled in the past. */
  predicate Sane(l: Limits, bs: Buckets, now: real) {
    forall k :: k in bs ==> 0.0 <= bs[k].tokens <= l.capacity && bs[k].lastRefill <= now
  }

  /** What an attempt at time `now` would find: the bucket seen as a level that rises with time. */
  function Level(l: Limits, bs: Buckets, key: Key, now: real): real {
    if key in bs then Refill(l, bs[key], now).tokens else l.capacity
  }

  lemma SaneKept(l: Limits, bs: Buckets, e: Event, now: real)
    requires l.Ok() && Sane(l, bs, now) && (e.Attempt? ==> now <= e.now)
    ensures Sane(l, After(l, bs, e), if e.Attempt? then e.now else now)
  {
    FlowLaws(l, 0.0, if e.Attempt? && e.key in bs then e.now - bs[e.key].lastRefill else 0.0);
    hide Flow;
  }

  /** An attempt succeeds exactly when the level has reached one token, and takes that token; a
      denied attempt leaves every later level as it was, and no attempt touches another key. Between
      attempts the level rises by `rate` tokens a second up to the capacity. */
  lemma LevelLaw(l: Limits, bs: Buckets, key: Key, now: real, other: Key, later: real)
    requires l.Ok() && Sane(l, bs, now) && now <= later
    ensures var (after, ok) := Acquire(l, bs, key, now);
            && ok == (Level(l, bs, key, now) >= 1.0)
            && (other != key || !ok ==> Level(l, after, other, later) == Level(l, bs, other, later))
            && (ok ==> Level(l, after, key, later) ==
                       Min(l.capacity, Level(l, bs, key, now) - 1.0 + l.rate * (later - now)))
            && Level(l, bs, key, later) == Min(l.capacity, Level(l, bs, key, now) + l.rate * (later - now))
  {
    FlowLaws(l, 0.0, later - now);
    if key in bs {
      FlowLaws(l, now - bs[key].lastRefill, later - now);
    }
    FlowIs(l, later - now);
    hide Flow;
  }

  lemma FlowIs(l: Limits, span: real)
    ensures Flow(l, span) == l.rate * span
  {
  }

  /** One attempt, in full: a key that was left with `tokens` at `last` is admitted at `now` if and only
      if those tokens and `rate` a second since, but no more than the capacity, make one; a key not in
      the table if and only if the capacity does. What is left is that, less the token taken. */
  lemma AttemptLaw(l: Limits, bs: Buckets, key: Key, now: real)
    ensures var (after, ok) := Acquire(l, bs, key, now);
            var risen := if key in bs then bs[key].tokens + l.rate * (now - bs[key].lastRefill) else l.capacity;
            var level := if risen <= l.capacity then risen else l.capacity;
            && (ok <==> level >= 1.0)
            && after == bs[key := Bucket(if ok then level - 1.0 else level, now)]
  {
    FlowLaws(l, 0.0, 0.0);
    FlowIs(l, if key in bs then now - bs[key].lastRefill else 0.0);
    hide Flow;
  }

  lemma SaneLater(l: Limits, bs: Buckets, now: real, later: real)
    requires Sane(l, bs, now) && now <= later
    ensures Sane(l, bs, later)
  {
  }

  lemma {:induction false} RunSane(l: Limits, bs: Buckets, es: seq<Event>, from: real, to: real)
    requires l.Ok() && Sane(l, bs, from) && Timed(es, from, to)
    ensures Sane(l, RunOf(l, bs, es), to)
    decreases |es|
  {
    if es == [] {
      SaneLater(l, bs, from, to);
    } else {
      SaneKept(l, bs, es[0], from);
      RunSane(l, After(l, bs, es[0]), es[1..], if es[0].Attempt? then es[0].now else from, to);
    }
  }

  /** The level of a key over one event, without loss. */
  lemma OneStep(l: Limits, bs: Buckets, e: Event, key: Key, from: real, next: real)
    requires l.Ok() && Sane(l, bs, from) && from <= next && next == (if e.Attempt? then e.now else from)
    requires e != Remove(key)
    ensures Level(l, After(l, bs, e), key, next) ==
            Level(l, bs, key, next) - (if e.key == key && Admitted(l, bs, e) then 1.0 else 0.0)
    ensures Level(l, bs, key, next) == l.capacity
            || Level(l, bs, key, next) == Level(l, bs, key, from) + l.rate * (next - from)
  {
    SaneLater(l, bs, from, next);
    LevelLaw(l, bs, key, from, key, next);
    if e.Attempt? { LevelLaw(l, bs, e.key, next, key, next); }
    assert next - next == 0.0;
    hide Flow;
  }

  lemma {:induction false} TimedOrder(es: seq<Event>, from: real, to: real)
    requires Timed(es, from, to)
    ensures from <= to
  {
    if es != [] { TimedOrder(es[1..], if es[0].Attempt? then es[0].now else from, to); }
  }

  lemma LevelRange(l: Limits, bs: Buckets, key: Key, now: real)
    requires l.Ok() && Sane(l, bs, now)
    ensures 0.0 <= Level(l, bs, key, now) <= l.capacity
  {
    FlowLaws(l, 0.0, if key in bs then now - bs[key].lastRefill else 0.0);
    hide Flow;
  }

  /** What was admitted in a window and what is left at its end are at most the level at its start and
      what flowed in. */
  lemma {:induction false} WindowLevel(l: Limits, bs: Buckets, es: seq<Event>, key: Key, from: real, to: real)
    requires l.Ok() && Sane(l, bs, from) && Timed(es, from, to)
    requires forall e :: e in es ==> e != Remove(key)
    ensures AdmittedCount(l, bs, es, key) as real + Level(l, RunOf(l, bs, es), key, to)
            <= Level(l, bs, key, from) + l.rate * (to - from)
    decreases |es|
  {
    hide Acquire, Level, Sane, Flow, Admitted;
    if es == [] {
      LevelLaw(l, bs, key, from, key, to);
    } else {
      var e := es[0];
      var next := if e.Attempt? then e.now else from;
      assert e in es && forall x :: x in es[1..] ==> x in es;
      SaneKept(l, bs, e, from);
      WindowLevel(l, After(l, bs, e), es[1..], key, next, to);
      TimedOrder(es[1..], next, to);
      LevelLaw(l, bs, key, from, key, next);
      OneStep(l, bs, e, key, from, next);
      assert l.rate * (next - from) + l.rate * (to - next) == l.rate * (to - from);
    }
  }

  /** In every run and every window of it in which a key is not removed, that key is admitted at most
      capacity + rate * T times, T being the length of the window. */
  lemma {:induction false} WindowBound(l: Limits, before: seq<Event>, window: seq<Event>, key: Key, start: real, from: real, to: real)
    requires l.Ok() && Timed(before, start, from) && Timed(window, from, to)
    requires forall e :: e in window ==> e != Remove(key)
    ensures AdmittedCount(l, RunOf(l, map[], before), window, key) as real <= l.capacity + l.rate * (to - from)
  {
    assert Sane(l, map[], start);
    hide Sane, Flow, Timed, RunOf, AdmittedCount, Level;
    RunSane(l, map[], before, start, from);
    var bs := RunOf(l, map[], before);
    WindowLevel(l, bs, window, key, from, to);
    RunSane(l, bs, window, from, to);
    LevelRange(l, bs, key, from);
    LevelRange(l, RunOf(l, bs, window), key, to);
  }

  /** A key that was removed starts afresh: its next attempt is admitted if and only if the capacity makes
      a token. Other keys are not touched. */
  lemma RemovedStartsAfresh(l: Limits, bs: Buckets, key: Key, now: real)
    ensures After(l, bs, Remove(key)) == bs - {key}
    ensures Admitted(l, After(l, bs, Remove(key)), Attempt(key, now)) <==> l.capacity >= 1.0
  {
    AttemptLaw(l, After(l, bs, Remove(key)), key, now);
  }

  // ----- the limiter denies no more than it must -----

  /** The level at the end explained by the window that starts at `t` with event `i`: the level then
      (the capacity, if the bucket was `full`), plus what flowed in, less what was admitted. */
  ghost predicate Explains(l: Limits, bs: Buckets, es: seq<Event>, key: Key, from: real, now: real, i: nat, t: real, full: bool) {
    && i <= |es| && Timed(es[..i], from, t) && Timed(es[i..], t, now)
    && (full || (i == 0 && t == from))
    && Level(l, RunOf(l, bs, es), key, now) ==
       (if full then l.capacity else Level(l, bs, key, from)) + l.rate * (now - t)
       - AdmittedCount(l, RunOf(l, bs, es[..i]), es[i..], key) as real
  }

  /** The level at the end is explained by the window from the start, or from a later point at which the
      bucket was full. */
  lemma {:induction false} LevelFrom(l: Limits, bs: Buckets, es: seq<Event>, key: Key, from: real, now: real)
    returns (i: nat, t: real, full: bool)
    requires l.Ok() && Sane(l, bs, from) && Timed(es, from, now)
    requires forall e :: e in es ==> e != Remove(key)
    ensures Explains(l, bs, es, key, from, now, i, t, full)
    decreases |es|
  {
    hide Level, Explains, Acquire, RunOf, AdmittedCount, Admitted;
    if es == [] {
      i, full := 0, Level(l, bs, key, now) == l.capacity;
      t := if full then now else from;
      ExplainsNothing(l, bs, key, from, now);
    } else {
      var e := es[0];
      var next := if e.Attempt? then e.now else from;
      assert e in es && forall x :: x in es[1..] ==> x in es;
      SaneKept(l, bs, e, from);
      i, t, full := LevelFrom(l, After(l, bs, e), es[1..], key, next, now);
      if full {
        ExplainsLater(l, bs, es, key, from, now, i, t);
        i := i + 1;
      } else {
        ExplainsIs(l, After(l, bs, e), es[1..], key, next, now, i, t);
        ExplainsFirst(l, bs, es, key, from, now);
        full := Level(l, bs, key, next) == l.capacity;
        i, t := 0, if full then next else from;
      }
    }
  }

  lemma ExplainsIs(l: Limits, bs: Buckets, es: seq<Event>, key: Key, from: real, now: real, i: nat, t: real)
    requires Explains(l, bs, es, key, from, now, i, t, false)
    ensures i == 0 && t == from
  {
  }

  lemma ExplainsNothing(l: Limits, bs: Buckets, key: Key, from: real, now: real)
    requires l.Ok() && Sane(l, bs, from) && from <= now
    ensures var full := Level(l, bs, key, now) == l.capacity;
            Explains(l, bs, [], key, from, now, 0, if full then now else from, full)
  {
    LevelLaw(l, bs, key, from, key, now);
    hide Acquire, Level, Sane;
    var none: seq<Event> := [];
    assert none[..0] == none && none[0..] == none;
  }

  lemma ExplainsLater(l: Limits, bs: Buckets, es: seq<Event>, key: Key, from: real, now: real, i: nat, t: real)
    requires es != [] && Timed(es, from, now)
    requires Explains(l, After(l, bs, es[0]), es[1..], key, if es[0].Attempt? then es[0].now else from, now, i, t, true)
    ensures Explains(l, bs, es, key, from, now, i + 1, t, true)
  {
    hide Level, Acquire, AdmittedCount;
    assert es[..i + 1][0] == es[0] && es[..i + 1][1..] == es[1..][..i] && es[i + 1..] == es[1..][i..];
  }

  /** One event at the front: the window grows by it, unless the bucket was full when it came. */
  lemma ExplainsFirst(l: Limits, bs: Buckets, es: seq<Event>, key: Key, from: real, now: real)
    requires l.Ok() && Sane(l, bs, from) && es != [] && Timed(es, from, now) && es[0] != Remove(key)
    requires var next := if es[0].Attempt? then es[0].now else from;
             Explains(l, After(l, bs, es[0]), es[1..], key, next, now, 0, next, false)
    ensures var next := if es[0].Attempt? then es[0].now else from;
            var full := Level(l, bs, key, next) == l.capacity;
            Explains(l, bs, es, key, from, now, 0, if full then next else from, full)
  {
    hide Level, Acquire, Sane, RunOf, AdmittedCount, Admitted;
    var e, rest := es[0], es[1..];
    var next := if e.Attempt? then e.now else from;
    assert es[..0] == [] && es[0..] == es && rest[..0] == [] && rest[0..] == rest;
    RunTurn(l, bs, es, key);
    RunNothing(l, bs);
    RunNothing(l, After(l, bs, e));
    OneStep(l, bs, e, key, from, next);
    Distributes(l.rate, next - from, now - next);
  }

  lemma Distributes(r: real, x: real, y: real)
    ensures r * x + r * y == r * (x + y)
  {
  }

  lemma RunNothing(l: Limits, bs: Buckets)
    ensures RunOf(l, bs, []) == bs
  {
  }

  lemma RunTurn(l: Limits, bs: Buckets, es: seq<Event>, key: Key)
    requires es != []
    ensures RunOf(l, bs, es) == RunOf(l, After(l, bs, es[0]), es[1..])
    ensures AdmittedCount(l, bs, es, key) ==
            (if es[0].key == key && Admitted(l, bs, es[0]) then 1 else 0) + AdmittedCount(l, After(l, bs, es[0]), es[1..], key)
  {
  }

  /** Exactly the attempts that fit are admitted: after any run in which the key has a fresh bucket at
      `start` and is not removed since, an attempt succeeds if and only if in every window up to it, it
      and those admitted before it are at most capacity + rate * T. */
  lemma {:induction false} AdmittedExactly(l: Limits, bs: Buckets, es: seq<Event>, key: Key, start: real, now: real)
    requires l.Ok() && Sane(l, bs, start) && key !in bs && Timed(es, start, now)
    requires forall e :: e in es ==> e != Remove(key)
    ensures Admitted(l, RunOf(l, bs, es), Attempt(key, now)) <==>
            forall i: nat, t: real | i <= |es| && Timed(es[..i], start, t) && Timed(es[i..], t, now) ::
              (AdmittedCount(l, RunOf(l, bs, es[..i]), es[i..], key) + 1) as real <= l.capacity + l.rate * (now - t)
  {
    var end := RunOf(l, bs, es);
    RunSane(l, bs, es, start, now);
    LevelLaw(l, end, key, now, key, now);
    hide Acquire, Sane, Flow;
    if Level(l, end, key, now) >= 1.0 {
      forall i: nat, t: real | i <= |es| && Timed(es[..i], start, t) && Timed(es[i..], t, now)
        ensures (AdmittedCount(l, RunOf(l, bs, es[..i]), es[i..], key) + 1) as real <= l.capacity + l.rate * (now - t)
      {
        WindowRoom(l, bs, es, i, key, start, t, now);
      }
    } else {
      var i, t, full := LevelFrom(l, bs, es, key, start, now);
      assert Level(l, bs, key, start) == l.capacity;
      NoRoom(l, bs, es, key, start, now, i, t, full);
      hide Explains, Level, RunOf, AdmittedCount;
    }
  }

  lemma NoRoom(l: Limits, bs: Buckets, es: seq<Event>, key: Key, start: real, now: real, i: nat, t: real, full: bool)
    requires Explains(l, bs, es, key, start, now, i, t, full) && Level(l, RunOf(l, bs, es), key, now) < 1.0
    requires Level(l, bs, key, start) == l.capacity
    ensures i <= |es| && Timed(es[..i], start, t) && Timed(es[i..], t, now)
    ensures !((AdmittedCount(l, RunOf(l, bs, es[..i]), es[i..], key) + 1) as real <= l.capacity + l.rate * (now - t))
  {
    hide Level, RunOf, AdmittedCount, Timed;
    Overdrawn(Level(l, RunOf(l, bs, es), key, now), l.capacity, l.rate * (now - t),
              AdmittedCount(l, RunOf(l, bs, es[..i]), es[i..], key));
  }

  lemma Overdrawn(level: real, capacity: real, inflow: real, n: nat)
    requires level == capacity + inflow - n as real && level < 1.0
    ensures !((n + 1) as real <= capacity + inflow)
  {
    assert (n + 1) as real == n as real + 1.0;
  }

  /** A window ending with an admitted attempt has room for it. */
  lemma WindowRoom(l: Limits, bs: Buckets, es: seq<Event>, i: nat, key: Key, start: real, t: real, now: real)
    requires l.Ok() && Sane(l, bs, start) && i <= |es| && Timed(es[..i], start, t) && Timed(es[i..], t, now)
    requires (forall e :: e in es ==> e != Remove(key)) && Level(l, RunOf(l, bs, es), key, now) >= 1.0
    ensures (AdmittedCount(l, RunOf(l, bs, es[..i]), es[i..], key) + 1) as real <= l.capacity + l.rate * (now - t)
  {
    var before, window := RunOf(l, bs, es[..i]), es[i..];
    assert forall e :: e in window ==> e in es;
    RunSplit(l, bs, es, i);
    RunSane(l, bs, es[..i], start, t);
    WindowLevel(l, before, window, key, t, now);
    LevelLaw(l, before, key, t, key, t);
    assert t - t == 0.0;
    hide Sane, Flow, Timed, RunOf, AdmittedCount, Acquire;
  }

  lemma {:induction false} RunSplit(l: Limits, bs: Buckets, es: seq<Event>, i: nat)
    requires i <= |es|
    ensures RunOf(l, bs, es) == RunOf(l, RunOf(l, bs, es[..i]), es[i..])
    decreases i
  {
    if i == 0 {
      assert es[..0] == [] && es[0..] == es;
    } else {
      assert es[..i][0] == es[0] && es[..i][1..] == es[1..][..i - 1] && es[i..] == es[1..][i - 1..];
      RunSplit(l, After(l, bs, es[0]), es[1..], i - 1);
    }
  }

  /** `n` attempts at one instant get one token each, as far as the level reaches; a fresh key thus
      meets the bound exactly. */
  lemma {:induction false} Burst(l: Limits, bs: Buckets, key: Key, now: real, n: nat)
    requires l.Ok() && Sane(l, bs, now)
    ensures var level := Level(l, bs, key, now);
            level >= 0.0 && AdmittedCount(l, bs, seq(n, _ => Attempt(key, now)), key) == if n <= level.Floor then n else level.Floor
    decreases n
  {
    LevelLaw(l, bs, key, now, key, now);
    FlowLaws(l, 0.0, if key in bs then now - bs[key].lastRefill else 0.0);
    assert now - now == 0.0;
    hide Flow;
    if n != 0 {
      var es := seq(n, _ => Attempt(key, now));
      assert es[1..] == seq(n - 1, _ => Attempt(key, now));
      SaneKept(l, bs, es[0], now);
      Burst(l, After(l, bs, es[0]), key, now, n - 1);
    }
  }

  // ----- which attempts matter -----

  /** Tables that answer every attempt from `now` on alike. */
  ghost predicate Alike(l: Limits, a: Buckets, b: Buckets, now: real) {
    forall k: Key, t: real :: now <= t ==> Level(l, a, k, t) == Level(l, b, k, t)
  }

  function Outcomes(l: Limits, bs: Buckets, es: seq<Event>): (r: seq<bool>)
    ensures |r| == |es|
    decreases |es|
  {
    if es == [] then [] else [Admitted(l, bs, es[0])] + Outcomes(l, After(l, bs, es[0]), es[1..])
  }

  function Select<T>(s: seq<T>, keep: seq<bool>): seq<T>
    requires |s| == |keep|
  {
    if s == [] then [] else (if keep[0] then [s[0]] else []) + Select(s[1..], keep[1..])
  }

  lemma AlikeKept(l: Limits, a: Buckets, b: Buckets, e: Event, now: real)
    requires l.Ok() && Sane(l, a, now) && Sane(l, b, now) && Alike(l, a, b, now) && (e.Attempt? ==> now <= e.now)
    ensures Admitted(l, a, e) == Admitted(l, b, e)
    ensures Alike(l, After(l, a, e), After(l, b, e), if e.Attempt? then e.now else now)
  {
    if e.Attempt? {
      SaneLater(l, a, now, e.now);
      SaneLater(l, b, now, e.now);
      LevelLaw(l, a, e.key, e.now, e.key, e.now);
      LevelLaw(l, b, e.key, e.now, e.key, e.now);
      forall k: Key, t: real | e.now <= t
        ensures Level(l, After(l, a, e), k, t) == Level(l, After(l, b, e), k, t)
      {
        LevelLaw(l, a, e.key, e.now, k, t);
        LevelLaw(l, b, e.key, e.now, k, t);
      }
    } else {
      assert forall k: Key, t: real :: Level(l, After(l, a, e), k, t) ==
                                       if k == e.key then l.capacity else Level(l, a, k, t);
      assert forall k: Key, t: real :: Level(l, After(l, b, e), k, t) ==
                                       if k == e.key then l.capacity else Level(l, b, k, t);
    }
  }

  /** A denied attempt leaves an alike table. */
  lemma DeniedIsSilent(l: Limits, a: Buckets, e: Event, now: real)
    requires l.Ok() && Sane(l, a, now) && e.Attempt? && now <= e.now && !Admitted(l, a, e)
    ensures Alike(l, After(l, a, e), a, e.now)
  {
    SaneLater(l, a, now, e.now);
    forall k: Key, t: real | e.now <= t ensures Level(l, After(l, a, e), k, t) == Level(l, a, k, t) {
      LevelLaw(l, a, e.key, e.now, k, t);
    }
  }

  lemma {:induction false} DeniedDoNotMatter(
    l: Limits, a: Buckets, b: Buckets, es: seq<Event>, keep: seq<bool>, from: real, to: real)
    requires l.Ok() && Sane(l, a, from) && Sane(l, b, from) && Alike(l, a, b, from) && Timed(es, from, to)
    requires |keep| == |es|
    requires forall i :: 0 <= i < |es| && !keep[i] ==> es[i].Attempt? && !Outcomes(l, a, es)[i]
    ensures Outcomes(l, b, Select(es, keep)) == Select(Outcomes(l, a, es), keep)
    decreases |es|
  {
    if es != [] {
      var e, next := es[0], if es[0].Attempt? then es[0].now else from;
      var a', rest := After(l, a, e), Select(es[1..], keep[1..]);
      var outs := Outcomes(l, a, es);
      assert outs[1..] == Outcomes(l, a', es[1..]);
      assert forall i :: 0 <= i < |es| - 1 && !keep[1..][i] ==> es[1..][i] == es[i + 1] && outs[1..][i] == outs[i + 1];
      SaneKept(l, a, e, from);
      if keep[0] {
        AlikeKept(l, a, b, e, from);
        SaneKept(l, b, e, from);
        DeniedDoNotMatter(l, a', After(l, b, e), es[1..], keep[1..], next, to);
        assert ([e] + rest)[1..] == rest;
      } else {
        DeniedIsSilent(l, a, e, from);
        SaneLater(l, b, from, next);
        DeniedDoNotMatter(l, a', b, es[1..], keep[1..], next, to);
        assert [] + rest == rest;
      }
    }
  }

  /** Deleting any denied attempts from a run changes no other outcome. */
  lemma DeniedCanBeDeleted(l: Limits, es: seq<Event>, keep: seq<bool>, from: real, to: real)
    requires l.Ok() && Timed(es, from, to) && |keep| == |es|
    requires forall i :: 0 <= i < |es| && !keep[i] ==> es[i].Attempt? && !Outcomes(l, map[], es)[i]
    ensures Outcomes(l, map[], Select(es, keep)) == Select(Outcomes(l, map[], es), keep)
  {
    DeniedDoNotMatter(l, map[], map[], es, keep, from, to);
  }

  /** Outcomes of a key's attempts depend on that key's events only. */
  lemma {:induction false} KeysIndependent(l: Limits, a: Buckets, b: Buckets, es: seq<Event>, key: Key)
    requires (key in a) == (key in b) && (key in a ==> a[key] == b[key])
    ensures var own := seq(|es|, i requires 0 <= i < |es| => es[i].key == key);
            Outcomes(l, b, Select(es, own)) == Select(Outcomes(l, a, es), own)
    decreases |es|
  {
    if es != [] {
      var own := seq(|es|, i requires 0 <= i < |es| => es[i].key == key);
      var rest := es[1..];
      assert own[1..] == seq(|rest|, i requires 0 <= i < |rest| => rest[i].key == key);
      if es[0].key == key {
        KeysIndependent(l, After(l, a, es[0]), After(l, b, es[0]), rest, key);
        assert ([es[0]] + Select(rest, own[1..]))[1..] == Select(rest, own[1..]);
      } else {
        KeysIndependent(l, After(l, a, es[0]), b, rest, key);
        assert [] + Select(rest, own[1..]) == Select(rest, own[1..]);
      }
    }
  }

  // ----- the limiter object -----

  class Limiter {
    const limits: Limits
    var buckets: Buckets

    constructor (rate: real, capacity: real)
      ensures limits == Limits(rate, capacity) && buckets == map[]
    {
      limits, buckets := Limits(rate, capacity), map[];
    }

    /** `now` is what the clock says under the lock. */
    method TryAcquire(key: Key, now: real) returns (ok: bool)
      modifies this
      ensures (buckets, ok) == Acquire(limits, old(buckets), key, now)
      ensures var risen := if key in old(buckets) then old(buckets)[key].tokens + limits.rate * (now - old(buckets)[key].lastRefill)
                           else limits.capacity;
              var level := if risen <= limits.capacity then risen else limits.capacity;
              && (ok <==> level >= 1.0)
              && buckets == old(buckets)[key := Bucket(if ok then level - 1.0 else level, now)]
    {
      AttemptLaw(limits, buckets, key, now);
      if key !in buckets {
        buckets := buckets[key := Bucket(limits.capacity, now)];
      }
      FlowLaws(limits, 0.0, 0.0);
      var b := buckets[key];
      var elapsed := now - b.lastRefill;
      b := Bucket(Min(limits.capacity, b.tokens + Flow(limits, elapsed)), now);
      ok := b.tokens >= 1.0;
      if ok {
        b := b.(tokens := b.tokens - 1.0);
      }
      buckets := buckets[key := b];
      assert buckets == old(buckets)[key := b];
    }

    method RemoveKey(key: Key)
      modifies this
      ensures buckets == old(buckets) - {key}
    {
      buckets := buckets - {key};
    }
  }
}
