/** Who is answered and what is counted: clients that are gone get nothing, present ones do, and each
counter of the gateway is what its name says, in every run. */
module GatewayReplies {
  import opened Wrappers
  import opened Framing
  import opened Gateway

  /** `ms` with one more move. */
  lemma Extended(ms: seq<Move>, m: Move)
    requires Legal(ms) && Can(After(ms), m)
    ensures Legal(ms + [m]) && After(ms + [m]) == Do(After(ms), m)
  {
    ThenIs(ms, m);
    var r := Then(ms, m);
  }

  /** Clients are gone exactly from their going on. */
  lemma {:induction false} GoneExactly(ms: seq<Move>, c: nat)
    requires Legal(ms)
    ensures c in After(ms).gone <==> ClientGone(c) in ms
    decreases |ms|
  {
    if ms != [] {
      var n := |ms| - 1;
      GoneExactly(ms[..n], c);
      GoneStep(After(ms[..n]), ms[n]);
      assert ms == ms[..n] + [ms[n]];
    }
  }

  lemma GoneStep(g: Gate, m: Move)
    requires Can(g, m)
    ensures Do(g, m).gone == if m.ClientGone? then g.gone + {m.client} else g.gone
  {
  }

  /** A handler that found an entry delivers the response if and only if the client was not gone when it
      looked; otherwise it drops it, and sends nothing. */
  lemma {:induction false} ResolveDecides(ms: seq<Move>, w: nat)
    requires Legal(ms) && Can(After(ms), Resolve(w))
    ensures Legal(ms + [Resolve(w)])
    ensures var c, h := After(ms).hands[w].entry.client, After(ms + [Resolve(w)]);
            && (Can(h, Deliver(w)) <==> ClientGone(c) !in ms)
            && (Can(h, Finish(w)) <==> ClientGone(c) in ms)
            && h.replies == After(ms).replies && h.metrics == After(ms).metrics
  {
    Extended(ms, Resolve(w));
    GoneExactly(ms, After(ms).hands[w].entry.client);
    hide Legal, After;
  }

  /** Delivering sends the entry's client one reply, under its own id; finishing counts it as answered or
      as dropped. */
  lemma {:induction false} DeliverSends(ms: seq<Move>, w: nat)
    requires Legal(ms) && Can(After(ms), Deliver(w))
    ensures Legal(ms + [Deliver(w)])
    ensures var g, h := After(ms), After(ms + [Deliver(w)]);
            && h.replies == g.replies + [Reply(g.hands[w].entry.ticket, g.hands[w].entry.client, g.hands[w].entry.original,
                                               FromBackend(g.hands[w].about))]
            && Can(h, Finish(w)) && Do(h, Finish(w)).metrics == g.metrics.(responses := g.metrics.responses + 1)
  {
    Extended(ms, Deliver(w));
    hide Legal, After;
  }

  // ----- every reply had a client -----

  /** At move `i` somebody found that the client of ticket `t` was still there: a response handler, or the
      timeout scan. */
  ghost predicate FoundPresent(ms: seq<Move>, i: nat, t: nat, c: nat, byScan: bool)
    requires Legal(ms)
  {
    && i < |ms| && Legal(ms[..i]) && Can(After(ms[..i]), ms[i])
    && (if byScan then ms[i].Cleanup? else ms[i].Resolve? && After(ms[..i]).hands[ms[i].worker].entry.ticket == t)
    && ClientGone(c) !in ms[..i]
  }

  lemma {:induction false} LegalPrefix(ms: seq<Move>, i: nat)
    requires Legal(ms) && i <= |ms|
    ensures Legal(ms[..i]) && (i < |ms| ==> Can(After(ms[..i]), ms[i]))
    decreases |ms|
  {
    if i < |ms| - 1 {
      LegalPrefix(ms[..|ms| - 1], i);
      assert ms[..|ms| - 1][..i] == ms[..i];
    } else {
      assert i == |ms| ==> ms[..i] == ms;
    }
  }

  lemma PresentLater(ms: seq<Move>, i: nat, t: nat, c: nat, byScan: bool)
    requires Legal(ms) && ms != [] && Legal(ms[..|ms| - 1]) && FoundPresent(ms[..|ms| - 1], i, t, c, byScan)
    ensures FoundPresent(ms, i, t, c, byScan)
  {
    assert ms[..|ms| - 1][..i] == ms[..i];
    hide Legal, After, Can;
  }

  /** A handler past its look at the client found it present. */
  lemma {:induction false} HeldHadClient(ms: seq<Move>, w: nat) returns (i: nat)
    requires Legal(ms) && w in After(ms).hands
    requires After(ms).hands[w].stage == Held || After(ms).hands[w].stage == Sent
    ensures var e := After(ms).hands[w].entry; FoundPresent(ms, i, e.ticket, e.client, false)
    decreases |ms|
  {
    var n := |ms| - 1;
    var g, m := After(ms[..n]), ms[n];
    HandStep(g, m, w);
    if m == Resolve(w) {
      i := n;
      GoneExactly(ms[..n], g.hands[w].entry.client);
    } else {
      i := HeldHadClient(ms[..n], w);
      PresentLater(ms, i, After(ms).hands[w].entry.ticket, After(ms).hands[w].entry.client, false);
    }
  }

  /** How a hand comes to be past its look at the client. */
  lemma HandStep(g: Gate, m: Move, w: nat)
    requires Can(g, m) && w in Do(g, m).hands && Do(g, m).hands[w].stage in {Held, Sent}
    ensures w in g.hands && g.hands[w].entry == Do(g, m).hands[w].entry
    ensures if m == Resolve(w) then g.hands[w].entry.client !in g.gone else g.hands[w].stage in {Held, Sent}
  {
  }

  lemma {:induction false} BatchHadClient(ms: seq<Move>, e: Entry) returns (i: nat)
    requires Legal(ms) && e in After(ms).batch
    ensures FoundPresent(ms, i, e.ticket, e.client, true)
    decreases |ms|
  {
    var n := |ms| - 1;
    var g, m := After(ms[..n]), ms[n];
    hide Do, Can;
    if m.Cleanup? {
      i := n;
      CollectedPresent(g, m, e);
      GoneExactly(ms[..n], e.client);
    } else {
      BatchStep(g, m, e);
      i := BatchHadClient(ms[..n], e);
      PresentLater(ms, i, e.ticket, e.client, true);
    }
  }

  lemma CollectedPresent(g: Gate, m: Move, e: Entry)
    requires Can(g, m) && m.Cleanup? && e in Do(g, m).batch
    ensures e.client !in g.gone
  {
    ScanCollectsPresent(m.order, g.pending, g.gone, m.now, e);
    hide ScanOver, Batched;
  }

  lemma {:induction false} ScanCollectsPresent(order: seq<u32>, pending: map<u32, Entry>, gone: set<nat>, now: int, e: Entry)
    ensures e in ScanOver(order, pending, gone, now).timeouts ==> e.client !in gone
  {
    if order != [] {
      var k := order[0];
      if k in pending && Expired(now, pending[k].created) {
        ScanCollectsPresent(order[1..], pending - {k}, gone, now, e);
      } else {
        ScanCollectsPresent(order[1..], pending, gone, now, e);
      }
    }
  }

  lemma BatchStep(g: Gate, m: Move, e: Entry)
    requires Can(g, m) && !m.Cleanup? && e in Do(g, m).batch
    ensures e in g.batch
  {
  }

  /** No client that is gone is answered: for each reply, response or timeout, there was a move at which
      its client was looked up and was not gone, and the reply came after it. */
  lemma {:induction false} ReplyHadClient(ms: seq<Move>, k: nat) returns (i: nat)
    requires Legal(ms) && k < |After(ms).replies|
    ensures var r := After(ms).replies[k]; FoundPresent(ms, i, r.ticket, r.client, r.cause.TimedOut?)
    decreases |ms|
  {
    var n := |ms| - 1;
    var g, m, r := After(ms[..n]), ms[n], After(ms).replies[k];
    ReplyStep(g, m, k);
    if k < |g.replies| {
      i := ReplyHadClient(ms[..n], k);
    } else if m.Deliver? {
      i := HeldHadClient(ms[..n], m.worker);
    } else {
      i := BatchHadClient(ms[..n], g.batch[0]);
    }
    PresentLater(ms, i, r.ticket, r.client, r.cause.TimedOut?);
  }

  lemma ReplyStep(g: Gate, m: Move, k: nat)
    requires Can(g, m) && k < |Do(g, m).replies|
    ensures var r := Do(g, m).replies[k];
            if k < |g.replies| then r == g.replies[k]
            else if m.Deliver? then
              var h := g.hands[m.worker];
              h.stage == Held && h.entry.ticket == r.ticket && h.entry.client == r.client && r.cause.FromBackend?
            else m.SendTimeout? && g.batch[0].ticket == r.ticket && g.batch[0].client == r.client && r.cause.TimedOut?
  {
  }

  // ----- the counters, one by one -----

  function Responses(rs: seq<Reply>): nat {
    if rs == [] then 0 else Responses(rs[..|rs| - 1]) + if rs[|rs| - 1].cause.FromBackend? then 1 else 0
  }

  function InStage(hands: map<nat, Hand>, stage: Stage): set<nat> { set w | w in hands && hands[w].stage == stage }

  /** How many of the moves are forwards counted, resolves that found the client gone, and lookups that
      found no entry. */
  datatype Tally = Tally(forwards: nat, drops: nat, misses: nat)

  ghost function CountedNow(g: Gate, m: Move, t: Tally): Tally
    requires Can(g, m)
  {
    match m
    case Count(_) => t.(forwards := t.forwards + 1)
    case Resolve(w) => if g.hands[w].entry.client in g.gone then t.(drops := t.drops + 1) else t
    case Answer(_, ticket) => if (1 + ticket) % 0x1_0000_0000 !in g.pending then t.(misses := t.misses + 1) else t
    case Push(_) => if 0 !in g.pending then t.(misses := t.misses + 1) else t
    case _ => t
  }

  ghost function Counted(ms: seq<Move>): Tally
    requires Legal(ms)
    decreases |ms|
  {
    if ms == [] then Tally(0, 0, 0)
    else var n := |ms| - 1; CountedNow(After(ms[..n]), ms[n], Counted(ms[..n]))
  }

  ghost predicate Exactly(g: Gate, t: Tally) {
    && g.metrics.forwarded == t.forwards
    && g.metrics.unknown == t.misses
    && g.metrics.dropped + |InStage(g.hands, Doomed)| == t.drops
    && g.metrics.responses + |InStage(g.hands, Sent)| == Responses(g.replies)
    && g.metrics.timeouts == |g.replies| - Responses(g.replies) + (if g.announced then 1 else 0)
  }

  lemma StageLess(hands: map<nat, Hand>, w: nat, stage: Stage)
    ensures |InStage(hands - {w}, stage)| == |InStage(hands, stage)| - (if w in hands && hands[w].stage == stage then 1 else 0)
  {
    var rest := InStage(hands, stage) - {w};
    assert InStage(hands - {w}, stage) == rest;
    if w in InStage(hands, stage) { assert InStage(hands, stage) == rest + {w}; } else { assert InStage(hands, stage) == rest; }
  }

  lemma StageMoves(hands: map<nat, Hand>, w: nat, h: Hand, stage: Stage)
    ensures |InStage(hands[w := h], stage)| ==
            |InStage(hands, stage)| - (if w in hands && hands[w].stage == stage then 1 else 0) + (if h.stage == stage then 1 else 0)
  {
    StageLess(hands, w, stage);
    StageLess(hands[w := h], w, stage);
    assert hands[w := h] - {w} == hands - {w};
    hide InStage;
  }

  lemma ResponsesPush(rs: seq<Reply>, r: Reply)
    ensures Responses(rs + [r]) == Responses(rs) + if r.cause.FromBackend? then 1 else 0
  {
    assert (rs + [r])[..|rs|] == rs;
  }

  lemma {:induction false} ResponsesBound(rs: seq<Reply>)
    ensures Responses(rs) <= |rs|
  {
    if rs != [] { ResponsesBound(rs[..|rs| - 1]); }
  }

  /** Each counter by itself, in every run: forwards; lookups without an entry; responses dropped because
      the client was gone, or about to be counted as that; responses delivered, likewise; and timeouts, each
      counted just before it is sent. */
  lemma {:induction false} CountersExact(ms: seq<Move>)
    requires Legal(ms)
    ensures Exactly(After(ms), Counted(ms))
    decreases |ms|
  {
    if ms == [] {
      assert InStage(map[], Doomed) == {} && InStage(map[], Sent) == {};
    } else {
      var n := |ms| - 1;
      CountersExact(ms[..n]);
      hide Exactly, CountedNow, Do, Can;
      CounterStep(After(ms[..n]), ms[n], Counted(ms[..n]));
    }
  }

  lemma CounterStep(g: Gate, m: Move, t: Tally)
    requires Can(g, m) && Exactly(g, t)
    ensures Exactly(Do(g, m), CountedNow(g, m, t))
  {
    if m.Resolve? || m.Deliver? || m.Finish? || m.Answer? || m.Push? {
      HandCounts(g, m, t);
    } else {
      PlainCounts(g, m, t);
    }
    hide *;
  }

  lemma HandCounts(g: Gate, m: Move, t: Tally)
    requires Can(g, m) && Exactly(g, t) && (m.Resolve? || m.Deliver? || m.Finish? || m.Answer? || m.Push?)
    ensures Exactly(Do(g, m), CountedNow(g, m, t))
  {
    hide InStage, Responses, Take;
    match m
    case Resolve(w) => ResolveCounts(g, w);
    case Deliver(w) => DeliverCounts(g, w);
    case Finish(w) => FinishCounts(g, w);
    case Answer(w, ticket) => TakeCounts(g, w, Id(ticket), Some(ticket));
    case Push(w) => TakeCounts(g, w, 0, None);
  }

  lemma PlainCounts(g: Gate, m: Move, t: Tally)
    requires Can(g, m) && Exactly(g, t) && !(m.Resolve? || m.Deliver? || m.Finish? || m.Answer? || m.Push?)
    ensures Exactly(Do(g, m), CountedNow(g, m, t))
  {
    hide InStage, Responses, ScanOver, Batched;
    if m.SendTimeout? {
      var e := g.batch[0];
      ResponsesPush(g.replies, Reply(e.ticket, e.client, e.original, TimedOut));
    }
  }

  lemma ResolveCounts(g: Gate, w: nat)
    requires Can(g, Resolve(w))
    ensures var h := Do(g, Resolve(w));
            && |InStage(h.hands, Sent)| == |InStage(g.hands, Sent)|
            && |InStage(h.hands, Doomed)| == |InStage(g.hands, Doomed)| + if g.hands[w].entry.client in g.gone then 1 else 0
  {
    var h := Do(g, Resolve(w)).hands[w];
    StageMoves(g.hands, w, h, Sent);
    StageMoves(g.hands, w, h, Doomed);
    hide InStage;
  }

  lemma DeliverCounts(g: Gate, w: nat)
    requires Can(g, Deliver(w))
    ensures var h := Do(g, Deliver(w));
            && |InStage(h.hands, Sent)| == |InStage(g.hands, Sent)| + 1 && |InStage(h.hands, Doomed)| == |InStage(g.hands, Doomed)|
            && |h.replies| == |g.replies| + 1 && Responses(h.replies) == Responses(g.replies) + 1
  {
    var h := Do(g, Deliver(w));
    StageMoves(g.hands, w, h.hands[w], Sent);
    StageMoves(g.hands, w, h.hands[w], Doomed);
    ResponsesPush(g.replies, h.replies[|g.replies|]);
    hide InStage, Responses;
  }

  lemma FinishCounts(g: Gate, w: nat)
    requires Can(g, Finish(w))
    ensures var h := Do(g, Finish(w));
            && h.metrics.responses + |InStage(h.hands, Sent)| == g.metrics.responses + |InStage(g.hands, Sent)|
            && h.metrics.dropped + |InStage(h.hands, Doomed)| == g.metrics.dropped + |InStage(g.hands, Doomed)|
  {
    StageLess(g.hands, w, Sent);
    StageLess(g.hands, w, Doomed);
    hide InStage;
  }

  lemma TakeCounts(g: Gate, w: nat, id: int, about: Option<nat>)
    requires 0 <= id < 0x1_0000_0000 && w !in g.hands
    ensures var h := Take(g, w, id, about);
            && |InStage(h.hands, Sent)| == |InStage(g.hands, Sent)| && |InStage(h.hands, Doomed)| == |InStage(g.hands, Doomed)|
            && h.replies == g.replies && h.announced == g.announced
            && h.metrics == if id in g.pending then g.metrics else g.metrics.(unknown := g.metrics.unknown + 1)
  {
    if id in g.pending {
      StageMoves(g.hands, w, Hand(g.pending[id], about, Found), Sent);
      StageMoves(g.hands, w, Hand(g.pending[id], about, Found), Doomed);
    }
    hide InStage;
  }
}
