/** The gateway's correlation table, shared by forwarding handlers, backend responses and the
timeout scan. Every locked section, every counter update and every send is one step; tickets
number the forwarded requests, and the wire id of a ticket is its number in 32 bits. */
module Gateway {
  import opened Wrappers
  import opened Framing

  const IDS: nat := 0x1_0000_0000

  /** The counter starts at 1 and wraps. */
  function Id(ticket: nat): u32 { (1 + ticket) % IDS }

  datatype Issue = Issue(client: nat, original: u32)

  datatype Entry = Entry(ticket: nat, client: nat, original: u32, created: int)

  /** What made the gateway reply: a backend message (about the ticket it answers, or unsolicited),
      or the timeout. */
  datatype Cause = FromBackend(about: Option<nat>) | TimedOut

  datatype Reply = Reply(ticket: nat, client: nat, original: u32, cause: Cause)

  /** A response handler holding an entry it took out of the table. */
  datatype Stage = Found | Held | Doomed | Sent
  datatype Hand = Hand(entry: Entry, about: Option<nat>, stage: Stage)

  /** Where a ticket is; kept for the proofs only, no step looks at it. */
  datatype Place = Numbered | Listed | InHand(worker: nat) | InBatch | Replied

  datatype Metrics = Metrics(forwarded: nat, responses: nat, dropped: nat, timeouts: nat, unknown: nat)

  datatype Gate = Gate(
    issued: seq<Issue>, place: map<nat, Place>,
    numbered: set<nat>, listed: set<nat>, counted: set<nat>, sent: set<nat>,
    pending: map<u32, Entry>, hands: map<nat, Hand>,
    batch: seq<Entry>, announced: bool,
    gone: set<nat>, metrics: Metrics,
    expiredGone: nat, overwritten: nat, replies: seq<Reply>)

  const START := Gate([], map[], {}, {}, {}, {}, map[], map[], [], false, {}, Metrics(0, 0, 0, 0, 0), 0, 0, [])

  datatype Move =
    | Allocate(client: nat, original: u32) | Insert(t: nat, now: int) | Count(t: nat) | Forward(t: nat)
    | Answer(worker: nat, t: nat) | Push(worker: nat) | Resolve(worker: nat) | Deliver(worker: nat) | Finish(worker: nat)
    | ClientGone(client: nat)
    | Cleanup(now: int, order: seq<u32>) | Announce | SendTimeout

  const NANOS: int := 1_000_000_000

  /** `duration_cast` to seconds drops the fraction, towards zero. */
  function WholeSeconds(nanos: int): int { if nanos >= 0 then nanos / NANOS else -(-nanos / NANOS) }

  predicate Expired(now: int, created: int) { WholeSeconds(now - created) > 30 }

  /** The order in which the scan meets the entries of an unordered map. */
  ghost predicate Enumerates(order: seq<u32>, pending: map<u32, Entry>) {
    Distinct(order) && forall k :: k in pending <==> k in order
  }

  datatype Scan = Scan(kept: map<u32, Entry>, timeouts: seq<Entry>, silent: nat)

  /** The scan over the entries in the given order: expired ones are erased, those whose client is
      still there are collected. */
  function ScanOver(order: seq<u32>, pending: map<u32, Entry>, gone: set<nat>, now: int): Scan {
    if order == [] then Scan(pending, [], 0)
    else
      var k := order[0];
      if k in pending && Expired(now, pending[k].created) then
        var rest := ScanOver(order[1..], pending - {k}, gone, now);
        if pending[k].client in gone then rest.(silent := rest.silent + 1)
        else rest.(timeouts := [pending[k]] + rest.timeouts)
      else ScanOver(order[1..], pending, gone, now)
  }

  ghost function Batched(place: map<nat, Place>, batch: seq<Entry>): map<nat, Place> {
    map t | t in place :: if exists e :: e in batch && e.ticket == t then InBatch else place[t]
  }

  ghost predicate Can(g: Gate, m: Move) {
    match m
    case Allocate(client, _) => client !in g.gone
    case Insert(t, _) => t in g.numbered && t < |g.issued|
    case Count(t) => t in g.listed
    case Forward(t) => t in g.counted
    case Answer(w, t) => w !in g.hands && t in g.sent
    case Push(w) => w !in g.hands
    case Resolve(w) => w in g.hands && g.hands[w].stage == Found
    case Deliver(w) => w in g.hands && g.hands[w].stage == Held
    case Finish(w) => w in g.hands && (g.hands[w].stage == Sent || g.hands[w].stage == Doomed)
    case ClientGone(_) => true
    case Cleanup(_, order) => g.batch == [] && Enumerates(order, g.pending)
    case Announce => g.batch != [] && !g.announced
    case SendTimeout => g.batch != [] && g.announced
  }

  /** Looking a wire id up and erasing its entry, under the lock. */
  function Take(g: Gate, w: nat, id: u32, about: Option<nat>): Gate {
    if id in g.pending then
      g.(pending := g.pending - {id}, hands := g.hands[w := Hand(g.pending[id], about, Found)],
         place := g.place[g.pending[id].ticket := InHand(w)])
    else g.(metrics := g.metrics.(unknown := g.metrics.unknown + 1))
  }

  ghost function Do(g: Gate, m: Move): Gate
    requires Can(g, m)
  {
    match m
    case Allocate(client, original) =>
      g.(issued := g.issued + [Issue(client, original)], numbered := g.numbered + {|g.issued|},
         place := g.place[|g.issued| := Numbered])
    case Insert(t, now) =>
      var i := g.issued[t];
      g.(numbered := g.numbered - {t}, listed := g.listed + {t}, place := g.place[t := Listed],
         pending := g.pending[Id(t) := Entry(t, i.client, i.original, now)],
         overwritten := g.overwritten + if Id(t) in g.pending then 1 else 0)
    case Count(t) =>
      g.(listed := g.listed - {t}, counted := g.counted + {t},
         metrics := g.metrics.(forwarded := g.metrics.forwarded + 1))
    case Forward(t) => g.(counted := g.counted - {t}, sent := g.sent + {t})
    case Answer(w, t) => Take(g, w, Id(t), Some(t))
    case Push(w) => Take(g, w, 0, None)
    case Resolve(w) =>
      var h := g.hands[w];
      g.(hands := g.hands[w := h.(stage := if h.entry.client in g.gone then Doomed else Held)])
    case Deliver(w) =>
      var h := g.hands[w];
      g.(hands := g.hands[w := h.(stage := Sent)], place := g.place[h.entry.ticket := Replied],
         replies := g.replies + [Reply(h.entry.ticket, h.entry.client, h.entry.original, FromBackend(h.about))])
    case Finish(w) =>
      var m := g.metrics;
      g.(hands := g.hands - {w},
         metrics := if g.hands[w].stage == Sent then m.(responses := m.responses + 1) else m.(dropped := m.dropped + 1))
    case ClientGone(c) => g.(gone := g.gone + {c})
    case Cleanup(now, order) =>
      var s := ScanOver(order, g.pending, g.gone, now);
      g.(pending := s.kept, batch := s.timeouts, expiredGone := g.expiredGone + s.silent,
         place := Batched(g.place, s.timeouts))
    case Announce =>
      g.(announced := true, metrics := g.metrics.(timeouts := g.metrics.timeouts + 1))
    case SendTimeout =>
      var e := g.batch[0];
      g.(announced := false, batch := g.batch[1..], place := g.place[e.ticket := Replied],
         replies := g.replies + [Reply(e.ticket, e.client, e.original, TimedOut)])
  }

  ghost predicate Legal(ms: seq<Move>)
    decreases |ms|, 0
  {
    ms == [] || (Legal(ms[..|ms| - 1]) && Can(After(ms[..|ms| - 1]), ms[|ms| - 1]))
  }

  ghost function After(ms: seq<Move>): Gate
    requires Legal(ms)
    decreases |ms|, 1
  {
    if ms == [] then START else Do(After(ms[..|ms| - 1]), ms[|ms| - 1])
  }

  // ----- what one scan does -----

  /** The limit of 30 seconds is one of 31: the fraction is dropped before the comparison. */
  lemma ExpiresAt31(now: int, created: int)
    ensures Expired(now, created) <==> now - created >= 31_000_000_000
  {
  }

  /** So a scan keeps an entry that is older than 30 seconds. */
  lemma OlderThan30Kept(k: u32, e: Entry, gone: set<nat>)
    ensures var now := e.created + 30_000_000_001;
            now - e.created > 30_000_000_000 && ScanOver([k], map[k := e], gone, now) == Scan(map[k := e], [], 0)
  {
    var now := e.created + 30_000_000_001;
    assert !Expired(now, e.created);
    assert [k][1..] == [];
    assert ScanOver([k], map[k := e], gone, now) == ScanOver([k][1..], map[k := e], gone, now);
  }

  /** The scan removes exactly the expired entries it meets, collects each of those with a live
      client once, and loses none. */
  lemma {:induction false} ScanEffect(order: seq<u32>, pending: map<u32, Entry>, gone: set<nat>, now: int)
    requires Distinct(order)
    ensures var s := ScanOver(order, pending, gone, now);
            && (forall k :: k in s.kept <==> k in pending && !(k in order && Expired(now, pending[k].created)))
            && (forall k :: k in s.kept ==> s.kept[k] == pending[k])
            && (forall k :: k in order && k in pending && Expired(now, pending[k].created) && pending[k].client !in gone
                            ==> pending[k] in s.timeouts)
            && |pending| == |s.kept| + |s.timeouts| + s.silent
    decreases |order|
  {
    if order != [] {
      var k := order[0];
      assert forall i :: 1 <= i < |order| ==> order[i] != k;
      if k in pending && Expired(now, pending[k].created) {
        ScanEffect(order[1..], pending - {k}, gone, now);
        assert pending == (pending - {k})[k := pending[k]];
      } else {
        ScanEffect(order[1..], pending, gone, now);
      }
    }
  }

  /** Each collected entry comes from its own key. */
  lemma {:induction false} ScanCollects(order: seq<u32>, pending: map<u32, Entry>, gone: set<nat>, now: int)
    requires Distinct(order) && Keyed(pending)
    ensures var s := ScanOver(order, pending, gone, now);
            && (forall e :: e in s.timeouts ==>
                  var k := Id(e.ticket); k in pending && pending[k] == e && k in order && Expired(now, e.created)
                                         && e.client !in gone)
            && (forall i, j :: 0 <= i < j < |s.timeouts| ==> s.timeouts[i].ticket != s.timeouts[j].ticket)
    decreases |order|
  {
    if order != [] {
      var k := order[0];
      assert forall i :: 1 <= i < |order| ==> order[i] != k;
      if k in pending && Expired(now, pending[k].created) {
        ScanCollects(order[1..], pending - {k}, gone, now);
      } else {
        ScanCollects(order[1..], pending, gone, now);
      }
    }
  }

  // ----- the invariant -----

  /** An entry stands under the id of its ticket. */
  predicate Keyed(pending: map<u32, Entry>) {
    forall k :: k in pending ==> k == Id(pending[k].ticket)
  }

  predicate Carries(issued: seq<Issue>, ticket: nat, client: nat, original: u32) {
    ticket < |issued| && issued[ticket] == Issue(client, original)
  }

  predicate At(place: map<nat, Place>, t: nat, p: Place) { t in place && place[t] == p }

  /** A response about ticket `a` takes the entry under the id of `a`; a push takes the one under 0. */
  predicate SameId(about: Option<nat>, ticket: nat) {
    Id(ticket) == match about case Some(a) => Id(a) case None => 0
  }

  predicate PendingOk(issued: seq<Issue>, place: map<nat, Place>, pending: map<u32, Entry>) {
    forall k :: k in pending ==>
      var e := pending[k];
      k == Id(e.ticket) && Carries(issued, e.ticket, e.client, e.original) && At(place, e.ticket, Listed)
  }

  predicate HandsOk(issued: seq<Issue>, place: map<nat, Place>, hands: map<nat, Hand>) {
    forall w :: w in hands ==>
      var e := hands[w].entry;
      && Carries(issued, e.ticket, e.client, e.original) && SameId(hands[w].about, e.ticket)
      && (hands[w].stage != Sent ==> At(place, e.ticket, InHand(w)))
  }

  predicate BatchOk(issued: seq<Issue>, place: map<nat, Place>, batch: seq<Entry>) {
    && (forall i :: 0 <= i < |batch| ==>
          Carries(issued, batch[i].ticket, batch[i].client, batch[i].original) && At(place, batch[i].ticket, InBatch))
    && (forall i, j :: 0 <= i < j < |batch| ==> batch[i].ticket != batch[j].ticket)
  }

  /** At most one reply for a request, to the connection that sent it and with its own id. */
  predicate RepliesOk(issued: seq<Issue>, place: map<nat, Place>, replies: seq<Reply>) {
    && (forall i :: 0 <= i < |replies| ==>
          var r := replies[i];
          && Carries(issued, r.ticket, r.client, r.original) && At(place, r.ticket, Replied)
          && (r.cause.FromBackend? ==> SameId(r.cause.about, r.ticket)))
    && (forall i, j :: 0 <= i < j < |replies| ==> replies[i].ticket != replies[j].ticket)
  }

  ghost predicate HandlersOk(g: Gate) {
    && (forall t :: t in g.numbered ==> At(g.place, t, Numbered) && t < |g.issued| && t !in g.listed)
    && (forall t :: t in g.listed ==> t < |g.issued|)
    && (forall t :: t in g.counted ==> t < |g.issued|)
    && (forall t :: t in g.sent ==> t < |g.issued|)
    && (forall t :: t in g.place ==> t < |g.issued|)
  }

  function InProgress(g: Gate): int { |g.hands| + |g.batch| - (if g.announced then 1 else 0) }

  ghost predicate Conserved(g: Gate) {
    && (g.announced ==> g.batch != [])
    && g.metrics.forwarded + |g.listed| ==
       |g.pending| + g.metrics.responses + g.metrics.dropped + g.metrics.timeouts + g.expiredGone + g.overwritten
       + InProgress(g)
  }

  ghost predicate Inv(g: Gate) {
    && HandlersOk(g) && Conserved(g)
    && PendingOk(g.issued, g.place, g.pending) && HandsOk(g.issued, g.place, g.hands)
    && BatchOk(g.issued, g.place, g.batch) && RepliesOk(g.issued, g.place, g.replies)
  }

  // ----- every step keeps it -----

  lemma TakenFromTable(issued: seq<Issue>, place: map<nat, Place>, pending: map<u32, Entry>, id: u32, w: nat)
    requires PendingOk(issued, place, pending) && id in pending
    ensures PendingOk(issued, place[pending[id].ticket := InHand(w)], pending - {id})
  {
    hide Carries;
  }

  lemma TakenIntoHand(issued: seq<Issue>, place: map<nat, Place>, hands: map<nat, Hand>, w: nat, e: Entry, about: Option<nat>)
    requires HandsOk(issued, place, hands) && w !in hands
    requires Carries(issued, e.ticket, e.client, e.original) && SameId(about, e.ticket) && At(place, e.ticket, Listed)
    ensures HandsOk(issued, place[e.ticket := InHand(w)], hands[w := Hand(e, about, Found)])
  {
    hide Carries, SameId;
  }

  /** A ticket that was neither in the batch nor answered moves without touching them. */
  lemma OthersStay(issued: seq<Issue>, place: map<nat, Place>, batch: seq<Entry>, replies: seq<Reply>, t: nat, p: Place)
    requires BatchOk(issued, place, batch) && RepliesOk(issued, place, replies)
    requires t in place && place[t] != InBatch && place[t] != Replied
    ensures BatchOk(issued, place[t := p], batch) && RepliesOk(issued, place[t := p], replies)
  {
    hide Carries, SameId;
  }

  lemma AllocateKeeps(g: Gate, m: Move)
    requires Inv(g) && Can(g, m) && m.Allocate?
    ensures Inv(Do(g, m))
  {
    assert Conserved(Do(g, m)) by { hide PendingOk, HandsOk, BatchOk, RepliesOk; }
    hide Id, SameId, Conserved;
  }

  /** Counting, forwarding and losing a client touch no entry. */
  lemma CounterKeeps(g: Gate, m: Move)
    requires Inv(g) && Can(g, m) && (m.Count? || m.Forward? || m.Announce? || m.ClientGone?)
    ensures Inv(Do(g, m))
  {
    hide PendingOk, HandsOk, BatchOk, RepliesOk, HandlersOk, Conserved;
    CounterHandlers(g, m);
    CounterConserves(g, m);
  }

  lemma CounterHandlers(g: Gate, m: Move)
    requires HandlersOk(g) && Can(g, m) && (m.Count? || m.Forward? || m.Announce? || m.ClientGone?)
    ensures HandlersOk(Do(g, m))
  {
  }

  lemma CounterConserves(g: Gate, m: Move)
    requires Conserved(g) && Can(g, m) && (m.Count? || m.Forward? || m.Announce? || m.ClientGone?)
    ensures Conserved(Do(g, m))
  {
  }

  lemma InsertLeavesHands(issued: seq<Issue>, place: map<nat, Place>, hands: map<nat, Hand>, t: nat)
    requires HandsOk(issued, place, hands) && At(place, t, Numbered)
    ensures HandsOk(issued, place[t := Listed], hands)
  {
    hide Carries, SameId;
  }

  lemma InsertConserves(g: Gate, m: Move)
    requires HandlersOk(g) && Conserved(g) && Can(g, m) && m.Insert?
    ensures Conserved(Do(g, m))
  {
  }

  lemma InsertKeeps(g: Gate, m: Move)
    requires Inv(g) && Can(g, m) && m.Insert?
    ensures Inv(Do(g, m))
  {
    hide HandsOk, Conserved;
    var h := Do(g, m);
    assert HandsOk(h.issued, h.place, h.hands) by { InsertLeavesHands(g.issued, g.place, g.hands, m.t); }
    assert Conserved(h) by { InsertConserves(g, m); }
    OthersStay(g.issued, g.place, g.batch, g.replies, m.t, Listed);
    hide BatchOk, RepliesOk, SameId;
  }

  lemma ListedEntry(g: Gate, id: u32)
    requires PendingOk(g.issued, g.place, g.pending) && id in g.pending
    ensures var e := g.pending[id];
            id == Id(e.ticket) && Carries(g.issued, e.ticket, e.client, e.original) && At(g.place, e.ticket, Listed)
  {
  }

  lemma SameIdHere(id: u32, ticket: nat, about: Option<nat>)
    requires id == Id(ticket) && id == match about case Some(a) => Id(a) case None => 0
    ensures SameId(about, ticket)
  {
    hide Id;
  }

  lemma TakeKeeps(g: Gate, w: nat, id: u32, about: Option<nat>)
    requires Inv(g) && w !in g.hands && id == match about case Some(a) => Id(a) case None => 0
    ensures Inv(Take(g, w, id, about))
  {
    hide PendingOk, HandsOk, BatchOk, RepliesOk, Id, SameId, Carries;
    if id in g.pending {
      var e := g.pending[id];
      ListedEntry(g, id);
      assert SameId(about, e.ticket) by { SameIdHere(id, e.ticket, about); }
      TakenFromTable(g.issued, g.place, g.pending, id, w);
      TakenIntoHand(g.issued, g.place, g.hands, w, e, about);
      OthersStay(g.issued, g.place, g.batch, g.replies, e.ticket, InHand(w));
      TakeConserves(g, w, id, about);
    }
    hide HandlersOk, Conserved;
  }

  lemma TakeConserves(g: Gate, w: nat, id: u32, about: Option<nat>)
    requires HandlersOk(g) && Conserved(g) && w !in g.hands && id in g.pending
    requires At(g.place, g.pending[id].ticket, Listed)
    ensures HandlersOk(Take(g, w, id, about)) && Conserved(Take(g, w, id, about))
  {
  }

  lemma HandKeeps(g: Gate, m: Move)
    requires Inv(g) && Can(g, m) && (m.Resolve? || m.Finish?)
    ensures Inv(Do(g, m))
  {
    hide PendingOk, BatchOk, RepliesOk, Id, Carries, SameId;
  }

  lemma DeliverKeeps(g: Gate, m: Move)
    requires Inv(g) && Can(g, m) && m.Deliver?
    ensures Inv(Do(g, m))
  {
    hide Id, Carries, SameId;
    var h, e := Do(g, m), g.hands[m.worker].entry;
    assert PendingOk(h.issued, h.place, h.pending) by { hide HandsOk, BatchOk, RepliesOk; assert At(g.place, e.ticket, InHand(m.worker)); }
    assert HandsOk(h.issued, h.place, h.hands) by { hide PendingOk, BatchOk, RepliesOk; }
    assert BatchOk(h.issued, h.place, h.batch) by { hide PendingOk, RepliesOk; }
    assert RepliesOk(h.issued, h.place, h.replies) by { hide PendingOk, BatchOk; }
    hide PendingOk, BatchOk, RepliesOk, HandsOk;
  }

  lemma SendTimeoutKeeps(g: Gate, m: Move)
    requires Inv(g) && Can(g, m) && m.SendTimeout?
    ensures Inv(Do(g, m))
  {
    hide Id, Carries, SameId;
    var h, e := Do(g, m), g.batch[0];
    assert PendingOk(h.issued, h.place, h.pending) by { hide HandsOk, RepliesOk; }
    assert HandsOk(h.issued, h.place, h.hands) by { hide PendingOk, RepliesOk; }
    assert BatchOk(h.issued, h.place, h.batch) by { hide PendingOk, HandsOk, RepliesOk; }
    assert RepliesOk(h.issued, h.place, h.replies) by { hide PendingOk, HandsOk; }
    hide PendingOk, BatchOk, RepliesOk, HandsOk;
  }

  /** What the scan collects leaves the table for the batch. */
  lemma Collected(issued: seq<Issue>, place: map<nat, Place>, pending: map<u32, Entry>, s: Scan)
    requires PendingOk(issued, place, pending)
    requires forall k :: k in s.kept ==> k in pending && s.kept[k] == pending[k]
    requires forall e :: e in s.timeouts ==> var k := Id(e.ticket); k in pending && pending[k] == e && k !in s.kept
    requires forall i, j :: 0 <= i < j < |s.timeouts| ==> s.timeouts[i].ticket != s.timeouts[j].ticket
    ensures PendingOk(issued, Batched(place, s.timeouts), s.kept)
    ensures BatchOk(issued, Batched(place, s.timeouts), s.timeouts)
    ensures forall t :: t in place && place[t] != Listed ==> Batched(place, s.timeouts)[t] == place[t]
  {
    var moved := Batched(place, s.timeouts);
    forall i | 0 <= i < |s.timeouts|
      ensures Carries(issued, s.timeouts[i].ticket, s.timeouts[i].client, s.timeouts[i].original)
              && At(moved, s.timeouts[i].ticket, InBatch)
    {
      assert s.timeouts[i] in s.timeouts;
    }
    hide Id, Carries;
  }

  lemma ListedOnlyMoves(issued: seq<Issue>, place: map<nat, Place>, moved: map<nat, Place>, hands: map<nat, Hand>, replies: seq<Reply>)
    requires HandsOk(issued, place, hands) && RepliesOk(issued, place, replies)
    requires moved.Keys == place.Keys && forall t :: t in place && place[t] != Listed ==> moved[t] == place[t]
    ensures HandsOk(issued, moved, hands) && RepliesOk(issued, moved, replies)
  {
    hide Carries, SameId;
  }

  lemma PendingKeyed(g: Gate)
    requires PendingOk(g.issued, g.place, g.pending)
    ensures Keyed(g.pending)
  {
    hide Id, Carries;
  }

  lemma CleanupKeeps(g: Gate, m: Move)
    requires Inv(g) && Can(g, m) && m.Cleanup?
    ensures Inv(Do(g, m))
  {
    hide ScanOver, Expired, Id, SameId, Carries, PendingOk, BatchOk, HandsOk, RepliesOk, Keyed, Distinct;
    PendingKeyed(g);
    ScanEffect(m.order, g.pending, g.gone, m.now);
    ScanCollects(m.order, g.pending, g.gone, m.now);
    var s := ScanOver(m.order, g.pending, g.gone, m.now);
    Collected(g.issued, g.place, g.pending, s);
    ListedOnlyMoves(g.issued, g.place, Batched(g.place, s.timeouts), g.hands, g.replies);
  }

  lemma {:induction false} RunKeeps(ms: seq<Move>)
    requires Legal(ms)
    ensures Inv(After(ms))
  {
    if ms != [] {
      var g, m := After(ms[..|ms| - 1]), ms[|ms| - 1];
      RunKeeps(ms[..|ms| - 1]);
      match m
      case Allocate(_, _) => AllocateKeeps(g, m);
      case Insert(_, _) => InsertKeeps(g, m);
      case Count(_) => CounterKeeps(g, m);
      case Forward(_) => CounterKeeps(g, m);
      case Announce => CounterKeeps(g, m);
      case ClientGone(_) => CounterKeeps(g, m);
      case Answer(w, t) => TakeKeeps(g, w, Id(t), Some(t));
      case Push(w) => TakeKeeps(g, w, 0, None);
      case Resolve(_) => HandKeeps(g, m);
      case Deliver(_) => DeliverKeeps(g, m);
      case Finish(_) => HandKeeps(g, m);
      case Cleanup(_, _) => CleanupKeeps(g, m);
      case SendTimeout => SendTimeoutKeeps(g, m);
    }
  }

  // ----- what it means -----

  /** In every run each forwarded request gets at most one reply (backend response or timeout, never
      both), addressed to the connection that sent it and carrying its own id; a request still in
      the table has had none. */
  lemma {:induction false} AtMostOneReply(ms: seq<Move>)
    requires Legal(ms)
    ensures var g := After(ms);
            && (forall i, j :: 0 <= i < j < |g.replies| ==> g.replies[i].ticket != g.replies[j].ticket)
            && (forall i :: 0 <= i < |g.replies| ==>
                  var r := g.replies[i];
                  r.ticket < |g.issued| && g.issued[r.ticket] == Issue(r.client, r.original))
            && (forall i, k :: 0 <= i < |g.replies| && k in g.pending ==> g.replies[i].ticket != g.pending[k].ticket)
  {
    RunKeeps(ms);
    var g := After(ms);
    forall i, k | 0 <= i < |g.replies| && k in g.pending ensures g.replies[i].ticket != g.pending[k].ticket {
      assert At(g.place, g.replies[i].ticket, Replied) && At(g.place, g.pending[k].ticket, Listed);
    }
  }

  /** Fewer than 2^32 further ids are handed out while a request waits to be listed, is listed, or
      its response is under way. */
  ghost predicate InWindow(g: Gate, m: Move) {
    && (forall t :: t in g.numbered ==> |g.issued| - t <= IDS)
    && (forall k :: k in g.pending ==> |g.issued| - g.pending[k].ticket <= IDS)
    && (m.Answer? ==> |g.issued| - m.t <= IDS)
  }

  ghost predicate Windowed(ms: seq<Move>)
    requires Legal(ms)
    decreases |ms|
  {
    ms == [] || (Windowed(ms[..|ms| - 1]) && InWindow(After(ms[..|ms| - 1]), ms[|ms| - 1]))
  }

  ghost predicate Exact(g: Gate) {
    && g.overwritten == 0
    && (forall w :: w in g.hands && g.hands[w].about.Some? ==> g.hands[w].about.value == g.hands[w].entry.ticket)
    && (forall i :: 0 <= i < |g.replies| && g.replies[i].cause.FromBackend? && g.replies[i].cause.about.Some?
                    ==> g.replies[i].cause.about.value == g.replies[i].ticket)
  }

  lemma SameIdInWindow(a: nat, b: nat, top: nat)
    requires a < top && b < top && top - a <= IDS && top - b <= IDS && Id(a) == Id(b)
    ensures a == b
  {
  }

  /** Within the window a backend's response to a request answers that very request, and no entry
      is ever overwritten. */
  lemma {:induction false} ResponsesMatch(ms: seq<Move>)
    requires Legal(ms) && Windowed(ms)
    ensures Exact(After(ms))
  {
    if ms != [] {
      var g, m := After(ms[..|ms| - 1]), ms[|ms| - 1];
      ResponsesMatch(ms[..|ms| - 1]);
      RunKeeps(ms[..|ms| - 1]);
      ExactKept(g, m);
    }
  }

  lemma ExactKept(g: Gate, m: Move)
    requires Inv(g) && Can(g, m) && Exact(g) && InWindow(g, m)
    ensures Exact(Do(g, m))
  {
    hide HandsOk, BatchOk, RepliesOk, Conserved;
    if m.Insert? {
      if Id(m.t) in g.pending {
        SameIdInWindow(m.t, g.pending[Id(m.t)].ticket, |g.issued|);
      }
    } else if m.Answer? {
      if Id(m.t) in g.pending {
        SameIdInWindow(m.t, g.pending[Id(m.t)].ticket, |g.issued|);
      }
    }
    hide ScanOver, Id;
  }

  /** An answer to ticket `t` takes the entry of another request exactly when one is listed whose
      number is the same in 32 bits. */
  lemma {:induction false} AnswerTakesOther(ms: seq<Move>, w: nat, t: nat)
    requires Legal(ms) && Can(After(ms), Answer(w, t))
    ensures var g, h := After(ms), Do(After(ms), Answer(w, t));
            (w in h.hands && h.hands[w].entry.ticket != t) <==>
            exists k :: k in g.pending && g.pending[k].ticket % 0x1_0000_0000 == t % 0x1_0000_0000 && g.pending[k].ticket != t
  {
    RunKeeps(ms);
    hide Legal, After;
    AnswerTakesOtherAt(After(ms), w, t);
  }

  lemma AnswerTakesOtherAt(g: Gate, w: nat, t: nat)
    requires PendingOk(g.issued, g.place, g.pending) && w !in g.hands
    ensures var h := Take(g, w, Id(t), Some(t));
            (w in h.hands && h.hands[w].entry.ticket != t) <==>
            exists k :: k in g.pending && g.pending[k].ticket % IDS == t % IDS && g.pending[k].ticket != t
  {
    forall k | k in g.pending ensures k == Id(t) <==> g.pending[k].ticket % IDS == t % IDS {
      SameIdSameRest(g.pending[k].ticket, t);
    }
    hide Id, Carries;
  }

  lemma SameIdSameRest(a: nat, b: nat)
    ensures Id(a) == Id(b) <==> a % IDS == b % IDS
  {
  }

  /** Listing ticket `t` overwrites an entry exactly when one with the same number in 32 bits is listed. */
  lemma {:induction false} InsertOverwrites(ms: seq<Move>, t: nat, now: int)
    requires Legal(ms) && Can(After(ms), Insert(t, now))
    ensures var g := After(ms);
            Do(g, Insert(t, now)).overwritten != g.overwritten <==>
            exists k :: k in g.pending && g.pending[k].ticket % 0x1_0000_0000 == t % 0x1_0000_0000
  {
    RunKeeps(ms);
    hide Legal, After;
    var g := After(ms);
    forall k | k in g.pending ensures k == Id(t) <==> g.pending[k].ticket % IDS == t % IDS {
      ListedEntry(g, k);
      SameIdSameRest(g.pending[k].ticket, t);
    }
    hide Id, PendingOk, HandsOk, BatchOk, RepliesOk, HandlersOk, Conserved;
  }

  /** The bound is tight: with at most `n` ids handed out every run gives each response to its own
      request and overwrites nothing, if and only if `n` is at most 2^32. */
  lemma {:induction false} ResponsesMatchUpTo(n: nat)
    ensures (forall ms :: Legal(ms) && |After(ms).issued| <= n ==> Exact(After(ms))) <==> n <= 0x1_0000_0000
  {
    forall ms | Legal(ms) && |After(ms).issued| <= n && n <= IDS ensures Exact(After(ms)) {
      FewIdsWindowed(ms);
      ResponsesMatch(ms);
    }
    if n > IDS {
      var ms := LateResponseMisdelivered();
      hide Legal, After;
      assert !Exact(After(ms)) by { assert After(ms).replies[1].cause == FromBackend(Some(0)); }
    }
  }

  /** Every counted request is in the table, in some handler's hands, or accounted for. */
  lemma {:induction false} Conservation(ms: seq<Move>)
    requires Legal(ms)
    ensures var g := After(ms);
            && g.metrics.forwarded + |g.listed| ==
               |g.pending| + g.metrics.responses + g.metrics.dropped + g.metrics.timeouts + g.expiredGone
               + g.overwritten + InProgress(g)
            && (Windowed(ms) ==> g.overwritten == 0)
            && (g.listed == {} && g.hands == map[] && g.batch == [] ==>
                  g.metrics.forwarded == |g.pending| + g.metrics.responses + g.metrics.dropped
                                         + g.metrics.timeouts + g.expiredGone + g.overwritten)
  {
    RunKeeps(ms);
    if Windowed(ms) { ResponsesMatch(ms); }
  }

  /** An unsolicited message (id 0) takes an entry exactly when the request whose 32-bit id came out
      as 0 is listed; before 2^32 - 1 requests there is none. */
  lemma {:induction false} PushTakes(ms: seq<Move>, w: nat)
    requires Legal(ms) && Can(After(ms), Push(w))
    ensures var g := After(ms);
            && (Do(g, Push(w)).pending != g.pending <==>
                  exists k :: k in g.pending && g.pending[k].ticket % 0x1_0000_0000 == 0xFFFF_FFFF)
            && (|g.issued| < 0x1_0000_0000 ==> Do(g, Push(w)).pending == g.pending)
  {
    RunKeeps(ms);
    PushTakesAt(After(ms), w);
    hide Legal, After, Do, Take;
  }

  lemma PushTakesAt(g: Gate, w: nat)
    requires PendingOk(g.issued, g.place, g.pending) && Can(g, Push(w))
    ensures Do(g, Push(w)).pending != g.pending <==> exists k :: k in g.pending && g.pending[k].ticket % IDS == IDS - 1
    ensures |g.issued| < IDS ==> Do(g, Push(w)).pending == g.pending
  {
    forall k | k in g.pending ensures g.pending[k].ticket % IDS == IDS - 1 <==> k == 0 {
      IdZero(g.pending[k].ticket);
    }
    if 0 in g.pending {
      assert 0 !in Do(g, Push(w)).pending;
      IdZero(g.pending[0].ticket);
    }
  }

  lemma IdZero(t: nat)
    ensures Id(t) == 0 <==> t % IDS == IDS - 1
  {
  }

  // ----- where the 32-bit counter gives out -----

  ghost function Then(ms: seq<Move>, m: Move): (r: seq<Move>)
    requires Legal(ms) && Can(After(ms), m)
    ensures Legal(r) && After(r) == Do(After(ms), m)
  {
    assert (ms + [m])[..|ms + [m]| - 1] == ms;
    ms + [m]
  }

  lemma ThenIs(ms: seq<Move>, m: Move)
    requires Legal(ms) && Can(After(ms), m)
    ensures Then(ms, m) == ms + [m]
  {
  }

  /** `h` is `g` with `k` more requests numbered and not yet listed. */
  ghost predicate OnlyNumbered(g: Gate, h: Gate, k: nat) {
    && |h.issued| == |g.issued| + k && g.issued <= h.issued
    && h == g.(issued := h.issued, numbered := h.numbered, place := h.place)
    && forall t :: |g.issued| <= t < |h.issued| ==> t in h.numbered
  }

  lemma OneMore(g: Gate, h: Gate, k: nat)
    requires OnlyNumbered(g, h, k) && 0 !in g.gone
    ensures Can(h, Allocate(0, 0)) && OnlyNumbered(g, Do(h, Allocate(0, 0)), k + 1)
  {
    hide ScanOver, Id;
  }

  lemma NoneMore(g: Gate)
    ensures OnlyNumbered(g, g, 0)
  {
  }

  function Requests(k: nat): seq<Move> { seq(k, _ => Allocate(0, 0)) }

  lemma OneRequestMore(ms: seq<Move>, k: nat)
    ensures ms + Requests(0) == ms && ms + Requests(k) + [Allocate(0, 0)] == ms + Requests(k + 1)
  {
  }

  /** Requests can be numbered without ever being listed. */
  lemma {:induction false} Numbering(ms: seq<Move>, k: nat)
    requires Legal(ms) && 0 !in After(ms).gone
    ensures Legal(ms + Requests(k)) && OnlyNumbered(After(ms), After(ms + Requests(k)), k)
    decreases k
  {
    hide *;
    if k == 0 {
      OneRequestMore(ms, 0);
      NoneMore(After(ms));
    } else {
      Numbering(ms, k - 1);
      OneRequestMore(ms, k - 1);
      var less := ms + Requests(k - 1);
      OneMore(After(ms), After(less), k - 1);
      ThenIs(less, Allocate(0, 0));
      var more := Then(less, Allocate(0, 0));
    }
  }

  /** A run in which a push consumes a request and is delivered in its place. */
  lemma {:induction false} PushCanConsume() returns (ms: seq<Move>)
    ensures Legal(ms) && Windowed(ms)
    ensures var g := After(ms);
            |g.replies| == 1 && g.replies[0] == Reply(IDS - 1, 7, 42, FromBackend(None))
  {
    Numbering([], IDS - 1);
    ms := [] + Requests(IDS - 1);
    ms := Then(ms, Allocate(7, 42));
    ms := Then(ms, Insert(IDS - 1, 0));
    ms := Then(ms, Push(0));
    ms := Then(ms, Resolve(0));
    ms := Then(ms, Deliver(0));
    FewIdsWindowed(ms);
  }

  /** As long as no more than 2^32 ids were handed out at all, every run is within the window. */
  lemma {:induction false} FewIdsWindowed(ms: seq<Move>)
    requires Legal(ms) && |After(ms).issued| <= IDS
    ensures Windowed(ms)
    decreases |ms|
  {
    if ms != [] {
      var g, m := After(ms[..|ms| - 1]), ms[|ms| - 1];
      IssuedGrows(g, m);
      assert After(ms) == Do(g, m);
      hide Do, Can;
      FewIdsWindowed(ms[..|ms| - 1]);
    }
  }

  lemma IssuedGrows(g: Gate, m: Move)
    requires Can(g, m)
    ensures |g.issued| <= |Do(g, m).issued|
  {
    hide ScanOver, Id;
  }

  lemma OneForwarded() returns (ms: seq<Move>)
    ensures Legal(ms)
    ensures var g := After(ms);
            && g.issued == [Issue(1, 10)] && g.replies == [] && g.pending == map[1 := Entry(0, 1, 10, 0)]
            && g.hands == map[] && g.sent == {0} && g.gone == {} && g.batch == [] && !g.announced
  {
    ms := Then([], Allocate(1, 10));
    hide Legal, After, Then;
    ms := Then(ms, Insert(0, 0));
    ms := Then(ms, Count(0));
    ms := Then(ms, Forward(0));
  }

  lemma OneTimedOut() returns (ms: seq<Move>)
    ensures Legal(ms)
    ensures var g := After(ms);
            && g.issued == [Issue(1, 10)] && g.replies == [Reply(0, 1, 10, TimedOut)]
            && g.pending == map[] && g.hands == map[] && g.sent == {0} && g.gone == {}
  {
    ms := OneForwarded();
    assert Enumerates([1], After(ms).pending);
    ScanOne(After(ms).pending);
    hide Legal, After, Then, ScanOver, Enumerates;
    ms := Then(ms, Cleanup(31_000_000_000, [1]));
    ms := Then(ms, Announce);
    ms := Then(ms, SendTimeout);
  }

  /** One id past the window, the late response to a request that timed out is delivered as the
      response to another client's request. */
  lemma {:induction false} LateResponseMisdelivered() returns (ms: seq<Move>)
    ensures Legal(ms) && |After(ms).issued| == IDS + 1
    ensures After(ms).replies == [Reply(0, 1, 10, TimedOut), Reply(IDS, 2, 20, FromBackend(Some(0)))]
  {
    ms := OneTimedOut();
    Numbering(ms, IDS - 1);
    ms := ms + Requests(IDS - 1);
    hide Legal, After, Then;
    ms := Then(ms, Allocate(2, 20));
    ms := Then(ms, Insert(IDS, 31_000_000_000));
    ms := Then(ms, Answer(0, 0));
    assert After(ms).hands == map[0 := Hand(Entry(IDS, 2, 20, 31_000_000_000), Some(0), Found)];
    ms := Then(ms, Resolve(0));
    ms := Then(ms, Deliver(0));
  }

  lemma ScanOne(pending: map<u32, Entry>)
    requires pending == map[1 := Entry(0, 1, 10, 0)]
    ensures ScanOver([1], pending, {}, 31_000_000_000) == Scan(map[], [Entry(0, 1, 10, 0)], 0)
  {
    assert [1][1..] == [];
    assert pending - {1} == map[];
  }

  // ----- the table object -----

  lemma ScanTurn(order: seq<u32>, i: nat, pending: map<u32, Entry>, gone: set<nat>, now: int)
    requires i < |order| && order[i] in pending
    ensures var e := pending[order[i]];
            var rest := ScanOver(order[i + 1..], if Expired(now, e.created) then pending - {order[i]} else pending, gone, now);
            ScanOver(order[i..], pending, gone, now) ==
            if !Expired(now, e.created) then rest
            else if e.client in gone then rest.(silent := rest.silent + 1)
            else rest.(timeouts := [e] + rest.timeouts)
  {
    assert order[i..][1..] == order[i + 1..];
  }

  /** The table and the counters next to it; each method is one locked section. */
  class PendingTable {
    var pending: map<u32, Entry>
    var nextNewId: u32

    constructor ()
      ensures pending == map[] && nextNewId == Id(0)
    {
      pending, nextNewId := map[], 1;
    }

    /** `next_new_id++` of the handler that becomes ticket `t`. */
    method NewId(ghost t: nat) returns (id: u32)
      requires nextNewId == Id(t)
      modifies this`nextNewId
      ensures id == Id(t) && nextNewId == Id(t + 1)
    {
      id := nextNewId;
      nextNewId := (nextNewId + 1) % IDS;
    }

    /** What the handler of ticket `t` does to the table is the listing step. */
    method Record(id: u32, e: Entry, ghost g: Gate, ghost t: nat)
      requires Can(g, Insert(t, e.created)) && pending == g.pending
      requires id == Id(t) && e == Entry(t, g.issued[t].client, g.issued[t].original, e.created)
      modifies this`pending
      ensures pending == old(pending)[id := e] == Do(g, Insert(t, e.created)).pending
    {
      pending := pending[id := e];
    }

    /** What a response handler does to the table, and what it holds then, is the taking step. */
    method TakePending(id: u32, ghost g: Gate, ghost w: nat, ghost about: Option<nat>) returns (found: Option<Entry>)
      requires pending == g.pending && w !in g.hands
      modifies this`pending
      ensures found == if id in old(pending) then Some(old(pending)[id]) else None
      ensures pending == old(pending) - {id} == Take(g, w, id, about).pending
      ensures var h := Take(g, w, id, about);
              (found.Some? <==> w in h.hands) && (found.Some? ==> h.hands[w] == Hand(found.value, about, Found))
    {
      if id in pending {
        found := Some(pending[id]);
        pending := pending - {id};
      } else {
        found := None;
        assert pending - {id} == pending;
      }
    }

    /** One round of the cleanup thread under the lock is the cleanup step: it removes exactly the expired
        entries, and returns the timeouts to be sent after unlocking. */
    method Cleanup(order: seq<u32>, gone: set<nat>, now: int, ghost g: Gate) returns (timeouts: seq<Entry>)
      requires pending == g.pending && gone == g.gone && Can(g, Move.Cleanup(now, order))
      modifies this`pending
      ensures pending == Do(g, Move.Cleanup(now, order)).pending && timeouts == Do(g, Move.Cleanup(now, order)).batch
      ensures forall k :: k in pending <==> k in old(pending) && !Expired(now, old(pending)[k].created)
    {
      timeouts := EraseExpired(order, gone, now);
      ScanEffect(order, old(pending), gone, now);
      hide ScanOver, Expired;
    }

    /** The loop: erases while iterating. */
    method EraseExpired(order: seq<u32>, gone: set<nat>, now: int) returns (timeouts: seq<Entry>)
      requires Enumerates(order, pending)
      modifies this`pending
      ensures var s := ScanOver(order, old(pending), gone, now); pending == s.kept && timeouts == s.timeouts
    {
      timeouts := [];
      var i := 0;
      ghost var silent := 0;
      while i < |order|
        invariant 0 <= i <= |order|
        invariant forall k :: i <= k < |order| ==> order[k] in pending && pending[order[k]] == old(pending)[order[k]]
        invariant ScanOver(order, old(pending), gone, now) ==
                  var s := ScanOver(order[i..], pending, gone, now);
                  s.(timeouts := timeouts + s.timeouts, silent := silent + s.silent)
      {
        var k := order[i];
        ScanTurn(order, i, pending, gone, now);
        hide ScanOver;
        if Expired(now, pending[k].created) {
          if pending[k].client in gone { silent := silent + 1; } else { timeouts := timeouts + [pending[k]]; }
          pending := pending - {k};
        }
        i := i + 1;
      }
    }
  }
}
