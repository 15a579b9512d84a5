/** Sessions and chat rooms. A room handler is one step: it looks sessions and rooms up, changes
member lists and pointers, and removes a room it has emptied. */
module Rooms {
  import opened Wrappers
  import opened Framing
  import TokenBucket

  const ID_RANGE: nat := 0x1_0000_0000

  // ----- member lists -----

  function Added(ms: seq<nat>, s: nat): seq<nat> { if s in ms then ms else ms + [s] }

  /** All occurrences removed, the others in their order. */
  function Without(ms: seq<nat>, s: nat): seq<nat> {
    if ms == [] then [] else if ms[0] == s then Without(ms[1..], s) else [ms[0]] + Without(ms[1..], s)
  }

  lemma {:induction false} WithoutLaw(ms: seq<nat>, s: nat)
    ensures multiset(Without(ms, s)) == multiset(ms)[s := 0]
    ensures forall x :: x in Without(ms, s) <==> x in ms && x != s
  {
    if ms != [] {
      WithoutLaw(ms[1..], s);
      assert ms == [ms[0]] + ms[1..];
    }
  }

  lemma {:induction false} WithoutDistinct(ms: seq<nat>, s: nat)
    requires Distinct(ms)
    ensures Distinct(Without(ms, s))
  {
    if ms != [] {
      WithoutDistinct(ms[1..], s);
      WithoutLaw(ms[1..], s);
      assert ms[0] !in ms[1..];
    }
  }

  /** Removal goes through a list entry by entry and keeps the order of the others. */
  lemma {:induction false} WithoutAppend(a: seq<nat>, b: seq<nat>, s: nat)
    ensures Without(a + b, s) == Without(a, s) + Without(b, s)
    ensures |a| == 1 ==> Without(a, s) == if a[0] == s then [] else a
  {
    if a == [] {
      assert a + b == b;
    } else {
      assert (a + b)[1..] == a[1..] + b;
      WithoutAppend(a[1..], b, s);
    }
  }

  lemma {:induction false} WithoutAbsent(ms: seq<nat>, s: nat)
    requires s !in ms
    ensures Without(ms, s) == ms
  {
    if ms != [] { WithoutAbsent(ms[1..], s); }
  }

  class Room {
    var members: seq<nat>

    constructor ()
      ensures members == []
    {
      members := [];
    }

    method AddMember(s: nat)
      modifies this
      ensures members == Added(old(members), s) == if s in old(members) then old(members) else old(members) + [s]
    {
      var it := 0;
      while it < |members| && members[it] != s
        invariant 0 <= it <= |members| && s !in members[..it]
      {
        it := it + 1;
      }
      if it == |members| {
        members := members + [s];
      }
    }

    /** Erases while iterating. */
    method RemoveMember(s: nat)
      modifies this
      ensures members == Without(old(members), s)
    {
      var it := 0;
      while it < |members|
        invariant 0 <= it <= |members| && s !in members[..it]
        invariant Without(members, s) == Without(old(members), s)
        decreases |members| - it
      {
        if members[it] == s {
          WithoutAppend(members[..it], members[it..], s);
          WithoutAppend(members[..it], members[it + 1..], s);
          assert members == members[..it] + members[it..];
          members := members[..it] + members[it + 1..];
        } else {
          it := it + 1;
        }
      }
      assert members[..it] == members;
      WithoutAbsent(members, s);
    }

    method MemberCount() returns (n: nat)
      ensures n == |members|
    {
      n := |members|;
    }
  }

  // ----- the handlers as steps -----

  /** Sessions by descriptor, the room each session points to (0: none), rooms by id. Sessions are
      identified by the order of their creation. */
  datatype Chat = Chat(
    sessions: map<int, nat>, roomOf: map<nat, u32>, rooms: map<u32, seq<nat>>, nextSession: nat, nextRoom: u32)

  datatype Op =
    | Login(fd: int, valid: bool)
    | Create(fd: int, named: bool, stored: bool)
    | Join(fd: int, target: Option<u32>)
    | Leave(fd: int)
    | Disconnect(fd: int)

  function Dropped(rooms: map<u32, seq<nat>>, r: u32, s: nat): map<u32, seq<nat>> {
    if r in rooms then rooms[r := Without(rooms[r], s)] else rooms
  }

  /** checkAndRemoveEmptyRoom */
  function Pruned(rooms: map<u32, seq<nat>>, r: u32): map<u32, seq<nat>> {
    if r in rooms && rooms[r] == [] then rooms - {r} else rooms
  }

  predicate LoggedIn(g: Chat, fd: int) { fd in g.sessions && g.sessions[fd] in g.roomOf }

  /** The room of the session logged in on `fd`. */
  function RoomAt(g: Chat, fd: int): u32 { if LoggedIn(g, fd) then g.roomOf[g.sessions[fd]] else 0 }

  function Do(g: Chat, op: Op): Chat {
    match op
    case Login(fd, valid) =>
      if !valid then g
      else g.(sessions := g.sessions[fd := g.nextSession], roomOf := g.roomOf[g.nextSession := 0],
              nextSession := g.nextSession + 1)
    case Create(fd, named, stored) =>
      if !LoggedIn(g, fd) || !named then g
      else
        var s, id := g.sessions[fd], g.nextRoom;
        var next: u32 := (g.nextRoom + 1) % ID_RANGE;
        if !stored then g.(nextRoom := next)
        else g.(rooms := g.rooms[id := Added([], s)], roomOf := g.roomOf[s := id], nextRoom := next)
    case Join(fd, target) =>
      if !LoggedIn(g, fd) || target.None? || target.value !in g.rooms then g
      else
        var s, t := g.sessions[fd], target.value;
        var rooms := if g.roomOf[s] != 0 then Dropped(g.rooms, g.roomOf[s], s) else g.rooms;
        g.(rooms := rooms[t := Added(rooms[t], s)], roomOf := g.roomOf[s := t])
    case Leave(fd) =>
      if !LoggedIn(g, fd) then g
      else
        var s, r := g.sessions[fd], g.roomOf[g.sessions[fd]];
        g.(rooms := Pruned(Dropped(g.rooms, r, s), r), roomOf := g.roomOf[s := 0])
    case Disconnect(fd) =>
      if !LoggedIn(g, fd) then g
      else
        var s, r := g.sessions[fd], g.roomOf[g.sessions[fd]];
        g.(sessions := g.sessions - {fd}, rooms := if r != 0 then Pruned(Dropped(g.rooms, r, s), r) else g.rooms)
  }

  /** `next_room_id_` starts behind the largest id stored. */
  function Start(first: u32): Chat { Chat(map[], map[], map[], 0, first) }

  function After(first: u32, ops: seq<Op>): Chat {
    if ops == [] then Start(first) else Do(After(first, ops[..|ops| - 1]), ops[|ops| - 1])
  }

  predicate TakesId(g: Chat, op: Op) { op.Create? && LoggedIn(g, op.fd) && op.named }

  /** The room counter has not come round to 0. */
  predicate Unwrapped(first: u32, ops: seq<Op>) {
    if ops == [] then first != 0
    else
      && Unwrapped(first, ops[..|ops| - 1])
      && var g := After(first, ops[..|ops| - 1]); (TakesId(g, ops[|ops| - 1]) ==> g.nextRoom + 1 < ID_RANGE)
  }

  // ----- invariants -----

  predicate Sessions(g: Chat) {
    && (forall fd :: fd in g.sessions ==> g.sessions[fd] in g.roomOf)
    && (forall s :: s in g.roomOf ==> s < g.nextSession)
    && (forall a, b :: a in g.sessions && b in g.sessions && a != b ==> g.sessions[a] != g.sessions[b])
  }

  /** Every live session with a room is in that room's member list. */
  predicate Listed(g: Chat) {
    forall fd :: fd in g.sessions && RoomAt(g, fd) != 0 ==>
      RoomAt(g, fd) in g.rooms && g.sessions[fd] in g.rooms[RoomAt(g, fd)]
  }

  predicate NoDuplicates(g: Chat) { forall r :: r in g.rooms ==> Distinct(g.rooms[r]) }

  predicate FreshIds(g: Chat) { g.nextRoom != 0 && forall r :: r in g.rooms ==> 0 < r < g.nextRoom }

  predicate Inv(g: Chat) { Sessions(g) && Listed(g) && NoDuplicates(g) && FreshIds(g) }

  lemma LeavesOneRoom(rooms: map<u32, seq<nat>>, r: u32, s: nat)
    requires forall q :: q in rooms ==> Distinct(rooms[q])
    ensures var d := Dropped(rooms, r, s);
            && d.Keys == rooms.Keys && (forall q :: q in d ==> Distinct(d[q]))
            && forall q, x :: q in rooms ==> (x in d[q] <==> x in rooms[q] && !(q == r && x == s))
  {
    if r in rooms {
      WithoutLaw(rooms[r], s);
      WithoutDistinct(rooms[r], s);
    }
  }

  /** Each handler keeps the invariant, as long as the room counter does not wrap. */
  lemma StepKeeps(g: Chat, op: Op)
    requires Inv(g) && (TakesId(g, op) ==> g.nextRoom + 1 < ID_RANGE)
    ensures Inv(Do(g, op))
  {
    if LoggedIn(g, op.fd) {
      LeavesOneRoom(g.rooms, RoomAt(g, op.fd), g.sessions[op.fd]);
      hide Without;
    }
  }

  /** Over all runs: who points to a room is listed there, once; ids are fresh. */
  lemma {:induction false} Membership(first: u32, ops: seq<Op>)
    requires Unwrapped(first, ops)
    ensures Inv(After(first, ops))
  {
    if ops != [] {
      Membership(first, ops[..|ops| - 1]);
      StepKeeps(After(first, ops[..|ops| - 1]), ops[|ops| - 1]);
    }
  }

  /** Removing an emptied room never takes away a room a live session points to. */
  lemma RemovalIsSafe(first: u32, ops: seq<Op>, r: u32)
    requires ops != [] && Unwrapped(first, ops)
    requires r in After(first, ops[..|ops| - 1]).rooms && r !in After(first, ops).rooms
    ensures forall fd :: fd in After(first, ops).sessions ==> RoomAt(After(first, ops), fd) != r
  {
    Membership(first, ops[..|ops| - 1]);
    Membership(first, ops);
  }

  /** Past the wrap a new room can replace one in use: creation keeps every live session listed exactly
      when no other live session points to the id handed out (or that id is 0, which means "none"). */
  lemma CreateAtWrap(g: Chat, fd: int)
    requires Sessions(g) && Listed(g) && LoggedIn(g, fd)
    ensures Listed(Do(g, Create(fd, true, true))) <==>
            g.nextRoom == 0 || forall other :: other in g.sessions && other != fd ==> RoomAt(g, other) != g.nextRoom
  {
    var h, s := Do(g, Create(fd, true, true)), g.sessions[fd];
    assert h.rooms[g.nextRoom] == [s];
    forall other | other in g.sessions && other != fd
      ensures RoomAt(h, other) == RoomAt(g, other) && g.sessions[other] != s
    {
    }
    if g.nextRoom != 0 && exists other :: other in g.sessions && other != fd && RoomAt(g, other) == g.nextRoom {
      var other :| other in g.sessions && other != fd && RoomAt(g, other) == g.nextRoom;
      assert other in h.sessions && h.sessions[other] !in h.rooms[g.nextRoom];
    }
  }

  // ----- what each handler does, seen from outside -----

  /** The lists of all rooms hold the same others in the same order; `s` alone may have come or gone. */
  predicate OthersStay(a: map<u32, seq<nat>>, b: map<u32, seq<nat>>, s: nat) {
    forall r :: r in a && r in b ==> Without(a[r], s) == Without(b[r], s)
  }

  /** Every other descriptor keeps its session, and every other session its room. */
  ghost predicate OnlyMoves(g: Chat, h: Chat, fd: int) {
    && (forall other :: other != fd ==> (other in g.sessions <==> other in h.sessions))
    && (forall other :: other != fd && other in g.sessions ==> h.sessions[other] == g.sessions[other])
    && (forall other :: other != fd ==> RoomAt(h, other) == RoomAt(g, other))
  }

  function Then(first: u32, ops: seq<Op>, op: Op): (h: Chat)
    ensures h == After(first, ops + [op]) == Do(After(first, ops), op)
  {
    assert (ops + [op])[..|ops + [op]| - 1] == ops;
    After(first, ops + [op])
  }

  lemma {:induction false} WithoutTwice(ms: seq<nat>, s: nat)
    ensures Without(Without(ms, s), s) == Without(ms, s) == Without(ms + [s], s)
  {
    WithoutLaw(ms, s);
    WithoutAbsent(Without(ms, s), s);
    WithoutAppend(ms, [s], s);
    assert Without([s], s) == [];
    assert Without(ms, s) + [] == Without(ms, s);
  }

  lemma {:induction false} OnceIn(ms: seq<nat>, s: nat)
    requires Distinct(ms) && s in ms
    ensures multiset(ms)[s] == 1
  {
    var i :| 0 <= i < |ms| && ms[i] == s;
    assert ms == ms[..i] + [s] + ms[i + 1..];
    assert s !in ms[..i] && s !in ms[i + 1..];
  }

  /** Joining: the session is in the target's list once and points to it; it is gone from the list of the
      room it pointed to, and from no other; nobody else moves, no list is reordered and no room is lost.
      A join that cannot be done changes nothing. */
  lemma {:induction false} JoinMoves(first: u32, ops: seq<Op>, fd: int, target: Option<u32>)
    requires Unwrapped(first, ops)
    ensures var g, h := After(first, ops), After(first, ops + [Join(fd, target)]);
            if fd in g.sessions && target.Some? && target.value in g.rooms then
              var s, t := g.sessions[fd], target.value;
              && RoomAt(h, fd) == t && h.sessions == g.sessions && h.rooms.Keys == g.rooms.Keys
              && multiset(h.rooms[t])[s] == 1
              && (forall r :: r in g.rooms && r != t ==> (s in h.rooms[r] <==> s in g.rooms[r] && r != RoomAt(g, fd)))
              && OthersStay(g.rooms, h.rooms, s) && OnlyMoves(g, h, fd)
            else h == g
  {
    var g, op := After(first, ops), Join(fd, target);
    var h := Then(first, ops, op);
    Membership(first, ops);
    StepKeeps(g, op);
    hide Unwrapped, After;
    if fd in g.sessions && target.Some? && target.value in g.rooms {
      assert LoggedIn(g, fd);
      JoinSets(g, fd, target.value);
      JoinKeepsOthers(g, fd, target.value);
      OnceIn(h.rooms[target.value], g.sessions[fd]);
      hide Without, Added, Dropped;
    }
  }

  lemma JoinSets(g: Chat, fd: int, t: u32)
    requires Inv(g) && LoggedIn(g, fd) && t in g.rooms
    ensures var h, s := Do(g, Join(fd, Some(t))), g.sessions[fd];
            && h.rooms.Keys == g.rooms.Keys && s in h.rooms[t]
            && forall r :: r in g.rooms && r != t ==> (s in h.rooms[r] <==> s in g.rooms[r] && r != RoomAt(g, fd))
  {
    LeavesOneRoom(g.rooms, RoomAt(g, fd), g.sessions[fd]);
    hide Without;
  }

  lemma JoinKeepsOthers(g: Chat, fd: int, t: u32)
    requires Inv(g) && LoggedIn(g, fd) && t in g.rooms
    ensures OthersStay(g.rooms, Do(g, Join(fd, Some(t))).rooms, g.sessions[fd])
  {
    hide Without;
    var h, s := Do(g, Join(fd, Some(t))), g.sessions[fd];
    forall r | r in g.rooms ensures Without(g.rooms[r], s) == Without(h.rooms[r], s) {
      WithoutTwice(g.rooms[r], s);
      WithoutTwice(Without(g.rooms[r], s), s);
    }
  }

  /** Leaving: the session points to no room and is gone from the list of the room it pointed to, which
      stays exactly if somebody else is in it; everything else stays. */
  lemma {:induction false} LeaveMoves(first: u32, ops: seq<Op>, fd: int)
    requires Unwrapped(first, ops)
    ensures var g, h := After(first, ops), After(first, ops + [Leave(fd)]);
            if fd in g.sessions then
              var s, r := g.sessions[fd], RoomAt(g, fd);
              && RoomAt(h, fd) == 0 && h.sessions == g.sessions && GoneFrom(g, h, s, r) && OnlyMoves(g, h, fd)
            else h == g
  {
    var g := After(first, ops);
    var h := Then(first, ops, Leave(fd));
    Membership(first, ops);
    hide Unwrapped, After;
    if fd in g.sessions {
      assert LoggedIn(g, fd);
      DroppedIsGone(g, h, g.sessions[fd], RoomAt(g, fd));
    }
  }

  /** `s` has left room `r`: an emptied room goes, no list changes but by losing `s` from that room. */
  predicate GoneFrom(g: Chat, h: Chat, s: nat, r: u32) {
    && (forall q :: q in g.rooms && q != r ==> q in h.rooms && h.rooms[q] == g.rooms[q])
    && (forall q :: q in h.rooms ==> q in g.rooms)
    && (r in h.rooms <==> r in g.rooms && exists x :: x in g.rooms[r] && x != s)
    && (r in h.rooms ==> s !in h.rooms[r])
    && OthersStay(g.rooms, h.rooms, s)
  }

  lemma DroppedIsGone(g: Chat, h: Chat, s: nat, r: u32)
    requires h.rooms == Pruned(Dropped(g.rooms, r, s), r)
    ensures GoneFrom(g, h, s, r)
  {
    hide Without;
    if r in g.rooms {
      OthersLeft(g.rooms[r], s);
      WithoutTwice(g.rooms[r], s);
    }
  }

  lemma OthersLeft(ms: seq<nat>, s: nat)
    ensures Without(ms, s) != [] <==> exists x :: x in ms && x != s
    ensures s !in Without(ms, s)
  {
    WithoutLaw(ms, s);
    if Without(ms, s) != [] { assert Without(ms, s)[0] in Without(ms, s); }
    hide Without;
  }

  /** Creating: the new room has the next id and the creator as its only member, who points to it now;
      every other room stays as it was, the one the creator pointed to included. A creation that is not
      stored uses the id up, one that is not named or not by a session changes nothing. */
  lemma {:induction false} CreateMoves(first: u32, ops: seq<Op>, fd: int, named: bool, stored: bool)
    requires Unwrapped(first, ops)
    ensures var g, h := After(first, ops), After(first, ops + [Create(fd, named, stored)]);
            if fd in g.sessions && named then
              && h.nextRoom == (g.nextRoom + 1) % 0x1_0000_0000 && h.sessions == g.sessions && OnlyMoves(g, h, fd)
              && (stored ==> g.nextRoom !in g.rooms && RoomAt(h, fd) == g.nextRoom
                             && h.rooms == g.rooms[g.nextRoom := [g.sessions[fd]]])
              && (!stored ==> RoomAt(h, fd) == RoomAt(g, fd) && h.rooms == g.rooms)
            else h == g
  {
    var g := After(first, ops);
    var h := Then(first, ops, Create(fd, named, stored));
    Membership(first, ops);
    hide Unwrapped, After;
    assert fd in g.sessions ==> LoggedIn(g, fd);
    assert forall s: nat :: Added([], s) == [s];
  }

  /** Logging in: the descriptor gets a session nobody had before, in no room. */
  lemma {:induction false} LoginMoves(first: u32, ops: seq<Op>, fd: int, valid: bool)
    requires Unwrapped(first, ops)
    ensures var g, h := After(first, ops), After(first, ops + [Login(fd, valid)]);
            if valid then
              && fd in h.sessions && h.sessions[fd] !in g.roomOf && RoomAt(h, fd) == 0 && h.rooms == g.rooms && OnlyMoves(g, h, fd)
            else h == g
  {
    var g := After(first, ops);
    var h := Then(first, ops, Login(fd, valid));
    Membership(first, ops);
    hide Unwrapped, After;
  }

  /** A connection closes: its descriptor has no session any more, which has left its room. */
  lemma {:induction false} DisconnectMoves(first: u32, ops: seq<Op>, fd: int)
    requires Unwrapped(first, ops)
    ensures var g, h := After(first, ops), After(first, ops + [Disconnect(fd)]);
            && fd !in h.sessions && OnlyMoves(g, h, fd)
            && if fd in g.sessions && RoomAt(g, fd) != 0 then GoneFrom(g, h, g.sessions[fd], RoomAt(g, fd)) else h.rooms == g.rooms
  {
    var g := After(first, ops);
    var h := Then(first, ops, Disconnect(fd));
    Membership(first, ops);
    hide Unwrapped, After;
    if fd in g.sessions {
      assert LoggedIn(g, fd);
      if RoomAt(g, fd) != 0 { DroppedIsGone(g, h, g.sessions[fd], RoomAt(g, fd)); }
    }
  }

  // ----- what is not true: only live sessions in member lists -----

  predicate Live(g: Chat, s: nat, r: u32) {
    exists fd :: fd in g.sessions && g.sessions[fd] == s && RoomAt(g, fd) == r
  }

  /** Member lists hold live sessions that point back to the room, and nobody else. */
  predicate Tight(g: Chat) { forall r, s :: r in g.rooms && s in g.rooms[r] ==> Live(g, s, r) }

  /** A session creates a room, or is replaced by a new login on its descriptor, only while it is
      in no room. */
  predicate Tidy(g: Chat, op: Op) {
    && (op.Create? && TakesId(g, op) && op.stored ==> RoomAt(g, op.fd) == 0)
    && (op.Login? && op.valid ==> RoomAt(g, op.fd) == 0)
  }

  /** Creating a room does not leave the old one, and a second login forgets the first: lists stay
      tight exactly in the steps where neither happens to a session in a room. */
  lemma TightKeptIff(g: Chat, op: Op)
    requires Inv(g) && Tight(g) && (TakesId(g, op) ==> g.nextRoom + 1 < ID_RANGE)
    ensures Tight(Do(g, op)) <==> Tidy(g, op)
  {
    var h := Do(g, op);
    if LoggedIn(g, op.fd) {
      var s, r := g.sessions[op.fd], RoomAt(g, op.fd);
      LeavesOneRoom(g.rooms, r, s);
      if !Tidy(g, op) {
        assert r in h.rooms && s in h.rooms[r];
        assert !Live(h, s, r);
      }
    }
    if Tidy(g, op) {
      TightKept(g, op);
    }
  }

  lemma TightKept(g: Chat, op: Op)
    requires Inv(g) && Tight(g) && Tidy(g, op) && (TakesId(g, op) ==> g.nextRoom + 1 < ID_RANGE)
    ensures Tight(Do(g, op))
  {
    var h := Do(g, op);
    if LoggedIn(g, op.fd) { LeavesOneRoom(g.rooms, RoomAt(g, op.fd), g.sessions[op.fd]); }
    forall r, s | r in h.rooms && s in h.rooms[r] ensures Live(h, s, r) {
      if LoggedIn(g, op.fd) && s == g.sessions[op.fd] && op.fd in h.sessions && h.sessions[op.fd] == s {
        assert RoomAt(h, op.fd) == r;
      } else {
        assert Live(g, s, r);
        var fd :| fd in g.sessions && g.sessions[fd] == s && RoomAt(g, fd) == r;
        assert fd in h.sessions && h.sessions[fd] == s && RoomAt(h, fd) == r;
      }
    }
  }

  /** Two rooms created and the connection closed: the first room keeps a member that is gone. */
  lemma ForgottenMember()
    ensures var g := After(1, [Login(5, true), Create(5, true, true), Create(5, true, true), Disconnect(5)]);
            g.sessions == map[] && g.rooms == map[1 := [0]]
  {
    var ops := [Login(5, true), Create(5, true, true), Create(5, true, true), Disconnect(5)];
    assert ops[..3] == [Login(5, true), Create(5, true, true), Create(5, true, true)];
    assert ops[..3][..2] == [Login(5, true), Create(5, true, true)];
    assert ops[..3][..2][..1] == [Login(5, true)];
    assert ops[..3][..2][..1][..0] == [];
    assert After(1, []) == Start(1) && Added([], 0) == [0];
    var g1, g2, g3 := After(1, ops[..3][..2][..1]), After(1, ops[..3][..2]), After(1, ops[..3]);
    assert g1.sessions == map[5 := 0] && g1.roomOf == map[0 := 0] && g1.rooms == map[] && g1.nextRoom == 1;
    assert g2.sessions == map[5 := 0] && g2.roomOf == map[0 := 1] && g2.rooms == map[1 := [0]] && g2.nextRoom == 2;
    assert g3.sessions == map[5 := 0] && g3.roomOf == map[0 := 2] && g3.rooms == map[1 := [0], 2 := [0]];
    assert Without([0], 0) == [];
    assert Do(g3, Disconnect(5)).rooms == map[1 := [0]];
  }

  // ----- the service object -----

  /** std::to_string */
  function ToString(n: int): string
    decreases if n < 0 then 1 - n else n
  {
    if n < 0 then "-" + ToString(-n) else if n < 10 then [('0' as int + n) as char] else ToString(n / 10) + ToString(n % 10)
  }

  /** The user id of a session: a 32-bit counter that starts at 1. */
  function UserId(session: nat): u32 { (1 + session) % ID_RANGE }

  /** Rate-limit keys of a descriptor before login, and of a user after it. */
  function FdKey(fd: int): TokenBucket.Key { "fd:" + ToString(fd) }
  function UserKey(session: nat): TokenBucket.Key { "user:" + ToString(UserId(session)) }

  lemma {:induction false} ToStringDiffers(a: nat, b: nat)
    requires ToString(a) == ToString(b)
    ensures a == b
    decreases a
  {
    ToStringDigits(a);
    ToStringDigits(b);
    if a >= 10 && b >= 10 {
      var x, y := ToString(a), ToString(b);
      assert x[..|x| - 1] == ToString(a / 10) && y[..|y| - 1] == ToString(b / 10);
      assert x[|x| - 1] == ('0' as int + a % 10) as char && y[|y| - 1] == ('0' as int + b % 10) as char;
      ToStringDiffers(a / 10, b / 10);
    }
  }

  lemma ToStringDigits(n: nat)
    ensures |ToString(n)| >= 1 && (n >= 10 <==> |ToString(n)| >= 2) && '0' <= ToString(n)[0] <= '9'
    ensures n >= 10 ==> ToString(n) == ToString(n / 10) + [('0' as int + n % 10) as char]
  {
  }

  /** Keys of different descriptors differ, and keys of users do from those of descriptors; two sessions
      share one exactly if their numbers agree in 32 bits. */
  lemma KeysDiffer(fd: int, other: int, s: nat, t: nat)
    ensures FdKey(fd) == FdKey(other) <==> fd == other
    ensures FdKey(fd) != UserKey(s)
    ensures UserKey(s) == UserKey(t) <==> s % 0x1_0000_0000 == t % 0x1_0000_0000
    ensures UserKey(0) == "user:1" && FdKey(0) == "fd:0"
  {
    FdKeysDiffer(fd, other);
    UserKeysDiffer(s, t);
    FirstKeys();
    assert FdKey(fd)[0] == 'f' && UserKey(s)[0] == 'u';
    hide FdKey, UserKey, ToString, UserId;
  }

  lemma FdKeysDiffer(fd: int, other: int)
    ensures FdKey(fd) == FdKey(other) <==> fd == other
  {
    hide ToString;
    if FdKey(fd) == FdKey(other) {
      assert FdKey(fd)[3..] == ToString(fd) && FdKey(other)[3..] == ToString(other);
      SignRead(fd);
      SignRead(other);
      if fd >= 0 { ToStringDiffers(fd, other); } else { ToStringDiffers(-fd, -other); }
    }
  }

  lemma UserKeysDiffer(s: nat, t: nat)
    ensures UserKey(s) == UserKey(t) <==> s % 0x1_0000_0000 == t % 0x1_0000_0000
  {
    hide ToString;
    if UserKey(s) == UserKey(t) {
      assert UserKey(s)[5..] == ToString(UserId(s)) && UserKey(t)[5..] == ToString(UserId(t));
      ToStringDiffers(UserId(s), UserId(t));
    }
  }

  lemma FirstKeys()
    ensures UserKey(0) == "user:1" && FdKey(0) == "fd:0"
  {
    assert UserId(0) == 1 && ToString(1) == ['1'] && ToString(0) == ['0'];
  }

  lemma SignRead(n: int)
    ensures ToString(n) != [] && (ToString(n)[0] == '-' <==> n < 0)
    ensures n < 0 ==> ToString(n)[1..] == ToString(-n)
  {
    if n >= 0 { ToStringDigits(n); }
  }

  /** What a closed connection leaves of the limiter's table: its own keys are gone. */
  function Forgotten(bs: TokenBucket.Buckets, sessions: map<int, nat>, fd: int): TokenBucket.Buckets {
    var rest := bs - {FdKey(fd)};
    if fd in sessions then rest - {UserKey(sessions[fd])} else rest
  }

  class ChatService {
    var sessions: map<int, nat>
    var roomOf: map<nat, u32>
    var rooms: map<u32, Room>
    var nextSession: nat
    var nextRoom: u32
    const userLimiter: TokenBucket.Limiter

    ghost predicate Valid()
      reads this
    {
      && (forall fd :: fd in sessions ==> sessions[fd] in roomOf)
      && (forall a, b :: a in rooms && b in rooms && a != b ==> rooms[a] != rooms[b])
    }

    ghost function Abs(): Chat
      reads this, rooms.Values
    {
      Chat(sessions, roomOf, map r | r in rooms :: rooms[r].members, nextSession, nextRoom)
    }

    constructor (first: u32)
      ensures Valid() && Abs() == Start(first)
      ensures fresh(userLimiter) && userLimiter.buckets == map[] && userLimiter.limits == TokenBucket.Limits(10.0, 20.0)
    {
      userLimiter := new TokenBucket.Limiter(10.0, 20.0);
      sessions, roomOf, rooms, nextSession, nextRoom := map[], map[], map[], 0, first;
    }

    method HandleLogin(fd: int, valid: bool)
      requires Valid()
      modifies this
      ensures Valid() && rooms == old(rooms) && Abs() == Do(old(Abs()), Login(fd, valid))
      ensures sessions == if valid then old(sessions)[fd := old(nextSession)] else old(sessions)
    {
      if !valid { return; }
      var session := nextSession;
      nextSession := nextSession + 1;
      roomOf := roomOf[session := 0];
      sessions := sessions[fd := session];
    }

    /** Returns the id of the new room, if there is one. */
    method HandleCreateRoom(fd: int, named: bool, stored: bool) returns (created: Option<u32>)
      requires Valid()
      modifies this
      ensures Valid() && Abs() == Do(old(Abs()), Create(fd, named, stored))
      ensures created == if fd in old(sessions) && named && stored then Some(old(nextRoom)) else None
      ensures created.Some? ==>
                var s := old(sessions)[fd];
                roomOf == old(roomOf)[s := created.value] && created.value in rooms && rooms[created.value].members == [s]
    {
      hide Added, Without, Pruned, Dropped;
      if fd !in sessions || !named { return None; }
      var session, id := sessions[fd], nextRoom;
      nextRoom := (nextRoom + 1) % ID_RANGE;
      if !stored { return None; }
      var room := new Room();
      room.AddMember(session);
      assert room !in old(rooms).Values;
      rooms := rooms[id := room];
      assert Abs().rooms == old(Abs().rooms)[id := Added([], session)];
      roomOf := roomOf[session := id];
      created := Some(id);
    }

    /** Returns the member count reported to the client. */
    method HandleJoinRoom(fd: int, target: Option<u32>) returns (count: Option<nat>)
      requires Valid()
      modifies this, rooms.Values
      ensures Valid() && rooms == old(rooms) && Abs() == Do(old(Abs()), Join(fd, target))
      ensures count == if fd in old(sessions) && target.Some? && target.value in old(rooms)
                       then Some(|rooms[target.value].members|) else None
      ensures count.Some? ==>
                var s := old(sessions)[fd];
                roomOf == old(roomOf)[s := target.value] && s in rooms[target.value].members
    {
      hide Added, Without, Pruned;
      if fd !in sessions || target.None? || target.value !in rooms { return None; }
      var session, room := sessions[fd], rooms[target.value];
      var old_room := roomOf[session];
      if old_room != 0 && old_room in rooms {
        rooms[old_room].RemoveMember(session);
      }
      room.AddMember(session);
      roomOf := roomOf[session := target.value];
      var n := room.MemberCount();
      count := Some(n);
    }

    method HandleLeaveRoom(fd: int)
      requires Valid()
      modifies this, rooms.Values
      ensures Valid() && Abs() == Do(old(Abs()), Leave(fd))
      ensures roomOf == if fd in old(sessions) then old(roomOf)[old(sessions)[fd] := 0] else old(roomOf)
    {
      if fd !in sessions { return; }
      var session, r := sessions[fd], roomOf[sessions[fd]];
      if r in rooms {
        rooms[r].RemoveMember(session);
      }
      roomOf := roomOf[session := 0];
      CheckAndRemoveEmptyRoom(r);
    }

    method CheckAndRemoveEmptyRoom(r: u32)
      requires Valid()
      modifies this`rooms
      ensures Valid() && Abs() == old(Abs()).(rooms := Pruned(old(Abs()).rooms, r))
      ensures rooms == if r in old(rooms) && old(rooms[r].members) == [] then old(rooms) - {r} else old(rooms)
    {
      if r in rooms {
        var n := rooms[r].MemberCount();
        if n == 0 {
          rooms := rooms - {r};
        }
      }
    }

    method UnbindSession(fd: int) returns (session: Option<nat>)
      requires Valid()
      modifies this`sessions
      ensures Valid() && Abs() == old(Abs()).(sessions := old(sessions) - {fd})
      ensures session == if fd in old(sessions) then Some(old(sessions)[fd]) else None
      ensures session.Some? ==> session.value in roomOf
    {
      session := None;
      if fd in sessions {
        session := Some(sessions[fd]);
        sessions := sessions - {fd};
      }
      assert fd !in old(sessions) ==> sessions == old(sessions) - {fd};
    }

    method LeaveAtClose(session: nat)
      requires Valid() && session in roomOf
      modifies this`rooms, rooms.Values
      ensures Valid()
      ensures var r := roomOf[session];
              Abs() == old(Abs()).(rooms := if r != 0 then Pruned(Dropped(old(Abs()).rooms, r, session), r) else old(Abs()).rooms)
    {
      var r := roomOf[session];
      if r != 0 {
        if r in rooms {
          rooms[r].RemoveMember(session);
        }
        CheckAndRemoveEmptyRoom(r);
      }
    }

    /** The session is unbound and leaves its room, and the limiter forgets the descriptor and the user. */
    method OnConnectionClosed(fd: int)
      requires Valid()
      modifies this, rooms.Values, userLimiter
      ensures Valid() && Abs() == Do(old(Abs()), Disconnect(fd)) && sessions == old(sessions) - {fd}
      ensures userLimiter.buckets == Forgotten(old(userLimiter.buckets), old(sessions), fd)
    {
      hide Pruned, Dropped, ToString, FdKey, UserKey;
      userLimiter.RemoveKey(FdKey(fd));
      var session := UnbindSession(fd);
      if session.Some? {
        userLimiter.RemoveKey(UserKey(session.value));
        LeaveAtClose(session.value);
      }
      assert fd !in old(sessions) ==> old(sessions) - {fd} == old(sessions);
    }
  }
}
