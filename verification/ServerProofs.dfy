/** What every move of the server keeps. */
module ServerProofs {
  import opened Wrappers
  import opened Lifecycle
  import opened LifecycleProofs
  import opened LifecycleEffects
  import opened LifecycleTheorems
  import opened ServerSystem

  // ----- queues -----

  /** The callbacks of one connection among a loop's queued items, in order. */
  function For(q: seq<Item>, c: nat): seq<Callback> {
    if q == [] then [] else (if q[0].Run? && q[0].c == c then [q[0].cb] else []) + For(q[1..], c)
  }

  lemma {:induction false} ForPush(q: seq<Item>, item: Item, c: nat)
    ensures For(q + [item], c) == For(q, c) + (if item.Run? && item.c == c then [item.cb] else [])
    decreases |q|
  {
    var last := if item.Run? && item.c == c then [item.cb] else [];
    if q == [] {
      assert [] + [item] == [item] && [item][1..] == [];
      assert For([item], c) == last + For([], c);
    } else {
      var first, rest := if q[0].Run? && q[0].c == c then [q[0].cb] else [], For(q[1..], c);
      ForPush(q[1..], item, c);
      assert (q + [item])[0] == q[0] && (q + [item])[1..] == q[1..] + [item];
      assert For(q + [item], c) == first + (rest + last);
      assert first + (rest + last) == (first + rest) + last;
    }
  }

  lemma {:induction false} ForMember(q: seq<Item>, c: nat, cb: Callback)
    ensures cb in For(q, c) <==> Run(c, cb) in q
    decreases |q|
  {
    if q != [] {
      ForMember(q[1..], c, cb);
      assert q == [q[0]] + q[1..];
    }
  }

  /** What the loop will run before the barrier. */
  function Before(q: seq<Item>): seq<Item> {
    if q == [] || q[0].Barrier? then [] else [q[0]] + Before(q[1..])
  }

  lemma {:induction false} BeforePush(q: seq<Item>, item: Item)
    ensures Barrier in q ==> Before(q + [item]) == Before(q)
    ensures Barrier !in q && item.Barrier? ==> Before(q + [item]) == q
    decreases |q|
  {
    if q == [] {
      assert ([] + [item])[1..] == [];
    } else {
      BeforePush(q[1..], item);
      assert (q + [item])[1..] == q[1..] + [item];
      assert q == [q[0]] + q[1..];
    }
  }

  /** A registration is queued once, and never behind a sweep. */
  predicate SweepLast(q: seq<Item>) {
    forall i, j :: 0 <= i < j < |q| && q[j].Register? ==> q[i] != q[j] && !q[i].CloseAll?
  }

  // ----- the invariant -----

  /** Each connection keeps its own invariant; before registration nothing has happened to it. */
  ghost predicate EntryOk(y: Sys, c: nat)
    requires c in y.entries
  {
    var e := y.entries[c];
    && e.home < |y.loops| && e.conn.stopped == y.stopped && Inv(e.conn)
    && (!e.registered ==> e.conn == START.(stopped := y.stopped))
    && (!e.conn.pc.Idle? ==> c in y.loops[e.home].active)
    && For(y.loops[e.home].queue, c) == e.conn.posted
  }

  ghost predicate Entries(y: Sys) { forall c :: c in y.entries ==> EntryOk(y, c) }

  predicate ItemOk(y: Sys, l: nat, item: Item) {
    match item
    case Run(c, _) => c in y.entries && y.entries[c].home == l
    case Register(c) => c in y.entries && y.entries[c].home == l && !y.entries[c].registered
    case _ => true
  }

  ghost predicate Queues(y: Sys) {
    && (forall l, item :: 0 <= l < |y.loops| && item in y.loops[l].queue ==> ItemOk(y, l, item))
    && (forall l :: 0 <= l < |y.loops| ==> SweepLast(y.loops[l].queue))
    && (forall c :: c in y.entries && !y.entries[c].registered && y.entries[c].home < |y.loops| ==>
          Register(c) in y.loops[y.entries[c].home].queue)
  }

  /** The worker that holds the connection's task is busy with it, one with a follow-up is posting it. */
  ghost predicate WorkOk(workers: seq<Worker>, c: nat, conn: Conn) {
    && (Holder(conn).Some? ==> Holder(conn).value < |workers| && workers[Holder(conn).value] == Busy(c))
    && (forall w :: w in conn.posting ==> w < |workers| && workers[w] == Posting(c))
  }

  /** Workers and connections agree on who holds what. */
  ghost predicate Workers(y: Sys) {
    && |y.workers| > 0
    && (forall c :: c in y.entries ==> WorkOk(y.workers, c, y.entries[c].conn))
    && (forall w :: 0 <= w < |y.workers| && y.workers[w].Exited? ==> y.stopped && y.pool == [])
  }

  ghost predicate Pool(y: Sys) {
    Distinct(y.pool) && forall c :: c in y.pool <==> c in y.entries && Pooled(y.entries[c].conn)
  }

  ghost predicate OpenFds(entries: map<nat, Entry>) {
    forall c, d :: c in entries && d in entries && c != d && Open(entries[c]) && Open(entries[d]) ==>
      entries[c].fd != entries[d].fd
  }

  ghost predicate Owned(entries: map<nat, Entry>, sessions: map<int, nat>) {
    forall fd :: fd in sessions ==>
      var c := sessions[fd];
      c in entries && entries[c].fd == fd && Open(entries[c]) && entries[c].conn.log.closes == 0
  }

  /** Open descriptors are distinct; a session's descriptor belongs to its own connection, whose close
      callback has not run. */
  ghost predicate Sessions(y: Sys) { OpenFds(y.entries) && Owned(y.entries, y.sessions) }

  predicate Mapped(entries: map<nat, Entry>, l: nat, fd: int, c: nat) {
    c in entries && entries[c].fd == fd && entries[c].home == l && entries[c].registered && Open(entries[c])
  }

  /** Every loop's map lists open connections of that loop under their descriptors. */
  ghost predicate MapsSound(y: Sys) {
    forall l, fd :: 0 <= l < |y.loops| && fd in y.loops[l].connections ==>
      Mapped(y.entries, l, fd, y.loops[l].connections[fd])
  }

  /** And it lists all of them. */
  ghost predicate MapsFull(y: Sys) {
    forall c :: c in y.entries && y.entries[c].registered && Open(y.entries[c]) && y.entries[c].home < |y.loops| ==>
      var m := y.loops[y.entries[c].home].connections; y.entries[c].fd in m && m[y.entries[c].fd] == c
  }

  ghost predicate Maps(y: Sys) { MapsSound(y) && MapsFull(y) }

  /** Which loops have been told to close everything, and which have done it. */
  ghost predicate SweepPhases(y: Sys) {
    && (forall l :: 0 <= l < |y.loops| && (y.phase.Serving? || (y.phase.PostingSweeps? && y.phase.n <= l)) ==>
          !y.loops[l].swept && y.loops[l].sweep.None? && CloseAll !in y.loops[l].queue)
    && (!y.phase.Serving? && !y.phase.PostingSweeps? ==> forall l :: 0 <= l < |y.loops| ==> y.loops[l].swept)
    && (y.stopped <==> y.phase.Joining? || y.phase.PostingBarriers? || y.phase.Stopped?)
    && (y.phase.PostingSweeps? || y.phase.PostingBarriers? ==> y.phase.n <= |y.loops|)
  }

  /** Once a loop is being swept or has been, no registration waits in its queue. */
  ghost predicate NoRegister(l: Loop) { l.swept || l.sweep.Some? ==> forall c :: Register(c) !in l.queue }

  /** A connected connection is still ahead of its loop's sweep, or its closing has just begun. */
  predicate Covered(l: Loop, c: nat, conn: Conn) {
    && (l.sweep.Some? && conn.core.state.Connected? ==> c in l.sweep.value || (c in l.active && conn.pc.Swap?))
    && (l.swept ==> !conn.core.state.Connected?)
  }

  predicate SweptHere(entries: map<nat, Entry>, l: nat, c: nat) {
    c in entries && entries[c].home == l && entries[c].registered
  }

  /** A sweep reaches every connection that is still connected. */
  ghost predicate SweepCovers(y: Sys) {
    && (forall l :: 0 <= l < |y.loops| ==> NoRegister(y.loops[l]))
    && (forall c :: c in y.entries && y.entries[c].home < |y.loops| ==>
          Covered(y.loops[y.entries[c].home], c, y.entries[c].conn))
    && (forall l, c :: 0 <= l < |y.loops| && y.loops[l].sweep.Some? && c in y.loops[l].sweep.value ==>
          SweptHere(y.entries, l, c))
  }

  /** How far the closing of all connections has come, loop by loop. */
  ghost predicate Sweeps(y: Sys) { SweepPhases(y) && SweepCovers(y) }

  /** A connection that is not closed yet has its final callback ahead of the barrier, or is in it. */
  ghost predicate Owed(y: Sys, c: nat)
    requires c in y.entries && y.entries[c].home < |y.loops|
  {
    !Open(y.entries[c]) || Run(c, FinalCb) in Before(y.loops[y.entries[c].home].queue)
    || !CloseRoleOf(y.entries[c].conn.pc).NotClosing?
  }

  /** Where barriers stand. */
  ghost predicate BarrierPhases(y: Sys) {
    && (y.phase.PostingBarriers? || y.phase.Stopped? ==> forall w :: 0 <= w < |y.workers| ==> y.workers[w].Exited?)
    && (forall l :: 0 <= l < |y.loops| && !(y.phase.Stopped? || (y.phase.PostingBarriers? && l < y.phase.n)) ==>
          Barrier !in y.loops[l].queue && !y.loops[l].drained)
    && (forall l :: 0 <= l < |y.loops| && y.phase.PostingBarriers? && l < y.phase.n && !y.loops[l].drained ==>
          Barrier in y.loops[l].queue)
    && (y.phase.Stopped? ==> forall l :: 0 <= l < |y.loops| ==> y.loops[l].drained)
  }

  /** What is ahead of them. */
  ghost predicate BarrierOwed(y: Sys) {
    && (forall c :: c in y.entries && y.entries[c].home < |y.loops| && Barrier in y.loops[y.entries[c].home].queue ==> Owed(y, c))
    && (forall c :: c in y.entries && y.entries[c].home < |y.loops| && y.loops[y.entries[c].home].drained ==>
          !Open(y.entries[c]))
  }

  ghost predicate Barriers(y: Sys) { BarrierPhases(y) && BarrierOwed(y) }

  ghost predicate SysInv(y: Sys) {
    Entries(y) && Queues(y) && Workers(y) && Pool(y) && Sessions(y) && Maps(y) && Sweeps(y) && Barriers(y)
  }

  // ----- connection steps -----

  lemma InvParts(c: Conn)
    requires Inv(c)
    ensures Tokens(c) && CloseOnce(c)
  {
  }

  /** A step moves only the connection's own callbacks in its loop's queue. */
  lemma ActFor(y: Sys, c: nat, s: Step, b: nat)
    requires CanAct(y, c, s) && (s.RunCallback? ==> NewPost(y.entries[c].conn, s).None?)
    ensures var e := y.entries[c];
            var q, p := y.loops[e.home].queue, LoopAfter(y.loops[e.home], c, e, s).queue;
            For(p, b) == if b != c then For(q, b) else if s.RunCallback? then For(q, b)[1..]
                         else if NewPost(e.conn, s).Some? then For(q, b) + [NewPost(e.conn, s).value] else For(q, b)
  {
    hide Apply, Enabled, LoopStep, Actor, NewPost;
    var e := y.entries[c];
    var q := y.loops[e.home].queue;
    if NewPost(e.conn, s).Some? { ForPush(q, Run(c, NewPost(e.conn, s).value), b); }
    if s.RunCallback? { assert For(q, b) == (if b == c then [q[0].cb] else []) + For(q[1..], b); }
  }

  lemma ActOtherEntry(y: Sys, c: nat, s: Step, b: nat)
    requires CanAct(y, c, s) && b in y.entries && b != c && EntryOk(y, b)
    ensures EntryOk(DoAct(y, c, s), b)
  {
    hide Apply, Enabled, Inv, LoopStep, Actor, Submits, NewPost, For, WorkerAfter;
    PostedEffect(y.entries[c].conn, s);
    ActFor(y, c, s, b);
  }

  lemma ActOwnEntry(y: Sys, c: nat, s: Step)
    requires CanAct(y, c, s) && EntryOk(y, c)
    ensures EntryOk(DoAct(y, c, s), c)
  {
    hide Apply, Enabled, Inv, LoopStep, Actor, Submits, NewPost, For, WorkerAfter;
    var e := y.entries[c];
    StepKeeps(e.conn, s);
    StateEffect(e.conn, s);
    PostedEffect(e.conn, s);
    ActFor(y, c, s, c);
  }

  lemma ActEntries(y: Sys, c: nat, s: Step)
    requires Entries(y) && CanAct(y, c, s)
    ensures Entries(DoAct(y, c, s))
  {
    forall b | b in DoAct(y, c, s).entries ensures EntryOk(DoAct(y, c, s), b) {
      assert EntryOk(y, b);
      hide EntryOk, Apply, Enabled, Actor, LoopAfter;
      if b == c { ActOwnEntry(y, c, s); } else { ActOtherEntry(y, c, s, b); }
    }
  }

  lemma SweepLastEdges(q: seq<Item>, item: Item)
    requires SweepLast(q)
    ensures !item.Register? || (CloseAll !in q && item !in q) ==> SweepLast(q + [item])
    ensures q != [] ==> SweepLast(q[1..]) && forall x :: x in q ==> x == q[0] || x in q[1..]
    ensures q != [] && q[0].Register? ==> q[0] !in q[1..]
  {
  }

  lemma ActQueues(y: Sys, c: nat, s: Step)
    requires Queues(y) && CanAct(y, c, s)
    ensures Queues(DoAct(y, c, s))
  {
    hide Apply, Enabled, LoopStep, Actor, Submits, NewPost, SweepLast;
    var e := y.entries[c];
    var post := NewPost(e.conn, s);
    var q, z := y.loops[e.home].queue, DoAct(y, c, s);
    SweepLastEdges(q, Run(c, if post.Some? then post.value else CheckCb));
    forall l, item | 0 <= l < |z.loops| && item in z.loops[l].queue ensures ItemOk(z, l, item) {
      assert item in y.loops[l].queue || (l == e.home && item.Run? && item.c == c);
      assert item in y.loops[l].queue ==> ItemOk(y, l, item);
    }
    forall b | b in z.entries && !z.entries[b].registered && z.entries[b].home < |z.loops|
      ensures Register(b) in z.loops[z.entries[b].home].queue
    {
      assert Register(b) in y.loops[y.entries[b].home].queue;
    }
  }

  /** The acting worker is tied to no other connection. */
  lemma ActorIsFree(y: Sys, c: nat, s: Step)
    requires Entries(y) && Workers(y) && CanAct(y, c, s) && Actor(y.entries[c].conn, s).Some?
    ensures var w := Actor(y.entries[c].conn, s).value;
            && !y.workers[w].Exited?
            && forall b :: b in y.entries && b != c ==> Holder(y.entries[b].conn) != Some(w) && w !in y.entries[b].conn.posting
  {
    hide Apply, Enabled, LoopStep, Holder, NewPost, Inv, Tally, Tokens, CloseOnce, Submits;
    assert EntryOk(y, c) && WorkOk(y.workers, c, y.entries[c].conn);
    InvParts(y.entries[c].conn);
    WorkerEffect(y.entries[c].conn, s);
    forall b | b in y.entries && b != c
      ensures var w := Actor(y.entries[c].conn, s).value; Holder(y.entries[b].conn) != Some(w) && w !in y.entries[b].conn.posting
    {
      assert WorkOk(y.workers, b, y.entries[b].conn);
    }
  }

  lemma ActOwnWork(y: Sys, c: nat, s: Step)
    requires CanAct(y, c, s) && Tokens(y.entries[c].conn) && WorkOk(y.workers, c, y.entries[c].conn)
    ensures WorkOk(DoAct(y, c, s).workers, c, Apply(y.entries[c].conn, s))
  {
    hide Apply, Enabled, LoopStep, Actor, NewPost, Holder, Tokens, LoopAfter, Submits;
    var conn := y.entries[c].conn;
    WorkerEffect(conn, s);
    forall w | w in Apply(conn, s).posting ensures w < |y.workers| && DoAct(y, c, s).workers[w] == Posting(c) {
      if Actor(conn, s) != Some(w) { assert w in conn.posting; }
    }
  }

  lemma ActOtherWork(y: Sys, c: nat, s: Step, b: nat)
    requires Entries(y) && Workers(y) && CanAct(y, c, s) && b in y.entries && b != c
    ensures WorkOk(DoAct(y, c, s).workers, b, y.entries[b].conn)
  {
    hide Apply, Enabled, LoopStep, Actor, NewPost, Holder, LoopAfter, Submits, WorkerAfter, Entries;
    assert WorkOk(y.workers, b, y.entries[b].conn);
    if Actor(y.entries[c].conn, s).Some? { ActorIsFree(y, c, s); }
    hide Workers;
  }

  lemma ActWorkersLeft(y: Sys, c: nat, s: Step)
    requires Entries(y) && Workers(y) && CanAct(y, c, s)
    ensures var z := DoAct(y, c, s); forall w :: 0 <= w < |z.workers| && z.workers[w].Exited? ==> z.stopped && z.pool == []
  {
    hide Apply, Enabled, LoopStep, Actor, NewPost, Holder, LoopAfter, WorkOk, Inv;
    assert EntryOk(y, c);
  }

  lemma ActWorkers(y: Sys, c: nat, s: Step)
    requires Entries(y) && Workers(y) && CanAct(y, c, s)
    ensures Workers(DoAct(y, c, s))
  {
    hide Apply, Enabled, LoopStep, Actor, NewPost, Holder, Inv, LoopAfter, WorkOk, WorkerAfter, Submits, Tokens, CloseOnce;
    assert EntryOk(y, c);
    InvParts(y.entries[c].conn);
    ActWorkersLeft(y, c, s);
    var z := DoAct(y, c, s);
    forall b | b in z.entries ensures WorkOk(z.workers, b, z.entries[b].conn) {
      if b == c { ActOwnWork(y, c, s); } else { ActOtherWork(y, c, s, b); }
    }
  }

  lemma DistinctEdges(p: seq<nat>, c: nat)
    requires Distinct(p)
    ensures c !in p ==> Distinct(p + [c])
    ensures p != [] ==> Distinct(p[1..]) && forall x :: x in p[1..] <==> x in p && x != p[0]
  {
    if p != [] {
      assert p == [p[0]] + p[1..];
    }
  }

  lemma ActPool(y: Sys, c: nat, s: Step)
    requires Entries(y) && Pool(y) && CanAct(y, c, s)
    ensures Pool(DoAct(y, c, s))
  {
    hide Apply, Enabled, LoopStep, Actor, NewPost, Pooled, Submits, Distinct, Inv, LoopAfter, Tokens, CloseOnce, WorkerAfter;
    var e := y.entries[c];
    assert EntryOk(y, c);
    InvParts(e.conn);
    PoolEffect(e.conn, s);
    DistinctEdges(y.pool, c);
  }

  lemma ActFds(y: Sys, c: nat, s: Step)
    requires OpenFds(y.entries) && CanAct(y, c, s)
    ensures OpenFds(DoAct(y, c, s).entries)
  {
    hide Apply, Enabled, LoopStep, Actor, NewPost, Submits, LoopAfter, WorkerAfter;
    StateEffect(y.entries[c].conn, s);
  }

  lemma ActOwned(y: Sys, c: nat, s: Step)
    requires Entries(y) && Sessions(y) && CanAct(y, c, s)
    ensures Owned(DoAct(y, c, s).entries, DoAct(y, c, s).sessions)
  {
    hide Apply, Enabled, LoopStep, Actor, NewPost, Submits, Inv, LoopAfter, WorkerAfter, Tokens, CloseOnce, For;
    var e := y.entries[c];
    StateEffect(e.conn, s);
    assert EntryOk(y, c);
    InvParts(e.conn);
    if s.RunRelease? { ReleaseFollowsCleanup(e.conn); }
    hide Entries, EntryOk;
  }

  lemma ActSessions(y: Sys, c: nat, s: Step)
    requires Entries(y) && Sessions(y) && CanAct(y, c, s)
    ensures Sessions(DoAct(y, c, s))
  {
    hide CanAct, DoAct, OpenFds, Owned, Entries;
    ActFds(y, c, s);
    ActOwned(y, c, s);
  }

  /** A step of a connection changes its loop's map only by releasing it. */
  lemma ActConnections(y: Sys, c: nat, s: Step, l: nat)
    requires CanAct(y, c, s) && l < |y.loops|
    ensures DoAct(y, c, s).loops[l].connections ==
            if l == y.entries[c].home && s.RunRelease? then y.loops[l].connections - {y.entries[c].fd}
            else y.loops[l].connections
  {
    hide Apply, Enabled, LoopStep, Actor, NewPost, Submits, WorkerAfter;
  }

  lemma ActMapsSound(y: Sys, c: nat, s: Step)
    requires MapsSound(y) && CanAct(y, c, s)
    ensures MapsSound(DoAct(y, c, s))
  {
    hide Apply, Enabled, LoopStep, Actor, NewPost, Submits, WorkerAfter, LoopAfter;
    var z := DoAct(y, c, s);
    StateEffect(y.entries[c].conn, s);
    forall l, fd | 0 <= l < |z.loops| && fd in z.loops[l].connections
      ensures Mapped(z.entries, l, fd, z.loops[l].connections[fd])
    {
      ActConnections(y, c, s, l);
      assert Mapped(y.entries, l, fd, y.loops[l].connections[fd]);
    }
  }

  lemma ActMapsFull(y: Sys, c: nat, s: Step)
    requires OpenFds(y.entries) && Maps(y) && CanAct(y, c, s)
    ensures MapsFull(DoAct(y, c, s))
  {
    hide Apply, Enabled, LoopStep, Actor, NewPost, Submits, WorkerAfter, LoopAfter;
    var z, e := DoAct(y, c, s), y.entries[c];
    StateEffect(e.conn, s);
    if s.RunRelease? { assert Mapped(y.entries, e.home, e.fd, c); }
    hide MapsSound;
    forall b | b in z.entries && z.entries[b].registered && Open(z.entries[b]) && z.entries[b].home < |z.loops|
      ensures var m := z.loops[z.entries[b].home].connections; z.entries[b].fd in m && m[z.entries[b].fd] == b
    {
      ActConnections(y, c, s, y.entries[b].home);
    }
  }

  lemma ActMaps(y: Sys, c: nat, s: Step)
    requires Sessions(y) && Maps(y) && CanAct(y, c, s)
    ensures Maps(DoAct(y, c, s))
  {
    hide CanAct, DoAct, OpenFds, Owned, MapsSound, MapsFull;
    ActMapsSound(y, c, s);
    ActMapsFull(y, c, s);
  }

  lemma ActSweepPhases(y: Sys, c: nat, s: Step)
    requires SweepPhases(y) && CanAct(y, c, s)
    ensures SweepPhases(DoAct(y, c, s))
  {
    hide Apply, Enabled, LoopStep, Actor, NewPost, Submits, WorkerAfter;
    var q := y.loops[y.entries[c].home].queue;
    if q != [] { assert q == [q[0]] + q[1..]; }
  }

  lemma ActSweepCovers(y: Sys, c: nat, s: Step)
    requires SweepCovers(y) && CanAct(y, c, s)
    ensures SweepCovers(DoAct(y, c, s))
  {
    hide Apply, Enabled, LoopStep, Actor, NewPost, Submits, WorkerAfter, LoopAfter, Covered, NoRegister;
    var z, e := DoAct(y, c, s), y.entries[c];
    forall b | b in z.entries && z.entries[b].home < |z.loops|
      ensures Covered(z.loops[z.entries[b].home], b, z.entries[b].conn)
    {
      ActCovered(y, c, s, b);
    }
    ActNoRegister(y, c, s);
    assert LoopAfter(y.loops[e.home], c, e, s).sweep == y.loops[e.home].sweep by { SweepStays(y, c, s); }
  }

  lemma SweepStays(y: Sys, c: nat, s: Step)
    requires CanAct(y, c, s)
    ensures var l, m := y.loops[y.entries[c].home], LoopAfter(y.loops[y.entries[c].home], c, y.entries[c], s);
            m.sweep == l.sweep && m.swept == l.swept && m.drained == l.drained
  {
    hide Apply, Enabled, LoopStep, NewPost;
  }

  lemma ActCovered(y: Sys, c: nat, s: Step, b: nat)
    requires CanAct(y, c, s) && b in y.entries && y.entries[b].home < |y.loops|
    requires Covered(y.loops[y.entries[b].home], b, y.entries[b].conn)
    ensures var z := DoAct(y, c, s); Covered(z.loops[y.entries[b].home], b, z.entries[b].conn)
  {
    hide Apply, Enabled, LoopStep, Actor, NewPost, Submits, WorkerAfter;
    StateEffect(y.entries[c].conn, s);
  }

  lemma ActNoRegister(y: Sys, c: nat, s: Step)
    requires CanAct(y, c, s) && NoRegister(y.loops[y.entries[c].home])
    ensures NoRegister(DoAct(y, c, s).loops[y.entries[c].home])
  {
    hide Apply, Enabled, LoopStep, Actor, NewPost, Submits, WorkerAfter;
    var q := y.loops[y.entries[c].home].queue;
    if q != [] { assert q == [q[0]] + q[1..]; }
  }

  lemma ActSweeps(y: Sys, c: nat, s: Step)
    requires Sweeps(y) && CanAct(y, c, s)
    ensures Sweeps(DoAct(y, c, s))
  {
    hide CanAct, DoAct, SweepPhases, SweepCovers;
    ActSweepPhases(y, c, s);
    ActSweepCovers(y, c, s);
  }

  /** Once the workers are joined, no connection has a task or a follow-up anywhere. */
  lemma NothingInFlight(y: Sys, c: nat)
    requires Entries(y) && Workers(y) && Pool(y) && Sweeps(y) && Barriers(y) && c in y.entries
    requires y.phase.PostingBarriers? || y.phase.Stopped?
    ensures var conn := y.entries[c].conn;
            conn.flights == [] && conn.posting == map[] && !conn.core.state.Connected? && Tokens(conn) && CloseOnce(conn)
  {
    hide Pooled, Holder, Inv, Tally;
    var conn := y.entries[c].conn;
    assert EntryOk(y, c) && y.workers[0].Exited?;
    InvParts(conn);
    assert Holder(conn).None? && !Pooled(conn);
    WhereTasksAre(conn);
    forall w | w in conn.posting ensures false {}
  }

  lemma ActOwed(y: Sys, c: nat, s: Step, b: nat)
    requires CanAct(y, c, s) && b in y.entries && y.entries[b].home < |y.loops|
    requires Barrier in DoAct(y, c, s).loops[y.entries[b].home].queue
    requires (y.phase.PostingBarriers? || y.phase.Stopped?) && SysInv(y)
    ensures Owed(DoAct(y, c, s), b)
  {
    hide *;
    if b == c { ActOwedSelf(y, c, s); } else { ActOwedOther(y, c, s, b); }
  }

  lemma ActOwedOther(y: Sys, c: nat, s: Step, b: nat)
    requires b != c
    requires CanAct(y, c, s) && b in y.entries && y.entries[b].home < |y.loops|
    requires Barrier in DoAct(y, c, s).loops[y.entries[b].home].queue
    requires (y.phase.PostingBarriers? || y.phase.Stopped?) && SysInv(y)
    ensures Owed(DoAct(y, c, s), b)
  {
    hide Apply, Enabled, LoopStep, Actor, NewPost, Submits, Inv, Pooled, Holder, CloseRoleOf, Sessions, Maps, Queues, MayStart;
    var z, e := DoAct(y, c, s), y.entries[c];
    var q := y.loops[e.home].queue;
    assert EntryOk(y, c) && EntryOk(y, b);
    StateEffect(e.conn, s);
    if NewPost(e.conn, s).Some? { BeforePush(q, Run(c, NewPost(e.conn, s).value)); }
    if q != [] { assert q == [q[0]] + q[1..]; }
    assert Owed(y, b);
    if s.RunCallback? {
      assert Before(q) == [q[0]] + Before(q[1..]);
    }
  }

  lemma ActOwedSelf(y: Sys, c: nat, s: Step)
    requires CanAct(y, c, s) && c in y.entries && y.entries[c].home < |y.loops|
    requires Barrier in DoAct(y, c, s).loops[y.entries[c].home].queue
    requires (y.phase.PostingBarriers? || y.phase.Stopped?) && SysInv(y)
    ensures Owed(DoAct(y, c, s), c)
  {
    hide Apply, Enabled, LoopStep, Actor, NewPost, Submits, Inv, Pooled, Holder, CloseRoleOf, Sessions, Maps, Queues, MayStart;
    var z, e := DoAct(y, c, s), y.entries[c];
    var q := y.loops[e.home].queue;
    assert EntryOk(y, c);
    StateEffect(e.conn, s);
    NothingInFlight(y, c);
    if NewPost(e.conn, s).Some? { BeforePush(q, Run(c, NewPost(e.conn, s).value)); }
    if q != [] { assert q == [q[0]] + q[1..]; }
    assert Owed(y, c);
    if s.RunCallback? {
      assert Before(q) == [q[0]] + Before(q[1..]);
    }
    if Open(e) {
      ClosingEffect(e.conn, s);
    }
  }

  /** Exited workers take no step. */
  lemma ActExited(y: Sys, c: nat, s: Step)
    requires Entries(y) && Workers(y) && CanAct(y, c, s)
    requires forall w :: 0 <= w < |y.workers| ==> y.workers[w].Exited?
    ensures DoAct(y, c, s).workers == y.workers
  {
    hide Apply, Enabled, LoopStep, NewPost, Submits, Actor, LoopAfter;
    if Actor(y.entries[c].conn, s).Some? { ActorIsFree(y, c, s); }
  }

  lemma ActBarrierPhases(y: Sys, c: nat, s: Step)
    requires Entries(y) && Workers(y) && BarrierPhases(y) && CanAct(y, c, s)
    ensures BarrierPhases(DoAct(y, c, s))
  {
    hide Apply, Enabled, LoopStep, Actor, NewPost, Submits, Entries, Workers, WorkerAfter;
    if y.phase.PostingBarriers? || y.phase.Stopped? { ActExited(y, c, s); }
    var e := y.entries[c];
    var q := y.loops[e.home].queue;
    if q != [] { assert q == [q[0]] + q[1..]; }
  }

  lemma ActBarrierOwed(y: Sys, c: nat, s: Step)
    requires SysInv(y) && CanAct(y, c, s)
    ensures BarrierOwed(DoAct(y, c, s))
  {
    hide Apply, Enabled, LoopStep, Actor, NewPost, Submits, Inv, Pooled, Holder, CloseRoleOf, WorkerAfter;
    hide Owed, Entries, Queues, Workers, Pool, Sessions, Maps, Sweeps, BarrierPhases;
    var z, e := DoAct(y, c, s), y.entries[c];
    StateEffect(e.conn, s);
    forall b | b in z.entries && z.entries[b].home < |z.loops| && Barrier in z.loops[z.entries[b].home].queue
      ensures Owed(z, b)
    {
      BarrierStays(y, c, s);
      ActOwed(y, c, s, b);
    }
  }

  /** A connection step finds a barrier in a queue only when barriers are being posted. */
  lemma BarrierStays(y: Sys, c: nat, s: Step)
    requires BarrierPhases(y) && CanAct(y, c, s)
    ensures (exists l :: 0 <= l < |y.loops| && Barrier in DoAct(y, c, s).loops[l].queue) ==>
              y.phase.PostingBarriers? || y.phase.Stopped?
  {
    hide Apply, Enabled, LoopStep, Actor, NewPost, Submits, WorkerAfter;
    var q := y.loops[y.entries[c].home].queue;
    if q != [] { assert q == [q[0]] + q[1..]; }
  }

  lemma ActBarriers(y: Sys, c: nat, s: Step)
    requires SysInv(y) && CanAct(y, c, s)
    ensures Barriers(DoAct(y, c, s))
  {
    hide CanAct, DoAct, Entries, Queues, Workers, Pool, Sessions, Maps, Sweeps, BarrierPhases, BarrierOwed;
    ActBarrierPhases(y, c, s);
    ActBarrierOwed(y, c, s);
  }

  // ----- the other moves -----

  lemma FreshConn()
    ensures Inv(START) && !Pooled(START) && Holder(START).None? && START.posting == map[] && START.posted == []
  {
    StartHolds();
  }

  /** Starting a close or stopping the pool leaves the rest of a connection alone. */
  lemma QuietEffect(c: Conn, s: Step)
    requires Inv(c) && Enabled(c, s) && (s.CloseNow? || s.StopPool?)
    ensures var d := Apply(c, s);
            && Inv(d) && Pooled(d) == Pooled(c) && Holder(d) == Holder(c) && d.posting == c.posting && d.posted == c.posted
            && d.core == c.core && d.log == c.log && d.stopped == (c.stopped || s.StopPool?)
            && (s.CloseNow? ==> d.pc.Swap?) && (s.StopPool? ==> d.pc == c.pc)
            && (s.StopPool? && c == START.(stopped := c.stopped) ==> d == START.(stopped := true))
  {
    hide Inv;
    StepKeeps(c, s);
  }

  /** An unknown connection has no callbacks in any queue. */
  lemma {:induction false} ForeignQueue(q: seq<Item>, c: nat)
    requires forall item :: item in q && item.Run? ==> item.c != c
    ensures For(q, c) == []
    decreases |q|
  {
    if q != [] { ForeignQueue(q[1..], c); }
  }

  /** What `e` and `f` share when a move only starts a close, or only stops the pool. */
  ghost predicate Alike(e: Entry, f: Entry) {
    && f.home == e.home && f.fd == e.fd && f.registered == e.registered && Inv(f.conn)
    && Pooled(f.conn) == Pooled(e.conn) && Holder(f.conn) == Holder(e.conn)
    && f.conn.posting == e.conn.posting && f.conn.posted == e.conn.posted
    && f.conn.core == e.conn.core && f.conn.log == e.conn.log
  }

  lemma SweepNextAlike(y: Sys, l: nat)
    requires Entries(y) && Can(y, SweepNext(l))
    ensures var z, c := Do(y, SweepNext(l)), y.loops[l].sweep.value[0];
            && z.entries == y.entries[c := z.entries[c]] && Alike(y.entries[c], z.entries[c])
            && z.entries[c].conn.pc.Swap? && z.entries[c].conn.stopped == y.entries[c].conn.stopped
  {
    hide CanAct, DoAct, LoopAfter;
    hide Inv, Apply, Pooled, Holder;
    var c := y.loops[l].sweep.value[0];
    assert EntryOk(y, c);
    QuietEffect(y.entries[c].conn, CloseNow);
  }

  ghost predicate Twin(stopped: bool, e: Entry, f: Entry) {
    && Alike(e, f) && f.conn.pc == e.conn.pc && f.conn.stopped
    && (e.conn == START.(stopped := stopped) ==> f.conn == START.(stopped := true))
  }

  lemma CloseQueueAlike(y: Sys)
    requires Entries(y) && Can(y, CloseQueue)
    ensures var z := Do(y, CloseQueue);
            z.entries.Keys == y.entries.Keys && forall c :: c in y.entries ==> Twin(y.stopped, y.entries[c], z.entries[c])
  {
    hide CanAct, DoAct, LoopAfter, Inv, Apply, Pooled, Holder, Twin;
    var z := Do(y, CloseQueue);
    forall c | c in y.entries ensures Twin(y.stopped, y.entries[c], z.entries[c]) {
      assert EntryOk(y, c);
      StoppedTwin(y.entries[c]);
    }
  }

  lemma StoppedTwin(e: Entry)
    requires Inv(e.conn)
    ensures Twin(e.conn.stopped, e, e.(conn := Apply(e.conn, StopPool)))
  {
    hide Inv, Apply, Pooled, Holder;
    QuietEffect(e.conn, StopPool);
  }

  predicate Plain(m: Move) { !m.Act? && !m.SweepNext? && !m.CloseQueue? }

  lemma AcceptEntries(y: Sys, m: Move)
    requires Entries(y) && Queues(y) && Sweeps(y) && Can(y, m) && m.Accept?
    ensures Entries(Do(y, m))
  {
    hide CanAct, DoAct, LoopAfter, Enabled, Inv, Apply, Pooled, Holder, SweepLast, Sweeps;
    FreshConn();
    var z, home := Do(y, m), m.home;
    forall c | c in z.entries ensures EntryOk(z, c) {
      assert c in y.entries ==> EntryOk(y, c);
      ForPush(y.loops[home].queue, Register(m.c), c);
      if c == m.c {
        forall item | item in y.loops[home].queue && item.Run? ensures item.c != c { assert ItemOk(y, home, item); }
        ForeignQueue(y.loops[home].queue, c);
        FreshAt(y.stopped);
      }
    }
  }

  lemma FreshAt(stopped: bool)
    ensures Inv(START.(stopped := stopped))
  {
    StartHolds();
    StepKeeps(START, StopPool);
  }

  lemma ForDrop(q: seq<Item>, c: nat)
    requires q != [] && !q[0].Run?
    ensures For(q[1..], c) == For(q, c)
  {
  }

  /** A queue move that runs nothing of `c`, and leaves the loop's stack. */
  lemma EntryFrame(y: Sys, z: Sys, c: nat)
    requires c in y.entries && c in z.entries && EntryOk(y, c) && z.stopped == y.stopped && |z.loops| == |y.loops|
    requires z.entries[c] == y.entries[c].(registered := z.entries[c].registered)
    requires y.entries[c].registered ==> z.entries[c].registered
    requires var l, k := y.loops[y.entries[c].home], z.loops[y.entries[c].home];
             k.active == l.active && For(k.queue, c) == For(l.queue, c)
    ensures EntryOk(z, c)
  {
    hide Inv, For;
  }

  lemma MoveEntries(y: Sys, m: Move)
    requires Entries(y) && Queues(y) && Can(y, m) && Plain(m) && !m.Accept?
    ensures Entries(Do(y, m))
  {
    hide CanAct, DoAct, LoopAfter, Enabled, Inv, Apply, Pooled, Holder, SweepLast, For, EntryOk, Queues, ItemOk;
    var z := Do(y, m);
    forall c | c in z.entries ensures EntryOk(z, c) {
      assert EntryOk(y, c);
      HomeInRange(y, c);
      match m {
        case PostSweep => ForPush(y.loops[y.phase.n].queue, CloseAll, c);
        case PostBarrier => ForPush(y.loops[y.phase.n].queue, Barrier, c);
        case RunRegister(l) => ForDrop(y.loops[l].queue, c);
        case RunCloseAll(l, _) => ForDrop(y.loops[l].queue, c);
        case RunBarrier(l) => ForDrop(y.loops[l].queue, c);
        case _ =>
      }
      EntryFrame(y, z, c);
    }
  }

  lemma HomeInRange(y: Sys, c: nat)
    requires c in y.entries && EntryOk(y, c)
    ensures y.entries[c].home < |y.loops|
  {
  }

  lemma MoveQueues(y: Sys, m: Move)
    requires Entries(y) && Queues(y) && Sweeps(y) && Can(y, m) && Plain(m)
    ensures Queues(Do(y, m))
  {
    hide CanAct, DoAct, LoopAfter, Enabled;
    hide Inv, SweepLast, For, Can, Do, ItemOk, Entries, Sweeps;
    var z := Do(y, m);
    MoveSweepLast(y, m);
    MoveItems(y, m);
    MoveKnown(y, m);
    forall l, item | 0 <= l < |z.loops| && item in z.loops[l].queue ensures ItemOk(z, l, item) {
      if item == CloseAll || item == Barrier { OtherItemOk(z, l, item); }
    }
    forall c | c in z.entries && !z.entries[c].registered && z.entries[c].home < |z.loops|
      ensures Register(c) in z.loops[z.entries[c].home].queue
    {
      if c in y.entries { assert Register(c) in y.loops[y.entries[c].home].queue; }
    }
  }

  lemma OtherItemOk(y: Sys, l: nat, item: Item)
    requires item == CloseAll || item == Barrier
    ensures ItemOk(y, l, item)
  {
  }

  /** Connections stay known, where they are; only the one being registered changes its status. */
  lemma MoveKnown(y: Sys, m: Move)
    requires Queues(y) && Can(y, m) && Plain(m)
    ensures |Do(y, m).loops| == |y.loops|
    ensures forall c :: c in Do(y, m).entries ==> c in y.entries || (m.Accept? && c == m.c)
    ensures forall c :: c in Do(y, m).entries && c !in y.entries ==>
              c == m.c && Do(y, m).entries[c].home == m.home < |y.loops| && !Do(y, m).entries[c].registered
              && Register(c) in Do(y, m).loops[m.home].queue
    ensures forall c :: c in y.entries ==>
              var e, f := y.entries[c], Do(y, m).entries[c];
              && f.home == e.home && (e.registered ==> f.registered)
              && (f.registered && !e.registered ==> m.RunRegister? && m.l < |y.loops| && y.loops[m.l].queue[0] == Register(c))
    ensures forall l, item :: ItemOk(y, l, item) && !(m.RunRegister? && l == m.l && item == y.loops[m.l].queue[0]) ==>
              ItemOk(Do(y, m), l, item)
    ensures m.RunRegister? ==> forall c :: y.loops[m.l].queue[0] == Register(c) ==>
              c in y.entries && y.entries[c].home == m.l && Do(y, m).entries[c].registered
    ensures m.Accept? ==> ItemOk(Do(y, m), m.home, Register(m.c))
    ensures m.RunRegister? ==> ItemOk(y, m.l, y.loops[m.l].queue[0])
  {
    hide CanAct, DoAct, LoopAfter, Enabled;
    hide SweepLast;
    if m.RunRegister? { assert ItemOk(y, m.l, y.loops[m.l].queue[0]); }
  }

  lemma MoveSweepLast(y: Sys, m: Move)
    requires Queues(y) && Sweeps(y) && Can(y, m) && Plain(m)
    ensures forall l :: 0 <= l < |y.loops| ==> SweepLast(Do(y, m).loops[l].queue)
  {
    hide CanAct, DoAct, LoopAfter, Enabled, SweepLast;
    match m {
      case Accept(c, _, home) =>
        assert Register(c) in y.loops[home].queue ==> ItemOk(y, home, Register(c));
        SweepLastEdges(y.loops[home].queue, Register(c));
      case RunRegister(l) => SweepLastEdges(y.loops[l].queue, CloseAll);
      case RunCloseAll(l, _) => SweepLastEdges(y.loops[l].queue, CloseAll);
      case RunBarrier(l) => SweepLastEdges(y.loops[l].queue, CloseAll);
      case PostSweep => SweepLastEdges(y.loops[y.phase.n].queue, CloseAll);
      case PostBarrier => SweepLastEdges(y.loops[y.phase.n].queue, Barrier);
      case _ =>
    }
    hide Queues, Sweeps, ItemOk;
  }

  /** Which items stay, and which are new. */
  lemma MoveItems(y: Sys, m: Move)
    requires Queues(y) && Can(y, m) && Plain(m)
    ensures |Do(y, m).loops| == |y.loops|
    ensures forall l, x :: 0 <= l < |y.loops| && x in Do(y, m).loops[l].queue ==>
              || (x in y.loops[l].queue && !(m.RunRegister? && l == m.l && x == y.loops[l].queue[0]))
              || x == CloseAll || x == Barrier || (m.Accept? && x == Register(m.c) && l == m.home)
    ensures forall l, x :: 0 <= l < |y.loops| && x in y.loops[l].queue ==>
              x in Do(y, m).loops[l].queue || (m.RunRegister? && l == m.l && x == y.loops[l].queue[0]) || x == CloseAll || x == Barrier
  {
    hide CanAct, DoAct, LoopAfter, Enabled, SweepLast, ItemOk;
    match m {
      case RunRegister(l) => SweepLastEdges(y.loops[l].queue, CloseAll);
      case RunCloseAll(l, _) => SweepLastEdges(y.loops[l].queue, CloseAll);
      case RunBarrier(l) => SweepLastEdges(y.loops[l].queue, CloseAll);
      case _ =>
    }
  }

  lemma MoveWorkers(y: Sys, m: Move)
    requires Entries(y) && Workers(y) && Sweeps(y) && Can(y, m) && Plain(m)
    ensures Workers(Do(y, m))
  {
    hide CanAct, DoAct, LoopAfter, Enabled, Inv, Apply, WorkOk, Entries, SweepPhases, SweepCovers;
    var z := Do(y, m);
    forall c | c in z.entries ensures WorkOk(z.workers, c, z.entries[c].conn) {
      if c in y.entries { ExitWork(y.workers, z.workers, c, y.entries[c].conn); } else { FreshWork(z.workers, c, y.stopped); }
    }
  }

  lemma FreshWork(workers: seq<Worker>, c: nat, stopped: bool)
    ensures WorkOk(workers, c, START.(stopped := stopped))
  {
    FreshConn();
  }

  /** Only free workers exit. */
  lemma ExitWork(workers: seq<Worker>, left: seq<Worker>, c: nat, conn: Conn)
    requires WorkOk(workers, c, conn) && |left| == |workers|
    requires forall w :: 0 <= w < |workers| && left[w] != workers[w] ==> workers[w].Free?
    ensures WorkOk(left, c, conn)
  {
    hide Holder;
  }

  lemma MovePool(y: Sys, m: Move)
    requires Entries(y) && Pool(y) && Sweeps(y) && Can(y, m) && Plain(m)
    ensures Pool(Do(y, m))
  {
    hide CanAct, DoAct, LoopAfter, Enabled;
    hide Inv, Apply, Pooled, Holder, Distinct;
    FreshConn();
  }

  lemma MoveSessions(y: Sys, m: Move)
    requires Entries(y) && Sessions(y) && Can(y, m) && Plain(m)
    ensures Sessions(Do(y, m))
  {
    hide CanAct, DoAct, LoopAfter, Enabled;
    hide Inv, Apply, Pooled, Holder;
    if m.Login? {
      assert EntryOk(y, m.c);
      InvParts(y.entries[m.c].conn);
      HandlerMeansOpen(y.entries[m.c].conn);
    }
  }

  /** A handler only runs on a connection whose close callback has not run. */
  lemma HandlerMeansOpen(c: Conn)
    requires Tokens(c) && CloseOnce(c) && c.flights != []
    ensures !c.core.state.Closed? && c.log.closes == 0
  {
  }

  lemma MoveMaps(y: Sys, m: Move)
    requires Maps(y) && Can(y, m) && Plain(m) && !m.RunRegister?
    ensures Maps(Do(y, m))
  {
    hide CanAct, DoAct, LoopAfter, Enabled, MapsSound, MapsFull;
    var z := Do(y, m);
    MapsFrame(y, z);
  }

  /** Connections that only come in unregistered, and loops that keep their maps. */
  lemma MapsFrame(y: Sys, z: Sys)
    requires Maps(y) && |z.loops| == |y.loops|
    requires forall c :: c in y.entries ==> c in z.entries && z.entries[c] == y.entries[c]
    requires forall c :: c in z.entries && c !in y.entries ==> !z.entries[c].registered
    requires forall l :: 0 <= l < |y.loops| ==> z.loops[l].connections == y.loops[l].connections
    ensures Maps(z)
  {
  }

  lemma RegisterMapsSound(y: Sys, l: nat)
    requires Entries(y) && Queues(y) && MapsSound(y) && Can(y, RunRegister(l))
    ensures MapsSound(Do(y, RunRegister(l)))
  {
    hide CanAct, DoAct, LoopAfter, Enabled, SweepLast, Inv, For;
    var c, z := y.loops[l].queue[0].c, Do(y, RunRegister(l));
    assert ItemOk(y, l, y.loops[l].queue[0]);
    assert EntryOk(y, c) && Open(y.entries[c]);
    forall k, fd | 0 <= k < |z.loops| && fd in z.loops[k].connections
      ensures Mapped(z.entries, k, fd, z.loops[k].connections[fd])
    {
      if !(k == l && fd == y.entries[c].fd) { assert Mapped(y.entries, k, fd, y.loops[k].connections[fd]); }
    }
    hide Queues, Entries;
  }

  lemma RegisterMaps(y: Sys, l: nat)
    requires Entries(y) && Queues(y) && Sessions(y) && Maps(y) && Can(y, RunRegister(l))
    ensures Maps(Do(y, RunRegister(l)))
  {
    hide CanAct, DoAct, LoopAfter, Enabled, Inv, SweepLast, For, Owned, Mapped;
    RegisterMapsSound(y, l);
    assert ItemOk(y, l, y.loops[l].queue[0]);
    assert EntryOk(y, y.loops[l].queue[0].c);
    hide Queues, Entries, EntryOk, ItemOk, MapsSound;
  }

  /** The snapshot has every connection of the loop that is still connected, and no registration waits. */
  lemma SnapshotCovers(y: Sys, l: nat, snapshot: seq<nat>)
    requires Queues(y) && Maps(y) && Can(y, RunCloseAll(l, snapshot))
    ensures forall c :: Register(c) !in y.loops[l].queue
    ensures forall c :: c in y.entries && y.entries[c].home == l && y.entries[c].conn.core.state.Connected? ==> c in snapshot
    ensures forall c :: c in snapshot ==> c in y.entries && y.entries[c].home == l && y.entries[c].registered
  {
    hide CanAct, DoAct, LoopAfter, Enabled;
    var q := y.loops[l].queue;
    forall c ensures Register(c) !in q { assert SweepLast(q) && q[0].CloseAll?; }
    forall c | c in y.entries && y.entries[c].home == l && y.entries[c].conn.core.state.Connected? ensures c in snapshot {
      assert y.entries[c].registered;
    }
    forall c | c in snapshot ensures c in y.entries && y.entries[c].home == l && y.entries[c].registered {
      var fd :| fd in y.loops[l].connections && y.loops[l].connections[fd] == c;
    }
  }

  lemma RunCloseAllCovers(y: Sys, l: nat, snapshot: seq<nat>)
    requires Queues(y) && Maps(y) && SweepCovers(y) && Can(y, RunCloseAll(l, snapshot))
    ensures SweepCovers(Do(y, RunCloseAll(l, snapshot)))
  {
    hide CanAct, DoAct, LoopAfter, Enabled, Queues, Maps;
    SnapshotCovers(y, l, snapshot);
    var q := y.loops[l].queue;
    assert q == [q[0]] + q[1..];
  }

  lemma AcceptCovers(y: Sys, m: Move)
    requires SweepPhases(y) && SweepCovers(y) && Can(y, m) && m.Accept?
    ensures SweepCovers(Do(y, m))
  {
    hide CanAct, DoAct, LoopAfter, Enabled, Apply;
    assert !y.loops[m.home].swept && y.loops[m.home].sweep.None?;
    hide SweepPhases;
  }

  /** A loop whose stack and sweep stay, and whose queue gets no registration it must not have. */
  ghost predicate QueueOnly(l: Loop, m: Loop) {
    && m.sweep == l.sweep && m.swept == l.swept && m.active == l.active
    && (NoRegister(l) ==> NoRegister(m))
  }

  lemma CoversFrame(y: Sys, z: Sys)
    requires SweepCovers(y) && |z.loops| == |y.loops| && z.entries.Keys == y.entries.Keys
    requires forall k :: 0 <= k < |y.loops| ==> QueueOnly(y.loops[k], z.loops[k])
    requires forall c :: c in y.entries ==>
               var e, f := y.entries[c], z.entries[c]; f.conn == e.conn && f.home == e.home && (e.registered ==> f.registered)
    ensures SweepCovers(z)
  {
    hide NoRegister;
  }

  lemma QueueCovers(y: Sys, m: Move)
    requires SweepCovers(y) && Can(y, m) && (m.RunRegister? || m.RunBarrier?)
    ensures SweepCovers(Do(y, m))
  {
    hide CanAct, DoAct, LoopAfter, Enabled, Apply, SweepCovers;
    var l := y.loops[m.l];
    assert l.queue == [l.queue[0]] + l.queue[1..];
    CoversFrame(y, Do(y, m));
  }

  lemma PostingCovers(y: Sys, m: Move)
    requires SweepCovers(y) && Can(y, m) && (m.PostSweep? || m.PostBarrier?)
    ensures SweepCovers(Do(y, m))
  {
    hide CanAct, DoAct, LoopAfter, Enabled, SweepCovers;
    CoversFrame(y, Do(y, m));
  }

  lemma SweepDoneCovers(y: Sys, l: nat)
    requires SweepCovers(y) && Can(y, SweepDone(l))
    ensures SweepCovers(Do(y, SweepDone(l)))
  {
    hide CanAct, DoAct, LoopAfter, Enabled;
    var z := Do(y, SweepDone(l));
    assert z.entries == y.entries;
    assert z.loops == y.loops[l := y.loops[l].(sweep := None, swept := true)];
    assert y.loops[l].active == [] && y.loops[l].sweep == Some([]);
    hide Can, Do;
  }

  /** Moves that touch neither connections nor loops. */
  lemma QuietCovers(y: Sys, m: Move)
    requires SweepCovers(y) && Can(y, m)
    requires m.BeginStop? || m.WorkersJoined? || m.AllDrained? || m.Login? || m.WorkerExit?
    ensures SweepCovers(Do(y, m))
  {
    hide CanAct, DoAct, LoopAfter, Enabled, Covered, NoRegister, SweptHere;
    assert Do(y, m).entries == y.entries && Do(y, m).loops == y.loops;
  }

  lemma QueueSweepPhases(y: Sys, m: Move)
    requires SweepPhases(y) && Can(y, m) && (m.Accept? || m.RunRegister? || m.RunCloseAll? || m.RunBarrier?)
    ensures SweepPhases(Do(y, m))
  {
    hide CanAct, DoAct, LoopAfter, Enabled, Apply;
    if !m.Accept? {
      var q := y.loops[m.l].queue;
      assert q == [q[0]] + q[1..];
    }
  }

  lemma StopSweepPhases(y: Sys, m: Move)
    requires SweepPhases(y) && Can(y, m) && Plain(m) && !(m.Accept? || m.RunRegister? || m.RunCloseAll? || m.RunBarrier?)
    ensures SweepPhases(Do(y, m))
  {
    hide CanAct, DoAct, LoopAfter, Enabled, Apply;
  }

  lemma MoveSweeps(y: Sys, m: Move)
    requires Queues(y) && Maps(y) && Sweeps(y) && Can(y, m) && Plain(m)
    ensures Sweeps(Do(y, m))
  {
    hide Can, Do, Queues, Maps, SweepPhases, SweepCovers;
    if m.Accept? || m.RunRegister? || m.RunCloseAll? || m.RunBarrier? { QueueSweepPhases(y, m); } else { StopSweepPhases(y, m); }
    match m
    case Accept(_, _, _) => AcceptCovers(y, m);
    case RunRegister(_) => QueueCovers(y, m);
    case RunCloseAll(l, snapshot) => RunCloseAllCovers(y, l, snapshot);
    case SweepDone(l) => SweepDoneCovers(y, l);
    case PostSweep => PostingCovers(y, m);
    case PostBarrier => PostingCovers(y, m);
    case RunBarrier(_) => QueueCovers(y, m);
    case _ => QuietCovers(y, m);
  }

  lemma SweepNextSweeps(y: Sys, l: nat)
    requires Entries(y) && Sweeps(y) && Can(y, SweepNext(l))
    ensures Sweeps(Do(y, SweepNext(l)))
  {
    hide Can, Do, Entries, SweepPhases, SweepCovers;
    SweepNextSweepPhases(y, l);
    SweepNextCovers(y, l);
  }

  lemma SweepNextSweepPhases(y: Sys, l: nat)
    requires SweepPhases(y) && Can(y, SweepNext(l))
    ensures SweepPhases(Do(y, SweepNext(l)))
  {
    hide CanAct, DoAct, LoopAfter, Enabled, Apply;
  }

  lemma SweepNextCovers(y: Sys, l: nat)
    requires Entries(y) && SweepCovers(y) && Can(y, SweepNext(l))
    ensures SweepCovers(Do(y, SweepNext(l)))
  {
    hide CanAct, DoAct, LoopAfter, Enabled, Inv, Apply, Pooled, Holder, Entries;
    SweepNextAlike(y, l);
    var z, list := Do(y, SweepNext(l)), y.loops[l].sweep.value;
    assert list == [list[0]] + list[1..];
    assert z.loops == y.loops[l := y.loops[l].(active := [list[0]], sweep := Some(list[1..]))];
    forall c | c in z.entries && z.entries[c].home < |z.loops| ensures Covered(z.loops[z.entries[c].home], c, z.entries[c].conn) {
      assert Covered(y.loops[y.entries[c].home], c, y.entries[c].conn);
    }
    forall k, c | 0 <= k < |z.loops| && z.loops[k].sweep.Some? && c in z.loops[k].sweep.value ensures SweptHere(z.entries, k, c) {
      assert c in y.loops[k].sweep.value && SweptHere(y.entries, k, c);
    }
    hide Covered, SweptHere;
  }

  lemma CloseQueueSweeps(y: Sys)
    requires Entries(y) && Sweeps(y) && Can(y, CloseQueue)
    ensures Sweeps(Do(y, CloseQueue))
  {
    hide CanAct, DoAct, LoopAfter, Enabled, Inv, Apply, Pooled, Holder, Entries;
    CloseQueueAlike(y);
    assert SweepPhases(Do(y, CloseQueue)) by { hide SweepCovers, Twin; }
    hide SweepPhases;
  }

  // ----- the barrier -----

  /** Only Run items matter to what is owed; moves other than the barrier itself keep them ahead of it. */
  lemma {:induction false} BeforeTail(q: seq<Item>, c: nat, cb: Callback)
    requires q != [] && !q[0].Run? && !q[0].Barrier?
    ensures Run(c, cb) in Before(q) <==> Run(c, cb) in Before(q[1..])
  {
    assert Before(q) == [q[0]] + Before(q[1..]);
  }

  /** When its barrier is posted, a connection that is not closed has its final callback ahead. */
  lemma PostBarrierOwes(y: Sys, c: nat)
    requires Entries(y) && Workers(y) && Pool(y) && Sweeps(y) && Barriers(y)
    requires y.phase.PostingBarriers? && y.phase.n < |y.loops| && c in y.entries && y.entries[c].home == y.phase.n
    ensures var e := y.entries[c];
            || !Open(e) || !CloseRoleOf(e.conn.pc).NotClosing?
            || Run(c, FinalCb) in Before(y.loops[y.phase.n].queue + [Barrier])
  {
    hide Inv, Tally;
    var e, q := y.entries[c], y.loops[y.phase.n].queue;
    assert EntryOk(y, c);
    NothingInFlight(y, c);
    BeforePush(q, Barrier);
    if Open(e) && CloseRoleOf(e.conn.pc).NotClosing? {
      FinalIsPosted(e.conn);
      ForMember(q, c, FinalCb);
    }
  }

  lemma PostBarrierKeeps(y: Sys)
    requires SysInv(y) && Can(y, PostBarrier)
    ensures Barriers(Do(y, PostBarrier))
  {
    hide CanAct, DoAct, LoopAfter, Enabled;
    hide Inv, Sessions, Maps, Sweeps, Pool, Workers, Queues, Before;
    var z := Do(y, PostBarrier);
    forall c | c in z.entries && z.entries[c].home < |z.loops| && Barrier in z.loops[z.entries[c].home].queue
      ensures Owed(z, c)
    {
      if z.entries[c].home == y.phase.n { PostBarrierOwes(y, c); } else { assert Owed(y, c); OwedFrame(y, z, c); }
    }
    hide Owed;
  }

  lemma OwedFrame(y: Sys, z: Sys, c: nat)
    requires c in y.entries && c in z.entries && y.entries[c].home == z.entries[c].home
    requires y.entries[c].home < |y.loops| && z.entries[c].home < |z.loops|
    requires Owed(y, c) && z.entries[c].conn.core == y.entries[c].conn.core
    requires z.entries[c].conn.pc == y.entries[c].conn.pc
          || (CloseRoleOf(y.entries[c].conn.pc).NotClosing? && CloseRoleOf(z.entries[c].conn.pc).NotClosing?)
    requires var q, p := y.loops[y.entries[c].home].queue, z.loops[y.entries[c].home].queue;
             p == q || (q != [] && !q[0].Run? && !q[0].Barrier? && p == q[1..])
    ensures Owed(z, c)
  {
    var q := y.loops[y.entries[c].home].queue;
    if q != [] && !q[0].Run? && !q[0].Barrier? { BeforeTail(q, c, FinalCb); }
  }

  lemma RunBarrierKeeps(y: Sys, l: nat)
    requires SysInv(y) && Can(y, RunBarrier(l))
    ensures Barriers(Do(y, RunBarrier(l)))
  {
    hide CanAct, DoAct, LoopAfter, Enabled;
    hide Inv, Sessions, Maps, Sweeps, Pool, Workers, Queues, For;
    var z := Do(y, RunBarrier(l));
    var q := y.loops[l].queue;
    assert q == [q[0]] + q[1..];
    assert Barrier in q;
    forall c | c in y.entries && y.entries[c].home == l ensures !Open(y.entries[c]) {
      assert EntryOk(y, c) && Owed(y, c);
    }
  }

  /** While connections still register, no barrier has been posted. */
  lemma RegistrationBarriers(y: Sys, m: Move)
    requires Queues(y) && Sweeps(y) && Barriers(y) && Can(y, m) && (m.Accept? || m.RunRegister?)
    ensures Barriers(Do(y, m))
  {
    hide CanAct, DoAct, LoopAfter, Enabled, Owed, SweepLast, ItemOk;
    assert y.phase.Serving? || y.phase.PostingSweeps? || y.phase.Joining? by {
      if m.RunRegister? { assert Register(y.loops[m.l].queue[0].c) in y.loops[m.l].queue; }
    }
    hide Queues, Sweeps;
    assert forall l :: 0 <= l < |y.loops| ==> Barrier !in y.loops[l].queue;
  }

  lemma SweepBarriers(y: Sys, m: Move)
    requires Queues(y) && Sweeps(y) && Barriers(y) && Can(y, m) && (m.RunCloseAll? || m.SweepDone? || m.PostSweep?)
    ensures Barriers(Do(y, m))
  {
    hide Can, Do, Queues, Sweeps, BarrierPhases, BarrierOwed;
    SweepBarrierPhases(y, m);
    SweepOwed(y, m);
  }

  lemma SweepBarrierPhases(y: Sys, m: Move)
    requires BarrierPhases(y) && Can(y, m) && (m.RunCloseAll? || m.SweepDone? || m.PostSweep?)
    ensures BarrierPhases(Do(y, m))
  {
    hide CanAct, DoAct, LoopAfter, Enabled;
    if m.RunCloseAll? {
      var q := y.loops[m.l].queue;
      assert q == [q[0]] + q[1..];
    }
  }

  lemma SweepOwed(y: Sys, m: Move)
    requires BarrierPhases(y) && BarrierOwed(y) && Can(y, m) && (m.RunCloseAll? || m.SweepDone? || m.PostSweep?)
    ensures BarrierOwed(Do(y, m))
  {
    hide CanAct, DoAct, LoopAfter, Enabled, Owed;
    var z := Do(y, m);
    forall c | c in z.entries && z.entries[c].home < |z.loops| && Barrier in z.loops[z.entries[c].home].queue
      ensures Owed(z, c)
    {
      assert Owed(y, c);
      OwedFrame(y, z, c);
    }
    hide BarrierPhases;
  }

  lemma StopBarriers(y: Sys, m: Move)
    requires Sweeps(y) && Barriers(y) && Can(y, m)
    requires m.Login? || m.WorkerExit? || m.BeginStop? || m.WorkersJoined? || m.AllDrained?
    ensures Barriers(Do(y, m))
  {
    hide CanAct, DoAct, LoopAfter, Enabled, SweepCovers;
    assert BarrierPhases(Do(y, m)) by { hide BarrierOwed; }
    hide BarrierPhases, Sweeps;
    StopOwed(y, m);
  }

  /** Whatever changes neither connections nor loops changes nothing that is owed. */
  lemma StopOwed(y: Sys, m: Move)
    requires BarrierOwed(y) && Can(y, m)
    requires m.Login? || m.WorkerExit? || m.BeginStop? || m.WorkersJoined? || m.AllDrained?
    ensures BarrierOwed(Do(y, m))
  {
    hide CanAct, DoAct, LoopAfter, Enabled, Before, CloseRoleOf;
    var z := Do(y, m);
    forall c | c in z.entries && z.entries[c].home < |z.loops| ensures Owed(z, c) == Owed(y, c) {}
    hide Owed;
  }

  lemma SweepNextBarriers(y: Sys, l: nat)
    requires Entries(y) && Barriers(y) && Can(y, SweepNext(l))
    ensures Barriers(Do(y, SweepNext(l)))
  {
    hide Can, Do, Entries, BarrierPhases, BarrierOwed;
    SweepNextBarrierPhases(y, l);
    SweepNextOwed(y, l);
  }

  lemma SweepNextBarrierPhases(y: Sys, l: nat)
    requires BarrierPhases(y) && Can(y, SweepNext(l))
    ensures BarrierPhases(Do(y, SweepNext(l)))
  {
    hide CanAct, DoAct, LoopAfter, Enabled, Apply;
  }

  lemma SweepNextOwed(y: Sys, l: nat)
    requires Entries(y) && BarrierOwed(y) && Can(y, SweepNext(l))
    ensures BarrierOwed(Do(y, SweepNext(l)))
  {
    hide CanAct, DoAct, LoopAfter, Enabled, Inv, Apply, Pooled, Holder, Entries, Owed;
    var z := Do(y, SweepNext(l));
    SweepNextAlike(y, l);
    forall c | c in z.entries && z.entries[c].home < |z.loops| && Barrier in z.loops[z.entries[c].home].queue
      ensures Owed(z, c)
    {
      assert Owed(y, c);
      OwedFrame(y, z, c);
    }
  }

  lemma CloseQueueBarriers(y: Sys)
    requires Entries(y) && Sweeps(y) && Barriers(y) && Can(y, CloseQueue)
    ensures Barriers(Do(y, CloseQueue))
  {
    hide CanAct, DoAct, LoopAfter, Enabled;
    hide Inv, Apply, Pooled, Holder, Entries, Owed;
    CloseQueueAlike(y);
  }

  // ----- every move, every run -----

  lemma SweepNextHere(y: Sys, l: nat)
    requires Entries(y) && Queues(y) && Sweeps(y) && Can(y, SweepNext(l))
    ensures Entries(Do(y, SweepNext(l))) && Queues(Do(y, SweepNext(l)))
  {
    hide CanAct, DoAct, LoopAfter, Enabled;
    hide Inv, Apply, Pooled, Holder, Sweeps, SweepLast, For;
    var z := Do(y, SweepNext(l));
    SweepNextAlike(y, l);
    SweptAreHere(y, l);
    forall c | c in z.entries ensures EntryOk(z, c) { assert EntryOk(y, c); }
    forall k, item | 0 <= k < |z.loops| && item in z.loops[k].queue ensures ItemOk(z, k, item) {
      assert ItemOk(y, k, item);
    }
  }

  lemma SweepNextWork(y: Sys, l: nat)
    requires Entries(y) && Workers(y) && Pool(y) && Can(y, SweepNext(l))
    ensures Workers(Do(y, SweepNext(l))) && Pool(Do(y, SweepNext(l)))
  {
    hide CanAct, DoAct, LoopAfter, Enabled, Inv, Apply, Pooled, Holder, Distinct, Entries;
    SweepNextAlike(y, l);
  }

  lemma SweepNextNames(y: Sys, l: nat)
    requires Entries(y) && Sessions(y) && Maps(y) && Can(y, SweepNext(l))
    ensures Sessions(Do(y, SweepNext(l))) && Maps(Do(y, SweepNext(l)))
  {
    hide CanAct, DoAct, LoopAfter, Enabled, Inv, Apply, Pooled, Holder, Entries;
    SweepNextAlike(y, l);
  }

  lemma SweptAreHere(y: Sys, l: nat)
    requires Sweeps(y) && Can(y, SweepNext(l))
    ensures var c := y.loops[l].sweep.value[0]; c in y.entries && y.entries[c].home == l && y.entries[c].registered
  {
    hide CanAct, DoAct, LoopAfter, Enabled;
    assert SweptHere(y.entries, l, y.loops[l].sweep.value[0]);
  }

  lemma CloseQueueHere(y: Sys)
    requires Entries(y) && Queues(y) && Can(y, CloseQueue)
    ensures Entries(Do(y, CloseQueue)) && Queues(Do(y, CloseQueue))
  {
    hide CanAct, DoAct, LoopAfter, Enabled, Inv, Apply, Pooled, Holder, SweepLast, For;
    var z := Do(y, CloseQueue);
    CloseQueueAlike(y);
    forall c | c in z.entries ensures EntryOk(z, c) { assert EntryOk(y, c); }
    forall k, item | 0 <= k < |z.loops| && item in z.loops[k].queue ensures ItemOk(z, k, item) {
      assert ItemOk(y, k, item);
    }
  }

  lemma CloseQueueWork(y: Sys)
    requires Entries(y) && Workers(y) && Pool(y) && Can(y, CloseQueue)
    ensures Workers(Do(y, CloseQueue)) && Pool(Do(y, CloseQueue))
  {
    hide CanAct, DoAct, LoopAfter, Enabled, Inv, Apply, Pooled, Holder, Distinct, Entries;
    CloseQueueAlike(y);
  }

  lemma CloseQueueNames(y: Sys)
    requires Entries(y) && Sessions(y) && Maps(y) && Can(y, CloseQueue)
    ensures Sessions(Do(y, CloseQueue)) && Maps(Do(y, CloseQueue))
  {
    hide CanAct, DoAct, LoopAfter, Enabled, Inv, Apply, Pooled, Holder, Entries;
    CloseQueueAlike(y);
  }

  lemma {:induction false} MoveKeeps(y: Sys, m: Move)
    requires SysInv(y) && Can(y, m)
    ensures SysInv(Do(y, m))
  {
    hide Can, Do, DoAct, CanAct, Entries, Queues, Workers, Pool, Sessions, Maps, Sweeps, Barriers;
    CanActs(y, m);
    if m.Act? {
      ActEntries(y, m.c, m.s);
      ActQueues(y, m.c, m.s);
      ActWorkers(y, m.c, m.s);
      ActPool(y, m.c, m.s);
      ActSessions(y, m.c, m.s);
      ActMaps(y, m.c, m.s);
      ActSweeps(y, m.c, m.s);
      ActBarriers(y, m.c, m.s);
    } else if Plain(m) {
      if m.Accept? { AcceptEntries(y, m); } else { MoveEntries(y, m); }
      MoveQueues(y, m);
      MoveWorkers(y, m);
      MovePool(y, m);
      MoveSessions(y, m);
      if m.RunRegister? { RegisterMaps(y, m.l); } else { MoveMaps(y, m); }
      MoveSweeps(y, m);
      match m {
        case PostBarrier => PostBarrierKeeps(y);
        case RunBarrier(l) => RunBarrierKeeps(y, l);
        case Login(_) => StopBarriers(y, m);
        case WorkerExit(_) => StopBarriers(y, m);
        case BeginStop => StopBarriers(y, m);
        case WorkersJoined => StopBarriers(y, m);
        case AllDrained => StopBarriers(y, m);
        case Accept(_, _, _) => RegistrationBarriers(y, m);
        case RunRegister(_) => RegistrationBarriers(y, m);
        case _ => SweepBarriers(y, m);
      }
    } else if m.SweepNext? {
      SweepNextHere(y, m.l);
      SweepNextWork(y, m.l);
      SweepNextNames(y, m.l);
      SweepNextSweeps(y, m.l);
      SweepNextBarriers(y, m.l);
    } else {
      CloseQueueHere(y);
      CloseQueueWork(y);
      CloseQueueNames(y);
      CloseQueueSweeps(y);
      CloseQueueBarriers(y);
    }
  }

  lemma CanActs(y: Sys, m: Move)
    requires Can(y, m)
    ensures m.Act? ==> CanAct(y, m.c, m.s) && Do(y, m) == DoAct(y, m.c, m.s)
  {
  }

  lemma {:induction false} ServerRunKeeps(n: nat, k: nat, run: seq<Move>)
    requires k > 0 && LegalRun(n, k, run)
    ensures SysInv(Reached(n, k, run))
    decreases |run|
  {
    if run != [] {
      var i := |run| - 1;
      ServerRunKeeps(n, k, run[..i]);
      hide Can, Do, SysInv;
      MoveKeeps(Reached(n, k, run[..i]), run[i]);
    }
  }

  // ----- what follows -----

  /** Session ownership: in every run, whatever closes and logs in concurrently, the descriptor of each
      session is held by a connection that is still open, that is the session's own, and whose cleanup
      has not run; so a reused descriptor never carries an old session. */
  lemma {:induction false} SessionOwnership(n: nat, k: nat, run: seq<Move>, fd: int)
    requires k > 0 && LegalRun(n, k, run) && fd in Reached(n, k, run).sessions
    ensures var y := Reached(n, k, run);
            var c := y.sessions[fd];
            && c in y.entries && y.entries[c].fd == fd && Open(y.entries[c]) && y.entries[c].conn.log.closes == 0
            && forall d :: d in y.entries && Open(y.entries[d]) && y.entries[d].fd == fd ==> d == c
  {
    ServerRunKeeps(n, k, run);
    hide Entries, Queues, Workers, Pool, Maps, Sweeps, Barriers, Reached, LegalRun;
  }

  /** The release step of a close callback always finds its own connection under the descriptor. */
  lemma {:induction false} ReleaseFindsItself(n: nat, k: nat, run: seq<Move>, c: nat)
    requires k > 0 && LegalRun(n, k, run) && c in Reached(n, k, run).entries
    requires var e := Reached(n, k, run).entries[c]; e.conn.pc.Release? && e.registered
    ensures var y := Reached(n, k, run);
            var e := y.entries[c];
            e.home < |y.loops| && e.fd in y.loops[e.home].connections && y.loops[e.home].connections[e.fd] == c
  {
    ServerRunKeeps(n, k, run);
    hide Inv, Queues, Workers, Pool, Sessions, Sweeps, Barriers, Reached, LegalRun;
    var y := Reached(n, k, run);
    assert EntryOk(y, c);
    InvParts(y.entries[c].conn);
    ReleasingIsOpen(y.entries[c].conn);
  }

  lemma ReleasingIsOpen(c: Conn)
    requires CloseOnce(c) && c.pc.Release?
    ensures !c.core.state.Closed?
  {
  }

  /** Release follows cleanup: in every run, a step that gives a connection's descriptor free finds its
      close callback run, once, and no session under that descriptor. */
  lemma {:induction false} ReleaseAfterCleanup(n: nat, k: nat, run: seq<Move>, c: nat)
    requires k > 0 && LegalRun(n, k, run) && Can(Reached(n, k, run), Act(c, RunRelease))
    ensures var y := Reached(n, k, run);
            && y.entries[c].conn.log.closes == 1 && y.entries[c].fd !in y.sessions
            && !Open(Do(y, Act(c, RunRelease)).entries[c])
  {
    ServerRunKeeps(n, k, run);
    hide LegalRun, Reached;
    ReleasesUnused(Reached(n, k, run), c);
  }

  lemma ReleasesUnused(y: Sys, c: nat)
    requires SysInv(y) && CanAct(y, c, RunRelease)
    ensures y.entries[c].conn.log.closes == 1 && y.entries[c].fd !in y.sessions
    ensures !Open(DoAct(y, c, RunRelease).entries[c])
  {
    hide Inv, Queues, Workers, Pool, Maps, Sweeps, Barriers, LoopAfter, WorkerAfter;
    assert EntryOk(y, c);
    InvParts(y.entries[c].conn);
    ReleasingIsOpen(y.entries[c].conn);
    ReleaseFollowsCleanup(y.entries[c].conn);
  }

  /** Ordered shutdown: when Server::stop is through, every connection that ever entered a loop is
      closed, its close callback ran exactly once, nothing of it is in flight, every connection map
      is empty and no session is left. */
  lemma {:induction false} OrderedShutdown(n: nat, k: nat, run: seq<Move>)
    requires k > 0 && LegalRun(n, k, run) && Reached(n, k, run).phase.Stopped?
    ensures var y := Reached(n, k, run);
            && (forall c :: c in y.entries ==>
                  y.entries[c].registered && !Open(y.entries[c]) && y.entries[c].conn.log.closes == 1 && y.entries[c].conn.flights == [])
            && (forall l :: 0 <= l < |y.loops| ==> y.loops[l].connections == map[])
            && y.sessions == map[]
  {
    ServerRunKeeps(n, k, run);
    hide *;
    StoppedIsClosed(Reached(n, k, run));
  }

  lemma StoppedIsClosed(y: Sys)
    requires SysInv(y) && y.phase.Stopped?
    ensures forall c :: c in y.entries ==>
              y.entries[c].registered && !Open(y.entries[c]) && y.entries[c].conn.log.closes == 1 && y.entries[c].conn.flights == []
    ensures forall l :: 0 <= l < |y.loops| ==> y.loops[l].connections == map[]
    ensures y.sessions == map[]
  {
    hide Entries, Workers, Pool, Queues, Maps, Sessions, Sweeps, Barriers, Inv;
    forall c | c in y.entries
      ensures y.entries[c].registered && !Open(y.entries[c]) && y.entries[c].conn.log.closes == 1 && y.entries[c].conn.flights == []
    {
      EachClosed(y, c);
    }
    AllClosedEmpties(y);
  }

  lemma EachClosed(y: Sys, c: nat)
    requires Entries(y) && Workers(y) && Pool(y) && Sweeps(y) && Barriers(y) && y.phase.Stopped? && c in y.entries
    ensures y.entries[c].registered && !Open(y.entries[c]) && y.entries[c].conn.log.closes == 1 && y.entries[c].conn.flights == []
  {
    hide Inv, Workers, Pool, Sweeps, Tally, BarrierPhases;
    assert EntryOk(y, c);
    assert y.loops[y.entries[c].home].drained by { AllLoopsDrained(y); }
    InvParts(y.entries[c].conn);
    NothingInFlight(y, c);
  }

  lemma AllLoopsDrained(y: Sys)
    requires BarrierPhases(y) && y.phase.Stopped?
    ensures forall l :: 0 <= l < |y.loops| ==> y.loops[l].drained
  {
  }

  lemma AllClosedEmpties(y: Sys)
    requires Maps(y) && Sessions(y) && forall c :: c in y.entries ==> !Open(y.entries[c])
    ensures forall l :: 0 <= l < |y.loops| ==> y.loops[l].connections == map[]
    ensures y.sessions == map[]
  {
    forall l, fd | 0 <= l < |y.loops| ensures fd !in y.loops[l].connections {}
    forall l | 0 <= l < |y.loops| ensures y.loops[l].connections == map[] {
      assert forall fd :: fd !in y.loops[l].connections;
    }
    assert forall fd :: fd !in y.sessions;
  }
}
