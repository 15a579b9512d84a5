/** The ordered shutdown goes through: until Server::stop has returned, some thread always has a move,
and every such move brings the end nearer, provided that handlers return. */
module ServerProgress {
  import opened Wrappers
  import opened Lifecycle
  import opened LifecycleProofs
  import opened LifecycleEffects
  import opened LifecycleTheorems
  import opened LifecycleProgress
  import opened ServerSystem
  import opened ServerProofs

  /** Moves that carry on what was started: nothing new comes in from outside, and running handlers
      return instead of answering again. */
  predicate Going(y: Sys, m: Move) {
    && Can(y, m)
    && match m
       case Accept(_, _, _) => false
       case Login(_) => false
       case BeginStop => false
       case Act(c, s) => Progress(y.entries[c].conn, s)
       case _ => true
  }

  predicate Stopping(y: Sys) { !y.phase.Serving? && !y.phase.Stopped? }

  // ----- three more invariants, which only progress needs -----

  predicate Inside(entries: map<nat, Entry>, l: nat, c: nat) {
    c in entries && entries[c].home == l && entries[c].registered && !entries[c].conn.pc.Idle?
  }

  predicate StackOk(entries: map<nat, Entry>, l: nat, active: seq<nat>) {
    (forall i :: 0 <= i < |active| ==> Inside(entries, l, active[i])) && Distinct(active)
  }

  /** A loop's stack holds distinct connections of that loop that are inside a callback. */
  predicate Stacks(y: Sys) { forall l :: 0 <= l < |y.loops| ==> StackOk(y.entries, l, y.loops[l].active) }

  predicate JobOk(entries: map<nat, Entry>, w: nat, job: Worker) {
    match job
    case Busy(c) => c in entries && Holder(entries[c].conn) == Some(w)
    case Posting(c) => c in entries && w in entries[c].conn.posting
    case _ => true
  }

  /** A busy worker holds the connection's task, a posting one its follow-up. */
  predicate Jobs(y: Sys) { forall w :: 0 <= w < |y.workers| ==> JobOk(y.entries, w, y.workers[w]) }

  predicate Told(l: Loop) { l.swept || l.sweep.Some? || CloseAll in l.queue }

  /** A loop that was told to close everything has done so, is at it, or will be. */
  predicate AllTold(y: Sys) {
    y.phase.PostingSweeps? ==> forall l :: 0 <= l < |y.loops| && l < y.phase.n ==> Told(y.loops[l])
  }

  predicate Extra(y: Sys) { Stacks(y) && Jobs(y) && AllTold(y) }

  /** What may become of a stack when only `c` changes. */
  lemma StackMoves(entries: map<nat, Entry>, others: map<nat, Entry>, l: nat, active: seq<nat>, c: nat)
    requires StackOk(entries, l, active) && forall b :: b in entries && b != c ==> b in others && others[b] == entries[b]
    ensures c !in active && Inside(others, l, c) ==> StackOk(others, l, [c] + active)
    ensures active != [] && active[0] == c ==> StackOk(others, l, active[1..])
    ensures c !in active || Inside(others, l, c) ==> StackOk(others, l, active)
  {
  }

  /** A step of `c` pushes it when its callback begins and pops it when the callback ends. */
  lemma ActStackForm(y: Sys, c: nat, s: Step)
    requires CanAct(y, c, s)
    ensures var e, f := y.entries[c], DoAct(y, c, s).entries[c];
            var active, after := y.loops[e.home].active, DoAct(y, c, s).loops[e.home].active;
            && f.home == e.home && f.registered
            && if e.conn.pc.Idle? then after == (if f.conn.pc.Idle? then active else [c] + active)
               else if f.conn.pc.Idle? then active != [] && active[0] == c && after == active[1..]
               else after == active
  {
    hide Apply, Enabled, LoopStep, NewPost, WorkerAfter, MayStart, LoopAfter;
    LoopStackForm(y, c, s);
  }

  lemma LoopStackForm(y: Sys, c: nat, s: Step)
    requires CanAct(y, c, s)
    ensures var e, f := y.entries[c].conn, Apply(y.entries[c].conn, s);
            var active := y.loops[y.entries[c].home].active;
            var after := LoopAfter(y.loops[y.entries[c].home], c, y.entries[c], s).active;
            if e.pc.Idle? then after == (if f.pc.Idle? then active else [c] + active)
            else if f.pc.Idle? then active != [] && active[0] == c && after == active[1..]
            else after == active
  {
    hide Apply, Enabled, LoopStep, NewPost, MayStart;
    StateEffect(y.entries[c].conn, s);
    var active := y.loops[y.entries[c].home].active;
    assert active != [] && active[0] == c ==> [c] + active[1..] == active;
  }

  lemma ActStack(y: Sys, c: nat, s: Step)
    requires CanAct(y, c, s) && StackOk(y.entries, y.entries[c].home, y.loops[y.entries[c].home].active)
    ensures StackOk(DoAct(y, c, s).entries, y.entries[c].home, DoAct(y, c, s).loops[y.entries[c].home].active)
  {
    hide Apply, Enabled, LoopStep, Actor, NewPost, Submits, WorkerAfter, MayStart, LoopAfter, Distinct;
    var active := y.loops[y.entries[c].home].active;
    assert y.entries[c].conn.pc.Idle? ==> c !in active;
    ActStackForm(y, c, s);
    StackMoves(y.entries, DoAct(y, c, s).entries, y.entries[c].home, active, c);
    hide StackOk;
  }

  lemma ActStacks(y: Sys, c: nat, s: Step)
    requires Stacks(y) && CanAct(y, c, s)
    ensures Stacks(DoAct(y, c, s))
  {
    hide Apply, Enabled, LoopStep, Actor, NewPost, Submits, WorkerAfter, MayStart, LoopAfter, Distinct;
    var z := DoAct(y, c, s);
    forall l | 0 <= l < |z.loops| ensures StackOk(z.entries, l, z.loops[l].active) {
      assert StackOk(y.entries, l, y.loops[l].active);
      if l == y.entries[c].home { ActStack(y, c, s); }
    }
  }

  lemma ActJobs(y: Sys, c: nat, s: Step)
    requires Jobs(y) && CanAct(y, c, s) && Tokens(y.entries[c].conn)
    ensures Jobs(DoAct(y, c, s))
  {
    hide Apply, Enabled, LoopStep, Actor, NewPost, Submits, Holder, LoopAfter, Tokens;
    var z, conn := DoAct(y, c, s), y.entries[c].conn;
    WorkerEffect(conn, s);
    forall w | 0 <= w < |z.workers| ensures JobOk(z.entries, w, z.workers[w]) {
      assert JobOk(y.entries, w, y.workers[w]);
    }
  }

  lemma ActTold(y: Sys, c: nat, s: Step)
    requires AllTold(y) && CanAct(y, c, s)
    ensures AllTold(DoAct(y, c, s))
  {
    hide Apply, Enabled, LoopStep, Actor, NewPost, Submits, WorkerAfter;
    var q := y.loops[y.entries[c].home].queue;
    if q != [] { assert q == [q[0]] + q[1..]; }
  }

  lemma SweepNextExtra(y: Sys, l: nat)
    requires Entries(y) && SweepCovers(y) && Extra(y) && Can(y, SweepNext(l))
    ensures Extra(Do(y, SweepNext(l)))
  {
    hide CanAct, DoAct, LoopAfter, Enabled, Apply, Inv, Entries, Holder, Pooled, Covered, NoRegister;
    SweepNextAlike(y, l);
    var z, c := Do(y, SweepNext(l)), y.loops[l].sweep.value[0];
    assert SweptHere(y.entries, l, c);
    forall k | 0 <= k < |z.loops| ensures StackOk(z.entries, k, z.loops[k].active) {
      assert StackOk(y.entries, k, y.loops[k].active);
    }
    forall w | 0 <= w < |z.workers| ensures JobOk(z.entries, w, z.workers[w]) {
      assert JobOk(y.entries, w, y.workers[w]);
    }
    hide SweepCovers;
  }

  lemma CloseQueueExtra(y: Sys)
    requires Entries(y) && Extra(y) && Can(y, CloseQueue)
    ensures Extra(Do(y, CloseQueue))
  {
    hide CanAct, DoAct, LoopAfter, Enabled, Apply, Inv, Entries, Holder, Pooled;
    CloseQueueAlike(y);
    var z := Do(y, CloseQueue);
    forall l | 0 <= l < |z.loops| ensures StackOk(z.entries, l, z.loops[l].active) {
      assert StackOk(y.entries, l, y.loops[l].active);
    }
    forall w | 0 <= w < |z.workers| ensures JobOk(z.entries, w, z.workers[w]) {
      assert JobOk(y.entries, w, y.workers[w]);
    }
  }

  /** The other moves leave connections and stacks alone. */
  lemma PlainExtra(y: Sys, m: Move)
    requires Extra(y) && Can(y, m) && Plain(m)
    ensures Extra(Do(y, m))
  {
    hide CanAct, DoAct, LoopAfter, Enabled, Apply, Holder, Told;
    var z := Do(y, m);
    forall l | 0 <= l < |z.loops| ensures StackOk(z.entries, l, z.loops[l].active) {
      assert StackOk(y.entries, l, y.loops[l].active);
    }
    forall w | 0 <= w < |z.workers| ensures JobOk(z.entries, w, z.workers[w]) {
      assert JobOk(y.entries, w, y.workers[w]);
    }
    PlainTold(y, m);
    hide Stacks, Jobs;
  }

  lemma PlainTold(y: Sys, m: Move)
    requires AllTold(y) && Can(y, m) && Plain(m)
    ensures AllTold(Do(y, m))
  {
    hide CanAct, DoAct, LoopAfter, Enabled, Apply;
    if m.RunRegister? || m.RunCloseAll? || m.RunBarrier? {
      var q := y.loops[m.l].queue;
      assert q == [q[0]] + q[1..];
    }
  }

  lemma {:induction false} RunExtra(n: nat, k: nat, run: seq<Move>)
    requires k > 0 && LegalRun(n, k, run)
    ensures Extra(Reached(n, k, run))
    decreases |run|
  {
    if run != [] {
      var i := |run| - 1;
      var y, m := Reached(n, k, run[..i]), run[i];
      RunExtra(n, k, run[..i]);
      ServerRunKeeps(n, k, run[..i]);
      hide Can, Do, SysInv, Extra;
      ExtraKept(y, m);
    }
  }

  lemma ExtraKept(y: Sys, m: Move)
    requires SysInv(y) && Extra(y) && Can(y, m)
    ensures Extra(Do(y, m))
  {
    hide Can, CanAct, Do, DoAct, Entries, SweepCovers, Stacks, Jobs, AllTold;
    CanActs(y, m);
    match m
    case Act(c, s) =>
      TokensAt(y, c, s);
      ActStacks(y, c, s);
      ActJobs(y, c, s);
      ActTold(y, c, s);
    case SweepNext(l) => SweepNextExtra(y, l);
    case CloseQueue => CloseQueueExtra(y);
    case _ => PlainExtra(y, m);
  }

  lemma TokensAt(y: Sys, c: nat, s: Step)
    requires Entries(y) && CanAct(y, c, s)
    ensures Tokens(y.entries[c].conn)
  {
    hide Inv;
    assert EntryOk(y, c);
    InvParts(y.entries[c].conn);
  }

  // ----- there always is a move -----

  /** What kind of step goes on inside a callback. */
  lemma PcStepKind(conn: Conn)
    requires !conn.pc.Idle?
    ensures var s := PcStep(conn.pc);
            && LoopStep(s) && !s.RunCallback? && !s.Fetch? && !s.StopPool? && Actor(conn, s).None?
            && (s.RunRelease? <==> conn.pc.Release?)
  {
  }

  lemma ReleaseListed(y: Sys, c: nat)
    requires Entries(y) && MapsFull(y) && c in y.entries && y.entries[c].registered && y.entries[c].conn.pc.Release?
    ensures y.entries[c].home < |y.loops|
    ensures var m := y.loops[y.entries[c].home].connections; y.entries[c].fd in m && m[y.entries[c].fd] == c
  {
    hide Inv, For;
    assert EntryOk(y, c);
    InvParts(y.entries[c].conn);
    ReleasingIsOpen(y.entries[c].conn);
  }

  /** A loop inside a callback goes on with the innermost one. */
  lemma CallbackMoves(y: Sys, l: nat) returns (m: Move)
    requires Entries(y) && MapsFull(y) && Stacks(y) && l < |y.loops| && y.loops[l].active != []
    ensures Going(y, m)
  {
    hide Entries, MapsFull, EntryOk, Tokens, Inv, Enabled, LoopStep, Actor, PcStep, Progress;
    var c := y.loops[l].active[0];
    assert StackOk(y.entries, l, y.loops[l].active) && Inside(y.entries, l, c);
    hide Stacks, StackOk;
    var conn := y.entries[c].conn;
    InvAt(y, c);
    Held(conn);
    CallbackGoesOn(conn);
    ProgressEnabled(conn, PcStep(conn.pc));
    PcStepKind(conn);
    if conn.pc.Release? { ReleaseListed(y, c); }
    m := Act(c, PcStep(conn.pc));
  }

  lemma ProgressEnabled(conn: Conn, s: Step)
    requires Progress(conn, s)
    ensures Enabled(conn, s)
  {
    hide Enabled;
  }

  lemma SweepMoves(y: Sys, l: nat) returns (m: Move)
    requires Entries(y) && SweepCovers(y) && l < |y.loops| && y.loops[l].active == [] && y.loops[l].sweep.Some?
    ensures Going(y, m)
  {
    hide Inv, For, Covered, NoRegister;
    var list := y.loops[l].sweep.value;
    if list == [] {
      m := SweepDone(l);
    } else {
      assert list[0] in list && SweptHere(y.entries, l, list[0]);
      assert EntryOk(y, list[0]);
      m := SweepNext(l);
    }
  }

  /** A loop at rest runs the item at the head of its queue. */
  lemma QueueMoves(y: Sys, l: nat) returns (m: Move)
    requires Entries(y) && Queues(y) && l < |y.loops| && AtRest(y.loops[l]) && y.loops[l].queue != []
    ensures Going(y, m)
  {
    hide Inv, SweepLast;
    var item := y.loops[l].queue[0];
    assert ItemOk(y, l, item);
    match item {
      case Register(c) => m := RunRegister(l);
      case CloseAll =>
        var snapshot := AnySnapshot(y.loops[l].connections);
        m := RunCloseAll(l, snapshot);
      case Barrier => m := RunBarrier(l);
      case Run(c, cb) =>
        assert EntryOk(y, c);
        assert y.entries[c].conn.posted == For(y.loops[l].queue, c) == [cb] + For(y.loops[l].queue[1..], c);
        m := Act(c, RunCallback);
    }
  }

  /** The map can be traversed. */
  lemma {:induction false} AnySnapshot(connections: map<int, nat>) returns (snapshot: seq<nat>)
    ensures forall fd :: fd in connections ==> connections[fd] in snapshot
    ensures forall c :: c in snapshot ==> exists fd :: fd in connections && connections[fd] == c
    decreases |connections|
  {
    if fd :| fd in connections {
      var rest := connections - {fd};
      var others := AnySnapshot(rest);
      snapshot := [connections[fd]] + others;
      forall f | f in connections ensures connections[f] in snapshot {
        if f != fd { assert f in rest && rest[f] == connections[f]; }
      }
      forall c | c in snapshot ensures exists f :: f in connections && connections[f] == c {
        if c != connections[fd] {
          var f :| f in rest && rest[f] == c;
          assert f in connections && connections[f] == c;
        }
      }
    } else {
      snapshot := [];
    }
  }

  /** Tasks are only with connections that were registered. */
  lemma TasksAreRegistered(y: Sys, c: nat)
    requires Entries(y) && c in y.entries && (y.entries[c].conn.flights != [] || y.entries[c].conn.posting != map[])
    ensures y.entries[c].registered && y.entries[c].home < |y.loops|
  {
    hide Inv, For;
    assert EntryOk(y, c);
  }

  lemma FreeMoves(y: Sys, w: nat) returns (m: Move)
    requires Entries(y) && Workers(y) && Pool(y) && y.stopped && w < |y.workers| && y.workers[w].Free?
    ensures Going(y, m)
  {
    hide Entries, Holder, Distinct;
    if y.pool == [] {
      m := WorkerExit(w);
    } else {
      var c := y.pool[0];
      assert c in y.pool && WorkOk(y.workers, c, y.entries[c].conn);
      TasksAreRegistered(y, c);
      m := Act(c, Fetch(0, w));
    }
    hide Workers, Pool;
  }

  /** While workers are being joined, one that has not exited can go on. */
  lemma WorkerMoves(y: Sys, w: nat) returns (m: Move)
    requires Entries(y) && Workers(y) && Pool(y) && Jobs(y) && y.stopped && w < |y.workers| && !y.workers[w].Exited?
    ensures Going(y, m)
  {
    hide Entries, Workers, Pool;
    assert JobOk(y.entries, w, y.workers[w]);
    hide Jobs;
    match y.workers[w] {
      case Free => m := FreeMoves(y, w);
      case Busy(c) =>
        TasksAreRegistered(y, c);
        m := Act(c, FlightStep(y.entries[c].conn.flights[0]));
      case Posting(c) =>
        TasksAreRegistered(y, c);
        m := Act(c, PostFollowUp(w));
    }
  }

  /** With all loops idle and their queues empty, the stopping thread or a worker has a move. */
  lemma StopMoves(y: Sys) returns (m: Move)
    requires SysInv(y) && Extra(y) && Stopping(y)
    requires forall l :: 0 <= l < |y.loops| ==> AtRest(y.loops[l]) && y.loops[l].queue == []
    ensures Going(y, m)
  {
    hide Entries, Queues, Workers, Pool, Sessions, Maps, SweepCovers, BarrierOwed, Stacks, Jobs;
    match y.phase {
      case PostingSweeps(n) =>
        if n < |y.loops| {
          m := PostSweep;
        } else {
          forall l | 0 <= l < |y.loops| ensures y.loops[l].swept { assert Told(y.loops[l]); }
          m := CloseQueue;
        }
      case Joining =>
        if w: nat :| w < |y.workers| && !y.workers[w].Exited? {
          m := WorkerMoves(y, w);
        } else {
          m := WorkersJoined;
        }
      case PostingBarriers(n) => m := if n < |y.loops| then PostBarrier else AllDrained;
    }
  }

  /** Until the stop is through, some move is possible. */
  lemma {:induction false} MoveExists(y: Sys) returns (m: Move)
    requires SysInv(y) && Extra(y) && Stopping(y)
    ensures Going(y, m)
  {
    hide Entries, Queues, Workers, Pool, Sessions, MapsSound, MapsFull, SweepPhases, SweepCovers, Barriers, Stacks, Jobs, AllTold, Going;
    if l: nat :| l < |y.loops| && y.loops[l].active != [] {
      m := CallbackMoves(y, l);
    } else if l: nat :| l < |y.loops| && y.loops[l].sweep.Some? {
      m := SweepMoves(y, l);
    } else if l: nat :| l < |y.loops| && y.loops[l].queue != [] {
      m := QueueMoves(y, l);
    } else {
      m := StopMoves(y);
    }
  }

  // ----- how much is left -----

  function Over<T>(s: seq<T>, weigh: T -> nat): nat { if s == [] then 0 else weigh(s[0]) + Over(s[1..], weigh) }

  lemma {:induction false} OverUpdate<T>(s: seq<T>, weigh: T -> nat, i: nat, x: T)
    requires i < |s|
    ensures Over(s[i := x], weigh) == Over(s, weigh) - weigh(s[i]) + weigh(x)
  {
    if i == 0 {
      assert s[0 := x][1..] == s[1..];
    } else {
      OverUpdate(s[1..], weigh, i - 1, x);
      assert s[i := x][1..] == s[1..][i - 1 := x];
    }
  }

  lemma {:induction false} OverPush<T>(s: seq<T>, weigh: T -> nat, x: T)
    ensures Over(s + [x], weigh) == Over(s, weigh) + weigh(x)
  {
    if s == [] {
      assert [] + [x] == [x] && [x][1..] == [];
    } else {
      OverPush(s[1..], weigh, x);
      assert (s + [x])[0] == s[0] && (s + [x])[1..] == s[1..] + [x];
    }
  }

  /** The sum over all connections with numbers below `top`. */
  ghost function Total(entries: map<nat, Entry>, weigh: Conn -> nat, top: nat): nat {
    if top == 0 then 0
    else (if top - 1 in entries then weigh(entries[top - 1].conn) else 0) + Total(entries, weigh, top - 1)
  }

  lemma {:induction false} TotalSame(entries: map<nat, Entry>, others: map<nat, Entry>, weigh: Conn -> nat, top: nat)
    requires entries.Keys == others.Keys
    requires forall c :: c in entries && c < top ==> weigh(others[c].conn) == weigh(entries[c].conn)
    ensures Total(others, weigh, top) == Total(entries, weigh, top)
  {
    if top != 0 { TotalSame(entries, others, weigh, top - 1); }
  }

  lemma {:induction false} TotalUpdate(entries: map<nat, Entry>, weigh: Conn -> nat, c: nat, e: Entry, top: nat)
    requires c in entries && c < top
    ensures Total(entries[c := e], weigh, top) == Total(entries, weigh, top) - weigh(entries[c].conn) + weigh(e.conn)
  {
    if c == top - 1 {
      TotalSame(entries, entries[c := e], weigh, top - 1);
    } else {
      TotalUpdate(entries, weigh, c, e, top - 1);
    }
  }

  function CloseAllWeight(item: Item): nat { if item.CloseAll? then 1 else 0 }
  function ItemWeight(item: Item): nat { if item.Run? then 0 else 1 }
  function SweepsWaiting(l: Loop): nat { Over(l.queue, CloseAllWeight) }

  function LoopWork(l: Loop): nat {
    (match l.sweep case None => 0 case Some(list) => 10 * |list| + 1) + Over(l.queue, ItemWeight)
  }

  function AtWork(w: Worker): nat { if w.Exited? then 0 else 1 }
  function InTransit(c: Conn): nat { c.transit }

  /** What the stopping thread still has to do. */
  function Rank(y: Sys): int {
    match y.phase
    case Serving => 2 * |y.loops| + 5
    case PostingSweeps(n) => 2 * |y.loops| + 4 - n
    case Joining => |y.loops| + 3
    case PostingBarriers(n) => |y.loops| + 2 - n
    case Stopped => 0
  }

  ghost function Sweeping(y: Sys): nat { Over(y.loops, SweepsWaiting) }
  ghost function Sending(y: Sys, top: nat): nat { Total(y.entries, InTransit, top) }

  ghost function Work(y: Sys, top: nat): nat {
    Total(y.entries, Measure, top) + Over(y.loops, LoopWork) + Over(y.workers, AtWork)
  }

  /** Nearer to the end of the shutdown, by the first of the four that differs. */
  ghost predicate Closer(z: Sys, y: Sys, top: nat) {
    || Rank(z) < Rank(y)
    || (Rank(z) == Rank(y) && Sweeping(z) < Sweeping(y))
    || (Rank(z) == Rank(y) && Sweeping(z) == Sweeping(y) && Sending(z, top) < Sending(y, top))
    || (Rank(z) == Rank(y) && Sweeping(z) == Sweeping(y) && Sending(z, top) == Sending(y, top) && Work(z, top) < Work(y, top))
  }

  ghost predicate Numbered(y: Sys, top: nat) { forall c :: c in y.entries ==> c < top }

  // ----- every move brings it nearer -----

  /** A connection's own callbacks weigh nothing in the queue: they weigh in the connection. */
  lemma ActLoopWeights(y: Sys, c: nat, s: Step)
    requires CanAct(y, c, s) && (s.RunCallback? ==> NewPost(y.entries[c].conn, s).None?)
    ensures var l, m := y.loops[y.entries[c].home], LoopAfter(y.loops[y.entries[c].home], c, y.entries[c], s);
            SweepsWaiting(m) == SweepsWaiting(l) && LoopWork(m) == LoopWork(l)
  {
    hide Apply, Enabled, LoopStep, Actor, NewPost, Submits;
    SweepStays(y, c, s);
    var e := y.entries[c];
    if NewPost(e.conn, s).Some? {
      var item := Run(c, NewPost(e.conn, s).value);
      OverPush(y.loops[e.home].queue, CloseAllWeight, item);
      OverPush(y.loops[e.home].queue, ItemWeight, item);
    }
  }

  lemma ActWorkersWeigh(y: Sys, c: nat, s: Step)
    requires Entries(y) && Workers(y) && CanAct(y, c, s)
    ensures Over(DoAct(y, c, s).workers, AtWork) == Over(y.workers, AtWork)
  {
    hide Apply, Enabled, LoopStep, Actor, NewPost, Submits, LoopAfter, Entries, Workers;
    var actor := Actor(y.entries[c].conn, s);
    if actor.Some? {
      ActorIsFree(y, c, s);
      OverUpdate(y.workers, AtWork, actor.value, WorkerAfter(Apply(y.entries[c].conn, s), c, actor.value));
    }
  }

  lemma ActCloser(y: Sys, c: nat, s: Step, top: nat)
    requires Entries(y) && Workers(y) && Numbered(y, top) && CanAct(y, c, s) && Progress(y.entries[c].conn, s)
    ensures Closer(DoAct(y, c, s), y, top)
  {
    hide Apply, Enabled, LoopStep, Actor, NewPost, Submits, LoopAfter, WorkerAfter, Progress, Measure, Entries, Workers, Inv;
    hide SweepsWaiting, LoopWork, MayStart;
    var e := y.entries[c];
    var f := e.(conn := Apply(e.conn, s));
    InvAt(y, c);
    StepNears(e.conn, s);
    PostedEffect(e.conn, s);
    ActLoopWeights(y, c, s);
    ActWorkersWeigh(y, c, s);
    OverUpdate(y.loops, SweepsWaiting, e.home, LoopAfter(y.loops[e.home], c, e, s));
    OverUpdate(y.loops, LoopWork, e.home, LoopAfter(y.loops[e.home], c, e, s));
    TotalUpdate(y.entries, InTransit, c, f, top);
    TotalUpdate(y.entries, Measure, c, f, top);
  }

  lemma InvAt(y: Sys, c: nat)
    requires Entries(y) && c in y.entries
    ensures Inv(y.entries[c].conn)
  {
    hide Inv;
    assert EntryOk(y, c);
  }

  /** Telling loops, closing the pool's queue, joining and finishing lower the rank. */
  lemma StopCloser(y: Sys, m: Move, top: nat)
    requires Can(y, m)
    requires m.PostSweep? || m.CloseQueue? || m.WorkersJoined? || m.PostBarrier? || m.AllDrained?
    ensures Closer(Do(y, m), y, top)
  {
    hide CanAct, DoAct, LoopAfter, Enabled, Apply, Total, Over;
  }

  lemma HeadWeighs(q: seq<Item>)
    requires q != []
    ensures Over(q, CloseAllWeight) == CloseAllWeight(q[0]) + Over(q[1..], CloseAllWeight)
    ensures Over(q, ItemWeight) == ItemWeight(q[0]) + Over(q[1..], ItemWeight)
  {
  }

  /** Running a queued registration, sweep or barrier takes it off the queue. */
  lemma ItemCloser(y: Sys, m: Move, top: nat)
    requires Can(y, m) && (m.RunRegister? || m.RunCloseAll? || m.RunBarrier?)
    ensures Closer(Do(y, m), y, top)
  {
    hide CanAct, DoAct, LoopAfter, Enabled, Apply, Total, Measure, Over;
    var z := Do(y, m);
    HeadWeighs(y.loops[m.l].queue);
    OverUpdate(y.loops, SweepsWaiting, m.l, z.loops[m.l]);
    OverUpdate(y.loops, LoopWork, m.l, z.loops[m.l]);
    TotalSame(y.entries, z.entries, InTransit, top);
    TotalSame(y.entries, z.entries, Measure, top);
  }

  lemma SweepDoneCloser(y: Sys, l: nat, top: nat)
    requires Can(y, SweepDone(l))
    ensures Closer(Do(y, SweepDone(l)), y, top)
  {
    hide CanAct, DoAct, LoopAfter, Enabled, Apply, Total, Over;
    var z := Do(y, SweepDone(l));
    OverUpdate(y.loops, SweepsWaiting, l, z.loops[l]);
    OverUpdate(y.loops, LoopWork, l, z.loops[l]);
  }

  lemma SweepNextCloser(y: Sys, l: nat, top: nat)
    requires Numbered(y, top) && Can(y, SweepNext(l))
    ensures Closer(Do(y, SweepNext(l)), y, top)
  {
    hide CanAct, DoAct, LoopAfter, Enabled, Apply, Total, Over, Measure;
    var z, c := Do(y, SweepNext(l)), y.loops[l].sweep.value[0];
    CloseNowWeighs(y.entries[c].conn);
    OverUpdate(y.loops, SweepsWaiting, l, z.loops[l]);
    OverUpdate(y.loops, LoopWork, l, z.loops[l]);
    TotalUpdate(y.entries, InTransit, c, z.entries[c], top);
    TotalUpdate(y.entries, Measure, c, z.entries[c], top);
    hide Can, Do, Numbered;
  }

  /** Starting a close costs less than the place in the sweep. */
  lemma CloseNowWeighs(conn: Conn)
    requires conn.pc.Idle?
    ensures Measure(Apply(conn, CloseNow)) == Measure(conn) + 8 && Apply(conn, CloseNow).transit == conn.transit
  {
    hide PostedWeight, FlightWeight, OutputWeight;
  }

  lemma ExitCloser(y: Sys, w: nat, top: nat)
    requires Can(y, WorkerExit(w))
    ensures Closer(Do(y, WorkerExit(w)), y, top)
  {
    hide CanAct, DoAct, LoopAfter, Enabled, Total, Apply;
    OverUpdate(y.workers, AtWork, w, Exited);
  }

  lemma {:induction false} MoveCloser(y: Sys, m: Move, top: nat)
    requires SysInv(y) && Numbered(y, top) && Going(y, m)
    ensures Closer(Do(y, m), y, top) && Numbered(Do(y, m), top)
  {
    hide Can, CanAct, Do, DoAct, Closer, Numbered, Going, SysInv;
    NumberedStays(y, m, top);
    GoingKind(y, m);
    match m
    case Act(c, s) =>
      ActGoing(y, c, s);
      ActCloser(y, c, s, top);
    case RunRegister(_) => ItemCloser(y, m, top);
    case RunCloseAll(_, _) => ItemCloser(y, m, top);
    case RunBarrier(_) => ItemCloser(y, m, top);
    case SweepNext(l) => SweepNextCloser(y, l, top);
    case SweepDone(l) => SweepDoneCloser(y, l, top);
    case WorkerExit(w) => ExitCloser(y, w, top);
    case _ => StopCloser(y, m, top);
  }

  lemma GoingKind(y: Sys, m: Move)
    requires Going(y, m)
    ensures Can(y, m) && !m.Accept? && !m.Login? && !m.BeginStop?
  {
    hide Can;
  }

  lemma ActGoing(y: Sys, c: nat, s: Step)
    requires SysInv(y) && Going(y, Act(c, s))
    ensures CanAct(y, c, s) && Progress(y.entries[c].conn, s) && Do(y, Act(c, s)) == DoAct(y, c, s)
    ensures Entries(y) && Workers(y)
  {
    hide CanAct, DoAct, Progress, Entries, Queues, Workers, Pool, Sessions, Maps, Sweeps, Barriers;
  }

  lemma NumberedStays(y: Sys, m: Move, top: nat)
    requires Numbered(y, top) && Going(y, m)
    ensures Numbered(Do(y, m), top)
  {
    hide LoopAfter, Enabled, Apply, LoopStep, Actor, MayStart, WorkerAfter, Submits;
  }

  // ----- the shutdown goes through -----

  lemma {:induction false} CompletesBelow(n: nat, k: nat, run: seq<Move>, top: nat) returns (more: seq<Move>)
    requires k > 0 && LegalRun(n, k, run) && !Reached(n, k, run).phase.Serving? && Numbered(Reached(n, k, run), top)
    ensures run <= more && LegalRun(n, k, more) && Reached(n, k, more).phase.Stopped?
    decreases Rank(Reached(n, k, run)), Sweeping(Reached(n, k, run)), Sending(Reached(n, k, run), top), Work(Reached(n, k, run), top)
  {
    var y := Reached(n, k, run);
    ServerRunKeeps(n, k, run);
    if y.phase.Stopped? {
      more := run;
    } else {
      RunExtra(n, k, run);
      hide SysInv, Extra, Numbered, Do;
      var m := MoveExists(y);
      MoveCloser(y, m, top);
      RankBounded(y);
      var next := run + [m];
      assert next[..|next| - 1] == run;
      assert Reached(n, k, next) == Do(y, m);
      NeverServesAgain(y, m);
      more := CompletesBelow(n, k, next, top);
    }
  }

  /** From every state in which the stop has begun, the moves under way lead to its end: there is always
      one (MoveExists), and no sequence of them is endless (MoveCloser). */
  lemma {:induction false} ShutdownCompletes(n: nat, k: nat, run: seq<Move>) returns (more: seq<Move>)
    requires k > 0 && LegalRun(n, k, run) && !Reached(n, k, run).phase.Serving?
    ensures run <= more && LegalRun(n, k, more) && Reached(n, k, more).phase.Stopped?
  {
    var top := SomeTop(Reached(n, k, run).entries.Keys);
    more := CompletesBelow(n, k, run, top);
  }

  lemma {:induction false} SomeTop(keys: set<nat>) returns (top: nat)
    ensures forall c :: c in keys ==> c < top
    decreases |keys|
  {
    if c :| c in keys {
      var rest := SomeTop(keys - {c});
      top := if c < rest then rest else c + 1;
      assert forall d :: d in keys ==> d == c || d in keys - {c};
    } else {
      top := 0;
    }
  }

  lemma RankBounded(y: Sys)
    requires SysInv(y)
    ensures Rank(y) >= 0
  {
    hide Entries, Queues, Workers, Pool, Sessions, Maps, SweepCovers, Barriers;
  }

  lemma NeverServesAgain(y: Sys, m: Move)
    requires Can(y, m) && !y.phase.Serving?
    ensures !Do(y, m).phase.Serving?
  {
    hide CanAct, LoopAfter, Enabled, Apply;
  }
}
