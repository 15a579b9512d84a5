/** The whole server: I/O loops, the worker pool, sessions by descriptor, and the ordered shutdown.

Connections run their own protocol (module Lifecycle); here their steps are tied to the queues,
workers, descriptors and session table they share. */
module ServerSystem {
  import opened Wrappers
  import opened Lifecycle
  import opened LifecycleEffects

  /** A connection, its socket, the loop that owns it, and whether that loop has registered it. */
  datatype Entry = Entry(conn: Conn, fd: int, home: nat, registered: bool)

  datatype Item = Run(c: nat, cb: Callback) | Register(c: nat) | CloseAll | Barrier

  datatype Loop = Loop(
    queue: seq<Item>,
    active: seq<nat>,                   // connections inside whose callbacks the loop is, innermost first
    sweep: Option<seq<nat>>,            // closeAllConnections: the rest of the snapshot
    connections: map<int, nat>,         // by descriptor
    swept: bool,                        // the promise of closeAllConnections is kept
    drained: bool)                      // the promise of waitForPendingCallbacks is kept

  datatype Worker = Free | Busy(c: nat) | Posting(c: nat) | Exited

  /** How far Server::stop has come. */
  datatype Phase = Serving | PostingSweeps(n: nat) | Joining | PostingBarriers(n: nat) | Stopped

  datatype Sys = Sys(
    entries: map<nat, Entry>,
    loops: seq<Loop>,
    pool: seq<nat>,                     // connections whose task is in the pool's queue
    stopped: bool,
    workers: seq<Worker>,
    sessions: map<int, nat>,            // descriptor to the connection that logged in on it
    phase: Phase)

  datatype Move =
    | Accept(c: nat, fd: int, home: nat)
    | RunRegister(l: nat)
    | Act(c: nat, s: Step)
    | Login(c: nat)
    | RunCloseAll(l: nat, snapshot: seq<nat>)
    | SweepNext(l: nat)
    | SweepDone(l: nat)
    | RunBarrier(l: nat)
    | BeginStop
    | PostSweep
    | CloseQueue                        // all sweeps done: WorkThreadPool::stop sets the flag
    | WorkerExit(w: nat)
    | WorkersJoined
    | PostBarrier
    | AllDrained

  predicate AtRest(l: Loop) { l.active == [] && l.sweep.None? }

  /** The loop is inside a close callback: the business cleanup sends to other connections, and on
      their own loop thread these sends run on the spot. */
  predicate InCloseCallback(y: Sys, l: Loop) {
    && l.active != [] && l.active[0] in y.entries
    && (y.entries[l.active[0]].conn.pc.Cleanup? || y.entries[l.active[0]].conn.pc.Release?)
  }

  predicate MayStart(y: Sys, l: Loop, s: Step) { AtRest(l) || (s.LoopSend? && InCloseCallback(y, l)) }

  predicate Open(e: Entry) { !e.conn.core.state.Closed? }

  /** When connection `c` may take step `s` in the server. */
  predicate CanAct(y: Sys, c: nat, s: Step) {
    && c in y.entries && y.entries[c].registered && y.entries[c].home < |y.loops|
    && var e := y.entries[c];
       var l := y.loops[e.home];
       && Enabled(e.conn, s) && !s.StopPool?
       && (LoopStep(s) ==> if e.conn.pc.Idle? then MayStart(y, l, s) else l.active != [] && l.active[0] == c)
       && (s.RunCallback? ==> l.queue != [] && l.queue[0] == Run(c, e.conn.posted[0]))
       && (s.RunRelease? ==> e.fd in l.connections && l.connections[e.fd] == c)
       && (s.Fetch? ==> y.pool != [] && y.pool[0] == c && s.w < |y.workers| && y.workers[s.w].Free?)
       && (Actor(e.conn, s).Some? ==> Actor(e.conn, s).value < |y.workers|)
  }

  predicate Can(y: Sys, m: Move) {
    match m
    case Accept(c, fd, home) =>
      && y.phase.Serving? && c !in y.entries && home < |y.loops|
      && (forall d :: d in y.entries && Open(y.entries[d]) ==> y.entries[d].fd != fd)
    case RunRegister(l) =>
      && l < |y.loops| && AtRest(y.loops[l]) && y.loops[l].queue != [] && y.loops[l].queue[0].Register?
      && y.loops[l].queue[0].c in y.entries
    case Act(c, s) => CanAct(y, c, s)
    case Login(c) => c in y.entries && y.entries[c].conn.flights != [] && y.entries[c].conn.flights[0].Handling?
    case RunCloseAll(l, snapshot) =>
      && l < |y.loops| && AtRest(y.loops[l]) && y.loops[l].queue != [] && y.loops[l].queue[0].CloseAll?
      && (forall fd :: fd in y.loops[l].connections ==> y.loops[l].connections[fd] in snapshot)
      && (forall c :: c in snapshot ==> exists fd :: fd in y.loops[l].connections && y.loops[l].connections[fd] == c)
    case SweepNext(l) =>
      && l < |y.loops| && y.loops[l].active == [] && y.loops[l].sweep.Some? && y.loops[l].sweep.value != []
      && var c := y.loops[l].sweep.value[0]; c in y.entries && y.entries[c].conn.pc.Idle?
    case SweepDone(l) =>
      l < |y.loops| && y.loops[l].active == [] && y.loops[l].sweep == Some([])
    case RunBarrier(l) =>
      l < |y.loops| && AtRest(y.loops[l]) && y.loops[l].queue != [] && y.loops[l].queue[0].Barrier?
    case BeginStop => y.phase.Serving?
    case PostSweep => y.phase.PostingSweeps? && y.phase.n < |y.loops|
    case CloseQueue => y.phase == PostingSweeps(|y.loops|) && forall l :: 0 <= l < |y.loops| ==> y.loops[l].swept
    case WorkerExit(w) => y.stopped && y.pool == [] && w < |y.workers| && y.workers[w].Free?
    case WorkersJoined => y.phase.Joining? && forall w :: 0 <= w < |y.workers| ==> y.workers[w].Exited?
    case PostBarrier => y.phase.PostingBarriers? && y.phase.n < |y.loops|
    case AllDrained => y.phase == PostingBarriers(|y.loops|) && forall l :: 0 <= l < |y.loops| ==> y.loops[l].drained
  }

  function SetLoop(y: Sys, l: nat, loop: Loop): Sys
    requires l < |y.loops|
  {
    y.(loops := y.loops[l := loop])
  }

  function SetConn(y: Sys, c: nat, conn: Conn): Sys
    requires c in y.entries
  {
    y.(entries := y.entries[c := y.entries[c].(conn := conn)])
  }

  /** The loop's share of a connection step: its queue, its stack, and removeConnection's map. */
  function LoopAfter(l: Loop, c: nat, e: Entry, s: Step): Loop
    requires Enabled(e.conn, s) && (s.RunCallback? ==> l.queue != [])
    requires LoopStep(s) && !e.conn.pc.Idle? ==> l.active != []
  {
    var d := Apply(e.conn, s);
    var post := NewPost(e.conn, s);
    var outer := if e.conn.pc.Idle? then l.active else if LoopStep(s) then l.active[1..] else [];
    l.(queue := if s.RunCallback? then l.queue[1..] else if post.Some? then l.queue + [Run(c, post.value)] else l.queue,
       active := if !LoopStep(s) then l.active else if d.pc.Idle? then outer else [c] + outer,
       connections := if s.RunRelease? then l.connections - {e.fd} else l.connections)
  }

  /** What the acting worker does next. */
  function WorkerAfter(d: Conn, c: nat, w: nat): Worker {
    if Holder(d) == Some(w) then Busy(c) else if w in d.posting then Posting(c) else Free
  }

  function DoAct(y: Sys, c: nat, s: Step): Sys
    requires CanAct(y, c, s)
  {
    var e := y.entries[c];
    var d := Apply(e.conn, s);
    var actor := Actor(e.conn, s);
    Sys(y.entries[c := e.(conn := d)],
        y.loops[e.home := LoopAfter(y.loops[e.home], c, e, s)],
        if Submits(e.conn, s) then y.pool + [c] else if s.Fetch? then y.pool[1..] else y.pool,
        y.stopped,
        if actor.Some? then y.workers[actor.value := WorkerAfter(d, c, actor.value)] else y.workers,
        if s.RunCleanup? then y.sessions - {e.fd} else y.sessions,
        y.phase)
  }

  function Pushed(l: Loop, item: Item): Loop { l.(queue := l.queue + [item]) }

  function Do(y: Sys, m: Move): Sys
    requires Can(y, m)
  {
    match m
    case Accept(c, fd, home) =>
      SetLoop(y.(entries := y.entries[c := Entry(START.(stopped := y.stopped), fd, home, false)]),
              home, Pushed(y.loops[home], Register(c)))
    case RunRegister(l) =>
      var loop := y.loops[l];
      var c := loop.queue[0].c;
      var e := y.entries[c];
      SetLoop(y.(entries := y.entries[c := e.(registered := true)]), l,
              loop.(queue := loop.queue[1..], connections := loop.connections[e.fd := c]))
    case Act(c, s) => DoAct(y, c, s)
    case Login(c) => y.(sessions := y.sessions[y.entries[c].fd := c])
    case RunCloseAll(l, snapshot) =>
      SetLoop(y, l, y.loops[l].(queue := y.loops[l].queue[1..], sweep := Some(snapshot)))
    case SweepNext(l) =>
      var loop := y.loops[l];
      var c := loop.sweep.value[0];
      SetLoop(SetConn(y, c, Apply(y.entries[c].conn, CloseNow)), l,
              loop.(active := [c], sweep := Some(loop.sweep.value[1..])))
    case SweepDone(l) => SetLoop(y, l, y.loops[l].(sweep := None, swept := true))
    case RunBarrier(l) => SetLoop(y, l, y.loops[l].(queue := y.loops[l].queue[1..], drained := true))
    case BeginStop => y.(phase := PostingSweeps(0))
    case PostSweep => SetLoop(y, y.phase.n, Pushed(y.loops[y.phase.n], CloseAll)).(phase := PostingSweeps(y.phase.n + 1))
    case CloseQueue =>
      y.(stopped := true, phase := Joining,
         entries := map c | c in y.entries :: y.entries[c].(conn := Apply(y.entries[c].conn, StopPool)))
    case WorkerExit(w) => y.(workers := y.workers[w := Exited])
    case WorkersJoined => y.(phase := PostingBarriers(0))
    case PostBarrier =>
      SetLoop(y, y.phase.n, Pushed(y.loops[y.phase.n], Barrier)).(phase := PostingBarriers(y.phase.n + 1))
    case AllDrained => y.(phase := Stopped)
  }

  const NEW_LOOP := Loop([], [], None, map[], false, false)

  /** A server with `n` loops and `k` workers, before its first connection. */
  function Boot(n: nat, k: nat): Sys {
    Sys(map[], seq(n, _ => NEW_LOOP), [], false, seq(k, _ => Free), map[], Serving)
  }

  predicate LegalRun(n: nat, k: nat, run: seq<Move>)
    decreases |run|, 0
  {
    run == [] || (var i := |run| - 1; LegalRun(n, k, run[..i]) && Can(Reached(n, k, run[..i]), run[i]))
  }

  function Reached(n: nat, k: nat, run: seq<Move>): Sys
    requires LegalRun(n, k, run)
    decreases |run|, 1
  {
    if run == [] then Boot(n, k) else var i := |run| - 1; Do(Reached(n, k, run[..i]), run[i])
  }
}
