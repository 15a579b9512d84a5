/** What the server's moves do, seen from outside and in every run, and that a server serves: a connection
is accepted, its request reaches a handler, the handler logs it in, and the server can be stopped then. */
module ServerLaws {
  import opened Wrappers
  import opened Framing
  import opened ConnectionCore
  import opened Lifecycle
  import opened LifecycleProofs
  import opened LifecycleEffects
  import opened LifecycleLaws
  import opened ServerSystem
  import opened ServerProofs
  import opened ServerProgress

  lemma NextMove(n: nat, k: nat, run: seq<Move>, m: Move)
    requires LegalRun(n, k, run) && Can(Reached(n, k, run), m)
    ensures LegalRun(n, k, run + [m]) && Reached(n, k, run + [m]) == Do(Reached(n, k, run), m)
  {
    assert (run + [m])[..|run + [m]| - 1] == run;
  }

  // ----- what the moves do -----

  /** A new connection is known from its acceptance on, and its registration waits behind everything else
      on the loop chosen; nothing else changes. */
  lemma {:induction false} AcceptMoves(n: nat, k: nat, run: seq<Move>, c: nat, fd: int, home: nat)
    requires k > 0 && LegalRun(n, k, run) && Can(Reached(n, k, run), Accept(c, fd, home))
    ensures LegalRun(n, k, run + [Accept(c, fd, home)])
    ensures var y, z := Reached(n, k, run), Reached(n, k, run + [Accept(c, fd, home)]);
            && z.entries == y.entries[c := Entry(START, fd, home, false)]
            && z.loops == y.loops[home := y.loops[home].(queue := y.loops[home].queue + [Register(c)])]
            && z == y.(entries := z.entries, loops := z.loops)
  {
    NextMove(n, k, run, Accept(c, fd, home));
    ServerRunKeeps(n, k, run);
    NotStoppedYet(Reached(n, k, run));
    hide LegalRun, Reached;
  }

  lemma NotStoppedYet(y: Sys)
    requires SysInv(y) && y.phase.Serving?
    ensures !y.stopped && START.(stopped := y.stopped) == START
  {
    hide Entries, Queues, Workers, Pool, Sessions, Maps, SweepCovers, Barriers;
  }

  /** Registering makes the connection known under its descriptor on its loop, and lets it run. */
  lemma {:induction false} RegisterMoves(n: nat, k: nat, run: seq<Move>, l: nat)
    requires k > 0 && LegalRun(n, k, run) && Can(Reached(n, k, run), RunRegister(l))
    ensures LegalRun(n, k, run + [RunRegister(l)])
    ensures var y, z := Reached(n, k, run), Reached(n, k, run + [RunRegister(l)]);
            var c := y.loops[l].queue[0].c;
            && z.entries == y.entries[c := y.entries[c].(registered := true)]
            && z.loops == y.loops[l := y.loops[l].(queue := y.loops[l].queue[1..],
                                                   connections := y.loops[l].connections[y.entries[c].fd := c])]
            && z == y.(entries := z.entries, loops := z.loops)
  {
    NextMove(n, k, run, RunRegister(l));
    hide LegalRun, Reached;
  }

  /** A running handler can log its connection in: the descriptor's session is then this connection's, and
      nothing else changes. */
  lemma {:induction false} LoginBinds(n: nat, k: nat, run: seq<Move>, c: nat)
    requires LegalRun(n, k, run) && c in Reached(n, k, run).entries
    ensures var y := Reached(n, k, run);
            Can(y, Login(c)) <==> y.entries[c].conn.flights != [] && y.entries[c].conn.flights[0].Handling?
    ensures var y := Reached(n, k, run);
            Can(y, Login(c)) ==>
              LegalRun(n, k, run + [Login(c)])
              && Reached(n, k, run + [Login(c)]) == y.(sessions := y.sessions[y.entries[c].fd := c])
  {
    if Can(Reached(n, k, run), Login(c)) { NextMove(n, k, run, Login(c)); }
    hide LegalRun, Reached;
  }

  /** The business cleanup of a closing connection unbinds its descriptor's session, and no step unbinds or
      binds any other. */
  lemma {:induction false} CleanupUnbinds(n: nat, k: nat, run: seq<Move>, c: nat, s: Step)
    requires LegalRun(n, k, run) && Can(Reached(n, k, run), Act(c, s))
    ensures LegalRun(n, k, run + [Act(c, s)])
    ensures var y, z := Reached(n, k, run), Reached(n, k, run + [Act(c, s)]);
            z.sessions == if s == RunCleanup then y.sessions - {y.entries[c].fd} else y.sessions
  {
    NextMove(n, k, run, Act(c, s));
    hide LegalRun, Reached, Apply, LoopAfter, WorkerAfter;
  }

  /** Tasks enter the worker pool's queue at its end, unless the pool was stopped, and leave it at its head
      for a free worker. */
  lemma {:induction false} PoolIsFifo(n: nat, k: nat, run: seq<Move>, c: nat, s: Step)
    requires k > 0 && LegalRun(n, k, run) && Can(Reached(n, k, run), Act(c, s))
    ensures LegalRun(n, k, run + [Act(c, s)])
    ensures var y, z := Reached(n, k, run), Reached(n, k, run + [Act(c, s)]);
            && (s.LoopSubmit? || s.WorkerSubmit? ==> z.pool == if y.stopped then y.pool else y.pool + [c])
            && (s.Fetch? ==> y.pool == [c] + z.pool && y.workers[s.w].Free? && z.workers[s.w] == Busy(c))
            && (!s.LoopSubmit? && !s.WorkerSubmit? && !s.Fetch? ==> z.pool == y.pool)
  {
    var y := Reached(n, k, run);
    NextMove(n, k, run, Act(c, s));
    ServerRunKeeps(n, k, run);
    SameStopped(y, c);
    if s.Fetch? { FetchHolds(y, c, s); }
    hide LegalRun, Reached, SysInv;
    PoolMoves(y, c, s);
  }

  lemma PoolMoves(y: Sys, c: nat, s: Step)
    requires CanAct(y, c, s) && y.entries[c].conn.stopped == y.stopped
    requires s.Fetch? ==> Holder(Apply(y.entries[c].conn, s)) == Some(s.w)
    ensures var z := DoAct(y, c, s);
            && (s.LoopSubmit? || s.WorkerSubmit? ==> z.pool == if y.stopped then y.pool else y.pool + [c])
            && (s.Fetch? ==> y.pool == [c] + z.pool && y.workers[s.w].Free? && z.workers[s.w] == Busy(c))
            && (!s.LoopSubmit? && !s.WorkerSubmit? && !s.Fetch? ==> z.pool == y.pool)
  {
    hide Apply, LoopAfter, MayStart, Holder, Enabled;
    assert s.Fetch? ==> y.pool == [y.pool[0]] + y.pool[1..];
  }

  lemma SameStopped(y: Sys, c: nat)
    requires SysInv(y) && c in y.entries
    ensures y.entries[c].conn.stopped == y.stopped && Tokens(y.entries[c].conn)
  {
    hide Queues, Workers, Pool, Sessions, Maps, Sweeps, Barriers;
    assert EntryOk(y, c);
    InvParts(y.entries[c].conn);
    hide Inv;
  }

  lemma FetchHolds(y: Sys, c: nat, s: Step)
    requires CanAct(y, c, s) && s.Fetch? && Tokens(y.entries[c].conn)
    ensures Holder(Apply(y.entries[c].conn, s)) == Some(s.w)
  {
    hide MayStart;
  }

  /** A serving server can always be told to stop, once; from then on it accepts nothing, and its loops are
      told one after the other to close their connections. */
  lemma {:induction false} StopBegins(n: nat, k: nat, run: seq<Move>)
    requires LegalRun(n, k, run)
    ensures var y := Reached(n, k, run);
            && (Can(y, BeginStop) <==> y.phase.Serving?)
            && (!y.phase.Serving? ==> forall c, fd, home :: !Can(y, Accept(c, fd, home)))
            && (y.phase.Serving? ==>
                  LegalRun(n, k, run + [BeginStop]) && Reached(n, k, run + [BeginStop]) == y.(phase := PostingSweeps(0)))
            && (Can(y, PostSweep) ==>
                  var i, z := y.phase.n, Reached(n, k, run + [PostSweep]);
                  LegalRun(n, k, run + [PostSweep]) && i < |y.loops| && z.phase == PostingSweeps(i + 1)
                  && z.loops == y.loops[i := y.loops[i].(queue := y.loops[i].queue + [CloseAll])])
  {
    var y := Reached(n, k, run);
    if Can(y, BeginStop) { NextMove(n, k, run, BeginStop); }
    if Can(y, PostSweep) { NextMove(n, k, run, PostSweep); }
    hide LegalRun, Reached;
  }

  /** A sweep closes each connection it comes to that is still connected. */
  lemma {:induction false} SweepCloses(n: nat, k: nat, run: seq<Move>, l: nat)
    requires k > 0 && LegalRun(n, k, run) && Can(Reached(n, k, run), SweepNext(l))
    ensures var y := Reached(n, k, run);
            var c, more := y.loops[l].sweep.value[0], run + [SweepNext(l)];
            && LegalRun(n, k, more + [Act(c, SwapState)])
            && Reached(n, k, more + [Act(c, SwapState)]).loops[l].sweep == Some(y.loops[l].sweep.value[1..])
            && var d := Reached(n, k, more + [Act(c, SwapState)]).entries[c].conn;
               d.core.state == if y.entries[c].conn.core.state.Connected? then Closing else y.entries[c].conn.core.state
  {
    var y := Reached(n, k, run);
    var c := y.loops[l].sweep.value[0];
    NextMove(n, k, run, SweepNext(l));
    ServerRunKeeps(n, k, run);
    SweptIsHere(y, l);
    SwapAfterSweep(y, l);
    NextMove(n, k, run + [SweepNext(l)], Act(c, SwapState));
    hide LegalRun, Reached, SysInv, Do;
  }

  lemma SweptIsHere(y: Sys, l: nat)
    requires SysInv(y) && Can(y, SweepNext(l))
    ensures SweptHere(y.entries, l, y.loops[l].sweep.value[0])
  {
    hide Entries, Queues, Workers, Pool, Sessions, Maps, SweepPhases, Barriers;
    assert y.loops[l].sweep.value[0] in y.loops[l].sweep.value;
  }

  lemma SwapAfterSweep(y: Sys, l: nat)
    requires Can(y, SweepNext(l)) && SweptHere(y.entries, l, y.loops[l].sweep.value[0])
    ensures var c, z := y.loops[l].sweep.value[0], Do(y, SweepNext(l));
            && Can(z, Act(c, SwapState))
            && var x := Do(z, Act(c, SwapState));
               && x.loops[l].sweep == Some(y.loops[l].sweep.value[1..])
               && x.entries[c].conn.core.state ==
                  (if y.entries[c].conn.core.state.Connected? then Closing else y.entries[c].conn.core.state)
  {
    hide FrameStep, FlushSection, EncodeMessage, WorkerAfter;
  }

  // ----- a server serves -----

  /** A server with one registered connection, 0, on loop 0. */
  function Alone(n: nat, k: nat, fd: int, conn: Conn, pool: seq<nat>, worker: Worker): Sys
    requires n > 0 && k > 0
  {
    var y := Boot(n, k);
    y.(entries := map[0 := Entry(conn, fd, 0, true)],
       loops := y.loops[0 := NEW_LOOP.(connections := map[fd := 0], active := if conn.pc.Idle? then [] else [0])],
       pool := pool, workers := y.workers[0 := worker])
  }

  /** A loop step of that connection that posts nothing and is no part of a close. */
  lemma AloneActs(n: nat, k: nat, fd: int, conn: Conn, pool: seq<nat>, s: Step)
    requires n > 0 && k > 0 && Enabled(conn, s)
    requires s.ReadReady? || s.ParseNext? || s.EnqueueLock? || s.LoopSubmit? || s.FinishCheck?
    ensures var y := Alone(n, k, fd, conn, pool, Free);
            && Can(y, Act(0, s))
            && Do(y, Act(0, s)) == Alone(n, k, fd, Apply(conn, s), if Submits(conn, s) then pool + [0] else pool, Free)
  {
    hide Apply, Enabled;
    var y := Alone(n, k, fd, conn, pool, Free);
    NotIdleInside(conn, s);
    assert Can(y, Act(0, s));
    var z, d := DoAct(y, 0, s), Apply(conn, s);
    var want := Alone(n, k, fd, d, if Submits(conn, s) then pool + [0] else pool, Free);
    assert [0][1..] == [] && [0] + [] == [0];
    assert z.entries == want.entries;
    assert LoopAfter(y.loops[0], 0, y.entries[0], s) == want.loops[0];
    assert z.loops == want.loops;
  }

  lemma NotIdleInside(conn: Conn, s: Step)
    requires Enabled(conn, s)
    ensures !s.ReadReady? && (s.ParseNext? || s.EnqueueLock? || s.LoopSubmit? || s.FinishCheck?) ==> !conn.pc.Idle?
    ensures s.ReadReady? ==> conn.pc.Idle?
  {
  }

  ghost function ThenMove(n: nat, k: nat, run: seq<Move>, m: Move): (r: seq<Move>)
    requires LegalRun(n, k, run) && Can(Reached(n, k, run), m)
    ensures LegalRun(n, k, r) && Reached(n, k, r) == Do(Reached(n, k, run), m)
  {
    NextMove(n, k, run, m);
    run + [m]
  }

  /** The log of a connection whose one request was handed to the pool. */
  function Asked(m: Message): Log { START.log.(received := EncodeMessage(m), parsed := [m], work := WorkLog([m], [], [], false)) }

  const BUSY: Core := FRESH.(tasks := TaskSide(true, false, []))

  lemma Accepted(n: nat, k: nat, fd: int) returns (run: seq<Move>)
    requires n > 0 && k > 0
    ensures LegalRun(n, k, run) && Reached(n, k, run) == Alone(n, k, fd, START, [], Free)
  {
    run := ThenMove(n, k, [], Accept(0, fd, 0));
    var y := Reached(n, k, run);
    assert y.loops[0] == NEW_LOOP.(queue := [Register(0)]);
    run := ThenMove(n, k, run, RunRegister(0));
    hide LegalRun, Reached;
    assert [Register(0)][1..] == [];
    assert Do(y, RunRegister(0)).workers == Boot(n, k).workers[0 := Free];
  }

  /** One more step of it. */
  lemma AloneNext(n: nat, k: nat, fd: int, run: seq<Move>, conn: Conn, pool: seq<nat>, s: Step, next: Conn)
    returns (more: seq<Move>)
    requires n > 0 && k > 0 && LegalRun(n, k, run) && Reached(n, k, run) == Alone(n, k, fd, conn, pool, Free)
    requires Enabled(conn, s) && (s.ReadReady? || s.ParseNext? || s.EnqueueLock? || s.LoopSubmit? || s.FinishCheck?)
    requires Apply(conn, s) == next
    ensures LegalRun(n, k, more)
    ensures Reached(n, k, more) == Alone(n, k, fd, next, if Submits(conn, s) then pool + [0] else pool, Free)
  {
    hide *;
    AloneActs(n, k, fd, conn, pool, s);
    more := ThenMove(n, k, run, Act(0, s));
  }

  /** The connection's states on the way to the pool. */
  function JustRead(m: Message): Conn {
    START.(core := FRESH.(inBuf := EncodeMessage(m)), pc := Parsing, log := START.log.(received := EncodeMessage(m)))
  }

  function JustParsed(m: Message): Conn {
    START.(pc := Enqueueing(m), log := START.log.(received := EncodeMessage(m), parsed := [m]))
  }

  function JustEnqueued(m: Message): Conn {
    START.(core := BUSY, pc := LoopSubmitting, flights := [Submitting(LoopThread, m)], log := Asked(m))
  }

  function InQueue(m: Message, pc: Pc): Conn { START.(core := BUSY, pc := pc, flights := [InPool(m)], log := Asked(m)) }

  lemma FirstSteps(m: Message)
    requires Encodable(m)
    ensures Apply(START, ReadReady(EncodeMessage(m), Again)) == JustRead(m)
    ensures Apply(JustRead(m), ParseNext) == JustParsed(m)
  {
    FramingRoundTrip(m, []);
    hide EncodeMessage, FrameStep, Encodable;
    var b := EncodeMessage(m);
    assert b + [] == b == [] + b && b[|b|..] == [];
  }

  lemma LastSteps(m: Message)
    ensures Apply(JustParsed(m), EnqueueLock) == JustEnqueued(m)
    ensures Apply(JustEnqueued(m), LoopSubmit(0)) == InQueue(m, Parsing)
    ensures Apply(InQueue(m, Parsing), ParseNext) == InQueue(m, FinishTasks(ToIdle))
    ensures Apply(InQueue(m, FinishTasks(ToIdle)), FinishCheck) == InQueue(m, Idle)
  {
    FrameDecides([]);
    hide EncodeMessage, FrameStep;
  }

  lemma InPoolNow(n: nat, k: nat, fd: int, m: Message) returns (run: seq<Move>)
    requires n > 0 && k > 0 && Encodable(m)
    ensures LegalRun(n, k, run) && Reached(n, k, run) == Alone(n, k, fd, InQueue(m, Idle), [0], Free)
  {
    run := Accepted(n, k, fd);
    hide LegalRun, Reached, Alone, EncodeMessage, Encodable, Apply, Asked;
    FirstSteps(m);
    LastSteps(m);
    assert [] + [0] == [0];
    run := AloneNext(n, k, fd, run, START, [], ReadReady(EncodeMessage(m), Again), JustRead(m));
    run := AloneNext(n, k, fd, run, JustRead(m), [], ParseNext, JustParsed(m));
    run := AloneNext(n, k, fd, run, JustParsed(m), [], EnqueueLock, JustEnqueued(m));
    run := AloneNext(n, k, fd, run, JustEnqueued(m), [], LoopSubmit(0), InQueue(m, Parsing));
    run := AloneNext(n, k, fd, run, InQueue(m, Parsing), [0], ParseNext, InQueue(m, FinishTasks(ToIdle)));
    run := AloneNext(n, k, fd, run, InQueue(m, FinishTasks(ToIdle)), [0], FinishCheck, InQueue(m, Idle));
  }

  /** The request reaches a worker, whose handler logs the connection in. */
  lemma {:induction false} RequestIsHandled(n: nat, k: nat, fd: int, m: Message) returns (run: seq<Move>)
    requires n > 0 && k > 0 && Encodable(m)
    ensures LegalRun(n, k, run)
    ensures var y := Reached(n, k, run);
            && y.phase.Serving? && y.sessions == map[fd := 0] && y.entries.Keys == {0} && y.entries[0].fd == fd
            && y.entries[0].conn.log.received == EncodeMessage(m) && y.entries[0].conn.log.work.started == [m]
            && |y.workers| == k && y.workers[0] == Busy(0)
  {
    run := InPoolNow(n, k, fd, m);
    hide LegalRun, Reached, ThenMove, EncodeMessage, FrameStep, Encodable;
    var c := InQueue(m, Idle);
    FetchAlone(n, k, fd, c, m);
    run := ThenMove(n, k, run, Act(0, Fetch(0, 0)));
    run := ThenMove(n, k, run, Act(0, Begin(0)));
    run := ThenMove(n, k, run, Login(0));
  }

  lemma FetchAlone(n: nat, k: nat, fd: int, c: Conn, m: Message)
    requires n > 0 && k > 0 && c == InQueue(m, Idle)
    ensures var y := Alone(n, k, fd, c, [0], Free);
            && Can(y, Act(0, Fetch(0, 0)))
            && Do(y, Act(0, Fetch(0, 0))) == Alone(n, k, fd, c.(flights := [Fetched(Worker(0), m)]), [], Busy(0))
            && Can(Alone(n, k, fd, c.(flights := [Fetched(Worker(0), m)]), [], Busy(0)), Act(0, Begin(0)))
  {
    hide EncodeMessage;
    var y, d := Alone(n, k, fd, c, [0], Free), c.(flights := [Fetched(Worker(0), m)]);
    var z, want := DoAct(y, 0, Fetch(0, 0)), Alone(n, k, fd, d, [], Busy(0));
    assert [0][1..] == [] && Apply(c, Fetch(0, 0)) == d;
    assert z.entries == want.entries;
    assert z.loops == want.loops && z.workers == want.workers;
  }

  /** And such a server can be stopped: the stop comes through, with the connection closed once and its
      session gone. */
  lemma {:induction false} ServedAndStopped(n: nat, k: nat, fd: int, m: Message) returns (run: seq<Move>)
    requires n > 0 && k > 0 && Encodable(m)
    ensures LegalRun(n, k, run)
    ensures var y := Reached(n, k, run);
            && y.phase.Stopped? && y.sessions == map[] && 0 in y.entries
            && y.entries[0].conn.core.state.Closed? && y.entries[0].conn.log.closes == 1
  {
    run := RequestIsHandled(n, k, fd, m);
    assert Can(Reached(n, k, run), BeginStop);
    run := ThenMove(n, k, run, BeginStop);
    assert 0 in Reached(n, k, run).entries;
    var more := ShutdownCompletes(n, k, run);
    StaysKnown(n, k, run, more, 0);
    OrderedShutdown(n, k, more);
    run := more;
    hide *;
  }

  /** Connections are never forgotten. */
  lemma {:induction false} StaysKnown(n: nat, k: nat, run: seq<Move>, more: seq<Move>, c: nat)
    requires LegalRun(n, k, run) && LegalRun(n, k, more) && run <= more && c in Reached(n, k, run).entries
    ensures c in Reached(n, k, more).entries
    decreases |more|
  {
    if run != more {
      var i := |more| - 1;
      assert run <= more[..i];
      StaysKnown(n, k, run, more[..i], c);
      KnownNext(Reached(n, k, more[..i]), more[i], c);
      hide Can, Do;
    }
  }

  lemma KnownNext(y: Sys, m: Move, c: nat)
    requires Can(y, m) && c in y.entries
    ensures c in Do(y, m).entries
  {
    hide LoopAfter, WorkerAfter, Apply;
  }
}
