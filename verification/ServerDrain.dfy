/** A connection inside the server is a connection of module Lifecycle: what holds over all runs of one
connection holds for each connection of a server. The half-close drain becomes unconditional there,
since Server::stop closes all connections before it stops the pool. */
module ServerDrain {
  import opened Framing
  import opened Lifecycle
  import opened LifecycleProofs
  import opened LifecycleTheorems
  import opened LifecycleProgress
  import opened ServerSystem
  import opened ServerProofs

  /** What a move of the server does to connection `c`: nothing, or one step of its own. */
  lemma {:induction false} ConnectionMoves(y: Sys, m: Move, c: nat) returns (own: seq<Step>)
    requires SysInv(y) && Can(y, m) && c in Do(y, m).entries
    ensures c !in y.entries ==> Do(y, m).entries[c].conn == START
    ensures c in y.entries && own == [] ==> Do(y, m).entries[c].conn == y.entries[c].conn
    ensures c in y.entries && own != [] ==>
              |own| == 1 && Enabled(y.entries[c].conn, own[0]) && Do(y, m).entries[c].conn == Apply(y.entries[c].conn, own[0])
  {
    hide Entries, Queues, Workers, Pool, Sessions, Maps, SweepCovers, Barriers, Apply, LoopAfter, WorkerAfter, CanAct, DoAct;
    own := [];
    match m
    case Act(d, s) => ActMoves(y, d, s); if d == c { own := [s]; }
    case SweepNext(l) => if y.loops[l].sweep.value[0] == c { own := [CloseNow]; }
    case CloseQueue => own := [StopPool];
    case _ =>
  }

  lemma ActMoves(y: Sys, c: nat, s: Step)
    requires CanAct(y, c, s)
    ensures c in y.entries && Enabled(y.entries[c].conn, s)
    ensures forall d :: d in DoAct(y, c, s).entries ==>
              d in y.entries
              && DoAct(y, c, s).entries[d].conn == if d == c then Apply(y.entries[c].conn, s) else y.entries[d].conn
  {
    hide Apply, LoopAfter, WorkerAfter, Enabled;
  }

  /** Each connection of a server run has a legal run of its own that leads to the same state. */
  lemma {:induction false} ConnectionRun(n: nat, k: nat, run: seq<Move>, c: nat) returns (steps: seq<Step>)
    requires k > 0 && LegalRun(n, k, run) && c in Reached(n, k, run).entries
    ensures Legal(steps) && After(steps) == Reached(n, k, run).entries[c].conn
    decreases |run|
  {
    hide SysInv, Can, Do, Enabled, Apply;
    steps := [];
    if run != [] {
      var i := |run| - 1;
      var y := Reached(n, k, run[..i]);
      ServerRunKeeps(n, k, run[..i]);
      var own := ConnectionMoves(y, run[i], c);
      if c in y.entries {
        steps := ConnectionRun(n, k, run[..i], c);
        if own != [] { steps := Then(steps, own[0]); }
      }
    }
  }

  /** A connection that is still connected runs on a pool that accepts its tasks. */
  lemma ConnectedMeansAccepting(y: Sys, c: nat)
    requires SysInv(y) && c in y.entries && y.entries[c].conn.core.state.Connected?
    ensures !y.entries[c].conn.stopped
  {
    hide Inv, Queues, Workers, Pool, Sessions, Maps, Barriers, For;
    assert EntryOk(y, c);
    assert Covered(y.loops[y.entries[c].home], c, y.entries[c].conn);
  }

  lemma DrainingIsConnected(conn: Conn)
    requires Inv(conn) && conn.pc.Swap? && conn.pc.cause.Drained?
    ensures conn.core.state.Connected?
  {
    hide Tokens, CloseOnce, Fifo, Input, Sends, Output, Limits, Wakeup;
  }

  /** Half-close drain in the server, with no condition left: whatever else the server does, its stop
      included, an end-of-input check that closes a connection finds every frame received handled to the
      end, no task rejected, and every answer handed to the socket. */
  lemma {:induction false} ServerHalfCloseDrain(n: nat, k: nat, run: seq<Move>, c: nat)
    requires k > 0 && LegalRun(n, k, run) && c in Reached(n, k, run).entries
    requires var pc := Reached(n, k, run).entries[c].conn.pc; pc.Swap? && pc.cause.Drained?
    ensures var log := Reached(n, k, run).entries[c].conn.log;
            && !log.work.skipped
            && log.work.finished == Decode(log.received).out && !Decode(log.received).failed
            && Own(log.delivered) == log.produced && log.sent == EncodeAll(Messages(log.delivered))
  {
    var steps := ConnectionRun(n, k, run, c);
    ServerRunKeeps(n, k, run);
    RunKeeps(steps);
    hide *;
    DrainingIsConnected(After(steps));
    ConnectedMeansAccepting(Reached(n, k, run), c);
    HalfCloseDrain(steps);
    AcceptingRejectsNone(After(steps));
  }
}
