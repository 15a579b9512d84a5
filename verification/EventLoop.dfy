/** The event loop, the worker queue and the loop pool as objects, tied to the server model: an object
shows a loop of the model, or its worker queue, when its fields hold the same, and each method takes
an object that shows the state before a move to one that shows the state after it. */
module EventLoopObject {
  import opened Wrappers
  import opened ConnectionCore
  import opened ConnectionObject
  import opened Lifecycle
  import opened LifecycleEffects
  import opened ServerSystem

  /** The order in which a scan meets the entries of an unordered map. */
  predicate Traverses<T>(order: seq<int>, m: map<int, T>) {
    (forall k :: 0 <= k < |order| ==> order[k] in m) && forall fd :: fd in m ==> fd in order
  }

  /** What the release step leaves of its loop. */
  lemma ReleaseOnLoop(y: Sys, c: nat)
    ensures CanAct(y, c, RunRelease) ==>
            var e := y.entries[c];
            var l := y.loops[e.home];
            && e.fd in l.connections && l.connections[e.fd] == c
            && DoAct(y, c, RunRelease).loops[e.home].queue == l.queue
            && DoAct(y, c, RunRelease).loops[e.home].connections == l.connections - {e.fd}
  {
  }

  class EventLoop {
    var taskQueue: seq<Item>                // filled by any thread, under the lock
    var tasks: seq<Item>                    // the rest of the batch being run by the loop thread
    var channels: set<int>                  // descriptors registered with epoll
    var connections: map<int, Connection>
    var pendingConnections: seq<Connection> // closed in this round, destroyed in the next

    constructor ()
      ensures Shows(NEW_LOOP) && channels == {} && pendingConnections == []
    {
      taskQueue, tasks, channels, connections, pendingConnections := [], [], {}, map[], [];
    }

    /** What the loop will run, in order. */
    function Waiting(): seq<Item>
      reads this
    {
      tasks + taskQueue
    }

    ghost function Ids(): map<int, nat>
      reads this
    {
      map fd | fd in connections :: connections[fd].id
    }

    ghost predicate Shows(l: Loop)
      reads this
    {
      l.queue == Waiting() && l.connections == Ids()
    }

    /** On the loop thread the callback runs at once; from another thread it is queued last. */
    method RunInLoop(item: Item, inLoopThread: bool, ghost l: Loop) returns (runNow: bool)
      requires Shows(l)
      modifies this`taskQueue
      ensures runNow == inLoopThread && Shows(if inLoopThread then l else Pushed(l, item))
    {
      if inLoopThread { return true; }
      taskQueue := taskQueue + [item];
      runNow := false;
      assert tasks + taskQueue == old(Waiting()) + [item];
    }

    /** Wakeup: the whole queue becomes the batch; what is posted meanwhile comes after it. */
    method SwapTasks(ghost l: Loop)
      requires Shows(l) && tasks == []
      modifies this`tasks, this`taskQueue
      ensures Shows(l) && tasks == l.queue && taskQueue == []
    {
      tasks, taskQueue := taskQueue, [];
    }

    /** The next callback is the head of the model's queue. */
    method NextTask(ghost l: Loop) returns (item: Item)
      requires Shows(l) && tasks != []
      modifies this`tasks
      ensures l.queue != [] && item == l.queue[0] && Shows(l.(queue := l.queue[1..]))
    {
      item := tasks[0];
      tasks := tasks[1..];
      assert l.queue == [item] + Waiting();
    }

    /** A queued submission: the new connection's channel and the connection are registered. */
    method RegisterConnection(fd: int, conn: Connection, ghost y: Sys, ghost l: nat)
      requires Can(y, RunRegister(l)) && Shows(y.loops[l]) && tasks != []
      requires conn.id == y.loops[l].queue[0].c && fd == y.entries[conn.id].fd
      modifies this`tasks, this`channels, this`connections
      ensures Shows(Do(y, RunRegister(l)).loops[l]) && fd in channels
    {
      var _ := NextTask(y.loops[l]);
      channels := channels + {fd};
      connections := connections[fd := conn];
    }

    /** A queued closeAllConnections copies the connections before closing any; `order` is the order in
        which the map is traversed. Its snapshot is one the model's sweep can start with. */
    method StartSweep(order: seq<int>, ghost y: Sys, ghost l: nat) returns (snapshot: seq<Connection>)
      requires l < |y.loops| && AtRest(y.loops[l]) && y.loops[l].queue != [] && y.loops[l].queue[0].CloseAll?
      requires Shows(y.loops[l]) && tasks != [] && Traverses(order, connections)
      modifies this`tasks
      ensures var ids := seq(|snapshot|, i requires 0 <= i < |snapshot| => snapshot[i].id);
              Can(y, RunCloseAll(l, ids)) && Shows(Do(y, RunCloseAll(l, ids)).loops[l])
      ensures |snapshot| == |order|
    {
      var _ := NextTask(y.loops[l]);
      snapshot := Snapshot(order);
      ghost var ids := seq(|snapshot|, i requires 0 <= i < |snapshot| => snapshot[i].id);
      forall fd | fd in y.loops[l].connections ensures y.loops[l].connections[fd] in ids {
        var k :| 0 <= k < |order| && order[k] == fd;
        assert ids[k] == connections[fd].id;
      }
      forall c | c in ids ensures exists fd :: fd in y.loops[l].connections && y.loops[l].connections[fd] == c {
        var k :| 0 <= k < |ids| && ids[k] == c;
        var fd := order[k];
        assert fd in y.loops[l].connections && y.loops[l].connections[fd] == c;
      }
    }

    method Snapshot(order: seq<int>) returns (snapshot: seq<Connection>)
      requires Traverses(order, connections)
      ensures |snapshot| == |order| && forall k :: 0 <= k < |order| ==> snapshot[k] == connections[order[k]]
    {
      snapshot := [];
      for i := 0 to |order|
        invariant |snapshot| == i && forall k :: 0 <= k < i ==> snapshot[k] == connections[order[k]]
      {
        var fd := order[i];
        assert fd in connections;
        snapshot := snapshot + [connections[fd]];
      }
    }

    /** A queued barrier only keeps its promise. */
    method PassBarrier(ghost y: Sys, ghost l: nat)
      requires Can(y, RunBarrier(l)) && Shows(y.loops[l]) && tasks != []
      modifies this`tasks
      ensures Shows(Do(y, RunBarrier(l)).loops[l])
    {
      var _ := NextTask(y.loops[l]);
    }

    method RemoveChannel(fd: int)
      modifies this`channels
      ensures channels == old(channels) - {fd}
    {
      channels := channels - {fd};
    }

    /** Channel and connection go, whether or not the channel had gone before: the connection is closed,
        kept until the next round, and no longer known under its descriptor. On a loop that shows the
        model's this is the release step of connection `c`. */
    method RemoveConnection(fd: int, ghost y: Sys, ghost c: nat)
      requires fd in connections ==> connections[fd].Valid()
      modifies this`channels, this`connections, this`pendingConnections
      modifies if fd in connections then {connections[fd]} else {}
      ensures channels == old(channels) - {fd} && connections == old(connections) - {fd} && Waiting() == old(Waiting())
      ensures fd !in old(connections) ==> pendingConnections == old(pendingConnections)
      ensures fd in old(connections) ==>
                var conn := old(connections[fd]);
                && conn.Valid() && conn.Abs() == old(connections[fd].Abs()).(state := Closed)
                && pendingConnections == old(pendingConnections) + [conn]
      ensures CanAct(y, c, RunRelease) && fd == y.entries[c].fd && old(Shows(y.loops[y.entries[c].home])) ==>
                Shows(DoAct(y, c, RunRelease).loops[y.entries[c].home])
                && fd in old(connections) && old(connections)[fd].id == c
    {
      hide CanAct, DoAct;
      if fd in channels { RemoveChannel(fd); }
      if fd in connections {
        var conn := connections[fd];
        var _ := conn.FinishClose();
        pendingConnections := pendingConnections + [conn];
        connections := connections - {fd};
      }
      ReleaseOnLoop(y, c);
      assert Ids() == old(Ids()) - {fd};
    }

    /** The idle scan: exactly the descriptors idle for more than the limit. */
    method IdleConnections(order: seq<int>, idleSeconds: map<int, int>, limit: int) returns (fds: seq<int>)
      requires Traverses(order, connections) && connections.Keys <= idleSeconds.Keys
      ensures forall fd :: fd in fds <==> fd in connections && idleSeconds[fd] > limit
    {
      fds := [];
      for i := 0 to |order|
        invariant forall fd :: fd in fds <==> fd in order[..i] && fd in connections && idleSeconds[fd] > limit
      {
        var fd := order[i];
        assert fd in connections;
        if idleSeconds[fd] > limit {
          fds := fds + [fd];
        }
        assert order[..i + 1] == order[..i] + [fd];
      }
      assert order[..|order|] == order;
    }
  }

  /** The worker pool's queue; a task is named by its connection. */
  class TaskQueue {
    var queue: seq<nat>
    var stopped: bool

    constructor ()
      ensures queue == [] && !stopped
    {
      queue, stopped := [], false;
    }

    ghost predicate Shows(y: Sys)
      reads this
    {
      queue == y.pool && stopped == y.stopped
    }

    /** A submission by the loop or by a worker: pushed, or rejected and left with the caller. */
    method TryPush(task: nat, ghost y: Sys, ghost s: Step) returns (accepted: bool)
      requires Shows(y) && CanAct(y, task, s) && (s.LoopSubmit? || s.WorkerSubmit?)
      requires y.entries[task].conn.stopped == y.stopped
      modifies this`queue
      ensures Shows(DoAct(y, task, s)) && accepted == Submits(y.entries[task].conn, s)
    {
      if stopped { return false; }
      queue := queue + [task];
      accepted := true;
    }

    /** What a worker gets when its wait is over: a task, which it fetches in the model, or nothing once
        the queue is stopped and empty, on which it exits. */
    method Pop(ghost y: Sys) returns (task: Option<nat>)
      requires Shows(y) && (stopped || queue != [])
      modifies this`queue
      ensures task.None? ==> Shows(y) && forall w: nat :: w < |y.workers| && y.workers[w].Free? ==> Can(y, WorkerExit(w))
      ensures task.Some? ==> y.pool == [task.value] + queue
      ensures forall c: nat, s :: CanAct(y, c, s) && s.Fetch? ==> task == Some(c) && Shows(DoAct(y, c, s))
    {
      if stopped && queue == [] { return None; }
      task := Some(queue[0]);
      queue := queue[1..];
    }

    method Stop(ghost y: Sys)
      requires Shows(y) && Can(y, CloseQueue)
      modifies this`stopped
      ensures Shows(Do(y, CloseQueue))
    {
      stopped := true;
    }
  }

  class IoThreadPool {
    const loops: seq<EventLoop>
    var next: nat

    constructor (loops: seq<EventLoop>)
      requires |loops| > 0
      ensures this.loops == loops && next == 0
    {
      this.loops := loops;
      next := 0;
    }

    ghost predicate Valid()
      reads this
    {
      |loops| > 0 && forall i, j :: 0 <= i < j < |loops| ==> loops[i] != loops[j]
    }

    ghost predicate Shows(ls: seq<Loop>)
      reads this, loops
    {
      |ls| == |loops| && forall i :: 0 <= i < |loops| ==> loops[i].Shows(ls[i])
    }

    /** submit: loops take new connections in turn; the registration is queued as in the model. */
    method Submit(c: nat, fd: int, ghost y: Sys) returns (home: nat)
      requires Valid() && Shows(y.loops) && Can(y, Accept(c, fd, next % |loops|))
      modifies this, loops
      ensures home == old(next) % |loops| && next == old(next) + 1
      ensures Shows(Do(y, Accept(c, fd, home)).loops)
    {
      home := next % |loops|;
      next := next + 1;
      var _ := loops[home].RunInLoop(Register(c), false, y.loops[home]);
    }

    /** One item to every loop: the sweeps of closeAllConnections, the barriers of
        waitForPendingCallbacks. Each goes behind everything queued before it. */
    method PostToAll(item: Item, ghost ls: seq<Loop>)
      requires Valid() && Shows(ls)
      modifies loops
      ensures Shows(seq(|ls|, i requires 0 <= i < |ls| => Pushed(ls[i], item)))
    {
      for i := 0 to |loops|
        invariant forall k :: 0 <= k < i ==> loops[k].Shows(Pushed(ls[k], item))
        invariant forall k :: i <= k < |loops| ==> loops[k].Shows(ls[k])
      {
        var _ := loops[i].RunInLoop(item, false, ls[i]);
      }
    }
  }
}
