/** The queue between message handlers and the database writer thread. */
module WriteBehind {
  import opened Streaming

  const MAX_QUEUE_SIZE: nat := 500000
  const BATCH_MAX_SIZE: nat := 2000

  datatype Record = Record(room: nat, user: nat, content: Bytes)

  /** Where the writer thread is: waiting for the lock, or after it with a batch in hand (and the
      decision to exit), or gone. */
  datatype Writer = Waiting | Writing(exiting: bool) | Exited

  /** `accepted` and `calls` record the history; `handed` lists the batches given to the insert;
      `atExit` is how much had been accepted when the writer decided to exit. */
  datatype Log = Log(
    queue: seq<Record>, batch: seq<Record>, writer: Writer, stop: bool, dropped: nat,
    accepted: seq<Record>, calls: nat, handed: seq<seq<Record>>, atExit: nat)

  const START := Log([], [], Waiting, false, 0, [], 0, [], 0)

  datatype Step = Enqueue(m: Record) | Stop | Take | Write

  predicate Can(g: Log, s: Step) {
    match s
    case Enqueue(_) => true
    case Stop => true
    case Take => g.writer == Waiting
    case Write => g.writer.Writing?
  }

  function Least(a: nat, b: nat): nat { if a <= b then a else b }

  /** How many records move from the queue to the batch. */
  function Quota(queue: seq<Record>, batch: seq<Record>): (n: nat)
    ensures n <= |queue|
  {
    if |batch| >= BATCH_MAX_SIZE then 0 else Least(|queue|, BATCH_MAX_SIZE - |batch|)
  }

  function Do(g: Log, s: Step): Log
    requires Can(g, s)
  {
    match s
    case Enqueue(m) =>
      if |g.queue| >= MAX_QUEUE_SIZE then g.(dropped := g.dropped + 1, calls := g.calls + 1)
      else g.(queue := g.queue + [m], accepted := g.accepted + [m], calls := g.calls + 1)
    case Stop => g.(stop := true)
    case Take =>
      var n := Quota(g.queue, g.batch);
      var queue, batch := g.queue[n..], g.batch + g.queue[..n];
      var exiting := g.stop && queue == [] && batch == [];
      g.(queue := queue, batch := batch, writer := Writing(exiting), atExit := if exiting then |g.accepted| else g.atExit)
    case Write =>
      g.(handed := if g.batch == [] then g.handed else g.handed + [g.batch], batch := [],
         writer := if g.writer.exiting then Exited else Waiting)
  }

  ghost predicate Legal(steps: seq<Step>)
    decreases |steps|, 0
  {
    steps == [] || (Legal(steps[..|steps| - 1]) && Can(After(steps[..|steps| - 1]), steps[|steps| - 1]))
  }

  ghost function After(steps: seq<Step>): Log
    requires Legal(steps)
    decreases |steps|, 1
  {
    if steps == [] then START else Do(After(steps[..|steps| - 1]), steps[|steps| - 1])
  }

  function Concat(batches: seq<seq<Record>>): seq<Record> {
    if batches == [] then [] else Concat(batches[..|batches| - 1]) + batches[|batches| - 1]
  }

  predicate Flows(g: Log) {
    && Concat(g.handed) + g.batch + g.queue == g.accepted
    && |g.accepted| + g.dropped == g.calls
    && |g.queue| <= MAX_QUEUE_SIZE && |g.batch| <= BATCH_MAX_SIZE
    && (forall i :: 0 <= i < |g.handed| ==> 0 < |g.handed[i]| <= BATCH_MAX_SIZE)
  }

  predicate ExitsClean(g: Log) {
    && (!g.writer.Writing? ==> g.batch == [])
    && (g.writer == Exited || g.writer == Writing(true) ==>
          g.stop && g.batch == [] && g.atExit <= |g.accepted| && Concat(g.handed) == g.accepted[..g.atExit])
  }

  lemma StepKeeps(g: Log, s: Step)
    requires Flows(g) && ExitsClean(g) && Can(g, s)
    ensures Flows(Do(g, s)) && ExitsClean(Do(g, s))
  {
    hide Flows, ExitsClean, Do;
    match s
    case Enqueue(m) => EnqueueKeeps(g, m);
    case Stop => StopKeeps(g);
    case Take => TakeKeeps(g);
    case Write => WriteKeeps(g);
  }

  lemma EnqueueKeeps(g: Log, m: Record)
    requires Flows(g) && ExitsClean(g)
    ensures Flows(Do(g, Enqueue(m))) && ExitsClean(Do(g, Enqueue(m)))
  {
    hide Concat;
    assert Concat(g.handed) + g.batch + (g.queue + [m]) == (Concat(g.handed) + g.batch + g.queue) + [m];
  }

  lemma StopKeeps(g: Log)
    requires Flows(g) && ExitsClean(g)
    ensures Flows(Do(g, Stop)) && ExitsClean(Do(g, Stop))
  {
    hide Concat;
  }

  lemma TakeKeeps(g: Log)
    requires Flows(g) && ExitsClean(g) && Can(g, Take)
    ensures Flows(Do(g, Take)) && ExitsClean(Do(g, Take))
  {
    hide Concat;
    var n := Quota(g.queue, g.batch);
    assert Concat(g.handed) + (g.batch + g.queue[..n]) + g.queue[n..] == Concat(g.handed) + g.batch + g.queue;
    assert g.accepted[..|g.accepted|] == g.accepted && Concat(g.handed) + [] + [] == Concat(g.handed);
  }

  lemma WriteKeeps(g: Log)
    requires Flows(g) && ExitsClean(g) && Can(g, Write)
    ensures Flows(Do(g, Write)) && ExitsClean(Do(g, Write))
  {
    ConcatPush(g.handed, g.batch);
    hide Concat;
    assert Concat(g.handed) + [] + g.queue == Concat(g.handed) + g.queue;
    assert Concat(g.handed) + g.batch + [] + g.queue == Concat(g.handed) + g.batch + g.queue;
  }

  lemma ConcatPush(batches: seq<seq<Record>>, b: seq<Record>)
    ensures Concat(batches + [b]) == Concat(batches) + b
  {
    assert (batches + [b])[..|batches|] == batches;
  }

  lemma {:induction false} RunKeeps(steps: seq<Step>)
    requires Legal(steps)
    ensures Flows(After(steps)) && ExitsClean(After(steps))
  {
    if steps != [] {
      RunKeeps(steps[..|steps| - 1]);
      StepKeeps(After(steps[..|steps| - 1]), steps[|steps| - 1]);
    }
  }

  /** In every run: batches handed to the insert, then the current batch, then the queue are the
      accepted messages in order; every call was accepted or counted as dropped; queue and batches
      keep their limits. */
  lemma {:induction false} NothingLost(steps: seq<Step>)
    requires Legal(steps)
    ensures var g := After(steps);
            && Concat(g.handed) + g.batch + g.queue == g.accepted
            && |g.accepted| + g.dropped == g.calls
            && |g.queue| <= 500000 && |g.batch| <= 2000
            && forall i :: 0 <= i < |g.handed| ==> 0 < |g.handed[i]| <= 2000
  {
    RunKeeps(steps);
  }

  /** The writer has exited only after the stop, with everything accepted up to its decision handed
      over; so all accepted messages were handed over exactly when none was accepted since. */
  lemma {:induction false} CleanExit(steps: seq<Step>)
    requires Legal(steps) && After(steps).writer == Exited
    ensures var g := After(steps);
            && g.stop && g.atExit <= |g.accepted|
            && Concat(g.handed) == g.accepted[..g.atExit] && g.queue == g.accepted[g.atExit..]
            && (Concat(g.handed) == g.accepted <==> g.atExit == |g.accepted|)
  {
    RunKeeps(steps);
    var g := After(steps);
    assert g.accepted == Concat(g.handed) + g.queue;
  }

  /** No message is offered once the stop was requested. */
  predicate QuietAfterStop(steps: seq<Step>) {
    forall i, j :: 0 <= i < j < |steps| && steps[i].Stop? ==> !steps[j].Enqueue?
  }

  lemma {:induction false} StopSeen(steps: seq<Step>)
    requires Legal(steps)
    ensures After(steps).stop <==> Stop in steps
  {
    if steps != [] {
      var n := |steps| - 1;
      StopSeen(steps[..n]);
      assert steps == steps[..n] + [steps[n]];
    }
  }

  predicate DecidedOnAll(g: Log) {
    g.writer == Exited || g.writer == Writing(true) ==> g.atExit == |g.accepted| && g.queue == []
  }

  lemma {:induction false} QuietRunKeeps(steps: seq<Step>)
    requires Legal(steps) && QuietAfterStop(steps)
    ensures DecidedOnAll(After(steps))
  {
    if steps != [] {
      var n := |steps| - 1;
      QuietRunKeeps(steps[..n]);
      RunKeeps(steps[..n]);
      StopSeen(steps[..n]);
      hide Concat;
    }
  }

  /** If nothing is offered after the stop, a writer that has exited has handed over everything that
      was ever accepted, in order. */
  lemma {:induction false} QuietExit(steps: seq<Step>)
    requires Legal(steps) && QuietAfterStop(steps) && After(steps).writer == Exited
    ensures Concat(After(steps).handed) == After(steps).accepted && After(steps).queue == []
  {
    QuietRunKeeps(steps);
    CleanExit(steps);
  }

  ghost function Then(steps: seq<Step>, s: Step): (r: seq<Step>)
    requires Legal(steps) && Can(After(steps), s)
    ensures Legal(r) && After(r) == Do(After(steps), s)
  {
    assert (steps + [s])[..|steps + [s]| - 1] == steps;
    steps + [s]
  }

  /** A message can still be accepted after the writer has gone, and is then never written. */
  lemma LateMessageStays(m: Record) returns (steps: seq<Step>)
    ensures Legal(steps)
    ensures var g := After(steps); g.writer == Exited && g.accepted == [m] && g.handed == [] && g.queue == [m]
  {
    steps := Then([], Stop);
    steps := Then(steps, Take);
    steps := Then(steps, Write);
    steps := Then(steps, Enqueue(m));
  }

  /** Once stopped and with no further calls, the writer is done after a bounded number of rounds:
      each round hands over a batch or is the last. */
  lemma RoundsDecrease(g: Log)
    requires g.stop && g.writer == Waiting && g.batch == []
    ensures var h := Do(Do(g, Take), Write);
            if g.queue == [] then h.writer == Exited
            else
              var n := if |g.queue| <= 2000 then |g.queue| else 2000;
              h.writer == Waiting && h.queue == g.queue[n..] && |h.queue| < |g.queue| && h.handed == g.handed + [g.queue[..n]]
  {
    assert [] + g.queue[..Quota(g.queue, [])] == g.queue[..Quota(g.queue, [])];
  }

  /** A message is accepted, last in the queue, exactly while fewer than 500000 wait; otherwise it is dropped,
      and counted. */
  lemma {:induction false} AcceptedIff(steps: seq<Step>, m: Record)
    requires Legal(steps)
    ensures var g, h := After(steps), Do(After(steps), Enqueue(m));
            if |g.queue| < 500000 then
              h.queue == g.queue + [m] && h.accepted == g.accepted + [m] && h.dropped == g.dropped
            else
              h.queue == g.queue && h.accepted == g.accepted && h.dropped == g.dropped + 1
  {
  }

  // ----- the queue object -----

  class MessageQueue {
    var queue: seq<Record>
    var batch: seq<Record>
    var stop: bool
    var dropped: nat

    constructor ()
      ensures queue == [] && batch == [] && !stop && dropped == 0
    {
      queue, batch, stop, dropped := [], [], false, 0;
    }

    /** The fields are those of the log `g`. */
    ghost predicate Shows(g: Log)
      reads this
    {
      queue == g.queue && batch == g.batch && stop == g.stop && dropped == g.dropped
    }

    method EnqueueMessage(m: Record, ghost g: Log)
      requires Shows(g)
      modifies this`queue, this`dropped
      ensures Shows(Do(g, Enqueue(m)))
      ensures if |old(queue)| >= 500000 then queue == old(queue) && dropped == old(dropped) + 1
              else queue == old(queue) + [m] && dropped == old(dropped)
    {
      if |queue| >= MAX_QUEUE_SIZE {
        dropped := dropped + 1;
        return;
      }
      queue := queue + [m];
    }

    /** The writer's section under the lock: takes a batch and decides whether to exit. */
    method TakeBatch(ghost g: Log) returns (shouldExit: bool)
      requires Shows(g) && Can(g, Take)
      modifies this`queue, this`batch
      ensures Shows(Do(g, Take)) && Do(g, Take).writer == Writing(shouldExit)
      ensures shouldExit == (stop && queue == [] && batch == [])
    {
      ghost var taken := 0;
      while queue != [] && |batch| < BATCH_MAX_SIZE
        invariant taken <= Quota(old(queue), old(batch))
        invariant queue == old(queue)[taken..] && batch == old(batch) + old(queue)[..taken]
        decreases |queue|
      {
        batch := batch + [queue[0]];
        queue := queue[1..];
        taken := taken + 1;
      }
      assert taken == Quota(old(queue), old(batch));
      shouldExit := stop && queue == [] && batch == [];
    }

    /** After unlocking: the batch goes to the insert, whatever the insert answers. */
    method HandOver(ghost g: Log) returns (handed: seq<Record>)
      requires Shows(g) && Can(g, Write)
      modifies this`batch
      ensures Shows(Do(g, Write)) && handed == old(batch)
      ensures Do(g, Write).handed == g.handed + (if handed == [] then [] else [handed])
    {
      handed := batch;
      batch := [];
    }

    method RequestStop(ghost g: Log)
      requires Shows(g)
      modifies this`stop
      ensures Shows(Do(g, Stop))
    {
      stop := true;
    }
  }
}
