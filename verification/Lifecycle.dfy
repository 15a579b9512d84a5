/** One connection under every interleaving of its loop thread, the workers and other threads.

Each step is one atomic operation: a critical section, an atomic counter update, a queue push or
pop, or a stretch of code that only touches loop-thread data. Sequential consistency is assumed. */
module Lifecycle {
  import opened Streaming
  import opened Framing
  import opened ConnectionCore

  datatype Owner = LoopThread | Worker(w: nat)

  /** One sendResponse call; `own` when this connection's own handler makes it. */
  datatype Send = Send(own: bool, r: Message)

  /** A task between leaving `pendingTasks_` and its completion lock section. */
  datatype Flight =
    | Submitting(owner: Owner, t: Message)        // before tryPush
    | InPool(t: Message)                          // in the worker pool's queue
    | Fetched(owner: Owner, t: Message)           // popped, isConnected not yet tested
    | Handling(owner: Owner, t: Message)          // inside the business handler
    | Responding(owner: Owner, t: Message, r: Message) // in sendResponse: counted, not yet posted
    | Completing(owner: Owner, t: Message)        // before onTaskComplete's lock

  datatype Callback = SendCb(send: Send) | CheckCb | FinalCb | CloseCb

  /** What a worker past the completion lock may still have to post. */
  type FollowUpCb = cb: Callback | cb.CheckCb? || cb.FinalCb? witness CheckCb

  /** Where the loop thread continues after a nested call. */
  datatype Back = ToIdle | ToParse | ToFinish

  /** Why handleClose was called. */
  datatype Cause = Drained | Fault | HighWater | Requested

  datatype Pc =
    | Idle
    | Parsing
    | Enqueueing(t: Message)
    | LoopSubmitting
    | LoopCompleting
    | FinishTasks(back: Back)                     // maybeFinishAfterPeerEof, condition 1
    | FinishSends(back: Back)                     // condition 2
    | FinishQueue(back: Back)                     // condition 3
    | FinishOutput(back: Back)                    // condition 4
    | Swap(cause: Cause, back: Back)              // handleClose, the CAS
    | CloseTasks(back: Back)                      // handleClose, task section
    | CloseBuffers(deferred: bool, back: Back)    // handleClose, send section and buffers
    | Cleanup(back: Back)                         // close callback: business cleanup
    | Release(back: Back)                         // close callback: removeConnection, finishClose
    | SendStart(send: Send)                       // send callback, before the counter decrement
    | Delivering(send: Send)
    | Flushing

  /** What became of the tasks. */
  datatype WorkLog = WorkLog(
    popped: seq<Message>,                         // taken out of the pending queue, in order
    started: seq<Message>,                        // handler invocations, in order
    finished: seq<Message>,                       // handlers that returned, in order
    skipped: bool)                                // some popped task never reached its handler

  /** What has happened so far; no step reads it. */
  datatype Log = Log(
    received: Bytes,
    parsed: seq<Message>,                         // handed to enqueueTask, in parse order
    work: WorkLog,
    produced: seq<Message>,                       // responses of this connection's own handlers
    delivered: seq<Send>,                         // encoded and queued for output, in callback order
    sent: Bytes,                                  // accepted by the socket
    closes: nat)                                  // runs of the close callback

  datatype Conn = Conn(
    core: Core,
    pc: Pc,
    flights: seq<Flight>,
    posting: map<nat, FollowUpCb>,                // workers past the lock, about to post
    transit: nat,                                 // other threads inside sendResponse
    posted: seq<Callback>,                        // this connection's callbacks in the loop's queue
    stopped: bool,                                // the worker pool rejects submissions
    log: Log)

  datatype ReadEnd = Again | Eof | ReadError

  datatype Step =
    // loop thread
    | ReadReady(bytes: Bytes, end: ReadEnd)
    | ParseNext
    | EnqueueLock
    | LoopSubmit(i: nat)
    | LoopComplete(i: nat)
    | FinishCheck
    | SwapState
    | LockTasks
    | DropBuffers
    | RunCleanup
    | RunRelease
    | WriteReady(n: nat, fault: bool)
    | RunCallback
    | SendEnter
    | Deliver
    | Flush
    | LoopSend(r: Message)
    | CloseNow
    // worker threads
    | Fetch(i: nat, w: nat)
    | Begin(i: nat)
    | Respond(i: nat, r: Message)
    | PostResponse(i: nat)
    | Return(i: nat)
    | Complete(i: nat)
    | WorkerSubmit(i: nat)
    | PostFollowUp(w: nat)
    // other threads
    | Ask
    | PostAsk(r: Message)
    | AskClose
    | StopPool

  function Resume(back: Back): Pc {
    match back
    case ToIdle => Idle
    case ToParse => Parsing
    case ToFinish => FinishTasks(ToIdle)
  }

  predicate OnWorker(f: Flight) { !f.InPool? && f.owner.Worker? }

  predicate Enabled(c: Conn, s: Step) {
    match s
    case ReadReady(_, _) => c.pc.Idle?
    case ParseNext => c.pc.Parsing?
    case EnqueueLock => c.pc.Enqueueing?
    case LoopSubmit(i) => c.pc.LoopSubmitting? && i < |c.flights| && c.flights[i].Submitting? && c.flights[i].owner.LoopThread?
    case LoopComplete(i) => c.pc.LoopCompleting? && i < |c.flights| && c.flights[i].Completing? && c.flights[i].owner.LoopThread?
    case FinishCheck => c.pc.FinishTasks? || c.pc.FinishSends? || c.pc.FinishQueue? || c.pc.FinishOutput?
    case SwapState => c.pc.Swap?
    case LockTasks => c.pc.CloseTasks?
    case DropBuffers => c.pc.CloseBuffers?
    case RunCleanup => c.pc.Cleanup?
    case RunRelease => c.pc.Release?
    case WriteReady(n, _) => c.pc.Idle? && n <= |c.core.output.buffer|
    case RunCallback => c.pc.Idle? && c.posted != []
    case SendEnter => c.pc.SendStart?
    case Deliver => c.pc.Delivering?
    case Flush => c.pc.Flushing?
    case LoopSend(_) => c.pc.Idle?
    case CloseNow => c.pc.Idle?
    case Fetch(i, w) => i < |c.flights| && c.flights[i].InPool? && w !in c.posting
    case Begin(i) => i < |c.flights| && c.flights[i].Fetched?
    case Respond(i, _) => i < |c.flights| && c.flights[i].Handling?
    case PostResponse(i) => i < |c.flights| && c.flights[i].Responding?
    case Return(i) => i < |c.flights| && c.flights[i].Handling?
    case Complete(i) => i < |c.flights| && c.flights[i].Completing? && OnWorker(c.flights[i])
    case WorkerSubmit(i) => i < |c.flights| && c.flights[i].Submitting? && OnWorker(c.flights[i])
    case PostFollowUp(w) => w in c.posting
    case Ask => true
    case PostAsk(_) => c.transit > 0
    case AskClose => true
    case StopPool => true
  }

  function Without<T>(s: seq<T>, i: nat): seq<T>
    requires i < |s|
  {
    s[..i] + s[i + 1..]
  }

  /** read(): everything up to EAGAIN, EOF or an error goes into the input buffer. */
  function DoRead(c: Conn, bytes: Bytes, end: ReadEnd): Conn {
    if c.core.state != Connected || c.core.eof then c
    else
      var core := c.core.(inBuf := c.core.inBuf + bytes, eof := end.Eof?);
      c.(core := core, log := c.log.(received := c.log.received + bytes),
         pc := if end.ReadError? then Swap(Fault, ToIdle) else Parsing)
  }

  /** One turn of the parse loop. */
  function DoParse(c: Conn): Conn {
    match FrameStep(NoState, c.core.inBuf)
    case Wait =>
      c.(core := if c.core.eof then c.core.(inBuf := []) else c.core, pc := FinishTasks(ToIdle))
    case Fail => c.(pc := Swap(Fault, ToFinish))
    case Move(_, used, ms) =>
      var core := c.core.(inBuf := c.core.inBuf[used..]);
      if core.state != Connected then c.(core := core, pc := FinishTasks(ToIdle))
      else c.(core := core, pc := Enqueueing(ms[0]), log := c.log.(parsed := c.log.parsed + ms))
  }

  function Popped(c: Conn, t: Message): Conn {
    c.(log := c.log.(work := c.log.work.(popped := c.log.work.popped + [t])))
  }

  function Skipped(c: Conn): Conn { c.(log := c.log.(work := c.log.work.(skipped := true))) }

  function DoEnqueue(c: Conn): Conn
    requires c.pc.Enqueueing?
  {
    var (tasks, next) := EnqueueSection(c.core.tasks, c.pc.t);
    var d := c.(core := c.core.(tasks := tasks));
    match next
    case None => d.(pc := Parsing)
    case Some(t) => Popped(d, t).(pc := LoopSubmitting, flights := c.flights + [Submitting(LoopThread, t)])
  }

  /** WorkThreadPool::submit: push, or reject and complete without running. */
  function DoSubmit(c: Conn, i: nat): Conn
    requires i < |c.flights| && c.flights[i].Submitting?
  {
    var f := c.flights[i];
    var d := c.(flights := c.flights[i := if c.stopped then Completing(f.owner, f.t) else InPool(f.t)],
                pc := if f.owner.LoopThread? then (if c.stopped then LoopCompleting else Parsing) else c.pc);
    if c.stopped then Skipped(d) else d
  }

  /** onTaskComplete: the lock section, then resubmission in place, or a follow-up for the loop. */
  function DoComplete(c: Conn, i: nat): Conn
    requires i < |c.flights| && c.flights[i].Completing?
  {
    var owner := c.flights[i].owner;
    var (tasks, next) := CompleteSection(c.core.state.Connected?, c.core.tasks);
    var d := c.(core := c.core.(tasks := tasks));
    match next
    case Resubmit(t) =>
      Popped(d, t).(flights := c.flights[i := Submitting(owner, t)],
                    pc := if owner.LoopThread? then LoopSubmitting else c.pc)
    case Finalize =>
      if owner.LoopThread? then d.(flights := Without(c.flights, i), pc := Cleanup(ToParse))
      else d.(flights := Without(c.flights, i), posting := c.posting[owner.w := FinalCb])
    case CheckEof =>
      if owner.LoopThread? then d.(flights := Without(c.flights, i), pc := FinishTasks(ToParse))
      else d.(flights := Without(c.flights, i), posting := c.posting[owner.w := CheckCb])
  }

  /** maybeFinishAfterPeerEof, one condition at a time. */
  function DoFinish(c: Conn): Conn
    requires Enabled(c, FinishCheck)
  {
    match c.pc
    case FinishTasks(back) =>
      c.(pc := if c.core.eof && c.core.state == Connected && !c.core.tasks.running && c.core.tasks.pending == []
               then FinishSends(back) else Resume(back))
    case FinishSends(back) => c.(pc := if c.core.sends == 0 then FinishQueue(back) else Resume(back))
    case FinishQueue(back) => c.(pc := if c.core.output.queue == [] then FinishOutput(back) else Resume(back))
    case FinishOutput(back) => c.(pc := if c.core.output.buffer == [] then Swap(Drained, back) else Resume(back))
  }

  function DoSwap(c: Conn): Conn
    requires c.pc.Swap?
  {
    if c.core.state == Connected then c.(core := c.core.(state := Closing), pc := CloseTasks(c.pc.back))
    else c.(pc := Resume(c.pc.back))
  }

  function DoLockTasks(c: Conn): Conn
    requires c.pc.CloseTasks?
  {
    var (tasks, deferred) := CloseTasksSection(c.core.tasks);
    c.(core := c.core.(tasks := tasks), pc := CloseBuffers(deferred, c.pc.back))
  }

  function DoDropBuffers(c: Conn): Conn
    requires c.pc.CloseBuffers?
  {
    var armed := c.core.output.armed && !c.pc.deferred;
    c.(core := c.core.(inBuf := [], output := OutSide([], [], armed)),
       pc := if c.pc.deferred then Resume(c.pc.back) else Cleanup(c.pc.back))
  }

  /** write(): the socket takes `n` bytes, then blocks or fails. */
  function DoWrite(c: Conn, n: nat, fault: bool): Conn
    requires n <= |c.core.output.buffer|
  {
    if c.core.state != Connected then c
    else
      var out, rest := c.core.output, c.core.output.buffer[n..];
      var d := c.(log := c.log.(sent := c.log.sent + out.buffer[..n]));
      if rest == [] then d.(core := c.core.(output := OutSide(out.queue, [], false)), pc := FinishTasks(ToIdle))
      else d.(core := c.core.(output := out.(buffer := rest)), pc := if fault then Swap(Fault, ToIdle) else Idle)
  }

  function DoCallback(c: Conn): Conn
    requires c.posted != []
  {
    var pc := match c.posted[0]
              case SendCb(send) => SendStart(send)
              case CheckCb => FinishTasks(ToIdle)
              case FinalCb => Cleanup(ToIdle)
              case CloseCb => Swap(Requested, ToIdle);
    c.(posted := c.posted[1..], pc := pc)
  }

  function DoDeliver(c: Conn): Conn
    requires c.pc.Delivering?
  {
    if c.core.state != Connected then c.(pc := Idle)
    else c.(core := c.core.(output := c.core.output.(queue := c.core.output.queue + [EncodeMessage(c.pc.send.r)])),
            pc := Flushing, log := c.log.(delivered := c.log.delivered + [c.pc.send]))
  }

  function DoFlush(c: Conn): Conn {
    var (output, ok) := FlushSection(c.core.output);
    c.(core := c.core.(output := output), pc := if ok then FinishTasks(ToIdle) else Swap(HighWater, ToFinish))
  }

  /** run_(): the handler starts only on a connected connection. */
  function DoBegin(c: Conn, i: nat): Conn
    requires i < |c.flights| && c.flights[i].Fetched?
  {
    var f := c.flights[i];
    if c.core.state == Connected
    then c.(flights := c.flights[i := Handling(f.owner, f.t)],
            log := c.log.(work := c.log.work.(started := c.log.work.started + [f.t])))
    else Skipped(c).(flights := c.flights[i := Completing(f.owner, f.t)])
  }

  /** sendResponse, first half: count the callback before posting it. */
  function Count(c: Conn): Conn { c.(core := c.core.(sends := c.core.sends + 1)) }

  function Post(c: Conn, cb: Callback): Conn { c.(posted := c.posted + [cb]) }

  function Apply(c: Conn, s: Step): Conn
    requires Enabled(c, s)
  {
    match s
    case ReadReady(bytes, end) => DoRead(c, bytes, end)
    case ParseNext => DoParse(c)
    case EnqueueLock => DoEnqueue(c)
    case LoopSubmit(i) => DoSubmit(c, i)
    case LoopComplete(i) => DoComplete(c, i)
    case FinishCheck => DoFinish(c)
    case SwapState => DoSwap(c)
    case LockTasks => DoLockTasks(c)
    case DropBuffers => DoDropBuffers(c)
    case RunCleanup => c.(pc := Release(c.pc.back), log := c.log.(closes := c.log.closes + 1))
    case RunRelease => c.(core := c.core.(state := Closed), pc := Resume(c.pc.back))
    case WriteReady(n, fault) => DoWrite(c, n, fault)
    case RunCallback => DoCallback(c)
    case SendEnter =>
      c.(core := c.core.(sends := if c.core.sends == 0 then 0xFFFF_FFFF_FFFF_FFFF else c.core.sends - 1),
         pc := Delivering(c.pc.send))
    case Deliver => DoDeliver(c)
    case Flush => DoFlush(c)
    case LoopSend(r) => Count(c).(pc := SendStart(Send(false, r)))
    case CloseNow => c.(pc := Swap(Requested, ToIdle))
    case Fetch(i, w) => c.(flights := c.flights[i := Fetched(Worker(w), c.flights[i].t)])
    case Begin(i) => DoBegin(c, i)
    case Respond(i, r) =>
      var f := c.flights[i];
      Count(c).(flights := c.flights[i := Responding(f.owner, f.t, r)], log := c.log.(produced := c.log.produced + [r]))
    case PostResponse(i) =>
      var f := c.flights[i];
      Post(c, SendCb(Send(true, f.r))).(flights := c.flights[i := Handling(f.owner, f.t)])
    case Return(i) =>
      var f := c.flights[i];
      c.(flights := c.flights[i := Completing(f.owner, f.t)], 
         log := c.log.(work := c.log.work.(finished := c.log.work.finished + [f.t])))
    case Complete(i) => DoComplete(c, i)
    case WorkerSubmit(i) => DoSubmit(c, i)
    case PostFollowUp(w) => Post(c, c.posting[w]).(posting := c.posting - {w})
    case Ask => Count(c).(transit := c.transit + 1)
    case PostAsk(r) => Post(c, SendCb(Send(false, r))).(transit := c.transit - 1)
    case AskClose => Post(c, CloseCb)
    case StopPool => c.(stopped := true)
  }

  const START := Conn(FRESH, Idle, [], map[], 0, [], false,
                      Log([], [], WorkLog([], [], [], false), [], [], [], 0))

  /** A run is legal when every step is enabled where it is taken. */
  predicate Legal(run: seq<Step>)
    decreases |run|, 0
  {
    run == [] || (var n := |run| - 1; Legal(run[..n]) && Enabled(After(run[..n]), run[n]))
  }

  /** The state a legal run reaches from a freshly registered connection. */
  function After(run: seq<Step>): Conn
    requires Legal(run)
    decreases |run|, 1
  {
    if run == [] then START else var n := |run| - 1; Apply(After(run[..n]), run[n])
  }
}
