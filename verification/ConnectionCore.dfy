/** The fields of a connection and its critical sections.

`Core` holds the member variables; each function below is the effect of one critical section or of
one stretch of loop-thread code. The class `Connection` runs the same sections imperatively. */
module ConnectionCore {
  import opened Wrappers
  import opened Streaming
  import opened Framing

  const HIGH_WATER_MARK: nat := 64 * 1024 * 1024

  datatype LifeState = Connected | Closing | Closed

  /** Guarded by taskMutex_; a task is identified with the message it carries. */
  datatype TaskSide = TaskSide(running: bool, closePending: bool, pending: seq<Message>)

  /** Response queue, output buffer and interest in EPOLLOUT; loop thread only. */
  datatype OutSide = OutSide(queue: seq<Bytes>, buffer: Bytes, armed: bool)

  datatype Core = Core(state: LifeState, eof: bool, tasks: TaskSide, sends: nat, inBuf: Bytes, output: OutSide)

  const FRESH := Core(Connected, false, TaskSide(false, false, []), 0, [], OutSide([], [], false))

  /** What the thread leaving `onTaskComplete`'s lock must do next. */
  datatype FollowUp = Resubmit(task: Message) | Finalize | CheckEof

  /** enqueueTask under taskMutex_: the task to submit now, if the connection was idle. */
  function EnqueueSection(c: TaskSide, t: Message): (r: (TaskSide, Option<Message>))
    ensures (if r.1.Some? then [r.1.value] else []) + r.0.pending == c.pending + [t]
    ensures r.1.Some? <==> !c.running
    ensures r.0.running
  {
    var queue := c.pending + [t];
    if c.running then (c.(pending := queue), None)
    else (c.(running := true, pending := queue[1..]), Some(queue[0]))
  }

  /** onTaskComplete under taskMutex_. */
  function CompleteSection(connected: bool, c: TaskSide): (r: (TaskSide, FollowUp))
    ensures r.1.Resubmit? <==> connected && c.pending != []
    ensures r.1.Resubmit? ==> [r.1.task] + r.0.pending == c.pending && r.0.running
    ensures !r.1.Resubmit? ==> r.0.pending == [] && !r.0.running
    ensures r.1.Finalize? <==> !connected && c.closePending
    ensures r.0.closePending <==> connected && c.closePending
  {
    if !connected then (TaskSide(false, false, []), if c.closePending then Finalize else CheckEof)
    else if c.pending == [] then (c.(running := false), CheckEof)
    else (c.(running := true, pending := c.pending[1..]), Resubmit(c.pending[0]))
  }

  /** handleClose under taskMutex_: queued tasks go, and the close is deferred while a task runs. */
  function CloseTasksSection(c: TaskSide): (r: (TaskSide, bool))
    ensures r.0.pending == [] && r.0.closePending == r.1 == c.running == r.0.running
  {
    (c.(pending := [], closePending := c.running), c.running)
  }

  /** flushSendQueue on a connected connection: queue into output buffer; false above high water. */
  function FlushSection(o: OutSide): (r: (OutSide, bool))
    ensures r.0.queue == [] && r.0.buffer == o.buffer + Flatten(o.queue)
    ensures r.1 <==> |r.0.buffer| <= 67108864
    ensures r.1 && r.0.buffer != [] ==> r.0.armed
  {
    var out := o.buffer + Flatten(o.queue);
    if |out| > HIGH_WATER_MARK then (OutSide([], out, o.armed), false)
    else (OutSide([], out, o.armed || |out| > 0), true)
  }
}
