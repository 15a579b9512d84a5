/** The connection object: its critical sections and loop-thread code on mutable fields,
each proved to have the effect that the interleaving model gives it. */
module ConnectionObject {
  import opened Wrappers
  import opened Streaming
  import opened ByteBuffer
  import opened Framing
  import opened ConnectionCore
  import opened Lifecycle

  /** What read() goes on with. */
  datatype AfterRead = NotReading | Parse | HandleClose

  /** And what write() goes on with: nothing, the close, or the end-of-input check. */
  datatype AfterWrite = WaitToWrite | CloseOnFault | CheckFinish

  function Sum(ns: seq<nat>): nat { if ns == [] then 0 else ns[0] + Sum(ns[1..]) }

  class Connection {
    const id: nat
    var state: LifeState
    var peerReadClosed: bool
    var taskRunning: bool
    var closeCallbackPending: bool
    var pendingTasks: seq<Message>
    var pendingSendCallbacks: nat
    var sendQueue: seq<Bytes>
    var writing: bool
    const inBuffer: Buffer
    const outBuffer: Buffer

    ghost predicate Valid()
      reads this, inBuffer, outBuffer
    {
      && inBuffer != outBuffer && inBuffer.data != outBuffer.data
      && inBuffer.Valid() && outBuffer.Valid()
    }

    ghost function Tasks(): TaskSide
      reads this
    {
      TaskSide(taskRunning, closeCallbackPending, pendingTasks)
    }

    /** The fields as the value the interleaving model works on. */
    ghost function Abs(): Core
      requires Valid()
      reads this, inBuffer, outBuffer, inBuffer.data, outBuffer.data
    {
      Core(state, peerReadClosed, Tasks(), pendingSendCallbacks, inBuffer.Contents(),
           OutSide(sendQueue, outBuffer.Contents(), writing))
    }

    constructor (id: nat)
      ensures Valid() && Abs() == FRESH && this.id == id
      ensures fresh(inBuffer) && fresh(outBuffer) && fresh(inBuffer.data) && fresh(outBuffer.data)
    {
      this.id := id;
      state, peerReadClosed := Connected, false;
      taskRunning, closeCallbackPending, pendingTasks := false, false, [];
      pendingSendCallbacks, sendQueue, writing := 0, [], false;
      inBuffer := new Buffer();
      outBuffer := new Buffer();
    }

    /** enqueueTask under taskMutex_. */
    method EnqueueTask(task: Message) returns (next: Option<Message>)
      requires Valid()
      modifies this`taskRunning, this`pendingTasks
      ensures Valid()
      ensures var (tasks, submit) := EnqueueSection(old(Tasks()), task);
              Abs() == old(Abs()).(tasks := tasks) && next == submit
    {
      next := None;
      pendingTasks := pendingTasks + [task];
      if !taskRunning {
        taskRunning := true;
        next := Some(pendingTasks[0]);
        pendingTasks := pendingTasks[1..];
      }
    }

    method DropTasks()
      modifies this`pendingTasks
      ensures pendingTasks == []
    {
      while pendingTasks != []
        decreases |pendingTasks|
      {
        pendingTasks := pendingTasks[1..];
      }
    }

    /** onTaskComplete under taskMutex_. */
    method OnTaskComplete() returns (next: FollowUp)
      requires Valid()
      modifies this`taskRunning, this`pendingTasks, this`closeCallbackPending
      ensures Valid()
      ensures var (tasks, follow) := CompleteSection(old(state).Connected?, old(Tasks()));
              Abs() == old(Abs()).(tasks := tasks) && next == follow
    {
      next := CheckEof;
      if state != Connected {
        DropTasks();
        taskRunning := false;
        if closeCallbackPending {
          closeCallbackPending := false;
          next := Finalize;
        }
      } else if pendingTasks == [] {
        taskRunning := false;
      } else {
        next := Resubmit(pendingTasks[0]);
        pendingTasks := pendingTasks[1..];
        taskRunning := true;
      }
    }

    /** handleClose, the compare-and-exchange: one caller wins. */
    method TryStartClosing() returns (won: bool)
      requires Valid()
      modifies this`state
      ensures Valid() && won == old(state).Connected?
      ensures Abs() == if won then old(Abs()).(state := Closing) else old(Abs())
    {
      won := state == Connected;
      if won { state := Closing; }
    }

    /** handleClose under taskMutex_. */
    method CloseTasks() returns (deferFinalClose: bool)
      requires Valid()
      modifies this`pendingTasks, this`closeCallbackPending
      ensures Valid()
      ensures var (tasks, deferred) := CloseTasksSection(old(Tasks()));
              Abs() == old(Abs()).(tasks := tasks) && deferFinalClose == deferred
    {
      DropTasks();
      deferFinalClose := taskRunning;
      closeCallbackPending := deferFinalClose;
    }

    /** handleClose, the send section and both buffers; a deferred close also leaves epoll. */
    method ReleaseBuffers(deferFinalClose: bool)
      requires Valid()
      modifies this`sendQueue, this`writing, inBuffer, outBuffer
      ensures Valid()
      ensures Abs() == old(Abs()).(inBuf := [], output := OutSide([], [], old(writing) && !deferFinalClose))
    {
      while sendQueue != []
        invariant unchanged(inBuffer, outBuffer) && writing == old(writing)
        decreases |sendQueue|
      {
        sendQueue := sendQueue[1..];
      }
      var unread := inBuffer.Readable();
      inBuffer.MoveReadPtr(unread);
      var unsent := outBuffer.Readable();
      outBuffer.MoveReadPtr(unsent);
      if deferFinalClose { writing := false; }
    }

    /** sendResponse, before the callback is posted. */
    method CountSend()
      requires Valid()
      modifies this`pendingSendCallbacks
      ensures Valid() && Abs() == old(Abs()).(sends := old(Abs()).sends + 1)
    {
      pendingSendCallbacks := pendingSendCallbacks + 1;
    }

    /** The send callback ends its own count first, and goes on only on a connected connection. */
    method EnterSend() returns (goOn: bool)
      requires Valid()
      modifies this`pendingSendCallbacks
      ensures Valid() && goOn == state.Connected?
      ensures Abs() == old(Abs()).(sends := if old(Abs()).sends == 0 then 0xFFFF_FFFF_FFFF_FFFF else old(Abs()).sends - 1)
    {
      pendingSendCallbacks := if pendingSendCallbacks == 0 then 0xFFFF_FFFF_FFFF_FFFF else pendingSendCallbacks - 1;
      goOn := state == Connected;
    }

    /** finishClose; true when this call closes the descriptor. */
    method FinishClose() returns (closesFd: bool)
      requires Valid()
      modifies this`state
      ensures Valid() && Abs() == old(Abs()).(state := Closed) && closesFd == !old(state).Closed?
    {
      closesFd := state != Closed;
      if closesFd { state := Closed; }
    }

    /** The send callback on a connected connection queues the encoded response. */
    method QueueResponse(response: Message)
      requires Valid()
      modifies this`sendQueue
      ensures Valid()
      ensures Abs() == old(Abs()).(output := old(Abs()).output.(queue := old(sendQueue) + [EncodeMessage(response)]))
    {
      sendQueue := sendQueue + [EncodeMessage(response)];
    }

    /** flushSendQueue on a connected connection. */
    method FlushSendQueue() returns (ok: bool)
      requires Valid()
      modifies this`sendQueue, this`writing, outBuffer, outBuffer.data
      ensures Valid()
      ensures var (output, below) := FlushSection(old(Abs()).output);
              Abs() == old(Abs()).(output := output) && ok == below
      ensures outBuffer.Contents() == old(outBuffer.Contents()) + Flatten(old(sendQueue)) && sendQueue == []
      ensures ok <==> |outBuffer.Contents()| <= 67108864
    {
      var temp := sendQueue;
      sendQueue := [];
      ghost var all := outBuffer.Contents() + Flatten(temp);
      while temp != []
        invariant Valid() && (outBuffer.data == old(outBuffer.data) || fresh(outBuffer.data))
        invariant outBuffer.Contents() + Flatten(temp) == all
        invariant inBuffer.Contents() == old(inBuffer.Contents())
        invariant sendQueue == [] && writing == old(writing)
        decreases |temp|
      {
        assert (outBuffer.Contents() + temp[0]) + Flatten(temp[1..]) == outBuffer.Contents() + Flatten(temp);
        outBuffer.Append(temp[0]);
        temp := temp[1..];
      }
      var unsent := outBuffer.Readable();
      ok := unsent <= HIGH_WATER_MARK;
      if ok && unsent > 0 { writing := true; }
    }

    /** write(): the socket accepts the given counts one after the other, then blocks or fails, or everything
        is sent. Together with what it returns this is the write step of any connection `c` in this state. */
    method WriteAll(accepted: seq<nat>, fault: bool, ghost c: Conn) returns (next: AfterWrite)
      requires Valid() && c.core == Abs() && c.pc.Idle? && Sum(accepted) <= |outBuffer.Contents()|
      modifies this`writing, outBuffer
      ensures Valid()
      ensures var d := DoWrite(c, Sum(accepted), fault);
              && Abs() == d.core
              && d.pc == match next case WaitToWrite => Idle case CloseOnFault => Swap(Fault, ToIdle) case CheckFinish => FinishTasks(ToIdle)
      ensures outBuffer.Contents() == if state == Connected then old(outBuffer.Contents())[Sum(accepted)..] else old(outBuffer.Contents())
      ensures next == CloseOnFault <==> state == Connected && outBuffer.Contents() != [] && fault
      ensures next == CheckFinish <==> state == Connected && outBuffer.Contents() == []
    {
      if state != Connected { return WaitToWrite; }
      var todo := accepted;
      ghost var all := outBuffer.Contents();
      ghost var done: nat := 0;
      while todo != []
        invariant Valid() && outBuffer.data == old(outBuffer.data) && writing == old(writing)
        invariant done + Sum(todo) == Sum(accepted) <= |all|
        invariant outBuffer.Contents() == all[done..]
        invariant inBuffer.Contents() == old(inBuffer.Contents())
        decreases |todo|
      {
        Slices(all, done, todo[0]);
        outBuffer.MoveReadPtr(todo[0]);
        done := done + todo[0];
        todo := todo[1..];
      }
      assert outBuffer.Contents() == all[Sum(accepted)..];
      var unsent := outBuffer.Readable();
      if unsent > 0 { return if fault then CloseOnFault else WaitToWrite; }
      writing := false;
      next := CheckFinish;
    }

    /** The read loop up to EAGAIN, end of input or an error: the chunks arrive behind the unread bytes.
        Together with what it returns this is the read step of any connection `c` in this state. */
    method ReadAll(chunks: seq<Bytes>, end: ReadEnd, ghost c: Conn) returns (next: AfterRead)
      requires Valid() && c.core == Abs() && c.pc.Idle?
      modifies this`peerReadClosed, inBuffer, inBuffer.data
      ensures Valid()
      ensures Abs() == if old(state) != Connected || old(peerReadClosed) then old(Abs())
                       else old(Abs()).(inBuf := old(inBuffer.Contents()) + Flatten(chunks), eof := end.Eof?)
      ensures var d := DoRead(c, Flatten(chunks), end);
              && Abs() == d.core
              && d.pc == match next case NotReading => Idle case Parse => Parsing case HandleClose => Swap(Fault, ToIdle)
      ensures next == NotReading <==> old(state) != Connected || old(peerReadClosed)
      ensures next == HandleClose <==> old(state) == Connected && !old(peerReadClosed) && end.ReadError?
    {
      if state != Connected || peerReadClosed { return NotReading; }
      var todo := chunks;
      ghost var all := inBuffer.Contents() + Flatten(todo);
      while todo != []
        invariant Valid() && (inBuffer.data == old(inBuffer.data) || fresh(inBuffer.data))
        invariant inBuffer.Contents() + Flatten(todo) == all
        invariant outBuffer.Contents() == old(outBuffer.Contents()) && !peerReadClosed
        decreases |todo|
      {
        assert (inBuffer.Contents() + todo[0]) + Flatten(todo[1..]) == inBuffer.Contents() + Flatten(todo);
        inBuffer.Receive(todo[0]);
        todo := todo[1..];
      }
      assert inBuffer.Contents() == all;
      if end.Eof? { peerReadClosed := true; }
      next := if end.ReadError? then HandleClose else Parse;
    }

    /** NEED_MORE after end of input: the incomplete tail can never complete. */
    method DiscardTail()
      requires Valid()
      modifies inBuffer
      ensures Valid()
      ensures Abs() == if old(peerReadClosed) then old(Abs()).(inBuf := []) else old(Abs())
    {
      var unread := inBuffer.Readable();
      if peerReadClosed && unread > 0 {
        inBuffer.MoveReadPtr(unread);
      }
    }

    /** maybeFinishAfterPeerEof when no other thread interferes: all four conditions, in order. */
    method EofDrained() returns (drained: bool)
      requires Valid()
      ensures drained <==> var c := Abs();
              && c.eof && c.state.Connected? && !c.tasks.running && c.tasks.pending == []
              && c.sends == 0 && c.output.queue == [] && c.output.buffer == []
    {
      if !peerReadClosed || state != Connected { return false; }
      var tasksDrained := !taskRunning && pendingTasks == [];
      if !tasksDrained { return false; }
      if pendingSendCallbacks != 0 { return false; }
      if sendQueue != [] { return false; }
      var unsent := outBuffer.Readable();
      return unsent == 0;
    }
  }
}
