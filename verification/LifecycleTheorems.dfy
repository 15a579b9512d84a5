/** The guarantees of the connection protocol, for every run. */
module LifecycleTheorems {
  import opened Streaming
  import opened Framing
  import opened ConnectionCore
  import opened Lifecycle
  import opened LifecycleProofs

  lemma StartHolds()
    ensures Inv(START)
  {
    DecodeStep([]);
    assert FinalPosters(START.posting) == {};
  }

  lemma {:induction false} LoopStepKeeps(c: Conn, s: Step)
    requires Inv(c) && Enabled(c, s)
    requires s.ReadReady? || s.ParseNext? || s.EnqueueLock? || s.LoopSubmit? || s.LoopComplete? || s.FinishCheck?
          || s.SwapState? || s.LockTasks? || s.DropBuffers? || s.RunCleanup? || s.RunRelease?
    ensures Inv(Apply(c, s))
  {
    hide Inv;
    match s
    case ReadReady(bytes, end) => ReadKeeps(c, bytes, end);
    case ParseNext => ParseKeeps(c);
    case EnqueueLock => EnqueueKeeps(c);
    case LoopSubmit(i) => SubmitKeeps(c, i);
    case LoopComplete(i) => CompleteKeeps(c, i);
    case FinishCheck => FinishKeeps(c);
    case SwapState => SwapKeeps(c);
    case LockTasks => LockTasksKeeps(c);
    case DropBuffers => DropBuffersKeeps(c);
    case RunCleanup => CallbackKeeps(c, s);
    case RunRelease => CallbackKeeps(c, s);
  }

  /** Every step of every thread keeps the invariant. */
  lemma {:induction false} StepKeeps(c: Conn, s: Step)
    requires Inv(c) && Enabled(c, s)
    ensures Inv(Apply(c, s))
  {
    hide Inv;
    match s
    case WriteReady(n, fault) => WriteKeeps(c, n, fault);
    case RunCallback => RunCallbackKeeps(c);
    case SendEnter => SendEnterKeeps(c);
    case Deliver => DeliverKeeps(c);
    case Flush => FlushKeeps(c);
    case LoopSend(_) => LoopStartKeeps(c, s);
    case CloseNow => LoopStartKeeps(c, s);
    case Fetch(i, w) => FetchKeeps(c, i, w);
    case Begin(i) => BeginKeeps(c, i);
    case Respond(i, r) => RespondKeeps(c, i, r);
    case PostResponse(i) => PostResponseKeeps(c, i);
    case Return(i) => ReturnKeeps(c, i);
    case Complete(i) => CompleteKeeps(c, i);
    case WorkerSubmit(i) => SubmitKeeps(c, i);
    case PostFollowUp(w) => PostFollowUpKeeps(c, w);
    case Ask => AskKeeps(c);
    case PostAsk(r) => PostAskKeeps(c, r);
    case AskClose => AskCloseKeeps(c);
    case StopPool => StopPoolKeeps(c);
    case _ => LoopStepKeeps(c, s);
  }

  lemma {:induction false} RunKeeps(run: seq<Step>)
    requires Legal(run)
    ensures Inv(After(run))
    decreases |run|
  {
    if run == [] {
      StartHolds();
    } else {
      var n := |run| - 1;
      RunKeeps(run[..n]);
      StepKeeps(After(run[..n]), run[n]);
    }
  }

  /** Per-connection FIFO: one task in flight exactly while `taskRunning_`, nothing pends while idle,
      and handlers run one at a time on a prefix of the messages the decoder finds in the input. */
  lemma {:induction false} FifoOverRuns(run: seq<Step>)
    requires Legal(run)
    ensures var c := After(run);
            && |c.flights| == (if c.core.tasks.running then 1 else 0)
            && (c.core.tasks.pending != [] ==> c.core.tasks.running)
            && c.log.work.started <= c.log.parsed <= Decode(c.log.received).out
            && c.log.work.finished <= c.log.work.started
            && |c.log.work.started| <= |c.log.work.finished| + 1
  {
    RunKeeps(run);
    hide Decode, Tally;
    var c := After(run);
    assert c.log.work.popped <= c.log.work.popped + c.core.tasks.pending;
  }

  /** The close callback runs at most once, never while a task is in flight; and a connection that is
      closing has exactly one place left that owes the callback. */
  lemma {:induction false} CloseOnceOverRuns(run: seq<Step>)
    requires Legal(run)
    ensures var c := After(run);
            && c.log.closes <= 1
            && (c.log.closes == 1 || c.pc.Cleanup? ==> c.flights == [])
            && (c.core.state.Closed? ==> c.log.closes == 1)
            && (c.core.state.Closing? && CloseRoleOf(c.pc).NotClosing? && c.log.closes == 0 ==>
                  (if c.core.tasks.closePending then 1 else 0) + |FinalPosters(c.posting)| + Tally(c.posted).finals == 1)
  {
    RunKeeps(run);
    hide Decode, EncodeAll, Tally;
  }

  /** A deferred close is claimed by the completion of the one task in flight, which schedules it. */
  lemma {:induction false} DeferredCloseClaimed(run: seq<Step>)
    requires Legal(run) && After(run).core.tasks.closePending
    ensures var c := After(run);
            && |c.flights| == 1
            && forall i :: Enabled(c, Complete(i)) ==>
                 var d := Apply(c, Complete(i));
                 d.posting == c.posting[c.flights[0].owner.w := FinalCb] && d.flights == [] && !d.core.tasks.closePending
  {
    RunKeeps(run);
    hide *;
    ClaimedAt(After(run));
  }

  lemma ClaimedAt(c: Conn)
    requires Inv(c) && c.core.tasks.closePending
    ensures |c.flights| == 1
    ensures forall i :: Enabled(c, Complete(i)) ==>
              var d := Apply(c, Complete(i));
              d.posting == c.posting[c.flights[0].owner.w := FinalCb] && d.flights == [] && !d.core.tasks.closePending
  {
    hide FifoOf, InputOf, SendsOf, StreamOf, LimitsOf, DrainingOf, Tally, FinalPosters, Own;
  }

  // ----- half-close drain -----

  /** A task that never reached its handler leaves its mark: on the loop thread, where only a rejected
      task completes, and in the handlers' count as long as the connection is connected. */
  predicate SkipsOf(connected: bool, completer: bool, nested: bool, work: WorkLog) {
    && (completer || nested ==> work.skipped)
    && (work.skipped && connected ==> |work.started| < |work.popped|)
  }

  predicate Skips(c: Conn) {
    SkipsOf(c.core.state.Connected?, RoleOf(c.pc).Completer?, Nested(c.pc), c.log.work)
  }

  lemma {:induction false} LoopTasksSkip(c: Conn, s: Step)
    requires Tokens(c) && Fifo(c) && Skips(c) && Enabled(c, s)
    requires s.ParseNext? || s.EnqueueLock? || s.LoopSubmit? || s.LoopComplete?
    ensures Skips(Apply(c, s))
  {
    hide FrameStep;
  }

  lemma {:induction false} WorkersSkip(c: Conn, s: Step)
    requires Tokens(c) && Fifo(c) && Skips(c) && Enabled(c, s)
    requires s.Begin? || s.Complete? || s.WorkerSubmit?
    ensures Skips(Apply(c, s))
  {
  }

  /** The other steps move no task. */
  lemma {:induction false} OthersSkip(c: Conn, s: Step)
    requires Skips(c) && Enabled(c, s)
    requires !(s.ParseNext? || s.EnqueueLock? || s.LoopSubmit? || s.LoopComplete?)
    requires !(s.Begin? || s.Complete? || s.WorkerSubmit?)
    ensures Skips(Apply(c, s))
  {
    hide FlushSection, EncodeMessage;
  }

  lemma {:induction false} RunSkips(run: seq<Step>)
    requires Legal(run)
    ensures Skips(After(run))
    decreases |run|
  {
    if run != [] {
      var n := |run| - 1;
      var c, s := After(run[..n]), run[n];
      RunSkips(run[..n]);
      RunKeeps(run[..n]);
      TokensAndOrder(c);
      hide Inv, Tokens, Fifo, Skips, Apply, Enabled;
      if s.ParseNext? || s.EnqueueLock? || s.LoopSubmit? || s.LoopComplete? {
        LoopTasksSkip(c, s);
      } else if s.Begin? || s.Complete? || s.WorkerSubmit? {
        WorkersSkip(c, s);
      } else {
        OthersSkip(c, s);
      }
    }
  }

  lemma TokensAndOrder(c: Conn)
    requires Inv(c)
    ensures Tokens(c) && Fifo(c)
  {
  }

  /** Half-close drain, exactly: whenever the end-of-input check is about to close the connection,
      everything answered was handed to the socket completely; and every frame received was handled to
      the end, in order and without a protocol error, if and only if the worker pool rejected no task
      of this connection. */
  lemma {:induction false} DrainExact(run: seq<Step>)
    requires Legal(run) && After(run).pc.Swap? && After(run).pc.cause.Drained?
    ensures var c := After(run);
            && Apply(c, SwapState).core.state == Closing
            && (c.log.work.finished == Decode(c.log.received).out <==> !c.log.work.skipped)
            && (!c.log.work.skipped ==> !Decode(c.log.received).failed)
            && Own(c.log.delivered) == c.log.produced
            && c.log.sent == EncodeAll(Messages(c.log.delivered))
  {
    RunKeeps(run);
    RunSkips(run);
    hide *;
    ClosesNow(After(run));
    HandledExactly(After(run));
    AllAnswered(After(run));
  }

  /** A pool that still accepts tasks has rejected none. */
  lemma {:induction false} HalfCloseDrain(run: seq<Step>)
    requires Legal(run) && After(run).pc.Swap? && After(run).pc.cause.Drained? && !After(run).stopped
    ensures var c := After(run);
            && Apply(c, SwapState).core.state == Closing
            && c.log.work.finished == Decode(c.log.received).out && !Decode(c.log.received).failed
            && Own(c.log.delivered) == c.log.produced
            && c.log.sent == EncodeAll(Messages(c.log.delivered))
  {
    DrainExact(run);
    RunKeeps(run);
    hide *;
    AcceptingRejectsNone(After(run));
  }

  lemma AcceptingRejectsNone(c: Conn)
    requires Inv(c) && c.pc.Swap? && c.pc.cause.Drained? && !c.stopped
    ensures !c.log.work.skipped
  {
    hide InputOf, SendsOf, StreamOf, CloseOf, Tally, Own;
  }

  lemma ClosesNow(c: Conn)
    requires Inv(c) && c.pc.Swap? && c.pc.cause.Drained?
    ensures Apply(c, SwapState).core.state == Closing
  {
    hide FifoOf, InputOf, SendsOf, StreamOf, CloseOf, Tally, Own;
  }

  /** Past the four conditions, what was received and not handled was rejected. */
  lemma HandledExactly(c: Conn)
    requires Inv(c) && Skips(c) && c.pc.Swap? && c.pc.cause.Drained?
    ensures c.log.work.finished == Decode(c.log.received).out <==> !c.log.work.skipped
    ensures !c.log.work.skipped ==> !Decode(c.log.received).failed
  {
    hide SendsOf, StreamOf, CloseOf, Tally, Own, Decode, FrameStep;
    DecodeStep(c.core.inBuf);
    assert c.log.parsed == c.log.work.popped + [] + [];
  }

  /** Nor is anything answered still waiting to be sent. */
  lemma AllAnswered(c: Conn)
    requires Inv(c) && c.pc.Swap? && c.pc.cause.Drained?
    ensures Own(c.log.delivered) == c.log.produced && c.log.sent == EncodeAll(Messages(c.log.delivered))
  {
    hide FifoOf, InputOf, CloseOf, Tally, EncodeAll, Messages, Own;
    assert c.log.sent + [] + [] == c.log.sent;
  }

  /** No lost wakeup: between callbacks, a connected connection that has seen end of input has a task
      in flight, a counted send, armed output, or a posted check. */
  lemma {:induction false} NeverStuck(run: seq<Step>)
    requires Legal(run)
    ensures var c := After(run);
            c.pc.Idle? && c.core.state.Connected? && c.core.eof ==> Outstanding(c)
  {
    RunKeeps(run);
  }

  /** Output integrity: what was sent, what is buffered and what is queued is the encoding of the
      delivered responses; own responses leave in the order the handlers made them; and between
      callbacks a connected connection holds at most 64 MiB. */
  lemma {:induction false} OutputOverRuns(run: seq<Step>)
    requires Legal(run)
    ensures var c, o := After(run), After(run).core.output;
            && c.log.sent <= EncodeAll(Messages(c.log.delivered))
            && (c.core.state.Connected? ==>
                  c.log.sent + o.buffer + Flatten(o.queue) == EncodeAll(Messages(c.log.delivered)))
            && Own(c.log.delivered) <= c.log.produced
            && (c.core.state.Connected? && c.pc.Idle? ==> |o.buffer| <= 67108864 && o.queue == [])
  {
    RunKeeps(run);
    hide EncodeAll, Messages, Own, Decode;
  }

  /** What the peer receives decodes to a prefix of the delivered responses. */
  lemma {:induction false} PeerDecodesPrefix(run: seq<Step>)
    requires Legal(run)
    requires forall m :: m in Messages(After(run).log.delivered) ==> Encodable(m)
    ensures var c := After(run);
            Decode(c.log.sent).out <= Messages(c.log.delivered) && !Decode(c.log.sent).failed
  {
    OutputOverRuns(run);
    DecodePrefix(Messages(After(run).log.delivered), After(run).log.sent);
  }
}
