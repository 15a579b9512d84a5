/** Half-closed connections do close: once the peer has ended its input, the steps already under way
(callbacks, tasks, sends, socket writes) never block before the connection is closed, and every one
of them brings the end nearer. */
module LifecycleProgress {
  import opened Wrappers
  import opened Streaming
  import opened Framing
  import opened ConnectionCore
  import opened Lifecycle
  import opened LifecycleProofs
  import opened LifecycleTheorems

  /** Steps that only carry on what was started: no new input, response, request or close from outside,
      and writes of a connected socket that accept at least one byte. */
  predicate Progress(c: Conn, s: Step) {
    && Enabled(c, s)
    && match s
       case ReadReady(_, _) => false
       case LoopSend(_) => false
       case CloseNow => false
       case Respond(_, _) => false
       case Ask => false
       case AskClose => false
       case StopPool => false
       case WriteReady(n, _) => n > 0 && c.core.state.Connected?
       case _ => true
  }

  // ----- how much is left -----

  function SendWeight(m: Message): nat { 50 + 30 * |EncodeMessage(m)| }

  function CallbackWeight(cb: Callback): nat { if cb.SendCb? then SendWeight(cb.send.r) else 25 }

  function PostedWeight(cbs: seq<Callback>): nat {
    if cbs == [] then 0 else CallbackWeight(cbs[0]) + PostedWeight(cbs[1..])
  }

  function FlightWeight(f: Option<Flight>): nat {
    if f.None? then 0
    else match f.value
      case Submitting(_, _) => 60
      case InPool(_) => 55
      case Fetched(_, _) => 50
      case Handling(_, _) => 45
      case Responding(_, _, r) => 46 + SendWeight(r)
      case Completing(_, _) => 40
  }

  function BackWeight(back: Back): nat {
    match back case ToIdle => 0 case ToFinish => 12 case ToParse => 25
  }

  function PcWeight(pc: Pc): nat {
    match pc
    case Idle => 0
    case Parsing => 25
    case Enqueueing(_) => 100
    case LoopSubmitting => 26
    case LoopCompleting => 26
    case FinishTasks(back) => BackWeight(back) + 12
    case FinishSends(back) => BackWeight(back) + 11
    case FinishQueue(back) => BackWeight(back) + 10
    case FinishOutput(back) => BackWeight(back) + 9
    case Swap(_, back) => BackWeight(back) + 8
    case CloseTasks(back) => BackWeight(back) + 7
    case CloseBuffers(_, back) => BackWeight(back) + 6
    case Cleanup(back) => BackWeight(back) + 5
    case Release(back) => BackWeight(back) + 4
    case SendStart(send) => 45 + 30 * |EncodeMessage(send.r)|
    case Delivering(send) => 40 + 30 * |EncodeMessage(send.r)|
    case Flushing => 30
  }

  function OutputWeight(o: OutSide): nat { 30 * (|o.buffer| + |Flatten(o.queue)|) }

  function Measure(c: Conn): nat {
    10 * |c.core.inBuf| + 30 * |c.core.tasks.pending| + FlightWeight(Head(c.flights)) + 30 * |c.posting|
    + PostedWeight(c.posted) + PcWeight(c.pc) + OutputWeight(c.core.output)
  }

  /** Fewer threads inside sendResponse, or as many and less work. */
  predicate Nearer(d: Conn, c: Conn) {
    d.transit < c.transit || (d.transit == c.transit && Measure(d) < Measure(c))
  }

  lemma {:induction false} PostedPush(cbs: seq<Callback>, cb: Callback)
    ensures PostedWeight(cbs + [cb]) == PostedWeight(cbs) + CallbackWeight(cb)
    decreases |cbs|
  {
    if cbs == [] {
      assert ([] + [cb])[1..] == [];
    } else {
      PostedPush(cbs[1..], cb);
      assert (cbs + [cb])[1..] == cbs[1..] + [cb];
    }
  }

  // ----- every step brings the end nearer -----

  lemma OneFlight(c: Conn)
    requires Tokens(c)
    ensures |c.flights| <= 1
    ensures c.flights != [] ==> Head(c.flights) == Some(c.flights[0])
    ensures c.flights != [] && OnWorker(c.flights[0]) ==> c.flights[0].owner.w !in c.posting
    ensures c.pc.LoopSubmitting? ==> c.flights != [] && c.flights[0].Submitting? && c.flights[0].owner.LoopThread?
    ensures c.pc.LoopCompleting? ==> c.flights != [] && c.flights[0].Completing? && c.flights[0].owner.LoopThread?
    ensures c.flights != [] && HeldByLoop(Some(c.flights[0])) ==> c.pc.LoopSubmitting? || c.pc.LoopCompleting?
    ensures c.core.tasks.running <==> c.flights != []
  {
  }

  lemma ParsingNears(c: Conn, s: Step)
    requires Tokens(c) && Progress(c, s) && (s.ParseNext? || s.EnqueueLock?)
    ensures Nearer(Apply(c, s), c)
  {
    hide Tokens, PostedWeight, OutputWeight, EncodeMessage;
    OneFlight(c);
  }

  lemma LoopTaskNears(c: Conn, s: Step)
    requires Tokens(c) && Progress(c, s) && (s.LoopSubmit? || s.LoopComplete?)
    ensures Nearer(Apply(c, s), c)
  {
    hide Tokens, PostedWeight, OutputWeight, EncodeMessage;
    OneFlight(c);
    if s.LoopComplete? { assert Without(c.flights, s.i) == []; }
  }

  lemma CheckingNears(c: Conn, s: Step)
    requires Progress(c, s) && (s.FinishCheck? || s.SwapState? || s.RunCleanup? || s.RunRelease?)
    ensures Nearer(Apply(c, s), c)
  {
    hide Apply, Nearer, Progress;
    if s.FinishCheck? { FinishNears(c); } else { SwappingNears(c, s); }
  }

  lemma FinishNears(c: Conn)
    requires Progress(c, FinishCheck)
    ensures Nearer(Apply(c, FinishCheck), c)
  {
    hide PostedWeight, FlightWeight, OutputWeight, EncodeMessage;
  }

  lemma SwappingNears(c: Conn, s: Step)
    requires Progress(c, s) && (s.SwapState? || s.RunCleanup? || s.RunRelease?)
    ensures Nearer(Apply(c, s), c)
  {
    hide PostedWeight, FlightWeight, OutputWeight, EncodeMessage;
  }

  lemma ClearingNears(c: Conn, s: Step)
    requires Progress(c, s) && (s.LockTasks? || s.DropBuffers?)
    ensures Nearer(Apply(c, s), c)
  {
    hide PostedWeight, FlightWeight, EncodeMessage;
  }

  lemma WritingNears(c: Conn, s: Step)
    requires Progress(c, s) && s.WriteReady?
    ensures Nearer(Apply(c, s), c)
  {
    hide FlightWeight, PostedWeight, EncodeMessage, Flatten;
  }

  lemma SendingNears(c: Conn, s: Step)
    requires Progress(c, s) && (s.SendEnter? || s.Deliver?)
    ensures Nearer(Apply(c, s), c)
  {
    hide FlightWeight, PostedWeight, EncodeMessage, Flatten;
    if s.Deliver? { FlattenPush(c.core.output.queue, EncodeMessage(c.pc.send.r)); }
  }

  lemma FlushingNears(c: Conn)
    requires Progress(c, Flush)
    ensures Nearer(Apply(c, Flush), c)
  {
    hide FlightWeight, PostedWeight, EncodeMessage, FlushSection;
    assert Flatten([]) == [];
    hide Flatten;
  }

  lemma CallbackNears(c: Conn)
    requires Progress(c, RunCallback)
    ensures Nearer(Apply(c, RunCallback), c)
  {
    hide FlightWeight, OutputWeight, EncodeMessage;
  }

  lemma HandlingNears(c: Conn, s: Step)
    requires Tokens(c) && Progress(c, s) && (s.Fetch? || s.Begin? || s.Return? || s.PostResponse?)
    ensures Nearer(Apply(c, s), c)
  {
    hide Tokens, PostedWeight, OutputWeight, PcWeight, EncodeMessage;
    OneFlight(c);
    if s.PostResponse? { PostedPush(c.posted, SendCb(Send(true, c.flights[s.i].r))); }
  }

  lemma CompletingNears(c: Conn, s: Step)
    requires Tokens(c) && Progress(c, s) && (s.Complete? || s.WorkerSubmit?)
    ensures Nearer(Apply(c, s), c)
  {
    hide Tokens, PostedWeight, OutputWeight, PcWeight, EncodeMessage;
    OneFlight(c);
    if s.Complete? { assert Without(c.flights, s.i) == []; }
  }

  lemma PostingNears(c: Conn, s: Step)
    requires Progress(c, s) && (s.PostFollowUp? || s.PostAsk?)
    ensures Nearer(Apply(c, s), c)
  {
    hide PostedWeight, OutputWeight, PcWeight, EncodeMessage;
    if s.PostFollowUp? { PostedPush(c.posted, c.posting[s.w]); }
  }

  lemma {:induction false} StepNears(c: Conn, s: Step)
    requires Inv(c) && Progress(c, s)
    ensures Nearer(Apply(c, s), c)
  {
    hide Inv, Nearer, Apply;
    assert Tokens(c) by { Held(c); }
    if s.ParseNext? || s.EnqueueLock? {
      ParsingNears(c, s);
    } else if s.LoopSubmit? || s.LoopComplete? {
      LoopTaskNears(c, s);
    } else if s.FinishCheck? || s.SwapState? || s.RunCleanup? || s.RunRelease? {
      CheckingNears(c, s);
    } else if s.LockTasks? || s.DropBuffers? {
      ClearingNears(c, s);
    } else if s.WriteReady? {
      WritingNears(c, s);
    } else if s.SendEnter? || s.Deliver? {
      SendingNears(c, s);
    } else if s.Flush? {
      FlushingNears(c);
    } else if s.RunCallback? {
      CallbackNears(c);
    } else if s.PostFollowUp? || s.PostAsk? {
      PostingNears(c, s);
    } else if s.Complete? || s.WorkerSubmit? {
      CompletingNears(c, s);
    } else {
      HandlingNears(c, s);
    }
  }

  lemma Held(c: Conn)
    requires Inv(c)
    ensures Tokens(c)
  {
  }

  // ----- and there always is a step -----

  /** A connection that is closing, or has seen end of input. */
  predicate Ending(c: Conn) { c.core.eof || !c.core.state.Connected? }

  /** What the loop thread does next inside a callback. */
  function PcStep(pc: Pc): Step
    requires !pc.Idle?
  {
    match pc
    case Parsing => ParseNext
    case Enqueueing(_) => EnqueueLock
    case LoopSubmitting => LoopSubmit(0)
    case LoopCompleting => LoopComplete(0)
    case FinishTasks(_) => FinishCheck
    case FinishSends(_) => FinishCheck
    case FinishQueue(_) => FinishCheck
    case FinishOutput(_) => FinishCheck
    case Swap(_, _) => SwapState
    case CloseTasks(_) => LockTasks
    case CloseBuffers(_, _) => DropBuffers
    case Cleanup(_) => RunCleanup
    case Release(_) => RunRelease
    case SendStart(_) => SendEnter
    case Delivering(_) => Deliver
    case Flushing => Flush
  }

  lemma CallbackGoesOn(c: Conn)
    requires Tokens(c) && !c.pc.Idle?
    ensures Progress(c, PcStep(c.pc))
  {
    hide Tokens;
    OneFlight(c);
  }

  /** Some thread always has a step to take until the connection is closed. */
  lemma {:induction false} StepExists(c: Conn) returns (s: Step)
    requires Inv(c) && Ending(c) && !c.core.state.Closed?
    ensures Progress(c, s)
  {
    hide Inv, Tokens, Progress;
    if c.pc.Idle? {
      s := IdleStep(c);
    } else {
      Held(c);
      CallbackGoesOn(c);
      s := PcStep(c.pc);
    }
  }

  /** Between callbacks: what is outstanding can go on. */
  lemma IdleStep(c: Conn) returns (s: Step)
    requires Inv(c) && Ending(c) && !c.core.state.Closed? && c.pc.Idle?
    ensures Progress(c, s)
  {
    hide Inv, Tokens;
    Held(c);
    OneFlight(c);
    if c.posted != [] {
      s := RunCallback;
    } else if w :| w in c.posting {
      s := PostFollowUp(w);
    } else if c.flights != [] {
      s := FlightStep(c.flights[0]);
    } else if c.transit > 0 {
      s := PostAsk(Message(0, 0, []));
    } else {
      assert c.posting == map[];
      OnlyOutputLeft(c);
      s := WriteReady(|c.core.output.buffer|, false);
    }
  }

  /** With no callback, task or sender left, there is output to write. */
  lemma OnlyOutputLeft(c: Conn)
    requires Inv(c) && Ending(c) && !c.core.state.Closed? && c.pc.Idle?
    requires c.posted == [] && c.posting == map[] && c.flights == [] && c.transit == 0
    ensures c.core.state.Connected? && c.core.output.buffer != []
  {
    hide FifoOf, InputOf, StreamOf, LimitsOf, DrainingOf;
    assert FinalPosters(c.posting) == {};
  }

  function FlightStep(f: Flight): Step {
    match f
    case Submitting(_, _) => WorkerSubmit(0)
    case InPool(_) => Fetch(0, 0)
    case Fetched(_, _) => Begin(0)
    case Handling(_, _) => Return(0)
    case Responding(_, _, _) => PostResponse(0)
    case Completing(_, _) => Complete(0)
  }

  lemma EndingStays(c: Conn, s: Step)
    requires Ending(c) && Progress(c, s)
    ensures Ending(Apply(c, s))
  {
  }

  /** From every reachable state in which the peer has ended its input, or closing has begun, the steps
      already under way lead to the closed state: there is always one, and no sequence of them is
      endless. */
  lemma {:induction false} EndsClosed(run: seq<Step>) returns (more: seq<Step>)
    requires Legal(run) && Ending(After(run))
    ensures run <= more && Legal(more) && After(more).core.state.Closed?
    decreases After(run).transit, Measure(After(run))
  {
    var c := After(run);
    if c.core.state.Closed? {
      more := run;
    } else {
      RunKeeps(run);
      var s := StepExists(c);
      StepNears(c, s);
      EndingStays(c, s);
      var next := run + [s];
      assert next[..|next| - 1] == run;
      assert After(next) == Apply(c, s);
      more := EndsClosed(next);
    }
  }

  // ----- why the drain needs an accepting pool -----

  ghost function Then(run: seq<Step>, s: Step): (r: seq<Step>)
    requires Legal(run) && Enabled(After(run), s)
    ensures Legal(r) && After(r) == Apply(After(run), s)
  {
    assert (run + [s])[..|run + [s]| - 1] == run;
    run + [s]
  }

  lemma RejectedTask(m: Message) returns (run: seq<Step>)
    requires Encodable(m)
    ensures Legal(run)
    ensures var c := After(run);
            && c.stopped && c.core.state.Connected? && c.core.eof && c.core.tasks == TaskSide(false, false, [])
            && c.core.sends == 0 && c.core.output == OutSide([], [], false) && c.pc == FinishTasks(ToParse)
            && c.log.received == EncodeMessage(m) && c.log.work.finished == [] && c.log.work.skipped
  {
    hide Legal, After, Then, FrameStep, Decode, EncodeMessage, Encodable;
    var bytes := EncodeMessage(m);
    assert bytes + [] == bytes && [] + bytes == bytes;
    FramingRoundTrip(m, []);
    run := ParsedOne(m, bytes);
    run := Then(run, EnqueueLock);
    run := Then(run, LoopSubmit(0));
    run := Then(run, LoopComplete(0));
  }

  /** The pool is stopped, and the only message has just been parsed. */
  lemma ParsedOne(m: Message, bytes: Bytes) returns (run: seq<Step>)
    requires FrameStep(NoState, bytes) == Move(NoState, |bytes|, [m])
    ensures Legal(run)
    ensures After(run) == START.(stopped := true, core := START.core.(eof := true), pc := Enqueueing(m),
                                 log := START.log.(received := bytes, parsed := [m]))
  {
    hide Legal, After, Then, FrameStep;
    assert [] + bytes == bytes && bytes[|bytes|..] == [];
    Empty();
    run := Then([], StopPool);
    run := Then(run, ReadReady(bytes, Eof));
    run := Then(run, ParseNext);
  }

  /** With a stopped pool the end-of-input check can close the connection although the one request
      received was never handled. */
  lemma {:induction false} DrainNeedsPool(m: Message) returns (run: seq<Step>)
    requires Encodable(m)
    ensures Legal(run)
    ensures var c := After(run);
            && c.pc.Swap? && c.pc.cause.Drained? && c.stopped && c.log.work.skipped
            && Decode(c.log.received).out == [m] && c.log.work.finished == []
  {
    hide Legal, After, Then, FrameStep, Decode, EncodeMessage;
    DecodeEncodeAll([m]);
    assert EncodeAll([m]) == EncodeMessage(m) by { assert [m][..0] == [] && [] + EncodeMessage(m) == EncodeMessage(m); }
    run := RejectedTask(m);
    run := Then(run, FinishCheck);
    run := Then(run, FinishCheck);
    run := Then(run, FinishCheck);
    run := Then(run, FinishCheck);
  }

  lemma Empty()
    ensures Legal([]) && After([]) == START
  {
  }
}
