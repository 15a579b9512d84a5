/** What the steps of a connection do, seen from outside and in every run: what closes it, what a close
puts an end to, how a response gets out, and that a request is served at all. */
module LifecycleLaws {
  import opened Streaming
  import opened Framing
  import opened ConnectionCore
  import opened Lifecycle
  import opened LifecycleProofs
  import opened LifecycleTheorems
  import opened LifecycleProgress

  lemma Next(run: seq<Step>, s: Step)
    requires Legal(run) && Enabled(After(run), s)
    ensures Legal(run + [s]) && After(run + [s]) == Apply(After(run), s)
  {
    assert (run + [s])[..|run + [s]| - 1] == run;
  }

  lemma NextTwo(run: seq<Step>, s: Step, t: Step)
    requires Legal(run) && Enabled(After(run), s) && Enabled(Apply(After(run), s), t)
    ensures Legal(run + [s, t]) && After(run + [s, t]) == Apply(Apply(After(run), s), t)
  {
    Next(run, s);
    Next(run + [s], t);
    assert run + [s] + [t] == run + [s, t];
  }

  /** Between callbacks, and the state in which read and write events are served. */
  predicate Serving(c: Conn) { c.pc.Idle? && c.core.state.Connected? }

  // ----- what closes a connection -----

  /** A failing read closes the connection; what had arrived before it is never parsed. */
  lemma {:induction false} ReadErrorCloses(run: seq<Step>, b: Bytes)
    requires Legal(run) && Serving(After(run)) && !After(run).core.eof
    ensures var more := run + [ReadReady(b, ReadError), SwapState];
            && Legal(more) && After(more).core.state.Closing?
            && After(more).log.parsed == After(run).log.parsed && After(more).log.work == After(run).log.work
  {
    NextTwo(run, ReadReady(b, ReadError), SwapState);
    hide Legal, After;
  }

  /** A read that does not fail brings its bytes in behind the unread ones, remembers end of input, and
      goes on to parse. */
  lemma {:induction false} ReadBringsIn(run: seq<Step>, b: Bytes, end: ReadEnd)
    requires Legal(run) && Serving(After(run)) && !After(run).core.eof && !end.ReadError?
    ensures var c, d := After(run), After(run + [ReadReady(b, end)]);
            && Legal(run + [ReadReady(b, end)]) && Enabled(d, ParseNext)
            && d.core == c.core.(inBuf := c.core.inBuf + b, eof := end.Eof?) && d.log.received == c.log.received + b
  {
    Next(run, ReadReady(b, end));
    hide Legal, After;
  }

  /** Nothing is read any more after end of input, or from a connection that is closing. */
  lemma {:induction false} NoFurtherReads(run: seq<Step>, b: Bytes, end: ReadEnd)
    requires Legal(run) && After(run).pc.Idle? && (After(run).core.eof || !After(run).core.state.Connected?)
    ensures Legal(run + [ReadReady(b, end)]) && After(run + [ReadReady(b, end)]) == After(run)
  {
    Next(run, ReadReady(b, end));
    hide Legal, After;
  }

  /** A write that fails with bytes left closes the connection. */
  lemma {:induction false} WriteErrorCloses(run: seq<Step>, n: nat)
    requires Legal(run) && Serving(After(run)) && n < |After(run).core.output.buffer|
    ensures var more := run + [WriteReady(n, true), SwapState];
            && Legal(more) && After(more).core.state.Closing?
            && After(more).log.sent == After(run).log.sent + After(run).core.output.buffer[..n]
  {
    NextTwo(run, WriteReady(n, true), SwapState);
    hide Legal, After;
  }

  /** A write that blocks keeps what is left and stays armed; one that takes everything is disarmed and
      runs the end-of-input check. */
  lemma {:induction false} WriteKeepsRest(run: seq<Step>, n: nat)
    requires Legal(run) && Serving(After(run)) && n <= |After(run).core.output.buffer|
    ensures var c, d := After(run), After(run + [WriteReady(n, false)]);
            && Legal(run + [WriteReady(n, false)])
            && d.core.output.buffer == c.core.output.buffer[n..] && d.log.sent == c.log.sent + c.core.output.buffer[..n]
            && d.core.state.Connected? && d.core.output.queue == c.core.output.queue
            && (if n < |c.core.output.buffer| then d.pc.Idle? && d.core.output.armed == c.core.output.armed
                else Enabled(d, FinishCheck) && !d.core.output.armed)
  {
    Next(run, WriteReady(n, false));
    hide Legal, After;
  }

  /** A close asked for by another thread, or on the loop itself, closes the connection. */
  lemma {:induction false} RequestCloses(run: seq<Step>)
    requires Legal(run) && Serving(After(run))
    ensures var c := After(run);
            && Legal(run + [CloseNow, SwapState]) && After(run + [CloseNow, SwapState]).core.state.Closing?
            && Legal(run + [AskClose]) && After(run + [AskClose]).posted == c.posted + [CloseCb]
            && (c.posted != [] && c.posted[0] == CloseCb ==>
                  Legal(run + [RunCallback, SwapState]) && After(run + [RunCallback, SwapState]).core.state.Closing?)
  {
    NextTwo(run, CloseNow, SwapState);
    Next(run, AskClose);
    if After(run).posted != [] && After(run).posted[0] == CloseCb { NextTwo(run, RunCallback, SwapState); }
    hide Legal, After;
  }

  /** A protocol error closes the connection; nothing of the bad frame is handed on. */
  lemma {:induction false} ProtocolErrorCloses(run: seq<Step>)
    requires Legal(run) && After(run).pc.Parsing? && After(run).core.state.Connected?
    requires FrameStep(NoState, After(run).core.inBuf).Fail?
    ensures var more := run + [ParseNext, SwapState];
            && Legal(more) && After(more).core.state.Closing? && After(more).log.parsed == After(run).log.parsed
  {
    NextTwo(run, ParseNext, SwapState);
    hide Legal, After, FrameStep;
  }

  /** More than 64 MiB of unsent output closes the connection. */
  lemma {:induction false} HighWaterCloses(run: seq<Step>)
    requires Legal(run) && After(run).pc.Flushing?
    requires |After(run).core.output.buffer + Flatten(After(run).core.output.queue)| > 67108864
    ensures Legal(run + [Flush, SwapState]) && After(run + [Flush, SwapState]).core.state.Closing?
  {
    FlushingIsConnected(run);
    NextTwo(run, Flush, SwapState);
    hide Legal, After;
  }

  lemma {:induction false} FlushingIsConnected(run: seq<Step>)
    requires Legal(run) && After(run).pc.Flushing?
    ensures After(run).core.state.Connected?
  {
    RunKeeps(run);
    hide Tokens, CloseOnce, Fifo, Input, Sends, Output, Wakeup, Draining, Legal, After;
  }

  /** An incomplete frame waits for its rest, and is discarded once no more input can come; the end-of-input
      check follows. */
  lemma {:induction false} TailWaits(run: seq<Step>)
    requires Legal(run) && After(run).pc.Parsing? && FrameStep(NoState, After(run).core.inBuf).Wait?
    ensures var c, d := After(run), After(run + [ParseNext]);
            && Legal(run + [ParseNext]) && Enabled(d, FinishCheck) && d.log == c.log
            && d.core == c.core.(inBuf := if c.core.eof then [] else c.core.inBuf)
  {
    Next(run, ParseNext);
    hide Legal, After, FrameStep;
  }

  // ----- what a close puts an end to -----

  /** Closing drops what was not yet parsed or sent; a close that is deferred, because a task runs, also ends
      the interest in write events, and one that is not goes on to the close callback. */
  lemma {:induction false} CloseDrops(run: seq<Step>)
    requires Legal(run) && Enabled(After(run), LockTasks)
    ensures var c, more := After(run), run + [LockTasks, DropBuffers];
            && Legal(more)
            && var d := After(more);
               && d.core.inBuf == [] && d.core.tasks.pending == []
               && d.core.output == OutSide([], [], c.core.output.armed && !c.core.tasks.running)
               && d.core.tasks.closePending == c.core.tasks.running
               && (Enabled(d, RunCleanup) <==> !c.core.tasks.running)
  {
    NextTwo(run, LockTasks, DropBuffers);
    hide Legal, After;
  }

  predicate Frozen(c: Conn, d: Conn) {
    && !d.core.state.Connected?
    && d.log.received == c.log.received && d.log.parsed == c.log.parsed && d.log.work.started == c.log.work.started
    && d.log.delivered == c.log.delivered && d.log.sent == c.log.sent
  }

  /** Once a connection is closing, nothing more is read, parsed, handed to a handler, queued for output or
      sent, whatever the threads still do. */
  lemma {:induction false} NothingAfterClose(run: seq<Step>, more: seq<Step>)
    requires Legal(run) && Legal(run + more) && !After(run).core.state.Connected?
    ensures Frozen(After(run), After(run + more))
    decreases |more|
  {
    if more == [] {
      assert run + more == run;
    } else {
      var n := |more| - 1;
      assert (run + more)[..|run + more| - 1] == run + more[..n] && (run + more)[|run + more| - 1] == more[n];
      NothingAfterClose(run, more[..n]);
      FrozenStays(After(run + more[..n]), more[n]);
      hide Apply, Enabled;
    }
  }

  lemma FrozenStays(c: Conn, s: Step)
    requires Enabled(c, s) && !c.core.state.Connected?
    ensures Frozen(c, Apply(c, s))
  {
    hide FrameStep, FlushSection, EncodeMessage;
  }

  // ----- handlers -----

  /** A fetched task reaches its handler if and only if the connection is connected then. */
  lemma {:induction false} HandlerRunsIff(run: seq<Step>, i: nat)
    requires Legal(run) && Enabled(After(run), Begin(i))
    ensures var c, d := After(run), After(run + [Begin(i)]);
            && Legal(run + [Begin(i)])
            && (if c.core.state.Connected? then
                  d.log.work.started == c.log.work.started + [c.flights[i].t] && Enabled(d, Return(i))
                else
                  d.log.work.started == c.log.work.started && Enabled(d, Complete(i)))
  {
    TokenIsOnWorker(run, i);
    BeginEffect(After(run), i);
    hide *;
    Next(run, Begin(i));
  }

  lemma {:induction false} TokenIsOnWorker(run: seq<Step>, i: nat)
    requires Legal(run) && Enabled(After(run), Begin(i))
    ensures OnWorker(After(run).flights[i])
  {
    RunKeeps(run);
    TokensAndOrder(After(run));
    hide *;
    FetchedOnWorker(After(run), i);
  }

  lemma FetchedOnWorker(c: Conn, i: nat)
    requires Tokens(c) && Enabled(c, Begin(i))
    ensures OnWorker(c.flights[i])
  {
  }

  lemma BeginEffect(c: Conn, i: nat)
    requires Enabled(c, Begin(i)) && OnWorker(c.flights[i])
    ensures var d := Apply(c, Begin(i));
            if c.core.state.Connected? then
              d.log.work.started == c.log.work.started + [c.flights[i].t] && Enabled(d, Return(i))
            else
              d.log.work.started == c.log.work.started && Enabled(d, Complete(i))
  {
  }

  /** A task submitted is in the pool's queue if and only if the pool was not stopped. */
  lemma {:induction false} SubmittedIff(run: seq<Step>, s: Step, i: nat)
    requires Legal(run) && (s == LoopSubmit(i) || s == WorkerSubmit(i)) && Enabled(After(run), s)
    ensures Legal(run + [s])
    ensures var c, d := After(run), After(run + [s]);
            i < |d.flights| && (d.flights[i] == InPool(c.flights[i].t) <==> !c.stopped)
  {
    Next(run, s);
    hide Legal, After;
  }

  // ----- the way of a response -----

  /** A response is counted when it is asked for and posted behind everything else, be it the connection's
      own handler that answers or another thread. */
  lemma {:induction false} ResponsesArePosted(run: seq<Step>, s: Step)
    requires Legal(run) && Enabled(After(run), s)
    ensures Legal(run + [s])
    ensures var c, d := After(run), After(run + [s]);
            && (s.Respond? ==> d.core.sends == c.core.sends + 1 && d.log.produced == c.log.produced + [s.r]
                               && Enabled(d, PostResponse(s.i)) && d.flights[s.i].r == s.r)
            && (s.PostResponse? ==> d.posted == c.posted + [SendCb(Send(true, c.flights[s.i].r))])
            && (s.Ask? ==> d.core.sends == c.core.sends + 1 && d.transit == c.transit + 1)
            && (s.PostAsk? ==> d.posted == c.posted + [SendCb(Send(false, s.r))] && d.transit == c.transit - 1)
            && (s.PostFollowUp? ==> d.posted == c.posted + [c.posting[s.w]] && s.w !in d.posting)
  {
    Next(run, s);
    hide Legal, After, FrameStep, FlushSection, DoParse, DoRead, DoWrite, DoComplete, DoEnqueue, DoSubmit;
  }

  /** Any thread can send at any time: the response is counted, then posted behind everything else. */
  lemma {:induction false} AnyoneCanSend(run: seq<Step>, r: Message)
    requires Legal(run)
    ensures Legal(run + [Ask, PostAsk(r)])
    ensures var c := After(run);
            After(run + [Ask, PostAsk(r)]) ==
            c.(core := c.core.(sends := c.core.sends + 1), posted := c.posted + [SendCb(Send(false, r))])
  {
    hide *;
    AskEffect(After(run), r);
    NextTwo(run, Ask, PostAsk(r));
  }

  /** So can a handler, as often as it likes. */
  lemma {:induction false} HandlerCanSend(run: seq<Step>, r: Message, i: nat)
    requires Legal(run) && i < |After(run).flights| && After(run).flights[i].Handling?
    ensures Legal(run + [Respond(i, r), PostResponse(i)])
    ensures var c := After(run);
            After(run + [Respond(i, r), PostResponse(i)]) ==
            c.(core := c.core.(sends := c.core.sends + 1), posted := c.posted + [SendCb(Send(true, r))],
               log := c.log.(produced := c.log.produced + [r]))
  {
    hide *;
    AnswerEffect(After(run), i, r);
    NextTwo(run, Respond(i, r), PostResponse(i));
  }

  lemma AskEffect(c: Conn, r: Message)
    ensures Enabled(c, Ask) && Enabled(Apply(c, Ask), PostAsk(r))
    ensures Apply(Apply(c, Ask), PostAsk(r)) ==
            c.(core := c.core.(sends := c.core.sends + 1), posted := c.posted + [SendCb(Send(false, r))])
  {
  }

  lemma AnswerEffect(c: Conn, i: nat, r: Message)
    requires i < |c.flights| && c.flights[i].Handling?
    ensures Enabled(c, Respond(i, r)) && Enabled(Apply(c, Respond(i, r)), PostResponse(i))
    ensures Apply(Apply(c, Respond(i, r)), PostResponse(i)) ==
            c.(core := c.core.(sends := c.core.sends + 1), posted := c.posted + [SendCb(Send(true, r))],
               log := c.log.(produced := c.log.produced + [r]))
  {
    assert c.flights[i] == Handling(c.flights[i].owner, c.flights[i].t);
    assert c.flights[i := Responding(c.flights[i].owner, c.flights[i].t, r)][i := c.flights[i]] == c.flights;
  }

  /** What a send callback on a connected connection leaves: the response encoded behind the output, and
      armed, unless that is more than 64 MiB. */
  predicate SentOff(c: Conn, d: Conn, send: Send) {
    && d.log.delivered == c.log.delivered + [send]
    && d.core.output.buffer == c.core.output.buffer + EncodeMessage(send.r) && d.core.output.queue == []
    && (if |d.core.output.buffer| <= 67108864 then d.core.output.armed && Enabled(d, FinishCheck) else Enabled(d, SwapState))
  }

  lemma DeliveryEffect(c: Conn, send: Send)
    requires c.pc == Delivering(send) && c.core.state.Connected? && c.core.output.queue == []
    ensures SentOff(c, Apply(Apply(c, Deliver), Flush), send)
  {
    var e := EncodeMessage(send.r);
    var one := [] + [e];
    assert one[0] == e && one[1..] == [] && Flatten(one) == e + Flatten([]) && e + [] == e;
    hide EncodeMessage;
  }

  /** The callback at the head of the queue gets its response out on a connected connection, and nothing on
      one that is closing; in both cases it ends its count. */
  lemma {:induction false} CallbackSends(run: seq<Step>, send: Send)
    requires Legal(run) && After(run).pc.Idle? && After(run).posted != [] && After(run).posted[0] == SendCb(send)
    ensures var c, start := After(run), run + [RunCallback, SendEnter];
            && c.core.sends > 0
            && Legal(start + [Deliver]) && After(start + [Deliver]).core.sends == c.core.sends - 1
            && (c.core.state.Connected? ==>
                  Legal(start + [Deliver, Flush]) && SentOff(c, After(start + [Deliver, Flush]), send)
                  && After(start + [Deliver, Flush]).posted == c.posted[1..])
            && (!c.core.state.Connected? ==>
                  After(start + [Deliver]) == c.(core := c.core.(sends := c.core.sends - 1), posted := c.posted[1..]))
  {
    var c := After(run);
    NothingQueued(run);
    EntersSend(c, send);
    hide Legal, After, Apply, Enabled, SentOff;
    NextTwo(run, RunCallback, SendEnter);
    var start := run + [RunCallback, SendEnter];
    Next(start, Deliver);
    if c.core.state.Connected? { NextTwo(start, Deliver, Flush); }
  }

  lemma EntersSend(c: Conn, send: Send)
    requires c.pc.Idle? && c.posted != [] && c.posted[0] == SendCb(send) && c.core.sends > 0 && c.core.output.queue == []
    ensures Enabled(c, RunCallback) && Enabled(Apply(c, RunCallback), SendEnter)
    ensures var d := Apply(Apply(c, RunCallback), SendEnter);
            && Enabled(d, Deliver) && Apply(d, Deliver).core.sends == c.core.sends - 1
            && (c.core.state.Connected? ==>
                  && Enabled(Apply(d, Deliver), Flush) && SentOff(c, Apply(Apply(d, Deliver), Flush), send)
                  && Apply(Apply(d, Deliver), Flush).posted == c.posted[1..])
            && (!c.core.state.Connected? ==>
                  Apply(d, Deliver) == c.(core := c.core.(sends := c.core.sends - 1), posted := c.posted[1..]))
  {
    EnterEffect(c, send);
    var d := c.(core := c.core.(sends := c.core.sends - 1), posted := c.posted[1..], pc := Delivering(send));
    if c.core.state.Connected? {
      DeliveryEffect(d, send);
      FlushKeepsPosted(d, send);
      hide EncodeMessage, FlushSection, SentOff, DoDeliver, DoFlush, DoCallback;
      assert SentOff(c, Apply(Apply(d, Deliver), Flush), send) by { SentFrom(c, d, Apply(Apply(d, Deliver), Flush), send); }
    }
  }

  lemma EnterEffect(c: Conn, send: Send)
    requires c.pc.Idle? && c.posted != [] && c.posted[0] == SendCb(send) && c.core.sends > 0
    ensures Enabled(c, RunCallback) && Enabled(Apply(c, RunCallback), SendEnter)
    ensures Apply(Apply(c, RunCallback), SendEnter) ==
            c.(core := c.core.(sends := c.core.sends - 1), posted := c.posted[1..], pc := Delivering(send))
  {
  }

  lemma SentFrom(c: Conn, d: Conn, e: Conn, send: Send)
    requires SentOff(d, e, send) && d.log == c.log && d.core.output == c.core.output
    ensures SentOff(c, e, send)
  {
    hide EncodeMessage;
  }

  lemma FlushKeepsPosted(d: Conn, send: Send)
    requires d.pc == Delivering(send) && d.core.state.Connected?
    ensures Enabled(Apply(d, Deliver), Flush)
    ensures var e := Apply(Apply(d, Deliver), Flush);
            e.posted == d.posted && e.core.sends == d.core.sends && Apply(d, Deliver).core.sends == d.core.sends
  {
    hide EncodeMessage, FlushSection;
  }

  /** Between callbacks nothing waits in the send queue, and a posted response is counted. */
  lemma {:induction false} NothingQueued(run: seq<Step>)
    requires Legal(run) && After(run).pc.Idle?
    ensures After(run).core.output.queue == []
    ensures After(run).posted != [] && After(run).posted[0].SendCb? ==> After(run).core.sends > 0
  {
    RunKeeps(run);
    hide Tokens, CloseOnce, Fifo, Input, Output, Wakeup, Draining, Legal, After;
  }

  /** A response sent from the loop thread gets out at once. */
  lemma {:induction false} LoopSends(run: seq<Step>, r: Message)
    requires Legal(run) && Serving(After(run))
    ensures var more := run + [LoopSend(r), SendEnter] + [Deliver, Flush];
            Legal(more) && SentOff(After(run), After(more), Send(false, r)) && After(more).core.sends == After(run).core.sends
  {
    NothingQueued(run);
    NextTwo(run, LoopSend(r), SendEnter);
    var start := run + [LoopSend(r), SendEnter];
    NextTwo(start, Deliver, Flush);
    DeliveryEffect(After(start), Send(false, r));
    hide Legal, After, FlushSection, EncodeMessage;
  }

  predicate ArmedMeansOutput(c: Conn) { c.core.state.Connected? && c.core.output.armed ==> c.core.output.buffer != [] }

  lemma ArmedStep(c: Conn, s: Step)
    requires Enabled(c, s) && CloseOnce(c) && ArmedMeansOutput(c)
    ensures ArmedMeansOutput(Apply(c, s))
  {
    hide FrameStep, EncodeMessage, EnqueueSection, CompleteSection, CloseTasksSection, CloseOf, Tally, FinalPosters;
  }

  lemma ClosesOnce(c: Conn)
    requires Inv(c)
    ensures CloseOnce(c)
  {
  }

  lemma {:induction false} RunArmed(run: seq<Step>)
    requires Legal(run)
    ensures ArmedMeansOutput(After(run))
  {
    if run != [] {
      var n := |run| - 1;
      RunArmed(run[..n]);
      RunKeeps(run[..n]);
      ClosesOnce(After(run[..n]));
      hide Inv, CloseOnce;
      ArmedStep(After(run[..n]), run[n]);
      hide Apply, Enabled;
    }
  }

  /** Between callbacks, write events are asked for exactly while there is something to write. */
  lemma {:induction false} ArmedIffOutput(run: seq<Step>)
    requires Legal(run) && Serving(After(run))
    ensures After(run).core.output.armed <==> After(run).core.output.buffer != []
  {
    RunArmed(run);
    RunKeeps(run);
    hide Tokens, CloseOnce, Fifo, Input, Sends, Output, Wakeup, Draining, Legal, After;
  }

  // ----- a request is served -----

  /** The request has been handed to the pool, and its sender has nothing more to say. */
  lemma Received(m: Message) returns (run: seq<Step>)
    requires Encodable(m)
    ensures Legal(run)
    ensures After(run) == START.(core := FRESH.(eof := true, tasks := TaskSide(true, false, [])), flights := [InPool(m)],
                                 log := START.log.(received := EncodeMessage(m), parsed := [m], work := WorkLog([m], [], [], false)))
  {
    hide Legal, After, Then, EncodeMessage, FrameStep, Encodable;
    FramingRoundTrip(m, []);
    Empty();
    var b := EncodeMessage(m);
    assert b + [] == b == [] + b && b[|b|..] == [];
    run := Then([], ReadReady(b, Eof));
    run := Then(run, ParseNext);
    run := Then(run, EnqueueLock);
    run := Then(run, LoopSubmit(0));
    assert FrameStep(NoState, []) == Wait by { FrameDecides([]); }
    run := Then(run, ParseNext);
    run := Then(run, FinishCheck);
  }

  /** Its handler runs. */
  lemma InHandler(m: Message) returns (run: seq<Step>)
    requires Encodable(m)
    ensures Legal(run)
    ensures After(run) == START.(core := FRESH.(eof := true, tasks := TaskSide(true, false, [])), flights := [Handling(Worker(0), m)],
                                 log := START.log.(received := EncodeMessage(m), parsed := [m], work := WorkLog([m], [m], [], false)))
  {
    run := Received(m);
    hide Legal, After, Then, EncodeMessage, FrameStep;
    run := Then(run, Fetch(0, 0));
    run := Then(run, Begin(0));
  }

  /** It has answered. */
  lemma HasAnswered(m: Message, r: Message) returns (run: seq<Step>)
    requires Encodable(m)
    ensures Legal(run)
    ensures After(run) == START.(core := FRESH.(eof := true, tasks := TaskSide(true, false, []), sends := 1),
                                 flights := [Handling(Worker(0), m)], posted := [SendCb(Send(true, r))],
                                 log := START.log.(received := EncodeMessage(m), parsed := [m], work := WorkLog([m], [m], [], false),
                                                   produced := [r]))
  {
    run := InHandler(m);
    hide Legal, After, Then, EncodeMessage, FrameStep;
    run := Then(run, Respond(0, r));
    run := Then(run, PostResponse(0));
  }

  /** It has been handled, and its worker is done with it. */
  lemma Handled(m: Message, r: Message) returns (run: seq<Step>)
    requires Encodable(m)
    ensures Legal(run)
    ensures After(run) == START.(core := FRESH.(eof := true, sends := 1), posting := map[0 := CheckCb], posted := [SendCb(Send(true, r))],
                                 log := START.log.(received := EncodeMessage(m), parsed := [m], work := WorkLog([m], [m], [m], false),
                                                   produced := [r]))
  {
    run := HasAnswered(m, r);
    hide Legal, After, Then, EncodeMessage, FrameStep;
    run := Then(run, Return(0));
    run := Then(run, Complete(0));
  }

  /** The connection with the answer in the output buffer, and with the answer sent. */
  function Unsent(m: Message, r: Message, pc: Pc): Conn {
    START.(core := FRESH.(eof := true, output := OutSide([], EncodeMessage(r), true)), posting := map[0 := CheckCb], pc := pc,
           log := START.log.(received := EncodeMessage(m), parsed := [m], work := WorkLog([m], [m], [m], false),
                             produced := [r], delivered := [Send(true, r)]))
  }

  function AllSent(m: Message, r: Message, pc: Pc): Conn {
    var c := Unsent(m, r, pc);
    c.(core := FRESH.(eof := true), log := c.log.(sent := EncodeMessage(r)))
  }

  /** The answer is in the output buffer. */
  lemma Answered(m: Message, r: Message) returns (run: seq<Step>)
    requires Encodable(m) && |EncodeMessage(r)| <= 67108864
    ensures Legal(run)
    ensures After(run) == Unsent(m, r, FinishTasks(ToIdle))
  {
    run := Handled(m, r);
    hide Legal, After, Then, EncodeMessage, FrameStep;
    run := Then(run, RunCallback);
    run := Then(run, SendEnter);
    DeliveryEffect(After(run), Send(true, r));
    run := Then(run, Deliver);
    run := Then(run, Flush);
    assert [] + EncodeMessage(r) == EncodeMessage(r);
  }

  /** The check finds it there; then the socket takes it. */
  lemma Written(m: Message, r: Message) returns (run: seq<Step>)
    requires Encodable(m) && |EncodeMessage(r)| <= 67108864
    ensures Legal(run) && After(run) == AllSent(m, r, FinishTasks(ToIdle))
  {
    run := Answered(m, r);
    hide Legal, After, Then, EncodeMessage, FrameStep, Encodable;
    run := Then(run, FinishCheck);
    run := Then(run, FinishCheck);
    run := Then(run, FinishCheck);
    run := Then(run, FinishCheck);
    assert After(run) == Unsent(m, r, Idle);
    var b := EncodeMessage(r);
    assert b[|b|..] == [] && b[..|b|] == b && [] + b == b && |b| >= 10;
    run := Then(run, WriteReady(|b|, false));
  }

  /** The check with all four conditions met. */
  lemma CheckPasses(run: seq<Step>) returns (more: seq<Step>)
    requires Legal(run)
    requires var c := After(run);
             && c.pc == FinishTasks(ToIdle) && c.core.eof && c.core.state == Connected && !c.core.tasks.running
             && c.core.tasks.pending == [] && c.core.sends == 0 && c.core.output.queue == [] && c.core.output.buffer == []
    ensures Legal(more) && After(more) == After(run).(pc := Swap(Drained, ToIdle))
  {
    hide Legal, After, Then;
    more := Then(run, FinishCheck);
    more := Then(more, FinishCheck);
    more := Then(more, FinishCheck);
    more := Then(more, FinishCheck);
  }

  /** And what it does then, with no task in flight. */
  lemma ClosesDown(run: seq<Step>) returns (more: seq<Step>)
    requires Legal(run)
    requires var c := After(run);
             c.pc == Swap(Drained, ToIdle) && c.core.state == Connected && c.core.tasks == TaskSide(false, false, [])
    ensures Legal(more)
    ensures var c := After(run);
            After(more) == c.(core := c.core.(state := Closed, inBuf := [], output := OutSide([], [], c.core.output.armed)),
                              pc := Idle, log := c.log.(closes := c.log.closes + 1))
  {
    hide Legal, After, Then;
    more := Then(run, SwapState);
    more := Then(more, LockTasks);
    more := Then(more, DropBuffers);
    more := Then(more, RunCleanup);
    more := Then(more, RunRelease);
  }

  /** A request, end of input, one answer: the handler runs, the answer goes out, and the connection closes
      after that. */
  lemma {:induction false} OneRequestServed(m: Message, r: Message) returns (run: seq<Step>)
    requires Encodable(m) && |EncodeMessage(r)| <= 67108864
    ensures Legal(run)
    ensures var c := After(run);
            && c.core.state.Closed? && c.log.closes == 1 && c.log.work == WorkLog([m], [m], [m], false)
            && c.log.received == EncodeMessage(m) && c.log.sent == EncodeMessage(r) && c.log.delivered == [Send(true, r)]
  {
    run := Written(m, r);
    hide Legal, After, EncodeMessage, Encodable;
    run := CheckPasses(run);
    run := ClosesDown(run);
  }

}
