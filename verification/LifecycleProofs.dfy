/** What every step of the connection protocol keeps.

The invariant is split by concern; each part is a predicate over just the fields it is about. */
module LifecycleProofs {
  import opened Wrappers
  import opened Streaming
  import opened Framing
  import opened ConnectionCore
  import opened Lifecycle

  // ----- tasks and their single token -----

  /** How the loop thread is involved with the task token. */
  datatype Role = NoRole | Enqueuer | Submitter | Completer

  function RoleOf(pc: Pc): Role {
    if pc.Enqueueing? then Enqueuer else if pc.LoopSubmitting? then Submitter
    else if pc.LoopCompleting? then Completer else NoRole
  }

  predicate HasBack(pc: Pc) {
    pc.FinishTasks? || pc.FinishSends? || pc.FinishQueue? || pc.FinishOutput? || pc.Swap? || pc.CloseTasks?
    || pc.CloseBuffers? || pc.Cleanup? || pc.Release?
  }

  /** Inside a call made from within the parse loop. */
  predicate Nested(pc: Pc) { HasBack(pc) && pc.back.ToParse? }

  function Head(flights: seq<Flight>): Option<Flight> { if flights == [] then None else Some(flights[0]) }

  predicate HeldByLoop(f: Option<Flight>) { f.Some? && !f.value.InPool? && f.value.owner.LoopThread? }

  predicate TokensOf(connected: bool, stopped: bool, tasks: TaskSide, role: Role, nested: bool,
                     n: nat, f: Option<Flight>, posting: map<nat, FollowUpCb>)
  {
    && n == (if tasks.running then 1 else 0) && (f.Some? <==> n != 0)
    && (tasks.pending != [] ==> tasks.running)
    && (!role.NoRole? ==> connected)
    && (role.Submitter? <==> HeldByLoop(f) && f.value.Submitting?)
    && (role.Completer? <==> HeldByLoop(f) && f.value.Completing?)
    && (HeldByLoop(f) ==> f.value.Submitting? || f.value.Completing?)
    && (role.Completer? || nested ==> stopped)
    && (f.Some? && OnWorker(f.value) ==> f.value.owner.w !in posting)
  }

  predicate Tokens(c: Conn) {
    TokensOf(c.core.state.Connected?, c.stopped, c.core.tasks, RoleOf(c.pc), Nested(c.pc),
             |c.flights|, Head(c.flights), c.posting)
  }

  // ----- the close callback -----

  datatype CloseRole = NotClosing | Locking | Direct(released: bool)

  function CloseRoleOf(pc: Pc): CloseRole {
    if pc.CloseTasks? then Locking
    else if (pc.CloseBuffers? && !pc.deferred) || pc.Cleanup? then Direct(false)
    else if pc.Release? then Direct(true)
    else NotClosing
  }

  function FinalPosters(posting: map<nat, FollowUpCb>): set<nat> { set w | w in posting && posting[w] == FinalCb }

  /** A closing connection owes exactly one run of the callback, in exactly one place. */
  predicate CloseOf(state: LifeState, tasks: TaskSide, role: CloseRole, posting: nat, posted: nat, closes: nat) {
    && (if role.NotClosing? then 0 else 1) + (if tasks.closePending then 1 else 0) + posting + posted
       == (if state.Closing? then 1 else 0)
    && closes == (if state.Closed? || role == Direct(true) then 1 else 0)
    && (tasks.closePending ==> tasks.running)
    && (!state.Connected? && !tasks.closePending && !role.Locking? ==> !tasks.running)
    && (!state.Connected? && !role.Locking? ==> tasks.pending == [])
  }

  predicate CloseOnce(c: Conn) {
    && CloseOf(c.core.state, c.core.tasks, CloseRoleOf(c.pc), |FinalPosters(c.posting)|,
               Tally(c.posted).finals, c.log.closes)
    && (c.pc.CloseBuffers? ==> !c.core.state.Connected?)
  }

  // ----- order of handler invocations -----

  predicate Begun(f: Flight) { f.Handling? || f.Responding? }

  predicate Waiting(f: Flight) { f.Submitting? || f.InPool? || f.Fetched? }

  function Entering(pc: Pc): Option<Message> { if pc.Enqueueing? then Some(pc.t) else None }

  predicate FifoOf(connected: bool, stopped: bool, pending: seq<Message>, entering: Option<Message>, f: Option<Flight>,
                   parsed: seq<Message>, work: WorkLog)
  {
    && work.popped + pending <= parsed
    && (connected ==> parsed == work.popped + pending + Listed(entering))
    && work.started <= work.popped && work.finished <= work.started
    && (f.Some? ==> work.popped != [] && f.value.t == work.popped[|work.popped| - 1])
    && (f.Some? && Begun(f.value) ==> work.started != [] && f.value.t == work.started[|work.started| - 1])
    && |work.finished| == |work.started| - (if f.Some? && Begun(f.value) then 1 else 0)
    && (!work.skipped ==> |work.started| == |work.popped| - (if f.Some? && Waiting(f.value) then 1 else 0))
    && (work.skipped && connected ==> stopped && (f.Some? ==> f.value.Submitting? || f.value.Completing?))
  }

  predicate Fifo(c: Conn) {
    FifoOf(c.core.state.Connected?, c.stopped, c.core.tasks.pending, Entering(c.pc), Head(c.flights), c.log.parsed, c.log.work)
  }

  // ----- input -----

  /** The parse loop has stopped and found no error. */
  predicate Settled(pc: Pc) {
    !pc.Parsing? && RoleOf(pc).NoRole? && !Nested(pc) && !(pc.Swap? && pc.cause.Fault?)
  }

  predicate InputOf(connected: bool, eof: bool, settled: bool, inBuf: Bytes, received: Bytes, parsed: seq<Message>) {
    && parsed <= Decode(received).out
    && (connected ==>
          var whole, left := Decode(received), Decode(inBuf);
          && whole.out == parsed + left.out && whole.failed == left.failed && (!eof ==> whole.rest == left.rest))
    && (connected && settled ==> FrameStep(NoState, inBuf).Wait?)
  }

  predicate Input(c: Conn) {
    InputOf(c.core.state.Connected?, c.core.eof, Settled(c.pc), c.core.inBuf, c.log.received, c.log.parsed)
  }

  // ----- responses on their way -----

  function OwnOf(send: Send): seq<Message> { if send.own then [send.r] else [] }

  /** What the posted callbacks amount to. */
  datatype Queued = Queued(sends: nat, own: seq<Message>, finals: nat)

  function Tally(cbs: seq<Callback>): (q: Queued)
    ensures |q.own| <= q.sends
  {
    if cbs == [] then Queued(0, [], 0)
    else
      var rest := Tally(cbs[1..]);
      match cbs[0]
      case SendCb(send) => rest.(sends := rest.sends + 1, own := OwnOf(send) + rest.own)
      case FinalCb => rest.(finals := rest.finals + 1)
      case _ => rest
  }

  /** This connection's own responses among those delivered. */
  function Own(sends: seq<Send>): seq<Message> {
    if sends == [] then [] else Own(sends[..|sends| - 1]) + OwnOf(sends[|sends| - 1])
  }

  function Messages(sends: seq<Send>): seq<Message> {
    if sends == [] then [] else Messages(sends[..|sends| - 1]) + [sends[|sends| - 1].r]
  }

  function FlightSend(f: Option<Flight>): Option<Message> {
    if f.Some? && f.value.Responding? then Some(f.value.r) else None
  }

  function Listed(m: Option<Message>): seq<Message> { if m.Some? then [m.value] else [] }

  /** The send callback being run, and whether it still counts as pending. */
  function Current(pc: Pc): Option<Send> { if pc.SendStart? || pc.Delivering? then Some(pc.send) else None }

  predicate SendsOf(connected: bool, sends: nat, transit: nat, flight: Option<Message>, queued: Queued,
                    current: Option<Send>, counted: bool, produced: seq<Message>, delivered: seq<Send>)
  {
    && sends == transit + |Listed(flight)| + queued.sends + (if counted then 1 else 0)
    && Own(delivered) <= produced
    && (connected ==>
          produced == Own(delivered) + (if current.Some? then OwnOf(current.value) else []) + queued.own + Listed(flight))
  }

  predicate Sends(c: Conn) {
    SendsOf(c.core.state.Connected?, c.core.sends, c.transit, FlightSend(Head(c.flights)), Tally(c.posted),
            Current(c.pc), c.pc.SendStart?, c.log.produced, c.log.delivered)
  }

  // ----- output bytes -----

  predicate StreamOf(connected: bool, buffer: Bytes, queue: seq<Bytes>, delivered: seq<Send>, sent: Bytes) {
    && sent <= EncodeAll(Messages(delivered))
    && (connected ==> sent + buffer + Flatten(queue) == EncodeAll(Messages(delivered)))
  }

  predicate Output(c: Conn) {
    StreamOf(c.core.state.Connected?, c.core.output.buffer, c.core.output.queue, c.log.delivered, c.log.sent)
  }

  predicate LimitsOf(connected: bool, o: OutSide, flushing: bool, over: bool) {
    && (o.queue != [] ==> flushing) && (flushing ==> connected)
    && (connected && !over ==> |o.buffer| <= HIGH_WATER_MARK && (o.buffer != [] ==> o.armed))
  }

  predicate Limits(c: Conn) {
    LimitsOf(c.core.state.Connected?, c.core.output, c.pc.Flushing?, c.pc.Swap? && c.pc.cause.HighWater?)
  }

  // ----- end of input -----

  /** Something outstanding will run the end-of-input check again. */
  predicate Outstanding(c: Conn) {
    || c.core.tasks.running
    || c.core.sends > 0
    || (c.core.output.buffer != [] && c.core.output.armed)
    || CheckCb in c.posting.Values
    || CheckCb in c.posted
  }

  predicate Wakeup(c: Conn) {
    c.core.state.Connected? && c.core.eof && c.pc.Idle? ==> Outstanding(c)
  }

  /** How many of the four conditions have been seen true: tasks 1, send callbacks 2, queue 3, output 4. */
  function Passed(pc: Pc): nat {
    if pc.FinishSends? then 1 else if pc.FinishQueue? then 2 else if pc.FinishOutput? then 3
    else if pc.Swap? && pc.cause.Drained? then 4 else 0
  }

  predicate DrainingOf(passed: nat, connected: bool, eof: bool, tasks: TaskSide, o: OutSide,
                       produced: seq<Message>, delivered: seq<Send>)
  {
    && (passed >= 1 ==> eof && connected && !tasks.running && tasks.pending == [])
    && (passed >= 2 ==> produced == Own(delivered))
    && (passed >= 3 ==> o.queue == [])
    && (passed >= 4 ==> o.buffer == [])
  }

  predicate Draining(c: Conn) {
    DrainingOf(Passed(c.pc), c.core.state.Connected?, c.core.eof, c.core.tasks, c.core.output,
               c.log.produced, c.log.delivered)
  }

  ghost predicate Inv(c: Conn) {
    Tokens(c) && CloseOnce(c) && Fifo(c) && Input(c) && Sends(c) && Output(c) && Limits(c) && Wakeup(c) && Draining(c)
  }

  // ----- small facts -----

  lemma {:induction false} TallyPush(cbs: seq<Callback>, cb: Callback)
    ensures Tally(cbs + [cb]) ==
            var q := Tally(cbs);
            match cb
            case SendCb(send) => q.(sends := q.sends + 1, own := q.own + OwnOf(send))
            case FinalCb => q.(finals := q.finals + 1)
            case _ => q
    decreases |cbs|
  {
    if cbs == [] {
      assert ([] + [cb])[1..] == [];
    } else {
      TallyPush(cbs[1..], cb);
      assert (cbs + [cb])[1..] == cbs[1..] + [cb];
    }
  }

  lemma DeliveredPush(sends: seq<Send>, send: Send)
    ensures Own(sends + [send]) == Own(sends) + OwnOf(send)
    ensures EncodeAll(Messages(sends + [send])) == EncodeAll(Messages(sends)) + EncodeMessage(send.r)
  {
    assert (sends + [send])[..|sends|] == sends;
    assert Messages(sends + [send])[..|Messages(sends)|] == Messages(sends);
  }

  lemma {:induction false} FlattenPush(chunks: seq<Bytes>, b: Bytes)
    ensures Flatten(chunks + [b]) == Flatten(chunks) + b
    decreases |chunks|
  {
    if chunks == [] {
      assert ([] + [b])[1..] == [];
    } else {
      FlattenPush(chunks[1..], b);
      assert (chunks + [b])[1..] == chunks[1..] + [b];
    }
  }

  lemma PostersAdd(posting: map<nat, FollowUpCb>, w: nat, cb: FollowUpCb)
    requires w !in posting
    ensures |FinalPosters(posting[w := cb])| == |FinalPosters(posting)| + (if cb == FinalCb then 1 else 0)
  {
    var before, after := FinalPosters(posting), FinalPosters(posting[w := cb]);
    assert after == if cb == FinalCb then before + {w} else before;
  }

  lemma PostersRemove(posting: map<nat, FollowUpCb>, w: nat)
    requires w in posting
    ensures |FinalPosters(posting - {w})| == |FinalPosters(posting)| - (if posting[w] == FinalCb then 1 else 0)
  {
    var before, after := FinalPosters(posting), FinalPosters(posting - {w});
    assert before == if posting[w] == FinalCb then after + {w} else after;
  }

  // ----- the parts that need an argument of their own -----

  lemma FifoParse(stopped: bool, pending: seq<Message>, t: Message, f: Option<Flight>, parsed: seq<Message>, work: WorkLog)
    requires FifoOf(true, stopped, pending, None, f, parsed, work)
    ensures FifoOf(true, stopped, pending, Some(t), f, parsed + [t], work)
  {
  }

  lemma FifoEnqueue(stopped: bool, tasks: TaskSide, t: Message, f: Option<Flight>, parsed: seq<Message>, work: WorkLog)
    requires FifoOf(true, stopped, tasks.pending, Some(t), f, parsed, work)
    requires (f.Some? <==> tasks.running) && (tasks.pending != [] ==> tasks.running)
    ensures var (tasks', next) := EnqueueSection(tasks, t);
            if next.None? then FifoOf(true, stopped, tasks'.pending, None, f, parsed, work)
            else FifoOf(true, stopped, tasks'.pending, None, Some(Submitting(LoopThread, next.value)), parsed,
                        work.(popped := work.popped + [next.value]))
  {
    var (tasks', next) := EnqueueSection(tasks, t);
    if next.Some? {
      assert work.popped + [next.value] + tasks'.pending == work.popped + ([next.value] + tasks'.pending);
    } else {
      assert work.popped + tasks'.pending == work.popped + tasks.pending + [t];
    }
  }

  lemma FifoComplete(connected: bool, stopped: bool, tasks: TaskSide, entering: Option<Message>, f: Flight,
                     parsed: seq<Message>, work: WorkLog)
    requires FifoOf(connected, stopped, tasks.pending, entering, Some(f), parsed, work) && f.Completing?
    ensures var (tasks', next) := CompleteSection(connected, tasks);
            if next.Resubmit? then
              FifoOf(connected, stopped, tasks'.pending, entering, Some(Submitting(f.owner, next.task)), parsed,
                     work.(popped := work.popped + [next.task]))
            else FifoOf(connected, stopped, tasks'.pending, entering, None, parsed, work)
  {
    var (tasks', next) := CompleteSection(connected, tasks);
    if next.Resubmit? {
      assert work.popped + [next.task] + tasks'.pending == work.popped + ([next.task] + tasks'.pending);
    }
  }

  lemma ReadInput(c: Conn, bytes: Bytes, end: ReadEnd)
    requires Input(c) && c.pc.Idle?
    ensures Input(DoRead(c, bytes, end))
  {
    hide Decode, FrameStep;
    if c.core.state.Connected? && !c.core.eof {
      DecodeAppend(c.log.received, bytes);
      DecodeAppend(c.core.inBuf, bytes);
      DecodeStep(c.core.inBuf);
    }
  }

  lemma StreamWrite(b: Bytes, queue: seq<Bytes>, n: nat, delivered: seq<Send>, sent: Bytes)
    requires StreamOf(true, b, queue, delivered, sent) && n <= |b|
    ensures StreamOf(true, b[n..], queue, delivered, sent + b[..n])
  {
    hide EncodeAll, Messages, Flatten;
    assert sent + b[..n] + b[n..] == sent + b;
  }

  lemma StreamDeliver(b: Bytes, queue: seq<Bytes>, send: Send, delivered: seq<Send>, sent: Bytes)
    requires StreamOf(true, b, queue, delivered, sent)
    ensures StreamOf(true, b, queue + [EncodeMessage(send.r)], delivered + [send], sent)
  {
    hide EncodeAll, Messages, Flatten, EncodeMessage;
    DeliveredPush(delivered, send);
    FlattenPush(queue, EncodeMessage(send.r));
  }

  lemma StreamFlush(b: Bytes, queue: seq<Bytes>, delivered: seq<Send>, sent: Bytes)
    requires StreamOf(true, b, queue, delivered, sent)
    ensures StreamOf(true, b + Flatten(queue), [], delivered, sent)
  {
    hide EncodeAll, Messages;
    assert sent + (b + Flatten(queue)) + Flatten([]) == sent + b + Flatten(queue);
  }

  /** What holds of a connected connection in these parts also holds once it is closing. */
  lemma StreamDisconnect(b: Bytes, queue: seq<Bytes>, delivered: seq<Send>, sent: Bytes, b': Bytes, queue': seq<Bytes>)
    requires exists connected :: StreamOf(connected, b, queue, delivered, sent)
    ensures StreamOf(false, b', queue', delivered, sent)
  {
    hide EncodeAll, Messages, Flatten;
  }

  lemma SendsDeliver(connected: bool, sends: nat, transit: nat, flight: Option<Message>, queued: Queued, send: Send,
                     produced: seq<Message>, delivered: seq<Send>)
    requires SendsOf(connected, sends, transit, flight, queued, Some(send), false, produced, delivered)
    ensures connected ==> SendsOf(connected, sends, transit, flight, queued, None, false, produced, delivered + [send])
    ensures !connected ==> SendsOf(connected, sends, transit, flight, queued, None, false, produced, delivered)
  {
    DeliveredPush(delivered, send);
    hide Own;
  }

  lemma ParseInput(c: Conn)
    requires Tokens(c) && Input(c) && c.pc.Parsing?
    ensures Input(DoParse(c))
  {
    hide Decode;
    DecodeStep(c.core.inBuf);
    DecodeStep([]);
    match FrameStep(NoState, c.core.inBuf)
    case Move(_, used, ms) =>
      var rest := Decode(c.core.inBuf[used..]).out;
      assert c.log.parsed + (ms + rest) == c.log.parsed + ms + rest;
    case _ =>
  }

  // ----- preservation, one operation at a time -----

  lemma ReadKeeps(c: Conn, bytes: Bytes, end: ReadEnd)
    requires Inv(c) && c.pc.Idle?
    ensures Inv(DoRead(c, bytes, end))
  {
    hide FifoOf, SendsOf, StreamOf, CloseOf, InputOf;
    ReadInput(c, bytes, end);
  }

  lemma ParseKeeps(c: Conn)
    requires Inv(c) && c.pc.Parsing?
    ensures Inv(DoParse(c))
  {
    hide FifoOf, SendsOf, StreamOf, CloseOf, InputOf, FrameStep, Decode, Tally, FinalPosters, Own;
    ParseInput(c);
    if DoParse(c).pc.Enqueueing? {
      assert FrameStep(NoState, c.core.inBuf).emitted == [DoParse(c).pc.t];
      FifoParse(c.stopped, c.core.tasks.pending, DoParse(c).pc.t, Head(c.flights), c.log.parsed, c.log.work);
    }
  }

  lemma EnqueueKeeps(c: Conn)
    requires Inv(c) && c.pc.Enqueueing?
    ensures Inv(DoEnqueue(c))
  {
    hide InputOf, StreamOf, SendsOf, FifoOf, Tally, FinalPosters, Own, LimitsOf;
    FifoEnqueue(c.stopped, c.core.tasks, c.pc.t, Head(c.flights), c.log.parsed, c.log.work);
  }

  lemma SubmitKeeps(c: Conn, i: nat)
    requires Inv(c) && i < |c.flights| && c.flights[i].Submitting?
    ensures Inv(DoSubmit(c, i))
  {
    hide InputOf, StreamOf, CloseOf;
  }

  lemma CompleteOnLoop(c: Conn, i: nat)
    requires Inv(c) && i < |c.flights| && c.flights[i].Completing? && c.flights[i].owner.LoopThread?
    ensures Inv(DoComplete(c, i))
  {
    hide InputOf, StreamOf, SendsOf, FifoOf, Tally, Own, LimitsOf, FinalPosters;
    FifoComplete(c.core.state.Connected?, c.stopped, c.core.tasks, Entering(c.pc), c.flights[0],
                 c.log.parsed, c.log.work);
    assert Without(c.flights, i) == [];
  }

  lemma CompleteOnWorker(c: Conn, i: nat)
    requires Inv(c) && i < |c.flights| && c.flights[i].Completing? && c.flights[i].owner.Worker?
    ensures Inv(DoComplete(c, i))
  {
    hide InputOf, StreamOf, SendsOf, FifoOf, Tally, Own, LimitsOf;
    FifoComplete(c.core.state.Connected?, c.stopped, c.core.tasks, Entering(c.pc), c.flights[0],
                 c.log.parsed, c.log.work);
    assert Without(c.flights, i) == [];
    var w, posting := c.flights[i].owner.w, c.posting[c.flights[i].owner.w := CheckCb];
    assert posting[w] in posting.Values;
    PostersAdd(c.posting, w, FinalCb);
    PostersAdd(c.posting, w, CheckCb);
    hide FinalPosters;
  }

  lemma CompleteKeeps(c: Conn, i: nat)
    requires Inv(c) && i < |c.flights| && c.flights[i].Completing?
    ensures Inv(DoComplete(c, i))
  {
    hide Inv, DoComplete;
    if c.flights[i].owner.Worker? { CompleteOnWorker(c, i); } else { CompleteOnLoop(c, i); }
  }

  lemma FinishKeeps(c: Conn)
    requires Inv(c) && Enabled(c, FinishCheck)
    ensures Inv(DoFinish(c))
  {
    hide FifoOf, InputOf, CloseOf, StreamOf, Tally, FinalPosters, Own;
  }

  /** These parts say less of a connection that is closing. */
  lemma Disconnect(c: Conn, s: bool)
    requires Fifo(c) && Input(c) && Sends(c) && Output(c)
    ensures FifoOf(false, c.stopped, c.core.tasks.pending, None, Head(c.flights), c.log.parsed, c.log.work)
    ensures InputOf(false, c.core.eof, s, c.core.inBuf, c.log.received, c.log.parsed)
    ensures SendsOf(false, c.core.sends, c.transit, FlightSend(Head(c.flights)), Tally(c.posted), Current(c.pc), c.pc.SendStart?,
                    c.log.produced, c.log.delivered)
    ensures StreamOf(false, c.core.output.buffer, c.core.output.queue, c.log.delivered, c.log.sent)
  {
    hide Decode, Tally, EncodeAll, Messages, Own;
  }

  lemma SwapKeeps(c: Conn)
    requires Inv(c) && c.pc.Swap?
    ensures Inv(DoSwap(c))
  {
    hide StreamOf, FifoOf, SendsOf, InputOf, Tally, FinalPosters, Own;
    Disconnect(c, Settled(DoSwap(c).pc));
  }

  lemma LockTasksKeeps(c: Conn)
    requires Inv(c) && c.pc.CloseTasks?
    ensures Inv(DoLockTasks(c))
  {
  }

  lemma DropBuffersKeeps(c: Conn)
    requires Inv(c) && c.pc.CloseBuffers?
    ensures Inv(DoDropBuffers(c))
  {
    hide FifoOf, SendsOf, StreamOf, Tally, FinalPosters, Own;
    StreamDisconnect(c.core.output.buffer, c.core.output.queue, c.log.delivered, c.log.sent, [], []);
  }

  lemma CallbackKeeps(c: Conn, s: Step)
    requires Inv(c) && Enabled(c, s) && (s.RunCleanup? || s.RunRelease?)
    ensures Inv(Apply(c, s))
  {
    hide FifoOf, SendsOf, StreamOf, InputOf;
  }

  lemma InputWeaker(connected: bool, eof: bool, inBuf: Bytes, received: Bytes, parsed: seq<Message>, settled: bool)
    requires InputOf(connected, eof, true, inBuf, received, parsed)
    ensures InputOf(connected, eof, settled, inBuf, received, parsed)
  {
    hide Decode, FrameStep;
  }

  lemma WriteKeeps(c: Conn, n: nat, fault: bool)
    requires Inv(c) && c.pc.Idle? && n <= |c.core.output.buffer|
    ensures Inv(DoWrite(c, n, fault))
  {
    hide FifoOf, SendsOf, CloseOf, StreamOf, InputOf, Tally, FinalPosters, Own;
    InputWeaker(c.core.state.Connected?, c.core.eof, c.core.inBuf, c.log.received, c.log.parsed,
                Settled(DoWrite(c, n, fault).pc));
    if c.core.state.Connected? {
      StreamWrite(c.core.output.buffer, c.core.output.queue, n, c.log.delivered, c.log.sent);
    }
  }

  lemma RunCallbackKeeps(c: Conn)
    requires Inv(c) && c.pc.Idle? && c.posted != []
    ensures Inv(DoCallback(c))
  {
    hide FifoOf, InputOf, StreamOf;
  }

  lemma SendEnterKeeps(c: Conn)
    requires Inv(c) && Enabled(c, SendEnter)
    ensures Inv(Apply(c, SendEnter))
  {
    hide FifoOf, InputOf, StreamOf, CloseOf;
  }

  lemma DeliverKeeps(c: Conn)
    requires Inv(c) && c.pc.Delivering?
    ensures Inv(DoDeliver(c))
  {
    hide FifoOf, InputOf, CloseOf, StreamOf, SendsOf, EncodeMessage, Tally, FinalPosters, Own;
    var send := c.pc.send;
    if c.core.state.Connected? {
      StreamDeliver(c.core.output.buffer, c.core.output.queue, send, c.log.delivered, c.log.sent);
    }
    SendsDeliver(c.core.state.Connected?, c.core.sends, c.transit, FlightSend(Head(c.flights)), Tally(c.posted), send,
                 c.log.produced, c.log.delivered);
  }

  lemma FlushKeeps(c: Conn)
    requires Inv(c) && c.pc.Flushing?
    ensures Inv(DoFlush(c))
  {
    hide FifoOf, InputOf, CloseOf, SendsOf, StreamOf;
    StreamFlush(c.core.output.buffer, c.core.output.queue, c.log.delivered, c.log.sent);
  }

  lemma LoopStartKeeps(c: Conn, s: Step)
    requires Inv(c) && Enabled(c, s) && (s.LoopSend? || s.CloseNow?)
    ensures Inv(Apply(c, s))
  {
    hide FifoOf, InputOf, CloseOf, StreamOf, Tally, FinalPosters, Own;
  }

  lemma FetchKeeps(c: Conn, i: nat, w: nat)
    requires Inv(c) && Enabled(c, Fetch(i, w))
    ensures Inv(Apply(c, Fetch(i, w)))
  {
    hide InputOf, CloseOf, StreamOf;
  }

  lemma BeginKeeps(c: Conn, i: nat)
    requires Inv(c) && Enabled(c, Begin(i))
    ensures Inv(Apply(c, Begin(i)))
  {
    hide InputOf, CloseOf, StreamOf, SendsOf, Tally, FinalPosters, Own, LimitsOf;
  }

  lemma RespondKeeps(c: Conn, i: nat, r: Message)
    requires Inv(c) && Enabled(c, Respond(i, r))
    ensures Inv(Apply(c, Respond(i, r)))
  {
    hide InputOf, CloseOf, StreamOf, Tally, FinalPosters, LimitsOf;
  }

  lemma PostResponseFifo(c: Conn, i: nat)
    requires Inv(c) && Enabled(c, PostResponse(i))
    ensures Fifo(Apply(c, PostResponse(i)))
  {
    hide InputOf, StreamOf, LimitsOf, Own, FinalPosters, Tally, DrainingOf, SendsOf, CloseOf;
  }

  lemma PostResponseSends(c: Conn, i: nat)
    requires Inv(c) && Enabled(c, PostResponse(i))
    ensures Sends(Apply(c, PostResponse(i)))
  {
    hide InputOf, StreamOf, LimitsOf, Own, FinalPosters, Tally, DrainingOf, FifoOf, CloseOf;
    TallyPush(c.posted, SendCb(Send(true, c.flights[i].r)));
  }

  lemma PostResponseKeeps(c: Conn, i: nat)
    requires Inv(c) && Enabled(c, PostResponse(i))
    ensures Inv(Apply(c, PostResponse(i)))
  {
    hide InputOf, StreamOf, LimitsOf, Own, FinalPosters, Tally, DrainingOf, FifoOf, SendsOf;
    TallyPush(c.posted, SendCb(Send(true, c.flights[i].r)));
    PostResponseFifo(c, i);
    PostResponseSends(c, i);
  }

  lemma ReturnKeeps(c: Conn, i: nat)
    requires Inv(c) && Enabled(c, Return(i))
    ensures Inv(Apply(c, Return(i)))
  {
    hide InputOf, CloseOf, StreamOf, SendsOf, Tally, FinalPosters, Own, LimitsOf;
  }

  lemma PostFollowUpKeeps(c: Conn, w: nat)
    requires Inv(c) && Enabled(c, PostFollowUp(w))
    ensures Inv(Apply(c, PostFollowUp(w)))
  {
    hide InputOf, StreamOf, FifoOf;
    TallyPush(c.posted, c.posting[w]);
    PostersRemove(c.posting, w);
  }

  lemma AskKeeps(c: Conn)
    requires Inv(c)
    ensures Inv(Apply(c, Ask))
  {
    hide InputOf, StreamOf, FifoOf;
  }

  lemma PostAskKeeps(c: Conn, r: Message)
    requires Inv(c) && c.transit > 0
    ensures Inv(Apply(c, PostAsk(r)))
  {
    hide InputOf, StreamOf, FifoOf;
    TallyPush(c.posted, SendCb(Send(false, r)));
  }

  lemma AskCloseKeeps(c: Conn)
    requires Inv(c)
    ensures Inv(Apply(c, AskClose))
  {
    hide InputOf, StreamOf, FifoOf, SendsOf;
    TallyPush(c.posted, CloseCb);
  }

  lemma StopPoolKeeps(c: Conn)
    requires Inv(c)
    ensures Inv(Apply(c, StopPool))
  {
    hide InputOf, StreamOf, SendsOf, CloseOf;
  }
}
