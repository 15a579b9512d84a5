/** What one step of a connection can do to the parts of the server it shares. */
module LifecycleEffects {
  import opened Wrappers
  import opened Framing
  import opened ConnectionCore
  import opened Lifecycle
  import opened LifecycleProofs

  predicate LoopStep(s: Step) {
    s.ReadReady? || s.ParseNext? || s.EnqueueLock? || s.LoopSubmit? || s.LoopComplete? || s.FinishCheck?
    || s.SwapState? || s.LockTasks? || s.DropBuffers? || s.RunCleanup? || s.RunRelease? || s.WriteReady?
    || s.RunCallback? || s.SendEnter? || s.Deliver? || s.Flush? || s.LoopSend? || s.CloseNow?
  }

  /** The callback a step adds to the loop's queue. */
  function NewPost(c: Conn, s: Step): Option<Callback>
    requires Enabled(c, s)
  {
    match s
    case PostResponse(i) => Some(SendCb(Send(true, c.flights[i].r)))
    case PostFollowUp(w) => Some(c.posting[w])
    case PostAsk(r) => Some(SendCb(Send(false, r)))
    case AskClose => Some(CloseCb)
    case _ => None
  }

  /** The connection has its task in the worker pool's queue. */
  predicate Pooled(c: Conn) { c.flights != [] && c.flights[0].InPool? }

  /** The worker that holds the connection's task. */
  function Holder(c: Conn): Option<nat> {
    if c.flights != [] && OnWorker(c.flights[0]) then Some(c.flights[0].owner.w) else None
  }

  predicate Submits(c: Conn, s: Step) { (s.LoopSubmit? || s.WorkerSubmit?) && !c.stopped }

  /** The worker thread that takes the step. */
  function Actor(c: Conn, s: Step): Option<nat> {
    if s.Fetch? || s.PostFollowUp? then Some(s.w)
    else if s.Begin? || s.Respond? || s.PostResponse? || s.Return? || s.Complete? || s.WorkerSubmit? then Holder(c)
    else None
  }

  predicate PostsOnly(c: Conn, s: Step)
    requires Enabled(c, s)
  {
    && Apply(c, s).posted == (if s.RunCallback? then c.posted[1..]
                              else if NewPost(c, s).Some? then c.posted + [NewPost(c, s).value] else c.posted)
    && (s.RunCallback? ==> NewPost(c, s).None?)
  }

  lemma LoopPosts(c: Conn, s: Step)
    requires Enabled(c, s) && LoopStep(s)
    ensures PostsOnly(c, s)
  {
    hide FrameStep, FlushSection, EncodeMessage;
  }

  lemma OtherPosts(c: Conn, s: Step)
    requires Enabled(c, s) && !LoopStep(s)
    ensures PostsOnly(c, s)
  {
    hide FrameStep, FlushSection, EncodeMessage;
  }

  lemma PostedEffect(c: Conn, s: Step)
    requires Enabled(c, s)
    ensures Apply(c, s).posted ==
            if s.RunCallback? then c.posted[1..]
            else if NewPost(c, s).Some? then c.posted + [NewPost(c, s).value] else c.posted
    ensures s.RunCallback? ==> NewPost(c, s).None?
  {
    hide Apply, Enabled, NewPost;
    if LoopStep(s) { LoopPosts(c, s); } else { OtherPosts(c, s); }
  }

  /** The loop thread's steps from a read to the end-of-input check. */
  predicate InputStep(s: Step) {
    s.ReadReady? || s.ParseNext? || s.EnqueueLock? || s.LoopSubmit? || s.LoopComplete? || s.FinishCheck?
  }

  lemma InputState(c: Conn, s: Step)
    requires Enabled(c, s) && InputStep(s)
    ensures var d := Apply(c, s);
            d.core.state == c.core.state && d.log.closes == c.log.closes && d.stopped == c.stopped && !c.pc.Swap?
  {
    hide FrameStep, FlushSection, EncodeMessage;
  }

  lemma LoopState(c: Conn, s: Step)
    requires Enabled(c, s) && LoopStep(s) && !InputStep(s)
    ensures var d := Apply(c, s);
            && (!c.core.state.Connected? && !s.RunRelease? ==> d.core.state == c.core.state)
            && (d.core.state.Connected? ==> c.core.state.Connected?)
            && (s.RunRelease? ==> d.core.state.Closed?)
            && (d.core.state.Closed? && !c.core.state.Closed? ==> s.RunRelease?)
            && d.log.closes == c.log.closes + (if s.RunCleanup? then 1 else 0)
            && d.stopped == c.stopped
            && (c.pc.Swap? ==> !d.core.state.Connected?)
  {
    hide FrameStep, FlushSection, EncodeMessage;
  }

  lemma OtherState(c: Conn, s: Step)
    requires Enabled(c, s) && !LoopStep(s) && !s.StopPool?
    ensures var d := Apply(c, s);
            d.core.state == c.core.state && d.log.closes == c.log.closes && d.stopped == c.stopped && d.pc == c.pc
  {
    hide FrameStep, FlushSection, EncodeMessage;
  }

  lemma StateEffect(c: Conn, s: Step)
    requires Enabled(c, s) && !s.StopPool?
    ensures var d := Apply(c, s);
            && (!c.core.state.Connected? && !s.RunRelease? ==> d.core.state == c.core.state)
            && (d.core.state.Connected? ==> c.core.state.Connected?)
            && (s.RunRelease? ==> d.core.state.Closed?)
            && (d.core.state.Closed? && !c.core.state.Closed? ==> s.RunRelease?)
            && d.log.closes == c.log.closes + (if s.RunCleanup? then 1 else 0)
            && d.stopped == c.stopped
            && (!LoopStep(s) ==> d.pc == c.pc && d.core.state == c.core.state)
            && (LoopStep(s) && c.pc.Swap? ==> !d.core.state.Connected?)
  {
    hide Apply, Enabled;
    if InputStep(s) { InputState(c, s); } else if LoopStep(s) { LoopState(c, s); } else { OtherState(c, s); }
  }

  /** A task that is neither in the pool nor with a worker is with the loop thread, on a connected connection. */
  lemma WhereTasksAre(c: Conn)
    requires Tokens(c) && !Pooled(c) && Holder(c).None? && !c.core.state.Connected?
    ensures c.flights == []
  {
  }

  predicate PoolsOnly(c: Conn, s: Step)
    requires Enabled(c, s)
  {
    && Pooled(Apply(c, s)) == (Submits(c, s) || (Pooled(c) && !s.Fetch?))
    && (Submits(c, s) ==> !Pooled(c)) && (s.Fetch? ==> Pooled(c))
  }

  lemma LoopPools(c: Conn, s: Step)
    requires Tokens(c) && Enabled(c, s) && LoopStep(s)
    ensures PoolsOnly(c, s)
  {
    if TaskStep(s) { TaskPools(c, s); } else { Unmoved(c, s); hide Apply, Tokens; }
  }

  lemma TaskPools(c: Conn, s: Step)
    requires Tokens(c) && Enabled(c, s) && TaskStep(s)
    ensures PoolsOnly(c, s)
  {
    hide FrameStep, FlushSection, EncodeMessage;
  }

  lemma OtherPools(c: Conn, s: Step)
    requires Tokens(c) && Enabled(c, s) && !LoopStep(s)
    ensures PoolsOnly(c, s)
  {
    hide FrameStep, FlushSection, EncodeMessage;
  }

  lemma PoolEffect(c: Conn, s: Step)
    requires Tokens(c) && Enabled(c, s)
    ensures Pooled(Apply(c, s)) == (Submits(c, s) || (Pooled(c) && !s.Fetch?))
    ensures (Submits(c, s) ==> !Pooled(c)) && (s.Fetch? ==> Pooled(c))
  {
    hide Apply, Enabled, Tokens, Pooled;
    if LoopStep(s) { LoopPools(c, s); } else { OtherPools(c, s); }
  }

  /** The loop thread's own steps with a task. */
  predicate TaskStep(s: Step) { s.EnqueueLock? || s.LoopSubmit? || s.LoopComplete? }

  lemma TaskStepEffect(c: Conn, s: Step)
    requires Tokens(c) && Enabled(c, s) && TaskStep(s)
    ensures Holder(Apply(c, s)) == Holder(c) && Apply(c, s).posting == c.posting
  {
    hide FrameStep, FlushSection, EncodeMessage;
  }

  /** What a step of no worker leaves alone. */
  lemma OtherEffect(c: Conn, s: Step)
    requires Tokens(c) && Enabled(c, s) && Actor(c, s).None?
    ensures Holder(Apply(c, s)) == Holder(c) && Apply(c, s).posting == c.posting
  {
    if TaskStep(s) {
      TaskStepEffect(c, s);
    } else {
      assert s.Complete? || s.WorkerSubmit? || s.Begin? || s.Respond? || s.PostResponse? || s.Return? ==> Actor(c, s).Some?;
      Unmoved(c, s);
      hide Apply, Tokens;
    }
  }

  lemma Unmoved(c: Conn, s: Step)
    requires Enabled(c, s) && ((LoopStep(s) && !TaskStep(s)) || s.Ask? || s.PostAsk? || s.AskClose? || s.StopPool?)
    ensures Apply(c, s).flights == c.flights && Apply(c, s).posting == c.posting
  {
    hide Apply, Enabled;
    if InputStep(s) { InputMovesNothing(c, s); } else { OthersMoveNothing(c, s); }
  }

  lemma InputMovesNothing(c: Conn, s: Step)
    requires Enabled(c, s) && InputStep(s) && !TaskStep(s)
    ensures Apply(c, s).flights == c.flights && Apply(c, s).posting == c.posting
  {
    hide FrameStep, FlushSection, EncodeMessage;
  }

  lemma OthersMoveNothing(c: Conn, s: Step)
    requires Enabled(c, s) && ((LoopStep(s) && !InputStep(s)) || s.Ask? || s.PostAsk? || s.AskClose? || s.StopPool?)
    ensures Apply(c, s).flights == c.flights && Apply(c, s).posting == c.posting
  {
    hide FrameStep, FlushSection, EncodeMessage;
  }

  /** What worker `w` has after its step. */
  ghost predicate WorkerMoved(c: Conn, d: Conn, w: nat) {
    && (Holder(d) == Some(w) || Holder(d) == (if Holder(c) == Some(w) then None else Holder(c)))
    && (Holder(d) == Some(w) && Holder(c) != Some(w) ==> Holder(c).None?)
    && (forall v :: v != w ==> (v in d.posting <==> v in c.posting))
    && !(Holder(d) == Some(w) && w in d.posting)
  }

  lemma ActorEffect(c: Conn, s: Step)
    requires Tokens(c) && Enabled(c, s) && Actor(c, s).Some?
    ensures var w := Actor(c, s).value;
            Holder(c) == Some(w) || w in c.posting || (s.Fetch? && Holder(c).None?)
    ensures WorkerMoved(c, Apply(c, s), Actor(c, s).value)
  {
    if s.PostFollowUp? { FollowUpEffect(c, s.w); } else { TokenEffect(c, s); }
    hide *;
  }

  lemma FollowUpEffect(c: Conn, w: nat)
    requires Tokens(c) && Enabled(c, PostFollowUp(w))
    ensures WorkerMoved(c, Apply(c, PostFollowUp(w)), w)
  {
    assert Holder(Apply(c, PostFollowUp(w))) == Holder(c);
  }

  /** A worker's steps with the token. */
  lemma TokenEffect(c: Conn, s: Step)
    requires Tokens(c) && Enabled(c, s) && Actor(c, s).Some? && !s.PostFollowUp?
    ensures var w := Actor(c, s).value;
            Holder(c) == Some(w) || w in c.posting || (s.Fetch? && Holder(c).None?)
    ensures WorkerMoved(c, Apply(c, s), Actor(c, s).value)
  {
    hide Apply, WorkerMoved, Tokens;
    if s.Fetch? || s.Begin? || s.Respond? || s.PostResponse? { HandlingEffect(c, s); } else { HandingOnEffect(c, s); }
  }

  /** From the fetch to the end of the handler. */
  lemma HandlingEffect(c: Conn, s: Step)
    requires Tokens(c) && Enabled(c, s) && Actor(c, s).Some? && (s.Fetch? || s.Begin? || s.Respond? || s.PostResponse?)
    ensures var w := Actor(c, s).value; Holder(c) == Some(w) || (s.Fetch? && Holder(c).None?)
    ensures WorkerMoved(c, Apply(c, s), Actor(c, s).value)
  {
    hide FrameStep, FlushSection, EncodeMessage;
  }

  /** From the handler's return on. */
  lemma HandingOnEffect(c: Conn, s: Step)
    requires Tokens(c) && Enabled(c, s) && Actor(c, s).Some? && (s.Return? || s.Complete? || s.WorkerSubmit?)
    ensures Holder(c) == Some(Actor(c, s).value)
    ensures WorkerMoved(c, Apply(c, s), Actor(c, s).value)
  {
    hide FrameStep, FlushSection, EncodeMessage;
  }

  lemma WorkerEffect(c: Conn, s: Step)
    requires Tokens(c) && Enabled(c, s)
    ensures Actor(c, s).None? ==> Holder(Apply(c, s)) == Holder(c) && Apply(c, s).posting == c.posting
    ensures Actor(c, s).Some? ==>
              var w := Actor(c, s).value;
              && (Holder(c) == Some(w) || w in c.posting || (s.Fetch? && Holder(c).None?))
              && WorkerMoved(c, Apply(c, s), w)
  {
    hide *;
    if Actor(c, s).None? { OtherEffect(c, s); } else { ActorEffect(c, s); }
  }

  lemma ReleaseFollowsCleanup(c: Conn)
    requires CloseOnce(c) && Enabled(c, RunRelease)
    ensures c.log.closes == 1
  {
  }

  /** A close callback that is being run leads to the closed state, once no task is left. */
  lemma ClosingEffect(c: Conn, s: Step)
    requires Enabled(c, s) && c.flights == [] && c.posting == map[] && Tokens(c) && CloseOnce(c)
    requires c.core.state.Closing? && !s.StopPool?
    ensures !CloseRoleOf(c.pc).NotClosing? ==>
              Apply(c, s).core.state.Closed? || !CloseRoleOf(Apply(c, s).pc).NotClosing?
    ensures s.RunCallback? && c.posted[0] == FinalCb ==> !CloseRoleOf(Apply(c, s).pc).NotClosing?
  {
    hide Tally;
  }

  lemma {:induction false} FinalPosted(cbs: seq<Callback>)
    requires Tally(cbs).finals > 0
    ensures FinalCb in cbs
    decreases |cbs|
  {
    if cbs[0] != FinalCb {
      FinalPosted(cbs[1..]);
    }
  }

  /** With nothing in flight anywhere else, a closing connection has its final callback posted. */
  lemma FinalIsPosted(c: Conn)
    requires CloseOnce(c) && c.flights == [] && c.posting == map[] && Tokens(c)
    requires c.core.state.Closing? && CloseRoleOf(c.pc).NotClosing?
    ensures FinalCb in c.posted
  {
    assert FinalPosters(c.posting) == {};
    FinalPosted(c.posted);
  }
}
