# EchoNet: a verified model

EchoNet is a multi-threaded reactor: I/O loops own sockets, a pool of workers runs the business
handlers, and callbacks travel back to the loops. On top of it sit a chat service and a gateway that
forwards requests to several chat back ends. This project models the parts of EchoNet whose
correctness is not visible in any one function, and proves what they guarantee in every run.

`dafny verify dfyconfig.toml` checks everything.

## How the model is built

**Objects.** Everything the program updates in place is a class here: `Buffer`, `MyProtocol`,
`HttpProtocol`, `Connection`, `EventLoop`, `TaskQueue`, `IoThreadPool`, `BackendList`,
`PendingTable`, `Limiter`, `Room`, `ChatService`, `MessageQueue`. Each method stands for one critical
section or one stretch of single-threaded code; its contract equates the new state with a function of
the old one, and where the object takes part in a transition system, with the state after the step it
stands for. The loops of the source are loops here, with invariants.

**Interleavings.** Where several threads meet, those functions become the steps of a transition
system: one step per critical section, atomic counter update, queue push or pop, and loop callback,
under sequential consistency. A run is any sequence of enabled steps, so every theorem "over runs"
speaks of every interleaving with any number of threads.

**Files, bottom up.**

| file | content |
|---|---|
| `Wrappers.dfy` | what several modules share |
| `Streaming.dfy` | incremental decoders in general: one-shot, chunk by chunk, call by call |
| `ByteBuffer.dfy` | the receive and send buffer |
| `Framing.dfy` | the length-prefixed binary protocol |
| `Http.dfy`, `HttpReading.dfy` | the incremental HTTP/1.x request parser; the read loop around it, errors included |
| `HttpWire.dfy` | what the HTTP parser decides, in the bytes of the wire |
| `ConnectionCore.dfy`, `Connection.dfy` | a connection's fields and sections, as functions and as an object |
| `Lifecycle.dfy`, `LifecycleProofs.dfy`, `LifecycleTheorems.dfy` | one connection under all interleavings |
| `LifecycleProgress.dfy` | half-closed connections always end closed |
| `LifecycleLaws.dfy` | what closes a connection, what a close ends, how responses get out, that requests are served |
| `LifecycleEffects.dfy`, `ServerSystem.dfy`, `ServerProofs.dfy` | many connections, loops, workers, sessions, shutdown |
| `ServerProgress.dfy` | the shutdown always comes through |
| `ServerLaws.dfy` | what the server's moves do, and that a server serves and can be stopped |
| `ServerDrain.dfy` | what holds of one connection holds of each connection of a server; the drain there |
| `EventLoop.dfy` | loop, worker queue and loop pool as objects that make the server's moves |
| `RoundRobin.dfy`, `Gateway.dfy`, `GatewayReplies.dfy` | choice of back ends, correlation table, replies and counters |
| `TokenBucket.dfy`, `Rooms.dfy`, `WriteBehind.dfy` | rate limiting, chat rooms, asynchronous persistence |

## Main results

- **Half-close drain, exactly** (`DrainExact`). When the end-of-input check closes a connection, every
  answer was handed to the socket; and every frame received was handled to the end if and only if the
  worker pool rejected no task of this connection. The four conditions are read at four different
  instants, with workers running in between. A pool that accepts tasks has rejected none
  (`HalfCloseDrain`); for a connection alone, a pool stopped under it can lose a request
  (`DrainNeedsPool`); inside the server, whose stop closes all connections first, that never happens,
  and the drain holds without condition (`ServerHalfCloseDrain`).
- **No lost wakeup, and more:** from every reachable state after end of input some thread has a step
  to take until the connection is closed, and every such step lowers a measure.
- **Close exactly once**, never over a running handler; a deferred close is claimed by the one
  outstanding completion.
- **Session ownership and ordered shutdown** for any number of connections, loops and workers; and the
  shutdown comes through: until it has, some thread has a move, and every move brings the end nearer
  (`ShutdownCompletes`).
- **Any chunking gives the same messages**, for both protocols; exact round trips for both. Over HTTP,
  where a connection outlives errors, a stream is read without a rejection in whatever pieces exactly if
  the one-shot decoder accepts it (`CleanStream`); of a rejected one the pieces matter (`SplitMatters`).
- **Gateway correlation:** at most one reply per request, to its sender, with its own id. A response
  goes to another request exactly when one with the same number in 32 bits is listed
  (`AnswerTakesOther`), and a new request replaces a listed one exactly then (`InsertOverwrites`). Over
  runs the bound is tight: neither ever happens if and only if at most 2^32 ids are handed out
  (`ResponsesMatchUpTo`, `LateResponseMisdelivered`).
- **Gateway replies:** whoever is gone when looked up is not answered, whoever is there is
  (`ResolveDecides`, `ReplyHadClient`), and each counter is exactly what its name says (`CountersExact`).
- **Token bucket:** an attempt is admitted if and only if it fits every window that ends with it, at
  capacity + rate * T (`WindowBound`, `AdmittedExactly`): the limiter lets through neither more nor less.
- **Closing:** each cause of a close leads to one, and nothing is read, parsed, handled, queued or sent
  after it (`ReadErrorCloses` and its neighbours, `NothingAfterClose`).

## Findings

Where the code and its stated intent differ, the model follows the code.

- `README.md:91` promises a 1 MB frame limit; `src/Protocol/MyProtocol.cpp:12` allows 16 MiB.
- A request with `Content-Length: 0` is delivered only once a further byte has arrived, because the
  parse loop ends when the input is used up (`src/HTTP/HttpContext.cpp:76`); see `HttpRoundTrip`.
- After answering 400 the HTTP parser starts over, but the bytes of the rejected call stay in the buffer
  (`src/Net/Connection.cpp:146-158`). Every later read is rejected, and nothing is delivered any more,
  exactly if those bytes are rejected as a request of their own (`StuckIff`); whether they are can depend
  on where the stream was split (`SplitMatters`, `SplitExample`).
- The gateway's 30 second limit compares whole seconds with `>`, so entries live for 31 seconds
  (`src/gateway_main.cpp:578-580`); see `ExpiresAt31` and `OlderThan30Kept`.
- The gateway's id counter passes through 0, the id of unsolicited messages (`src/gateway_main.cpp:59`):
  then, and only then, a push consumes a request (`PushTakes`, `PushCanConsume`).
- `pick_backend` can miss the only healthy back end at the wrap of its counter unless the list length
  divides 2^64 (`NullMeansNoneHealthy`), and exactly then shares are fair across the wrap, too
  (`AlwaysFairIff`).
- Creating a room does not leave the previous one, and a second login forgets the first session, so
  member lists can keep sessions that are gone (`TightKeptIff`, `ForgottenMember`).
- A pool stopped while a half-closed connection is being served would close it with requests unhandled
  (`DrainExact`, `DrainNeedsPool`); the order of `Server::stop` (`src/Server/Server.cpp:83-90`) rules that
  out (`ServerHalfCloseDrain`).
- Messages accepted after the database writer's decision to exit stay in the queue (`CleanExit`,
  `LateMessageStays`). If none is offered after the stop, none is left (`QuietExit`), and in this program
  none is: only message handlers enqueue (`src/ChatService/ChatService.cpp:661`), they run on workers,
  which `Server::stop` has joined (`NothingInFlight`), and `src/main.cpp:56` calls it before the
  service's destructor sets the flag (`src/ChatService/ChatService.cpp:64-69`).

## Model

| member | source | states |
|---|---|---|
| ByteBuffer.Grow | src/Net/Buffer.cpp:38-43 | the 1.5x loop ends, reaches what is needed and overshoots by at most half |
| ByteBuffer.Buffer.EnableWrite | src/Net/Buffer.cpp:22-46 | compaction or growth makes room and leaves the unread bytes as they were |
| ByteBuffer.Buffer.Append | src/Net/Buffer.cpp:10-15 | the unread bytes get the message appended |
| ByteBuffer.Buffer.MoveReadPtr | src/Net/Buffer.cpp:49-61 | the unread bytes lose a prefix, also when both positions are reset |
| ByteBuffer.Buffer.MoveWritePtr | src/Net/Buffer.cpp:62-66 | bytes stored behind the unread ones become unread |
| ByteBuffer.Buffer.Receive | src/Net/Connection.cpp:37-67 | a two-part read appends exactly the bytes delivered, whether or not they fit |
| ByteBuffer.CapacityBound | src/Net/Buffer.cpp:10-66 | in every run, if unread plus requested bytes stay within m, capacity stays within max(4096, 3m) |
| Streaming.ChunkingIndependence | src/Net/Connection.cpp:35-177 | any split of a stream into reads gives the messages, the first error and the leftover of one-shot decoding |
| Streaming.DrainAppend | src/Net/Connection.cpp:97-177 | later bytes only continue what earlier bytes produced |
| Streaming.DrainSettles | src/Net/Connection.cpp:97-177 | the parse loop stops where the parser waits or rejects |
| Streaming.DrainByCalls | src/Net/Connection.cpp:98-177 | calling a parser that stops at each message, again and again, is one-shot decoding |
| Framing.FrameStep | src/Protocol/MyProtocol.cpp:8-87 | a frame is at least ten bytes, lies inside the input and yields one message |
| Framing.FrameDecides | src/Protocol/MyProtocol.cpp:8-87 | waiting, rejection and the message read, in the bytes of the header |
| Framing.EncodedFields | src/Protocol/MyProtocol.cpp:89-108 | length, type, id and payload are read back at their offsets, the length in 32 bits |
| Framing.FramingRoundTrip | src/Protocol/MyProtocol.cpp:8-132 | parsing an encoded message returns it and leaves what follows, exactly for known types and payloads up to 16 MiB - 6 |
| Framing.DecodeEncodeAll | src/Protocol/MyProtocol.cpp:8-108 | a list of encodable messages survives encoding and decoding |
| Framing.DecodePrefix | src/Protocol/MyProtocol.cpp:8-108 | every prefix of an encoded list decodes to a prefix of the list, without error |
| Framing.FramingChunkingIndependence | src/Net/Connection.cpp:35-177 | chunking independence for the binary protocol |
| Framing.MyProtocol.Parse | src/Protocol/MyProtocol.cpp:8-87 | one call decides as the decoder's step, consumes exactly one frame and fills the current message only then |
| Framing.TakeFrame | src/Protocol/MyProtocol.cpp:46-68 | moving the read position field by field takes exactly the frame |
| Framing.ParseLoop | src/Net/Connection.cpp:97-177 | the parse loop hands on the messages of the recursive decoder and stops at its first error |
| Http.TrimLeft | src/HTTP/HttpContext.cpp:44-48 | a header value loses its leading blanks and nothing else |
| Http.FindCrlf | src/HTTP/HttpContext.cpp:82-86 | the first CR LF pair is found |
| Http.BodyLengthOf | src/HTTP/HttpContext.cpp:147-179 | exactly the lengths up to 1 MiB are accepted, each as itself |
| Http.RequestLineRead | src/HTTP/HttpContext.cpp:8-33 | a written request line is read back as its method, path and version |
| Http.FieldRead | src/HTTP/HttpContext.cpp:36-52 | a written header field is read back as its key and value |
| Http.EmptyLineRead | src/HTTP/HttpContext.cpp:109-197 | from the empty line on, the body is taken by Content-Length, or the parser waits |
| Http.HttpIncremental | src/HTTP/HttpContext.cpp:62-219 | every turn of the parser consumes or lowers the rank, and no decision depends on later bytes |
| Http.HttpChunkingIndependence | src/HTTP/HttpContext.cpp:62-219 | any split of the input gives the requests, first error and leftover state of the one-shot parser |
| Http.HttpRoundTrip | src/HTTP/HttpContext.cpp:62-219 | a formatted request followed by anything is delivered as itself, exactly unless an announced empty body ends the input |
| Http.HttpProtocol.Parse | src/HTTP/HttpContext.cpp:62-219 | a call returns a request exactly when the decoder reaches one; an error leaves the buffer untouched |
| Http.HttpProtocol.Scan | src/HTTP/HttpContext.cpp:74-203 | the parse loop agrees with the decoder and terminates, body of length zero included |
| Http.HttpProtocol.Advance | src/HTTP/HttpContext.cpp:76-203 | one turn of the loop is one step of the decoder |
| Http.HttpProtocol.Reset | src/Protocol/HttpProtocol.cpp:25-31 | the parser starts over |
| HttpWire.RequestLineDecides | src/HTTP/HttpContext.cpp:8-33 | a request line is rejected exactly if its first word is neither GET nor POST, and is read as its three words otherwise |
| HttpWire.HeaderLineDecides | src/HTTP/HttpContext.cpp:36-52 | a header line is rejected exactly if it has no colon, and is read as key and value otherwise |
| HttpWire.EmptyLineDecides | src/HTTP/HttpContext.cpp:109-123 | the empty line completes the request, unless it has a field Content-Length |
| HttpWire.BodyDecides | src/HTTP/HttpContext.cpp:136-203 | a body is rejected exactly if its length is not in digits or above 1 MiB, and is otherwise awaited and taken |
| HttpWire.BodyNeedsLength | src/HTTP/HttpContext.cpp:137-145 | a body without a length is rejected |
| HttpWire.DecimalNotation | src/HTTP/HttpContext.cpp:156-168 | lengths are read in decimal |
| HttpWire.NoLineWaits | src/HTTP/HttpContext.cpp:82-104 | without a CR LF pair the parser waits |
| HttpReading.CleanStream | src/Net/Connection.cpp:98-177 | a stream is read without a rejection, in any pieces, exactly if the one-shot decoder accepts it, and then delivers the same requests |
| HttpReading.StaysRejected | src/Net/Connection.cpp:146-158 | once a rejected request is in the buffer from its first line on, every later read is rejected and delivers nothing |
| HttpReading.StuckIff | src/Net/Connection.cpp:146-158 | that goes on forever if and only if what a rejection left behind is itself rejected as a new request |
| HttpReading.SplitMatters | src/Net/Connection.cpp:146-158 | a head with a bad length and a good request behind it: never delivered if they arrive together, delivered at the next read if apart |
| HttpReading.SplitExample | src/Net/Connection.cpp:146-158 | such a stream, and two ways to split it |
| HttpReading.ReadLoop | src/Net/Connection.cpp:98-177 | the loop on parser and buffer reacts as specified, errors and resets included |
| ConnectionCore.EnqueueSection | src/Net/Connection.cpp:454-473 | a new task goes to the end of the queue; the head is submitted exactly if the connection was idle |
| ConnectionCore.CompleteSection | src/Net/Connection.cpp:481-525 | resubmission keeps the order; otherwise the connection is idle, and a deferred close is claimed |
| ConnectionCore.CloseTasksSection | src/Net/Connection.cpp:336-348 | waiting tasks go and the close is deferred exactly while one runs |
| ConnectionCore.FlushSection | src/Net/Connection.cpp:566-604 | the whole queue goes to the output buffer in order, guarded by the high-water mark |
| ConnectionObject.Connection.EnqueueTask | src/Net/Connection.cpp:454-473 | the fields change as the section of the interleaving model |
| ConnectionObject.Connection.OnTaskComplete | src/Net/Connection.cpp:481-525 | the fields change as the section of the interleaving model, and the follow-up is the same |
| ConnectionObject.Connection.TryStartClosing | src/Net/Connection.cpp:316-322 | one caller wins the compare-and-exchange |
| ConnectionObject.Connection.CloseTasks | src/Net/Connection.cpp:336-348 | waiting tasks are dropped and a running one defers the close |
| ConnectionObject.Connection.ReleaseBuffers | src/Net/Connection.cpp:350-373 | queue and both buffers are emptied |
| ConnectionObject.Connection.CountSend | src/Net/Connection.cpp:230-234 | a response is counted before its callback is posted |
| ConnectionObject.Connection.EnterSend | src/Net/Connection.cpp:240-246 | the callback ends its count first, connected or not |
| ConnectionObject.Connection.FinishClose | src/Net/Connection.cpp:434-452 | the state is closed, and the descriptor is closed by one call only |
| ConnectionObject.Connection.QueueResponse | src/Net/Connection.cpp:248-254 | the encoded response joins the queue |
| ConnectionObject.Connection.FlushSendQueue | src/Net/Connection.cpp:566-604 | swapping and appending one by one is the flush of the model |
| ConnectionObject.Connection.WriteAll | src/Net/Connection.cpp:184-226 | accepted prefixes leave the buffer; a fault with bytes left goes on to close, an empty buffer ends write interest and goes on to the check |
| ConnectionObject.Connection.ReadAll | src/Net/Connection.cpp:23-96 | all chunks read arrive in order behind the unread bytes; end of input is remembered, an error goes on to close the connection |
| ConnectionObject.Connection.DiscardTail | src/Net/Connection.cpp:161-176 | an incomplete frame is dropped once no more input can come |
| ConnectionObject.Connection.EofDrained | src/Net/Connection.cpp:383-432 | without interference, true exactly when nothing is left to do or to send |
| LifecycleTheorems.StepKeeps | src/Net/Connection.cpp:23-604 | every step of every thread keeps the connection's invariant |
| LifecycleTheorems.FifoOverRuns | src/Net/Connection.cpp:98-564 | one task in flight exactly while the flag says so; handlers run one at a time on a prefix of the decoded messages |
| LifecycleTheorems.CloseOnceOverRuns | src/Net/Connection.cpp:314-381 | the close callback runs at most once, never with a task in flight, and always has exactly one place that owes it |
| LifecycleTheorems.DeferredCloseClaimed | src/Net/Connection.cpp:481-550 | a deferred close is claimed by the completion of the one task in flight |
| LifecycleTheorems.DrainExact | src/Net/Connection.cpp:383-432 | when the check closes the connection, everything answered was sent, and everything received was handled if and only if none of its tasks was rejected |
| LifecycleTheorems.HalfCloseDrain | src/Net/Connection.cpp:383-432 | with a pool that accepts tasks, everything received was handled and everything answered was sent |
| LifecycleTheorems.NeverStuck | src/Net/Connection.cpp:219-263 | between callbacks, a half-closed connection has something outstanding that will run the check again |
| LifecycleTheorems.OutputOverRuns | src/Net/Connection.cpp:184-263 | sent, buffered and queued bytes are the encoded responses in callback order; at most 64 MiB unsent between callbacks |
| LifecycleTheorems.PeerDecodesPrefix | src/Net/Connection.cpp:184-263 | what the peer receives decodes to a prefix of the responses, without error |
| LifecycleProgress.StepNears | src/Net/Connection.cpp:23-604 | every step that carries on what was started lowers a measure |
| LifecycleProgress.StepExists | src/Net/Connection.cpp:219-263 | after end of input some thread has a step to take until the connection is closed |
| LifecycleProgress.EndsClosed | src/Net/Connection.cpp:383-452 | from every reachable state after end of input the steps under way lead to the closed state |
| LifecycleProgress.DrainNeedsPool | src/ThreadPool/WorkThreadPool.cpp:15-42 | a run in which the pool is stopped, the one task is rejected and the check closes the connection unserved |
| LifecycleLaws.ReadErrorCloses | src/Net/Connection.cpp:87-95 | a failing read closes the connection, and nothing that came before it is parsed |
| LifecycleLaws.ReadBringsIn | src/Net/Connection.cpp:37-86 | a read brings its bytes in, remembers end of input and goes on to parse |
| LifecycleLaws.NoFurtherReads | src/Net/Connection.cpp:25-29 | nothing is read after end of input or on a closing connection |
| LifecycleLaws.WriteErrorCloses | src/Net/Connection.cpp:203-213 | a failing write with bytes left closes the connection |
| LifecycleLaws.WriteKeepsRest | src/Net/Connection.cpp:191-226 | a write that blocks keeps the rest; one that takes all is disarmed and checks for end of input |
| LifecycleLaws.RequestCloses | src/Net/Connection.cpp:265-301 | a close asked for, on the loop or from elsewhere, closes the connection |
| LifecycleLaws.ProtocolErrorCloses | src/Net/Connection.cpp:144-160 | a frame that is rejected closes the connection and is not handed on |
| LifecycleLaws.HighWaterCloses | src/Net/Connection.cpp:587-597 | more than 64 MiB unsent closes the connection |
| LifecycleLaws.TailWaits | src/Net/Connection.cpp:161-177 | an incomplete frame waits, or is discarded after end of input |
| LifecycleLaws.CloseDrops | src/Net/Connection.cpp:333-380 | closing drops what is waiting, and defers the callback exactly while a task runs |
| LifecycleLaws.NothingAfterClose | src/Net/Connection.cpp:314-381 | once closing, nothing more is read, parsed, started, queued or sent in any run |
| LifecycleLaws.HandlerRunsIff | src/Net/Connection.cpp:120-131 | a fetched task reaches its handler exactly on a connected connection |
| LifecycleLaws.SubmittedIff | src/ThreadPool/WorkThreadPool.cpp:15-42 | a task is queued exactly if the pool was not stopped |
| LifecycleLaws.AnyoneCanSend | src/Net/Connection.cpp:228-240 | any thread can send at any time: counted, then posted last |
| LifecycleLaws.HandlerCanSend | src/Net/Connection.cpp:228-240 | so can a running handler |
| LifecycleLaws.CallbackSends | src/Net/Connection.cpp:240-262 | a posted response is encoded behind the output on a connected connection, and dropped on a closing one; its count ends in both cases |
| LifecycleLaws.LoopSends | src/Net/Connection.cpp:228-262 | a response sent on the loop thread gets out at once |
| LifecycleLaws.ArmedIffOutput | src/Net/Connection.cpp:217-223 | between callbacks write events are asked for exactly while there is output |
| LifecycleLaws.OneRequestServed | src/Net/Connection.cpp:23-604 | a whole life: request, end of input, handler, answer, close |
| LifecycleEffects.FinalIsPosted | src/Net/Connection.cpp:532-550 | a closing connection with nothing in flight has its final callback posted |
| EventLoopObject.EventLoop.RunInLoop | src/Reactor/EventLoop.cpp:149-163 | on the loop thread the callback runs at once, else it is queued last, as the server's moves queue it |
| EventLoopObject.EventLoop.SwapTasks | src/Reactor/EventLoop.cpp:126-131 | taking the queue as a batch keeps the order |
| EventLoopObject.EventLoop.NextTask | src/Reactor/EventLoop.cpp:131 | callbacks run in the order they were queued |
| EventLoopObject.EventLoop.RegisterConnection | src/ThreadPool/IoThreadPool.cpp:36-60 | the queued registration is the server's registration move |
| EventLoopObject.EventLoop.StartSweep | src/Reactor/EventLoop.cpp:274-290 | the queued closeAllConnections takes a snapshot the server's sweep can start with |
| EventLoopObject.EventLoop.RemoveConnection | src/Reactor/EventLoop.cpp:231-271 | channel and connection go, whether or not the channel had gone before, and the connection is closed; this is the server's release step |
| EventLoopObject.EventLoop.Snapshot | src/Reactor/EventLoop.cpp:281-290 | the snapshot holds exactly the connections of the map |
| EventLoopObject.EventLoop.PassBarrier | src/ThreadPool/IoThreadPool.cpp:99-108 | the queued barrier is the server's barrier move |
| EventLoopObject.EventLoop.IdleConnections | src/Reactor/EventLoop.cpp:403-416 | exactly the descriptors idle for too long are found |
| EventLoopObject.TaskQueue.TryPush | src/ThreadPool/TaskQueue.cpp:11-28 | a task is accepted, last in the queue, exactly when the server's submission step accepts it |
| EventLoopObject.TaskQueue.Pop | src/ThreadPool/TaskQueue.cpp:31-40 | the oldest task, which the fetch step takes, or nothing, on which the worker may exit |
| EventLoopObject.TaskQueue.Stop | src/ThreadPool/TaskQueue.cpp:42-47 | the flag set is the server's closing of the queue |
| EventLoopObject.IoThreadPool.Submit | src/ThreadPool/IoThreadPool.cpp:30-61 | connections go to the loops in turn; the registration is queued as in the server's accept move |
| EventLoopObject.IoThreadPool.PostToAll | src/ThreadPool/IoThreadPool.cpp:68-115 | every loop gets the sweep or barrier behind everything queued before |
| ServerProofs.MoveKeeps | src/Server/Server.cpp:57-96 | every move of the server keeps the invariant of loops, pool, sessions and shutdown |
| ServerProofs.SessionOwnership | src/ChatService/ChatService.cpp:287-292 | in every run a session's descriptor is held by the session's own, not yet closed connection |
| ServerProofs.ReleaseFindsItself | src/Reactor/EventLoop.cpp:256-270 | the release step finds its own connection under the descriptor |
| ServerProofs.ReleaseAfterCleanup | src/ThreadPool/IoThreadPool.cpp:48 | in every run, the release step finds the close callback run once and no session left under the descriptor |
| ServerProofs.SnapshotCovers | src/Reactor/EventLoop.cpp:274-305 | a sweep's snapshot has every connection of the loop still connected, and no registration is behind it |
| ServerProofs.NothingInFlight | src/ThreadPool/WorkThreadPool.cpp:92-100 | once the workers are joined no task or follow-up is anywhere |
| ServerProofs.PostBarrierOwes | src/ThreadPool/IoThreadPool.cpp:93-115 | when its barrier is posted, a connection not closed has its final callback ahead of it |
| ServerProofs.OrderedShutdown | src/Server/Server.cpp:57-96 | when stop is through, every connection is closed, its callback ran exactly once, and all maps are empty |
| ServerProgress.MoveExists | src/Server/Server.cpp:57-96 | until stop is through, some thread has a move that carries on what was started |
| ServerProgress.MoveCloser | src/Server/Server.cpp:57-96 | every such move lowers a measure of the whole server |
| ServerProgress.ShutdownCompletes | src/Server/Server.cpp:57-96 | from every state in which the stop has begun, the moves under way lead to its end |
| ServerDrain.ConnectionRun | src/Server/Server.cpp:57-96 | each connection of a server run has a legal run of its own to the same state, so every theorem about one connection applies |
| ServerLaws.AcceptMoves | src/ThreadPool/IoThreadPool.cpp:30-36 | an accepted connection waits for registration behind everything queued, and nothing else changes |
| ServerLaws.RegisterMoves | src/ThreadPool/IoThreadPool.cpp:36-60 | registration makes it known under its descriptor |
| ServerLaws.LoginBinds | src/ChatService/ChatService.cpp:281-292 | a running handler, and only it, binds its connection's descriptor |
| ServerLaws.CleanupUnbinds | src/ChatService/ChatService.cpp:929-950 | the cleanup step unbinds the descriptor, and no other step does |
| ServerLaws.PoolIsFifo | src/ThreadPool/TaskQueue.cpp:11-40 | tasks enter at the end unless stopped, and leave at the head for a free worker |
| ServerLaws.StopBegins | src/Server/Server.cpp:57-83 | a serving server can be stopped once, accepts nothing from then on, and tells its loops one by one |
| ServerLaws.SweepCloses | src/Reactor/EventLoop.cpp:292-297 | a sweep closes each connection it comes to that is still connected |
| ServerLaws.RequestIsHandled | src/ThreadPool/WorkThreadPool.cpp:45-90 | a run of any server: accepted, registered, read, parsed, queued, handled, logged in |
| ServerLaws.ServedAndStopped | src/Server/Server.cpp:57-96 | that run goes on to a complete stop, the connection closed once and its session gone |
| ServerDrain.ServerHalfCloseDrain | src/Net/Connection.cpp:383-432 | in every server run, stop included, a check that closes a connection finds everything received handled and everything answered sent |
| RoundRobin.SeekFirst | src/gateway_main.cpp:74-86 | the choice is the first healthy back end in turn, none if none of those visited is healthy; the counter moves on by those visited |
| RoundRobin.NullMeansNoneHealthy | src/gateway_main.cpp:69-87 | no back end is reported exactly when none is healthy, if and only if the counter does not wrap in the scan or the list length divides its range |
| RoundRobin.Fairness | src/gateway_main.cpp:69-87 | over any k picks on n healthy back ends each is chosen floor(k/n) or ceil(k/n) times, if the counter does not wrap in them or n divides its range |
| RoundRobin.AlwaysFairIff | src/gateway_main.cpp:69-87 | that holds from every state of the counter and for every k if and only if n divides 2^64 |
| RoundRobin.UnfairAtWrap | src/gateway_main.cpp:69-87 | otherwise one pick past the wrap gives the first back end a second turn in its round |
| RoundRobin.BackendList.PickBackend | src/gateway_main.cpp:69-87 | the loop makes that choice, counts the request and advances the counter |
| Gateway.ExpiresAt31 | src/gateway_main.cpp:578-580 | an entry expires exactly from 31 seconds on |
| Gateway.OlderThan30Kept | src/gateway_main.cpp:578-591 | a scan keeps an entry that is older than 30 seconds |
| Gateway.ScanEffect | src/gateway_main.cpp:576-593 | the scan erases exactly the expired entries, collects those with a live client and loses none |
| Gateway.ScanCollects | src/gateway_main.cpp:576-593 | no request is collected twice |
| Gateway.RunKeeps | src/gateway_main.cpp:140-252 | every interleaving keeps the table's invariant |
| Gateway.AtMostOneReply | src/gateway_main.cpp:177-252 | at most one reply per request, response or timeout, to its sender and with its own id |
| Gateway.ResponsesMatch | src/gateway_main.cpp:177-252 | if fewer than 2^32 further ids come out during each request's life, every response answers its own request and no entry is overwritten |
| Gateway.AnswerTakesOther | src/gateway_main.cpp:177-191 | a response takes another request's entry exactly when one with the same number modulo 2^32 is listed |
| Gateway.InsertOverwrites | src/gateway_main.cpp:231-240 | a request replaces a listed one exactly when its number is the same modulo 2^32 |
| Gateway.ResponsesMatchUpTo | src/gateway_main.cpp:177-252 | all runs with at most n ids match responses to requests and overwrite nothing if and only if n <= 2^32 |
| Gateway.LateResponseMisdelivered | src/gateway_main.cpp:227-240 | one id past that window a late response reaches another client |
| Gateway.Conservation | src/gateway_main.cpp:182-252 | forwarded requests are in the table, in progress, or counted exactly once |
| GatewayReplies.GoneExactly | src/gateway_main.cpp:200 | a client is gone exactly from its going on |
| GatewayReplies.ResolveDecides | src/gateway_main.cpp:200-206 | a response is delivered exactly if the client was not gone when looked up, and dropped otherwise |
| GatewayReplies.DeliverSends | src/gateway_main.cpp:208-213 | one reply, to the client, under its own id, counted once |
| GatewayReplies.ReplyHadClient | src/gateway_main.cpp:177-252 | for every reply of every run, the client was looked up before it and was not gone |
| GatewayReplies.CountersExact | src/gateway_main.cpp:177-252 | forwards, unknown, dropped, delivered and timed-out responses are each counted exactly |
| Gateway.PushTakes | src/gateway_main.cpp:180-191 | an unsolicited message takes an entry exactly when the request numbered 2^32 - 1 modulo 2^32 is listed |
| Gateway.PushCanConsume | src/gateway_main.cpp:59 | a run in which that happens |
| Gateway.PendingTable.NewId | src/gateway_main.cpp:228 | ids are the ticket numbers in 32 bits |
| Gateway.PendingTable.Record | src/gateway_main.cpp:232-240 | the entry stands under the new id; this is the listing step |
| Gateway.PendingTable.TakePending | src/gateway_main.cpp:182-191 | lookup and erase in one section; this is the taking step |
| Gateway.PendingTable.EraseExpired | src/gateway_main.cpp:576-593 | erasing while iterating is the scan of the specification |
| Gateway.PendingTable.Cleanup | src/gateway_main.cpp:574-594 | one locked round is the cleanup step: exactly the expired entries go and the timeouts come back |
| TokenBucket.LevelLaw | src/RateLimit/TokenBucket.cpp:7-36 | an attempt succeeds exactly at a level of one token; the level rises by rate a second up to the capacity; a denied attempt changes no later level |
| TokenBucket.AttemptLaw | src/RateLimit/TokenBucket.cpp:7-36 | one attempt: min(capacity, tokens + rate * elapsed) decides, and is what is left, less a token taken |
| TokenBucket.RemovedStartsAfresh | src/RateLimit/TokenBucket.cpp:39-43 | a removed key starts with a full bucket |
| TokenBucket.WindowBound | src/RateLimit/TokenBucket.cpp:7-37 | in every window of length T a key not removed is admitted at most capacity + rate * T times |
| TokenBucket.AdmittedExactly | src/RateLimit/TokenBucket.cpp:7-37 | an attempt is admitted if and only if it fits the bound of every window that ends with it |
| TokenBucket.Burst | src/RateLimit/TokenBucket.cpp:15-37 | at one instant exactly the whole tokens at hand are admitted, so the bound is met |
| TokenBucket.DeniedCanBeDeleted | src/RateLimit/TokenBucket.cpp:7-37 | deleting any denied attempts from a run changes no other outcome |
| TokenBucket.KeysIndependent | src/RateLimit/TokenBucket.cpp:15-43 | a key's outcomes depend on that key's events only |
| TokenBucket.Limiter.TryAcquire | src/RateLimit/TokenBucket.cpp:15-37 | the table changes and the answer is as specified |
| TokenBucket.Limiter.RemoveKey | src/RateLimit/TokenBucket.cpp:39-43 | the key starts afresh |
| Rooms.Room.AddMember | src/Room/Room.cpp:8-16 | a member is added once |
| Rooms.Room.RemoveMember | src/Room/Room.cpp:18-32 | erasing while iterating removes every occurrence and keeps the order of the others |
| Rooms.WithoutLaw | src/Room/Room.cpp:18-32 | removal takes exactly the one member |
| Rooms.WithoutAppend | src/Room/Room.cpp:18-32 | and keeps the order of the others |
| Rooms.KeysDiffer | src/ChatService/ChatService.cpp:933-955 | limiter keys of descriptors and users never meet; users share one exactly if their ids agree in 32 bits |
| Rooms.StepKeeps | src/ChatService/ChatService.cpp:436-575 | each handler keeps sessions, pointers and member lists consistent |
| Rooms.Membership | src/ChatService/ChatService.cpp:436-575 | over all runs a session with a room is listed there, once, and room ids are fresh |
| Rooms.RemovalIsSafe | src/ChatService/ChatService.cpp:693-706 | removing an emptied room never takes away a room a live session points to |
| Rooms.JoinMoves | src/ChatService/ChatService.cpp:455-546 | in every run a join puts the session into the target, once, takes it out of the room it pointed to, and moves nobody else |
| Rooms.LeaveMoves | src/ChatService/ChatService.cpp:548-575 | a leave takes the session out of its room, which goes exactly if nobody is left |
| Rooms.CreateMoves | src/ChatService/ChatService.cpp:349-445 | a creation makes a room of one under the next id; a failed insert uses the id up |
| Rooms.LoginMoves | src/ChatService/ChatService.cpp:281-292 | a login gives the descriptor a session nobody had, in no room |
| Rooms.DisconnectMoves | src/ChatService/ChatService.cpp:929-1005 | a close unbinds the descriptor and takes the session out of its room |
| Rooms.CreateAtWrap | src/ChatService/ChatService.cpp:349-445 | past the wrap of the id counter, creation keeps that exactly when no other session is in the room it replaces |
| Rooms.TightKeptIff | src/ChatService/ChatService.cpp:436-445 | lists hold live sessions only, exactly while nobody in a room creates another or logs in again |
| Rooms.ForgottenMember | src/ChatService/ChatService.cpp:443-445 | two rooms created, connection closed: the first keeps a member that is gone |
| Rooms.ChatService.HandleLogin | src/ChatService/ChatService.cpp:281-292 | a valid login binds a new session to the descriptor |
| Rooms.ChatService.HandleCreateRoom | src/ChatService/ChatService.cpp:326-453 | the creator is in the new room; a failed insert uses up the id |
| Rooms.ChatService.HandleJoinRoom | src/ChatService/ChatService.cpp:455-546 | the session leaves its old room, enters the new one, and gets its member count |
| Rooms.ChatService.HandleLeaveRoom | src/ChatService/ChatService.cpp:548-575 | the session leaves and an emptied room goes |
| Rooms.ChatService.CheckAndRemoveEmptyRoom | src/ChatService/ChatService.cpp:693-706 | exactly an empty room is removed |
| Rooms.ChatService.OnConnectionClosed | src/ChatService/ChatService.cpp:929-1005 | the session is unbound and leaves its room; the limiter forgets the descriptor and the user, and no other key |
| WriteBehind.NothingLost | src/ChatService/ChatService.cpp:794-829 | batches handed over, current batch and queue are the accepted messages in order; limits 500000 and 2000 hold |
| WriteBehind.CleanExit | src/ChatService/ChatService.cpp:814-826 | the writer exits only after the stop with everything accepted so far handed over |
| WriteBehind.AcceptedIff | src/ChatService/ChatService.cpp:914-927 | a message is accepted exactly while fewer than 500000 wait |
| WriteBehind.QuietExit | src/ChatService/ChatService.cpp:799-829 | if no message is offered after the stop, a writer that has exited has handed over everything accepted |
| WriteBehind.LateMessageStays | src/ChatService/ChatService.cpp:914-927 | a message accepted after that is never written |
| WriteBehind.RoundsDecrease | src/ChatService/ChatService.cpp:799-826 | after the stop each round hands over a batch or is the last |
| WriteBehind.MessageQueue.EnqueueMessage | src/ChatService/ChatService.cpp:914-927 | accepted at the end of the queue, or dropped and counted when full |
| WriteBehind.MessageQueue.TakeBatch | src/ChatService/ChatService.cpp:807-815 | the loop moves the oldest messages up to the batch limit and decides on exit |
| WriteBehind.MessageQueue.HandOver | src/ChatService/ChatService.cpp:819-823 | the batch is given away whatever the insert answers |
| WriteBehind.MessageQueue.RequestStop | src/ChatService/ChatService.cpp:64-69 | the flag set is the stop step |

## Left out

- Connection lifecycle, HTTP error responses: the lifecycle runs the binary protocol, whose parse errors close the connection (`src/Net/Connection.cpp:147-158`).
- Gateway back-end connections run their tasks inside `enqueueTask` (`src/gateway_main.cpp:302-305`); no drain property is claimed for them, and the monitor, heartbeat and health threads are not modelled.
- Telling client from back end by descriptor (`src/gateway_main.cpp:147-152`): the steps know who sent a message.
- Gateway.Conservation: leaves out `total_requests`, `no_backend` and `unknown_responses`, which take part in no balance.
- Gateway.ResponsesMatch: assumes back ends echo the id they were sent; the bound of 2^32 ids is the point where it stops being true.
- Server start, listening, signals and accepting: an accepted descriptor is one not open at that moment; a loop is chosen freely.
- System calls: `readv` delivers any bytes, `send` takes any prefix, `epoll_ctl` succeeds, and stale events for a descriptor that was reused are not modelled.
- ServerProgress.ShutdownCompletes: assumes that running handlers return and begin no further sends; which thread moves next is left to the scheduler.
- Inside a close callback, sends to connections of the same loop are modelled as long as the target is in no callback itself; a send to the connection being closed, or to another one already on the loop's stack, is not.
- Idle scan, timers and the two-phase destruction of closed connections beyond `EventLoop.IdleConnections` and `EventLoop.RemoveConnection`.
- C++ memory orderings and shared or weak pointer counts: sequential consistency; a task keeps its connection.
- TokenBucket.WindowBound: arithmetic over reals and a monotone clock; floating-point rounding is not modelled.
- Buffer growth multiplies by 1.5 in floating point; the model halves exactly, which agrees for sizes below 2^52.
- Rooms.Membership: room handlers are taken as one step each, as they lock rooms and sessions separately; ids come from one counter that has not wrapped.
- `std::stoul` on join requests and room names, message texts and replies other than the member counts.
- MySQL and Redis: a statement succeeds or fails; what the insert does with a batch is not modelled.
- Request ids, metrics and 64-bit counters other than the round-robin index do not wrap.
- `HttpService`, `HttpProtocol::encode`, logging, configuration, service registry, the Qt client and the benchmark.
