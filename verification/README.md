# Verified model of the chat server's core

A Dafny model of six parts of the repository, each with the properties it exists for.

| files | part |
|---|---|
| `Buffer`, `Framing`, `Connection`, `ConnectionEffects`, `Transport`, `TcpConnection` | the byte-stream transport: buffers, length-prefixed frames, one connection's life from accept to destruction |
| `Poller`, `EventLoop`, `EventLoopEffects`, `Reactor`, `ReactorEffects`, `TcpServer` | the reactor: epoll interest sets, posting and wakeup between threads, a loop together with its connections, the table of connections |
| `TimerQueue`, `TimerRuns`, `TimerCancellation`, `TimerQueueObject` | the timerfd-driven timer queue with hand-managed timers and re-entrant callbacks |
| `SyncTimerQueue` | the bounded delay/ready queue of the thread pool |
| `Idempotence`, `IdempotenceEffects` | deduplication of requests across nodes through Redis |
| `Codec` | the stress client's hand-written subset of Protocol Buffers (sections "Base 128 Varints" and "Message Structure" of its encoding guide) |

`Sequences` holds what they share.

Each protocol is a state machine; threads, the kernel and the network choose freely among the steps that are
possible. A step is one atomic action of the source, or several actions of one thread when no other thread
can, between them, change anything that the later ones depend on. The invariants are proved for every step and
hence for every run. What each step changes, in terms of the state before it and without the state machine's
own definitions, is stated in the lemmas that end in `Effect`. `Reactor` composes the loop with its
connections and discharges what each of the two machines leaves to the other. Beside the state machines stand
the objects in the source's own form, classes whose methods have the source's branches and loops. A method's
contract says that it takes the object's state where the state machine's step takes it; `TcpConnections.Drive`
and the traces of `EventLoop` and of `TimerQueueObject.TimerQueue.HandleRead` put such calls together into
runs. Every kernel and Redis outcome is a parameter: how many bytes a `::send` or `readv` takes, errors, what
`epoll_wait` reports, what the clock says, whether a command is lost.

The main results are `Transport.EndToEnd` and `Transport.EndToEndComplete` (frames arrive whole, in order, and
all of them under a stated condition), `Transport.LifecycleTheorem` and `Transport.ShutdownTheorem`,
`ConnectionEffects.OneWriteDrains`, `EventLoop.NoLostWakeupTheorem`, `EventLoop.BoundedDelay` and
`EventLoopEffects.QuitTheorem`, `Reactor.ReactorTheorem`, `TimerQueue.OwnershipTheorem`,
`TimerQueue.FiringTheorem`, `TimerQueue.ArmingTheorem` and `TimerCancellation.CancelExact`,
`SyncTimerQueue.QueueTheorem` and `SyncTimerQueue.ReturnedTheorem`, `Idempotence.AtMostOnce`,
`Idempotence.GrantedExact` and `IdempotenceEffects.AnsweredExact`, and `Codec.FieldsRoundTrip`.

## Where the code differs from what is said about it

The model follows the code. The lemmas named give the exact condition, an instance, or both.

- The comment above `microsFromNow` says an underflow clamps to the lower bound. It wraps to almost 2^64
  microseconds: `TimerQueue.MicrosExact`, `TimerQueue.LateArming`.
- `loop()` resets `quit_` when it is entered, so a `quit()` made before that is lost. `EventLoopThread` hands out
  its loop before it enters `loop()`; destroyed early, it can wait for its thread for ever. And a functor
  posted on the loop thread before `loop()`, as from the thread's init callback, has no wakeup and waits for
  the first poll's timeout: `EventLoopEffects.QuitTheorem`, `EventLoopEffects.EarlyPostWaits`.
- `addTimer` reads the timer's number after handing the timer to the loop. On another thread the loop may
  have fired and deleted it by then: `TimerQueue.OwnershipTheorem`, `TimerRuns.HandOffExact`,
  `TimerRuns.HandOffRace`.
- `TimerQueue.hpp` promises that cancelling during callbacks is safe for periodic timers too. The
  cancellation of a periodic timer of the batch being fired suppresses at most its turn in that batch: the
  timer is filed again and the cancellation forgotten. A cancel that overtakes the posted add holds until
  the end of the first handleRead that finishes after it; beyond that it is final only if that handleRead has
  the timer in its batch, where it is skipped, and deletes it, being one-shot.
  `TimerCancellation.CancelExact`, `TimerCancellation.CancelHolds`,
  `TimerCancellation.PeriodicSurvivesCancel`.
- The comments in `handleClose` and `connectDestroyed` mean every connection to end in a down notification.
  It is skipped when a `shutdown()` or `forceClose()` took effect before `connectDestroyed` reads the state.
  One that takes effect between that read and the store is overwritten by kDisconnected, and the notification
  is given: `Transport.LifecycleTheorem`, `Transport.DownSkipped`, `Transport.DownAndClosed`.
- `removeChannel` asserts that no event is watched. A send between the close and the destruction of
  which the kernel takes a part, followed by a shutdown, breaks that:
  `Transport.RemoveAssertExact`, `Transport.RemoveAssertFails`.
- `disableAll` on a channel that is not watched adds it to the kernel with an empty mask instead of doing
  nothing: `Poller.EmptyMaskExact`, `Poller.EmptyMaskExample`.
- `sendFrame` accepts any payload. An empty one, or one above 16 MiB, jams the receiver; from 2^32 bytes on
  the size is announced modulo 2^32, and the receiver may take a fragment for a payload:
  `Framing.SendableExact`, `Transport.BadPayloadJams`, `Framing.GiantFragment`.
- `onMessage` compares the readable count as `int32_t`; from 2^31 readable bytes on it leaves complete frames
  undispatched: `Framing.DispatchExact`, `Framing.CastStallExample`.
- A failed direct `::send`, `EAGAIN` included, drops the whole message; delivery is therefore "each frame
  whole or absent, in order": `Transport.DropExact`, `Transport.DropExample`.
- `SyncTimerQueue` disarms its timerfd when less than a millisecond is left before the earliest task; the
  500 ms timeout of its `epoll_wait`, meant as a fallback, is then what arms it again:
  `SyncTimerQueue.ResetExact`, `SyncTimerQueue.StallExample`.
- `from_id` is an int64 on the wire, an `int` in the handlers, so the deduplication key merges senders that
  differ by a multiple of 2^32: `Idempotence.KeyExact`. The key does not name the kind of request either.
  With Redis unreachable every request with a msg_id counts as a duplicate, and `oneChat` acknowledges it as
  delivered; when only the answer of the first SET NX is lost, no request ever gets to run the body until
  the key expires: `Idempotence.AckedWithoutBody`, `Idempotence.GrantedExact`. And once the key has expired,
  a slow handler of the first request can put its acknowledgement over that of the second:
  `IdempotenceEffects.AnsweredExact`.
- The header of `chat_stress.py` says frames carry no length prefix; its encoder writes one, as the server
  expects: `Codec.ClientToServer`.
- Connection names repeat after 2^32 accepts: `TcpServers.NameExact`, `TcpServers.AcceptExact`.

## Model

| member | source | states |
|---|---|---|
| `Transport.EndToEnd` | src/NetWorkLibrary/src/net/TcpConnection.cpp:60-91 | For every run of a sender and of a receiver that read a prefix of the sender's socket bytes in any chunks and of any sizes: what was dispatched is a prefix of the accepted messages before the first unsendable one, each whole, and restricted to any thread a subsequence of that thread's sendFrame calls in program order; only behind an accepted message of 2^32 bytes or more, all earlier ones having been dispatched, can anything else follow |
| `Transport.EndToEndComplete` | src/NetWorkLibrary/src/net/TcpConnection.cpp:46-91 | With the sender drained, everything read, no failed direct send and no kConnected refusal, every sendFrame call has been dispatched, each thread's in full and in order, and nothing is left in the receive buffer |
| `Transport.BadPayloadJams` | src/chatsystem/net/chatserver.cpp:28-33 | A payload that is empty or above 16 MiB, and below 2^32 bytes, stops the stream for good: whatever is framed after it is never dispatched |
| `Transport.RunOrdered` | src/NetWorkLibrary/src/net/TcpConnection.cpp:46-54 | Over every run the messages that reached sendInLoop followed by those still queued are, per thread, a subsequence of its calls (all of them if none was refused), and every call is accounted for as reached, queued or refused, every reached one as accepted, failed or refused |
| `Transport.LifecycleTheorem` | src/NetWorkLibrary/src/net/TcpConnection.cpp:176-211 | Over every run: destroys <= closes <= ups <= 1; the table entry lives until the close callback; after connectDestroyed the down notification was given if and only if it read kConnected, that is, if and only if no shutdown or forceClose took effect before that read; it was given together with one that took effect if and only if that fell between the read and the store; and the channel is in neither the poller nor the kernel (as long as the poller delivers nothing more, see Reactor) |
| `Transport.DownAndClosed` | src/NetWorkLibrary/src/net/TcpConnection.cpp:203-206 | The race: state read as kConnected, another thread's shutdown wins, the store overwrites it and the down notification is given; and the same without that thread |
| `Transport.HeldUntilDestroyed` | src/NetWorkLibrary/src/net/TcpServer.cpp:82-94 | Until it is destroyed a connection is held by the table, by its queued connectDestroyed or by the running one |
| `Transport.DownSkipped` | src/NetWorkLibrary/src/net/TcpConnection.cpp:93-124 | Established, shut down locally, closed by the peer, destroyed: no down notification |
| `Transport.DropExact` | src/NetWorkLibrary/src/net/TcpConnection.cpp:60-91 | A message at sendInLoop is dropped if and only if the state is not kConnected, or nothing is pending and the direct send fails for whatever reason; a dropped one leaves no byte, any other joins the bytes sent and pending as one whole frame |
| `Transport.DropExample` | src/NetWorkLibrary/src/net/TcpConnection.cpp:66-82 | Of two messages the first is lost to a failed direct send and the second arrives |
| `Transport.StepQuiet` | src/NetWorkLibrary/src/net/TcpConnection.cpp:46-193 | Whatever happens to a connection except a functor of the batch only adds functors, destroys nothing and moves nothing backwards |
| `Transport.StepForward` | src/NetWorkLibrary/src/net/TcpConnection.cpp:29-39 | No step of any thread moves the state backwards, takes back a close request or undoes SHUT_WR |
| `Transport.ShutdownTheorem` | src/NetWorkLibrary/src/net/TcpConnection.cpp:93-174 | Over every run: no ::send after SHUT_WR; before the close SHUT_WR only with empty output and after shutdown won, and it has been issued once shutdownInLoop ran and the output is empty; EPOLLOUT is in the kernel mask exactly while output is pending; socket bytes followed by the output buffer are the accepted messages |
| `Transport.RemoveAssertExact` | src/NetWorkLibrary/src/poller/EpollPoller.cpp:94-105 | At connectDestroyed, whatever other threads do after its load of the state, removeChannel's assertions hold if and only if the load returned kConnected or EPOLLOUT is not watched |
| `Transport.RemoveAssertFails` | src/NetWorkLibrary/src/net/TcpConnection.cpp:60-75 | From every idle established connection, for every payload of which the kernel takes a part: peer close, send, shutdown, and connectDestroyed is next with the assertion broken |
| `Transport.IdleRun` | src/NetWorkLibrary/src/net/TcpConnection.cpp:29-39 | Such an idle established connection is reachable |
| `Connection.RunInv` | src/NetWorkLibrary/src/net/TcpConnection.cpp:29-211 | Every run keeps, together: conservation of bytes, the EPOLLOUT/pending-output equivalence, finality of SHUT_WR, the lifecycle counts, agreement of poller and kernel, and the framing relation between bytes received, payloads dispatched and bytes buffered |
| `Reactor.ReactorTheorem` | src/NetWorkLibrary/src/core/EventLoop.cpp:55-69 | Over every run of a loop composed with its connections, where handlers run the connections' own methods: each connection goes through a run of its state machine; its functors are exactly those waiting in the loop, in order; nothing is delivered to a destroyed connection; every channel still to be handled in a traversal is registered, its connection is not destroyed, and the table or a waiting connectDestroyed holds it; the loop thread is inside at most one connectDestroyed |
| `Reactor.DestroyedInPendingPhase` | src/NetWorkLibrary/src/net/TcpServer.cpp:82-94 | A connection is destroyed only by a functor of the batch |
| `Reactor.NothingForgotten` | src/NetWorkLibrary/src/core/EventLoop.cpp:90-108 | In the composed machine, at a silent poll each waiting functor belongs to a thread between its push and its wakeup, or in the very first poll to the loop thread |
| `Reactor.EstablishedInline` | src/NetWorkLibrary/src/net/TcpServer.cpp:76-76 | connectEstablished run inline by runInLoop leaves the same connection as when it is posted and run first |
| `Reactor.StepInv` | src/NetWorkLibrary/src/core/EventLoop.cpp:61-177 | Every step of the composed machine keeps loop, queues, connections and traversal consistent |
| `ReactorEffects.HandleEffect` | src/NetWorkLibrary/src/core/EventLoop.cpp:65-67 | A reported event reaches the connection at the head of the traversal: it takes its step, and what it posts goes to the end of the loop's queue in order, with a wakeup each exactly while a batch runs |
| `ReactorEffects.CallEffect` | src/NetWorkLibrary/src/core/EventLoop.cpp:65-67 | The same for a call from any code on the loop thread into any connection |
| `ReactorEffects.OtherEffect` | src/NetWorkLibrary/src/core/EventLoop.cpp:82-100 | A call from another thread, whatever the loop does: the connection's step, at most one functor under the caller's name, the wakeup still owed |
| `ReactorEffects.AcceptEffect` | src/NetWorkLibrary/src/net/TcpServer.cpp:50-80 | A new connection starts with its connectEstablished posted, or on the loop thread established at once with nothing posted |
| `ReactorEffects.BeginEffect` | src/NetWorkLibrary/src/core/EventLoop.cpp:166-177 | The functor at the head of the batch is the oldest of its connection; the connection runs it, and what that posts waits behind everything else; connectDestroyed may stop at its load |
| `ReactorEffects.BeginTaskEffect` | src/NetWorkLibrary/src/core/EventLoop.cpp:166-177 | A functor that is no connection's leaves the connections alone |
| `ReactorEffects.LoopEffect` | src/NetWorkLibrary/src/core/EventLoop.cpp:55-177 | Everything else the loop and other threads do leaves the connections alone |
| `ReactorEffects.ContinueEffect` | src/NetWorkLibrary/src/net/TcpConnection.cpp:203-208 | connectDestroyed goes on to its end and posts nothing |
| `ReactorEffects.PollEffect` | src/NetWorkLibrary/src/core/EventLoop.cpp:63-64 | A poll reports channels the kernel watches and no others |
| `Connection.SendInLoopInv` | src/NetWorkLibrary/src/net/TcpConnection.cpp:60-91 | sendInLoop keeps all of that for whatever the kernel returns |
| `Connection.HandleWriteInv` | src/NetWorkLibrary/src/net/TcpConnection.cpp:146-174 | handleWrite keeps all of that for whatever the kernel returns |
| `Connection.HandleCloseInv` | src/NetWorkLibrary/src/net/TcpConnection.cpp:176-193 | handleClose with removeConnection keeps all of that; in particular connectDestroyed is queued once |
| `Connection.DestroyInv` | src/NetWorkLibrary/src/net/TcpConnection.cpp:201-203 | Running the queued connectDestroyed up to its load of the state keeps all of that |
| `Connection.FinishInv` | src/NetWorkLibrary/src/net/TcpConnection.cpp:204-208 | So does the rest of it, whatever other threads have done since |
| `ConnectionEffects.NoneTurnedAway` | src/chatsystem/service/chatservice.cpp:11-21 | In every run in which each sendFrame call finds the state kConnected, no call is refused |
| `ConnectionEffects.OneWriteDrains` | src/NetWorkLibrary/src/net/TcpConnection.cpp:146-174 | Over every run, before the close: one EPOLLOUT at which the kernel takes everything pending leaves the output buffer empty, the socket with exactly the frames of the accepted messages and EPOLLOUT unwatched, and SHUT_WR issued if shutdownInLoop has run |
| `ConnectionEffects.CallEffect` | src/NetWorkLibrary/src/net/TcpConnection.cpp:46-54 | From any thread: a call is refused exactly when the state is not kConnected now and was not when tested; otherwise another thread's message goes to the end of the queue and nothing else changes, and the loop thread's goes through sendInLoop |
| `ConnectionEffects.NotConnectedDrops` | src/NetWorkLibrary/src/net/TcpConnection.cpp:62-64 | sendInLoop unless kConnected leaves no byte and changes nothing but the account of it |
| `ConnectionEffects.DirectWrites` | src/NetWorkLibrary/src/net/TcpConnection.cpp:66-88 | With nothing pending, for every number of bytes the kernel takes: those go to the socket, the rest is pending, and EPOLLOUT is watched exactly if something is; on an error no byte moves |
| `ConnectionEffects.PendingKeeps` | src/NetWorkLibrary/src/net/TcpConnection.cpp:83-90 | With output pending the whole frame goes behind it and no byte to the socket |
| `ConnectionEffects.WriteEffect` | src/NetWorkLibrary/src/net/TcpConnection.cpp:146-174 | With EPOLLOUT and output pending, for every number of bytes the kernel takes: those go from the head of the output to the end of what the socket got; when all of it went, EPOLLOUT is unwatched and, from kDisconnecting, SHUT_WR issued; on an error no byte moves |
| `ConnectionEffects.WriteIdle` | src/NetWorkLibrary/src/net/TcpConnection.cpp:146-151 | Without EPOLLOUT nothing happens; with it and nothing pending it is unwatched |
| `ConnectionEffects.ShutdownEffect` | src/NetWorkLibrary/src/net/TcpConnection.cpp:93-108 | shutdown() on every state and thread, as the change of state, half-close and functor owed |
| `ConnectionEffects.CasEffect` | src/NetWorkLibrary/src/net/TcpConnection.cpp:110-114 | The state change of forceClose(): kConnected to kDisconnecting, anything else unchanged |
| `ConnectionEffects.OthersEffect` | src/NetWorkLibrary/src/net/TcpConnection.cpp:97-124 | What other threads push: shutdownInLoop if owed, forceCloseInLoop |
| `ConnectionEffects.CloseEffect` | src/NetWorkLibrary/src/net/TcpConnection.cpp:176-193 | From kConnected or kDisconnecting and for the first time only: nothing is watched any more, the entry is gone, connectDestroyed is queued, the state stays |
| `ConnectionEffects.LoopCallEffect` | src/NetWorkLibrary/src/net/TcpConnection.cpp:46-124 | Calls of user callbacks on the loop thread are the same calls |
| `ConnectionEffects.DeliveryEffect` | src/NetWorkLibrary/src/net/TcpConnection.cpp:130-174 | A read appends its bytes, hands over the frames and keeps the rest as the stream reading says and then makes the service's calls; end of file and hang-up close; EPOLLOUT writes |
| `ConnectionEffects.FunctorEffect` | src/NetWorkLibrary/src/core/EventLoop.cpp:166-177 | The oldest functor leaves the queue and does what it was posted for, for each of the five kinds |
| `ConnectionEffects.EstablishEffect` | src/NetWorkLibrary/src/net/TcpConnection.cpp:29-39 | From kConnecting only: kConnected, the up notification, and the kernel watching for input alone |
| `ConnectionEffects.LoadEffect` | src/NetWorkLibrary/src/net/TcpConnection.cpp:201-211 | A load of kConnected leads on to the store, any other to the removal at once |
| `ConnectionEffects.FinishEffect` | src/NetWorkLibrary/src/net/TcpConnection.cpp:204-211 | kDisconnected, the down notification, and the fd gone from kernel and table, whatever other threads did |
| `ConnectionEffects.LoopBusy` | src/NetWorkLibrary/src/net/TcpConnection.cpp:201-211 | Inside connectDestroyed nothing else begins on the loop thread |
| `TcpConnections.TcpConnection.constructor` | src/NetWorkLibrary/src/net/TcpServer.cpp:50-80 | A new connection has empty buffers, an unregistered channel, a table entry and connectEstablished queued; or, when its loop is the accepting one, is established already |
| `TcpConnections.TcpConnection.ConnectEstablished` | src/NetWorkLibrary/src/net/TcpConnection.cpp:29-39 | Only from kConnecting: becomes kConnected, registers for reading, notifies up once; otherwise nothing changes |
| `TcpConnections.TcpConnection.SendInLoop` | src/NetWorkLibrary/src/net/TcpConnection.cpp:60-91 | On the real buffers: dropped unless kConnected; written directly when nothing is pending, with exactly the untaken suffix buffered and EPOLLOUT enabled, the whole message dropped on an error return; appended whole otherwise |
| `TcpConnections.TcpConnection.HandleWrite` | src/NetWorkLibrary/src/net/TcpConnection.cpp:146-174 | Only with EPOLLOUT on: exactly the taken prefix leaves the buffer; when it becomes empty EPOLLOUT goes off and, from kDisconnecting, SHUT_WR is issued |
| `TcpConnections.TcpConnection.Shutdown` | src/NetWorkLibrary/src/net/TcpConnection.cpp:93-108 | Only from kConnected: becomes kDisconnecting and, on the loop thread, half-closes at once if nothing is pending; another thread owes the functor |
| `TcpConnections.TcpConnection.ShutdownInLoop` | src/NetWorkLibrary/src/net/TcpConnection.cpp:102-108 | SHUT_WR exactly when EPOLLOUT is not watched |
| `TcpConnections.TcpConnection.ForceClose` | src/NetWorkLibrary/src/net/TcpConnection.cpp:110-124 | On the loop thread: the same as winning or losing the state change and then closing |
| `TcpConnections.TcpConnection.CasForceClose` | src/NetWorkLibrary/src/net/TcpConnection.cpp:110-114 | On another thread, first half: only kConnected becomes kDisconnecting |
| `TcpConnections.TcpConnection.PostForceClose` | src/NetWorkLibrary/src/net/TcpConnection.cpp:115-116 | Second half: forceCloseInLoop is queued behind everything posted before |
| `TcpConnections.TcpConnection.PostShutdown` | src/NetWorkLibrary/src/net/TcpConnection.cpp:97-99 | The thread that won shutdown queues shutdownInLoop, once |
| `TcpConnections.TcpConnection.HandleClose` | src/NetWorkLibrary/src/net/TcpConnection.cpp:176-193 | Only from kConnected or kDisconnecting and only the first time: interest cleared, entry removed, connectDestroyed queued, state unchanged |
| `TcpConnections.TcpConnection.ConnectDestroyed` | src/NetWorkLibrary/src/net/TcpConnection.cpp:201-211 | With other threads acting between the load of the state and the store: a load of kConnected leads to kDisconnected and the down notification whatever they did; in every case the channel leaves the poller |
| `TcpConnections.TcpConnection.BeginDestroy` | src/NetWorkLibrary/src/net/TcpConnection.cpp:201-203 | Up to the load: the branch to be taken is settled, or the channel removed |
| `TcpConnections.TcpConnection.FinishDestroy` | src/NetWorkLibrary/src/net/TcpConnection.cpp:204-208 | From the store on |
| `TcpConnections.TcpConnection.SendFrame` | src/chatsystem/service/chatservice.cpp:11-21 | Passing the state tests now, or earlier from a state the connection has left since, the frame is run through sendInLoop at once or queued behind everything posted before, by calling thread; otherwise refused |
| `TcpConnections.TcpConnection.HandleRead` | src/NetWorkLibrary/src/net/TcpConnection.cpp:130-144 | End of file exactly on a zero read, error exactly on a failed one; otherwise the bytes read are a non-empty prefix of what the peer sent and the framing loop ran on buffer plus chunk, with shutdown as the last call on an invalid length |
| `TcpConnections.TcpConnection.OnMessage` | src/chatsystem/net/chatserver.cpp:17-42 | With the service called for each payload before the next is cut: the payloads, the bytes left and the shutdown are what the stream reading prescribes, and the connection is as if all calls had come after the cutting |
| `TcpConnections.TcpConnection.TakeNext` | src/chatsystem/net/chatserver.cpp:21-40 | One turn: a whole frame leaves the buffer and is dispatched, or nothing changes |
| `TcpConnections.Drive` | src/NetWorkLibrary/src/net/TcpConnection.cpp:29-211 | Whatever sequence of reads and other events happens to a connection object is a run of the state machine |
| `TcpConnections.TcpConnection.RunNext` | src/NetWorkLibrary/src/core/EventLoop.cpp:166-177 | The oldest functor of the connection runs and leaves the queue |
| `Framing.NextFrame` | src/chatsystem/net/chatserver.cpp:21-39 | One turn of the loop on a real Buffer: a frame is taken out exactly when the reading of the bytes starts with it, otherwise the buffer is untouched and the loop waits or gives up as the reading says |
| `Framing.DispatchConserves` | src/chatsystem/net/chatserver.cpp:21-41 | Whatever the bytes: the dispatched payloads, framed again, followed by the bytes left are the input; every payload has 1 byte to 16 MiB; the loop gives up exactly when an invalid length is left at the head |
| `Framing.DispatchExact` | src/chatsystem/net/chatserver.cpp:35-36 | No complete frame is left behind if and only if fewer than 2^31 bytes were readable or the loop met an invalid length; between 2^31 and 2^32 bytes that means an invalid length at the very head |
| `Framing.CastStallExample` | src/chatsystem/net/chatserver.cpp:35-36 | A stream with a complete frame at the head of which nothing is dispatched |
| `Framing.ReceivedUnique` | src/chatsystem/net/chatserver.cpp:21-41 | A byte stream has at most one reading as valid frames followed by a blocked rest |
| `Framing.ArriveKeepsReceived` | src/chatsystem/net/chatserver.cpp:17-42 | A pass never loses, reorders or invents anything, and leaves no complete frame behind if and only if fewer than 2^31 bytes were readable or it ended at an invalid length |
| `Framing.ArriveAllReceived` | src/chatsystem/net/chatserver.cpp:17-42 | For every sequence of reads: payloads dispatched, framed again, and bytes buffered are the concatenation of the reads; and no complete frame is left when every pass fits in that sense |
| `Framing.ChunkingIrrelevant` | src/chatsystem/net/chatserver.cpp:17-42 | Any two ways of cutting the same bytes into reads give the same payloads and the same leftover |
| `Framing.PrefixAndAbsorption` | src/chatsystem/net/chatserver.cpp:21-41 | A prefix of a stream, read in any way, dispatches a prefix of the payloads of the whole, and once an invalid length is at the head no further byte makes anything be dispatched |
| `Framing.SendableExact` | src/chatsystem/service/chatservice.cpp:11-21 | onMessage gets back the payload that sendFrame framed if and only if it has 1 byte to 16 MiB and the readable count does not wrap as int32_t; when only the count wraps the loop waits, and on any other payload below 2^32 bytes it gives up with nothing dispatched |
| `Framing.GiantFragment` | src/chatsystem/service/chatservice.cpp:15-18 | Of a payload of 2^32 bytes or more whose size modulo 2^32 is a valid length, that many first bytes are dispatched as a payload |
| `Framing.ReadingOfStream` | src/chatsystem/net/chatserver.cpp:21-41 | From a prefix of framed payloads of any sizes, a prefix of those before the first unsendable one has been dispatched, each whole, and nothing else unless that one has 2^32 bytes or more |
| `Framing.HeaderRoundTrip` | src/chatsystem/service/chatservice.cpp:15-18 | Reading the four header bytes in network order gives back the size cast to int32_t |
| `Framing.HeaderBytes` | src/chatsystem/service/chatservice.cpp:15-18 | The four header bytes are the size in base 256, most significant first |
| `Framing.LenBytes` | src/chatsystem/net/chatserver.cpp:24-26 | They are read as a big-endian two's complement number of 32 bits |
| `Framing.FirstFrame` | src/chatsystem/net/chatserver.cpp:21-40 | The loop waits below 4 bytes or for an incomplete frame, gives up on a length outside 1 to 16777216, and otherwise dispatches exactly the bytes behind the length first |
| `Framing.HeadIsFrame` | src/chatsystem/net/chatserver.cpp:24-39 | Bytes at a valid head are what sendFrame writes for that payload |
| `Framing.ReceivedFromStream` | src/chatsystem/net/chatserver.cpp:21-41 | Reading a prefix of framed payloads dispatches a prefix of them; reading all of it dispatches all and leaves nothing |
| `Buffers.Buffer.constructor` | src/NetWorkLibrary/include/nwl/Buffer.hpp:20-23 | Starts empty |
| `Buffers.Buffer.ReadableBytes` | src/NetWorkLibrary/include/nwl/Buffer.hpp:26-26 | The length of the abstract contents |
| `Buffers.Buffer.Peek` | src/NetWorkLibrary/include/nwl/Buffer.hpp:29-29 | A prefix of the contents, nothing consumed |
| `Buffers.Buffer.Retrieve` | src/NetWorkLibrary/include/nwl/Buffer.hpp:32-38 | Drops exactly the first len bytes, or everything when fewer are present |
| `Buffers.Buffer.RetrieveAll` | src/NetWorkLibrary/include/nwl/Buffer.hpp:40-43 | Empties the buffer and resets both indices |
| `Buffers.Buffer.RetrieveAsString` | src/NetWorkLibrary/include/nwl/Buffer.hpp:47-52 | Result followed by the remaining contents are the old contents; the result has len bytes or all of them |
| `Buffers.Buffer.Append` | src/NetWorkLibrary/include/nwl/Buffer.hpp:62-66 | Contents grow by exactly src, whether the bytes are moved down, the array grows or neither |
| `Buffers.Buffer.EnsureWritableBytes` | src/NetWorkLibrary/include/nwl/Buffer.hpp:74-78 | Room for len bytes afterwards, contents unchanged |
| `Buffers.Buffer.MakeSpace` | src/NetWorkLibrary/include/nwl/Buffer.hpp:87-97 | Both branches leave room for len more bytes and the contents unchanged |
| `Buffers.Buffer.ReadFd` | src/NetWorkLibrary/include/nwl/Buffer.hpp:104-124 | Exactly the n bytes the kernel returned are appended, in order, across the two blocks; on 0 and -1 nothing changes; short reads only for lack of input or at least 65536 bytes |
| `Poller.MirrorAlways` | src/NetWorkLibrary/src/poller/EpollPoller.cpp:73-105 | After every sequence of enable, disable and remove: kAdded exactly when the kernel watches the fd with events(), kDeleted and kNew mean it does not, kNew means not in the map, and no ADD hit a present fd nor MOD or DEL an absent one |
| `Poller.MaskEffect` | src/NetWorkLibrary/include/nwl/Channel.hpp:44-47 | Each enabling and disabling call changes its own bits of the mask and no other |
| `Poller.WatchEffect` | src/NetWorkLibrary/src/poller/EpollPoller.cpp:73-105 | The kernel holds the new mask afterwards, unless it is empty and the fd was watched, or the channel was removed: then nothing |
| `Poller.EmptyMaskExact` | src/NetWorkLibrary/src/poller/EpollPoller.cpp:76-83 | The kernel is left watching an fd with an empty mask if and only if a call that ends with no event reaches a channel that was not kAdded |
| `Poller.EmptyMaskExample` | src/NetWorkLibrary/include/nwl/Channel.hpp:44-47 | Disabling twice, as handleClose and connectDestroyed do, is such a case, and remove cleans it up |
| `Poller.Channel.Update` | src/NetWorkLibrary/include/nwl/Channel.hpp:44-47 | enableReading, enableWriting, disableWriting and disableAll change their own channel as stated and no other, and keep the mirror for all channels of the loop |
| `Poller.EpollPoller.UpdateChannel` | src/NetWorkLibrary/src/poller/EpollPoller.cpp:73-92 | The mirror holds for every channel again after the mask of one was changed |
| `Poller.EpollPoller.RemoveChannel` | src/NetWorkLibrary/src/poller/EpollPoller.cpp:94-105 | The channel is in neither table afterwards; the mirror holds and other channels are untouched |
| `Poller.EpollPoller.EpollCtl` | src/NetWorkLibrary/src/poller/EpollPoller.cpp:107-116 | ADD is rejected on a present fd, MOD and DEL on an absent one; otherwise only that fd's entry changes |
| `Poller.EpollPoller.FillActiveChannels` | src/NetWorkLibrary/src/poller/EpollPoller.cpp:64-71 | Every pointer that comes back from the kernel is a live, registered channel marked kAdded, in kernel order |
| `Poller.EpollPoller.ReuseFd` | src/NetWorkLibrary/src/poller/EpollPoller.cpp:94-105 | After a removal the fd can belong to a new channel, which starts afresh with the mirror intact for all |
| `Poller.EpollPoller.Forget` | src/NetWorkLibrary/src/poller/EpollPoller.cpp:94-105 | A removed channel leaves nothing behind under its fd |
| `EventLoop.NoLostWakeupTheorem` | src/NetWorkLibrary/src/core/EventLoop.cpp:90-108 | In every reachable state with the loop thread at epoll_wait and the eventfd at zero, each pending functor belongs to a thread between its push and its wakeup(), or in the very first poll to the loop thread itself; and a requested quit belongs to a thread before its wakeup() |
| `EventLoop.PostingTheorem` | src/NetWorkLibrary/src/core/EventLoop.cpp:90-177 | Over every run: executed functors, rest of the batch and pending ones are the posts in posting order |
| `EventLoop.BoundedDelay` | src/NetWorkLibrary/src/core/EventLoop.cpp:61-69 | From any reachable state, after one more completed round (two if a batch is running) everything posted so far has been executed, whatever the other threads do |
| `EventLoop.EventLoop.Iterate` | src/NetWorkLibrary/src/core/EventLoop.cpp:61-69 | With other threads acting between any two actions, one turn of the loop is a run of the state machine; it exits exactly if quit_ was set at the test, and otherwise ends with everything posted before it executed |
| `EventLoop.EventLoop.HandleEvents` | src/NetWorkLibrary/src/core/EventLoop.cpp:65-67 | The traversal is a run of the state machine that ends with no active channel left, in which the loop thread has posted exactly what the handlers of the active channels post, in order |
| `EventLoop.EventLoop.HandleWakeupRead` | src/NetWorkLibrary/src/core/EventLoop.cpp:131-137 | A reported wakeup resets the counter, otherwise nothing changes |
| `EventLoop.EventLoop.DoPendingFunctors` | src/NetWorkLibrary/src/core/EventLoop.cpp:166-177 | Everything posted before the call has been executed when it returns; the loop thread has posted exactly what the executed functors post, in order, for a later round |
| `EventLoop.EventLoop.QueueInLoop` | src/NetWorkLibrary/src/core/EventLoop.cpp:90-100 | On the loop thread: the push, whatever other threads do, then a wakeup exactly when a batch is running |
| `EventLoop.EventLoop.Other` | src/NetWorkLibrary/src/core/EventLoop.cpp:75-108 | Another thread's push, wakeup or quit has the effect of its step |
| `EventLoop.EventLoop.Start` | src/NetWorkLibrary/src/core/EventLoop.cpp:57-58 | loop() resets quit_ before its first test |
| `EventLoop.EventLoop.Quit` | src/NetWorkLibrary/src/core/EventLoop.cpp:75-80 | quit() on the loop thread sets the flag and needs no wakeup |
| `EventLoopEffects.QuitTheorem` | src/NetWorkLibrary/src/core/EventLoop.cpp:57-80 | Over every continuation: quit_ is set exactly if some quit() took place since loop() was entered, whatever came before; only then does the loop exit, and then at its next test |
| `EventLoopEffects.QuitStops` | src/NetWorkLibrary/src/core/EventLoop.cpp:61-80 | Once quit_ is set inside loop(), over every continuation at most one more round is completed, and from the top of the loop on no functor runs |
| `EventLoopEffects.EarlyPostWaits` | src/NetWorkLibrary/src/core/EventLoop.cpp:90-100 | A functor posted by the loop thread before loop() is in the queue at the first poll with the eventfd at zero and no wakeup to come |
| `EventLoopEffects.PostEffect` | src/NetWorkLibrary/src/core/EventLoop.cpp:90-108 | Another thread's queueInLoop: the functor at the end of the queue, then one count in the eventfd |
| `EventLoopEffects.LoopPostEffect` | src/NetWorkLibrary/src/core/EventLoop.cpp:90-108 | The loop thread's: the same, with the count exactly while a batch runs |
| `EventLoopEffects.QuitEffect` | src/NetWorkLibrary/src/core/EventLoop.cpp:75-80 | quit() sets the flag, and on another thread counts the eventfd up after that |
| `EventLoopEffects.LoopEffect` | src/NetWorkLibrary/src/core/EventLoop.cpp:55-69 | What each action of loop() changes: reset, test, poll, each channel of the traversal, and the read of the eventfd |
| `EventLoopEffects.BatchEffect` | src/NetWorkLibrary/src/core/EventLoop.cpp:166-177 | What each action of doPendingFunctors changes: flag, swap, each functor, and the end |
| `TcpServers.NameExact` | src/NetWorkLibrary/src/net/TcpServer.cpp:53-57 | Two connections of a server get the same name if and only if they were accepted a multiple of 2^32 apart |
| `TcpServers.AcceptExact` | src/NetWorkLibrary/src/net/TcpServer.cpp:50-68 | Accepting keeps the table equal to the open connections if and only if no connection accepted a multiple of 2^32 earlier is still open |
| `TcpServers.CloseExact` | src/NetWorkLibrary/src/net/TcpServer.cpp:82-88 | Closing takes out the connection's own entry and no other |
| `TcpServers.TableTheorem` | src/NetWorkLibrary/src/net/TcpServer.cpp:50-94 | For up to 2^32 accepts in any order with closes: the table holds exactly the open connections under their names, and connectDestroyed is posted once per closed one |
| `TcpServers.TableEffect` | src/NetWorkLibrary/src/net/TcpServer.cpp:50-94 | An accept files the connection under its name and moves no other entry that has another name; a close takes out its own name alone and posts connectDestroyed once |
| `TcpServers.NameEffect` | src/NetWorkLibrary/src/net/TcpServer.cpp:53-57 | The names end in #1, #2 and so on in decimal, with the counter at -2^31 after 2^31 - 1 |
| `TcpServers.DecimalDigits` | src/NetWorkLibrary/src/net/TcpServer.cpp:53-57 | The number is printed in decimal without leading zeros |
| `TcpServers.TcpServer.HandleNewConnection` | src/NetWorkLibrary/src/net/TcpServer.cpp:50-68 | The entry under the counter's printed value is added and the 32-bit counter advances with wrap-around |
| `TcpServers.TcpServer.RemoveConnection` | src/NetWorkLibrary/src/net/TcpServer.cpp:82-94 | The entry under the connection's name goes and its connectDestroyed is posted |
| `TimerQueue.OwnershipTheorem` | src/NetWorkLibrary/src/core/TimerQueue.cpp:54-171 | Over every run, hence wherever a callback can act: the queue uses no dangling pointer, deletes nothing twice, and both emplace branches are unreachable; timers_ is ordered and describes the same timers as activeTimers_; each allocated timer is owned by exactly one of queued add, timers_, batch. addTimer's own last line uses a dangling pointer if and only if its caller is another thread and the timer has been deleted by then |
| `TimerRuns.HandOffRace` | src/NetWorkLibrary/src/core/TimerQueue.cpp:54-59 | From every state: a one-shot timer added by another thread can be filed, fired and deleted before that thread reads its number, with nothing cancelled |
| `TimerRuns.HandOffExact` | src/NetWorkLibrary/src/core/TimerQueue.cpp:54-59 | From every state: a call of addTimer can end with a stale read if and only if its caller is not the loop thread |
| `TimerQueue.AddLocalIs` | src/NetWorkLibrary/src/core/TimerQueue.cpp:54-59 | On the loop thread the timer is still allocated when its number is read |
| `TimerQueue.FiringTheorem` | src/NetWorkLibrary/src/core/TimerQueue.cpp:104-120 | The batch is exactly the filed timers due at now, in (expiration, pointer) order; whatever callbacks and others do, the callbacks run are those of its handled part, once each, in that order, without the skipped ones; a timer is skipped if and only if its number was cancelled and remembered before, or cancelled before its turn; timers of the batch stay untouched and later additions are not in it |
| `TimerQueue.FinishTheorem` | src/NetWorkLibrary/src/core/TimerQueue.cpp:122-153 | Periodic timers of the batch are filed again for now + interval modulo 2^64, cancelled or not; the rest of the batch is deleted; remembered cancellations are dropped |
| `TimerQueue.FinishKeeps` | src/NetWorkLibrary/src/core/TimerQueue.cpp:122-144 | Timers outside the batch keep their contents and stay filed or queued, and no timer appears |
| `TimerQueue.ArmingTheorem` | src/NetWorkLibrary/src/core/TimerQueue.cpp:61-83 | Over every run, outside handleRead with timers waiting: the timerfd was set by a filing or the end of a handleRead, for the timer that was first after that event and at its time; it is due by max(first expiration now, that time + 100 us) if and only if the timer it was set for was not past at that time or the difference wrapped all the way round |
| `TimerQueue.FinishArms` | src/NetWorkLibrary/src/core/TimerQueue.cpp:146-151 | After a handleRead the timerfd is disarmed exactly if no timer is left, and otherwise armed for the first one, due in its remaining time, at least 100 us, unless that one is past |
| `TimerQueue.AddArms` | src/NetWorkLibrary/src/core/TimerQueue.cpp:64-82 | Filing a timer arms for it, due in its remaining time, at least 100 us, unless past, exactly if it became the first; otherwise nothing changes |
| `TimerQueue.PostEffect` | src/NetWorkLibrary/src/core/TimerQueue.cpp:54-57 | addTimer makes a timer as asked for with the next number, and posts it |
| `TimerQueue.AddEffect` | src/NetWorkLibrary/src/core/TimerQueue.cpp:61-82 | addTimerInLoop moves it from the functor to both containers, in order |
| `TimerQueue.AddLocalEffect` | src/NetWorkLibrary/src/core/TimerQueue.cpp:54-82 | addTimer on the loop thread does both at once |
| `TimerQueue.CancelEffect` | src/NetWorkLibrary/src/core/TimerQueue.cpp:89-102 | A filed timer leaves both containers and is deleted, any other number is remembered, and nothing else changes |
| `TimerQueue.BeginEffect` | src/NetWorkLibrary/src/core/TimerQueue.cpp:104-112 | handleRead splits timers_ into its batch and the rest |
| `TimerQueue.BeginActive` | src/NetWorkLibrary/src/core/TimerQueue.cpp:156-171 | activeTimers_ keeps exactly the numbers of the rest |
| `TimerQueue.TurnEffect` | src/NetWorkLibrary/src/core/TimerQueue.cpp:113-120 | The next timer of the batch is run, with its number, its due time and the batch's time, or skipped and its cancellation used up |
| `TimerQueue.RestartEffect` | src/NetWorkLibrary/src/core/TimerQueue.hpp:20-40 | A timer is periodic exactly if it repeats and has an expiration; restarting changes the expiration alone, to now + interval modulo 2^64 |
| `TimerQueue.ReadEffect` | src/NetWorkLibrary/src/core/TimerQueue.cpp:58-58 | Reading the number at the end of addTimer changes nothing but that it is read, and records a stale read exactly if the timer is gone |
| `TimerQueue.MicrosExact` | src/NetWorkLibrary/src/core/TimerQueue.cpp:16-20 | The delay is the remaining time with a floor of 100 us if and only if the target is not past, or so far past that 2^64 minus the lateness is at most 100 |
| `TimerQueue.LateArming` | src/NetWorkLibrary/src/core/TimerQueue.cpp:64-82 | A timer filed one microsecond late is armed for 2^64 - 1 us ahead |
| `TimerQueue.TimespecExact` | src/NetWorkLibrary/src/core/TimerQueue.cpp:22-27 | The timespec is the microseconds exactly, with tv_nsec below 10^9 |
| `TimerQueue.InsertSpec` | src/NetWorkLibrary/src/core/TimerQueue.cpp:66-73 | Filing into the ordered set adds just that entry and keeps the order; the head changes exactly if the entry precedes it |
| `TimerQueue.EraseSpec` | src/NetWorkLibrary/src/core/TimerQueue.cpp:94-94 | Erasing removes just that entry, keeps the order, never brings the head forward |
| `TimerQueue.ExpiredSpec` | src/NetWorkLibrary/src/core/TimerQueue.cpp:158-169 | lower_bound of (now, highest address) separates exactly the due entries |
| `TimerQueue.StepInv` | src/NetWorkLibrary/src/core/TimerQueue.cpp:61-154 | Every single action keeps containers, ownership and numbering consistent |
| `TimerCancellation.CancelExact` | src/NetWorkLibrary/src/core/TimerQueue.cpp:89-102 | After cancelling an issued timer some continuation still runs its callback if and only if it was waiting for its addTimerInLoop or was a periodic timer of the batch being fired |
| `TimerCancellation.CancelHolds` | src/NetWorkLibrary/src/core/TimerQueue.cpp:89-153 | A cancellation holds, wherever the timer was, until the end of the first handleRead that finishes after it; from then on the callback can run if and only if that handleRead did not delete the timer, being periodic or not in its batch |
| `TimerCancellation.AliveExact` | src/NetWorkLibrary/src/core/TimerQueue.cpp:61-154 | Outside handleRead a timer whose cancellation is not remembered can run if and only if it has not been deleted |
| `TimerCancellation.SilentForever` | src/NetWorkLibrary/src/core/TimerQueue.cpp:89-144 | A silenced timer's callback never runs again, over every continuation |
| `TimerCancellation.CancelActive` | src/NetWorkLibrary/src/core/TimerQueue.cpp:92-96 | A cancel that finds the timer in activeTimers_ deletes it; its callback never runs again |
| `TimerCancellation.CancelInBatch` | src/NetWorkLibrary/src/core/TimerQueue.cpp:113-120 | A one-shot timer of the batch cancelled before its turn never runs |
| `TimerCancellation.PeriodicSurvivesCancel` | src/NetWorkLibrary/src/core/TimerQueue.cpp:122-137 | A periodic timer of the batch is, after its cancellation, active and filed for the next round with the cancellation forgotten |
| `TimerQueueObject.TimerQueue.AddTimer` | src/NetWorkLibrary/src/core/TimerQueue.cpp:54-59 | On the loop thread: a fresh timer, filed and active, and its number is what is returned |
| `TimerQueueObject.TimerQueue.PostTimer` | src/NetWorkLibrary/src/core/TimerQueue.cpp:54-57 | On another thread: a fresh timer with the next number, owned by the posted functor, its number still to be read |
| `TimerQueueObject.TimerQueue.FinishPost` | src/NetWorkLibrary/src/core/TimerQueue.cpp:58-58 | The number returned is the timer's, unless the read found the timer gone |
| `TimerQueueObject.TimerQueue.AddTimerInLoop` | src/NetWorkLibrary/src/core/TimerQueue.cpp:61-83 | The timer moves from the posted functor to both containers; re-armed exactly if it became the earliest |
| `TimerQueueObject.TimerQueue.Cancel` | src/NetWorkLibrary/src/core/TimerQueue.cpp:89-102 | Out of both containers and deleted, or its number remembered |
| `TimerQueueObject.TimerQueue.GetExpired` | src/NetWorkLibrary/src/core/TimerQueue.cpp:156-171 | The due entries leave both containers and are what is returned |
| `TimerQueueObject.TimerQueue.HandleRead` | src/NetWorkLibrary/src/core/TimerQueue.cpp:104-154 | With callbacks that add and cancel at will: the outcome is the extraction, then one firing step per timer of the batch, each followed by what its callback does exactly if it was run, then the closing phase |
| `SyncTimerQueue.QueueTheorem` | src/threadpool/SyncQueue4.hpp:56-272 | Under every interleaving: waiting + ready never exceeds the capacity; accepted tasks are waiting, ready and taken ones as multisets; tasks are taken in release order; none is released before it is due |
| `SyncTimerQueue.BatchOrder` | src/threadpool/SyncQueue4.hpp:151-157 | A migration releases exactly the waiting tasks that are due, in due order, and workers get them as a block: after earlier releases, before later ones |
| `SyncTimerQueue.ResultCodes` | src/threadpool/SyncQueue4.hpp:171-186 | TakeTask returns 2 exactly when stopped with nothing ready; InnerEnqueue returns 0 exactly when running with room, 2 exactly when stopped, full or not, 1 exactly when running and full, and changes nothing unless 0 |
| `SyncTimerQueue.ReturnedTheorem` | src/threadpool/SyncQueue4.hpp:253-272 | Over every interleaving: the tasks that TakeTask has returned with 0, in order, are the first of the releases, and the rest of the releases are ready; so none is returned twice and none left out |
| `SyncTimerQueue.EnqueueEffect` | src/threadpool/SyncQueue4.hpp:171-186 | With room and running, this task with its due time is waiting once more, and nothing else changes |
| `SyncTimerQueue.TakeEffect` | src/threadpool/SyncQueue4.hpp:253-266 | With something ready, the oldest ready task is handed out with 0 and is ready no longer, and nothing else changes |
| `SyncTimerQueue.MigrateEffect` | src/threadpool/SyncQueue4.hpp:151-157 | The due tasks leave the waiting ones for the end of the ready ones |
| `SyncTimerQueue.StopEffect` | src/threadpool/SyncQueue4.hpp:223-234 | Stopping clears the flag alone; with nothing to do, taking and putting change nothing |
| `SyncTimerQueue.ResetExact` | src/threadpool/SyncQueue4.hpp:90-111 | The timerfd is set to the whole milliseconds left, never past the due time, and is disarmed exactly when less than one millisecond is left |
| `SyncTimerQueue.StallExample` | src/threadpool/SyncQueue4.hpp:100-109 | A task due in 5.5 ms is armed for 5 ms and the timerfd is then disarmed with the task still waiting |
| `SyncTimerQueue.TimerQueue.InnerEnqueue` | src/threadpool/SyncQueue4.hpp:171-186 | Adds the task only when running and below capacity, with the code that says so |
| `SyncTimerQueue.TimerQueue.Migrate` | src/threadpool/SyncQueue4.hpp:151-157 | The loop moves every due task and no other, earliest first |
| `SyncTimerQueue.TimerQueue.TakeTask` | src/threadpool/SyncQueue4.hpp:253-266 | The oldest ready task, also after Stop; 2 and no change otherwise |
| `SyncTimerQueue.TimerQueue.Stop` | src/threadpool/SyncQueue4.hpp:223-234 | Only the running flag changes |
| `Idempotence.AtMostOnce` | src/chatsystem/service/chatservice.cpp:286-311 | Over every interleaving on any number of nodes, with commands lost before or after execution: at most one handler body per (from_id, non-zero msg_id), plus one for each expiry of the key |
| `Idempotence.RepliesTheorem` | src/chatsystem/service/chatservice.cpp:286-346 | Every reply is byte for byte an acknowledgement that a body for the same key produced, or oneChat's in-flight one with the request's own msg_id and seq |
| `Idempotence.CachedIsTheOne` | src/chatsystem/service/chatservice.cpp:414-423 | While a key has not expired, all replies to requests with it carry the same acknowledgement, from the body or from the cache, apart from oneChat's in-flight one |
| `Idempotence.GrantedExact` | src/chatsystem/service/chatservice.cpp:286-311 | While a key has not expired, some request is granted it if and only if the answer to the first SET NX on it that reached Redis was delivered; then exactly one request has run the body or holds the right to, and otherwise none ever does |
| `Idempotence.InFlightBacked` | src/chatsystem/service/chatservice.cpp:294-309 | If no SET NX on a key failed, whoever is treated as a duplicate or told that the request is in flight is told so because some request was granted the key, expired since or not; other failures do not matter |
| `Idempotence.AckedWithoutBody` | src/chatsystem/service/chatservice.cpp:286-310 | With Redis unreachable a oneChat is acknowledged as successful although no body has run |
| `Idempotence.KeyExact` | src/chatsystem/service/chatservice.cpp:408-414 | Two requests share a key if and only if their msg_ids are equal and their from_ids agree modulo 2^32 |
| `IdempotenceEffects.AnsweredExact` | src/chatsystem/service/chatservice.cpp:286-311 | From any state, once a handler's cacheAck reaches Redis: every later request with its key and any kind, as long as neither key expires and its two commands are answered, gets exactly one reply, that acknowledgement from the cache, if and only if the key is still taken and no other handler of the key is on its way to a different acknowledgement |
| `IdempotenceEffects.AnsweredFromCache` | src/chatsystem/service/chatservice.cpp:414-423 | In every run in which the key has not expired by then that holds, so each such request is answered with the original's acknowledgement, byte for byte |
| `IdempotenceEffects.AcquireEffect` | src/chatsystem/service/chatservice.cpp:286-290 | The test at the entry, for each outcome of SET NX: where the request goes and what Redis has then |
| `IdempotenceEffects.LookUpEffect` | src/chatsystem/service/chatservice.cpp:290-311 | A duplicate, of every kind: exactly the cached acknowledgement if there is one and the command was answered; otherwise the in-flight one for a oneChat and nothing for the others |
| `IdempotenceEffects.BodyEffect` | src/chatsystem/service/chatservice.cpp:314-334 | The body is executed once and its acknowledgement is the one to be sent |
| `IdempotenceEffects.SendEffect` | src/chatsystem/service/chatservice.cpp:343-344 | It is sent to the requester |
| `IdempotenceEffects.CacheEffect` | src/chatsystem/service/chatservice.cpp:345-345 | Then it is what Redis has for the key, unless the command was lost |
| `IdempotenceEffects.OutsideEffect` | src/chatsystem/storage/RedisMgr.cpp:171-196 | A request arrives, or one of the two keys expires, and nothing else changes |
| `Idempotence.RedisMgr.TryAcquireDedup` | src/chatsystem/storage/RedisMgr.cpp:171-182 | True exactly when the command went through and the key was absent; the key is present afterwards unless the command was lost on the way |
| `Idempotence.RedisMgr.CacheAck` | src/chatsystem/storage/RedisMgr.cpp:184-196 | The acknowledgement is stored unless the command was lost on the way |
| `Idempotence.RedisMgr.GetCachedAck` | src/chatsystem/storage/RedisMgr.cpp:198-213 | A hit exactly when the command went through and the key is present, with the stored bytes |
| `Idempotence.ChatService.Entry` | src/chatsystem/service/chatservice.cpp:286-311 | A handler proceeds to its body exactly with the right to do so; a duplicate gets the reply of LookUpEffect at once, and no handler gets another |
| `Idempotence.ChatService.Complete` | src/chatsystem/service/chatservice.cpp:334-346 | Body, acknowledgement to the sender, then the cache write under the same key |
| `Codec.EncodeVarint` | tools/chat_stress.py:44-55 | The loop emits the base-128 digits of the value's low 64 bits |
| `Codec.DecodeVarint` | tools/chat_stress.py:58-70 | The loop reads the number whose digits start there, truncated to 64 bits, or reports a truncated varint |
| `Codec.Uint64RoundTrip` | tools/chat_stress.py:44-70 | Decoding inverts encoding for every 64-bit value, inside any surrounding bytes, and stops right behind it |
| `Codec.VarintRoundTrip` | tools/chat_stress.py:58-70 | Before truncation the same holds for every natural number |
| `Codec.VarintCut` | tools/chat_stress.py:62-64 | An encoding cut short anywhere is reported as truncated |
| `Codec.VarintBytes` | tools/chat_stress.py:44-55 | The encoding is the number's base-128 digits, least significant first, each but the last with its continuation bit, and no more digits than needed |
| `Codec.VarintAtBytes` | tools/chat_stress.py:58-70 | On any bytes, decoding reads the digits up to the first byte without a continuation bit, needed or not, and fails exactly when there is none |
| `Codec.FieldRoundTrip` | tools/chat_stress.py:76-85 | A varint or length-delimited field is read back as written, inside any surrounding bytes |
| `Codec.FieldsRoundTrip` | tools/chat_stress.py:171-200 | Every list of fields is read back in order, integers as unsigned 64-bit values |
| `Codec.FieldBytes` | tools/chat_stress.py:76-85 | The tag of a small field number is one byte, the number times 8 plus wire type 0 or 2; the value or the counted bytes follow |
| `Codec.FieldEffect` | tools/chat_stress.py:181-199 | On any bytes, by the tag's low three bits: a varint, a slice cut short at the end, 8 or 4 bytes skipped, or the end of the reading |
| `Codec.GroupExact` | tools/chat_stress.py:178-191 | The table has for each id exactly the values of the fields with it, in order |
| `Codec.FirstCounts` | tools/chat_stress.py:203-226 | The first field with an id decides: its value if it has the wanted wire type, otherwise the default |
| `Codec.DecodeScalarFields` | tools/chat_stress.py:171-200 | The loop builds the table that groups the fields found, in order, by id, and fails exactly when the scan meets a truncated varint |
| `Codec.ParseBaseMessage` | tools/chat_stress.py:229-234 | Type and payload are the first values of fields 1 and 2 when they have the expected wire type |
| `Codec.EnvelopeRoundTrip` | tools/chat_stress.py:156-164 | Parsing an encoded envelope returns its payload and its type modulo 2^64 |
| `Codec.EnvelopeBytes` | tools/chat_stress.py:156-164 | The envelope's bytes: 8, the type as a varint, 18, the length, the payload |
| `Codec.TrySplitMulti` | tools/chat_stress.py:285-300 | The loop returns the complete frames, or all the bytes as one when there is none |
| `Codec.FramesRoundTrip` | tools/chat_stress.py:285-300 | Every list of non-empty frames followed by an incomplete one is split back into that list |
| `Codec.FramesExact` | tools/chat_stress.py:285-300 | Any bytes are the frames found, framed again, followed by an incomplete frame, an empty one or nothing |
| `Codec.ServerToClient` | src/chatsystem/service/chatservice.cpp:11-21 | What the server's sendFrame writes for payloads of 1 to 2^32 - 1 bytes, the client's splitter recovers |
| `Codec.ClientToServer` | tools/chat_stress.py:156-165 | What the client frames, the server dispatches as one payload up to 16 MiB of envelope, and rejects for every larger one the header can describe |

## Left out

- Transport.EndToEndComplete: that everything is dispatched needs that no pass of the receiver meets 2^31 readable bytes, unless it ends at an invalid length (`Framing.ArriveKeepsReceived`). Nothing in the code ensures it: one read hands over at most the free tail of the buffer plus 65536 bytes, and the buffer grows with what it has held. In practice the socket's receive buffer bounds a read. `Transport.EndToEnd` does not need it.
- TimerQueue.ArmingTheorem: takes one clock for both. The source computes the delay from the system clock and arms a CLOCK_MONOTONIC timer with it; a system clock that is set in between moves the deadline against the expirations.
- TcpConnections.Drive: starts from a connection whose connectEstablished is posted; the inline case is the same run one step on, by `Reactor.EstablishedInline`.
- The TcpConnection class keeps its channel, with its poller and kernel entries, as a value; that a channel call acts on it as stated is the contract of the Channel and EpollPoller classes. Aliasing between the connection and the poller is not captured.
- The EventLoop class covers the loop thread, with the actions of other threads passed in for every point between two of its own; posting and quitting threads themselves exist as steps of the state machine.
- EventLoop's constructor and destructor; the model starts with the object made and `loop()` not yet entered, and enters it once.
- Timers live in a map from addresses to values; callbacks are given by what they add and cancel. The ordered set, the priority queue and the hash maps of the C++ library stand as ordered sequences, multisets and maps.
- Timer numbers are counted per queue; the source's counter is shared by all queues of the process, which only skips numbers.
- In `Reactor` a handler's or functor's post and its wakeup are one step; that other threads may act between the two is in `EventLoop`. Timers fire as handlers that call in.
- Conversion of a `double` interval to microseconds; the interval is a parameter. Errors of `timerfd_settime` are ignored as in the source.
- Reference counts: `Transport.HeldUntilDestroyed` and `Reactor.ReactorTheorem` say who holds a connection until it is destroyed; `tie`, `getSelf` and references kept by callbacks are not counted.
- TcpServer: the destructor, the choice of an IO loop and starting the thread pool. A connection's posted functors go to one loop.
- Write-complete and high-water-mark callbacks, `handleError` and logging; they change no modelled state.
- `Buffer::prepend`, which nothing calls and which leaves the reader index below the reserved prefix.
- Waiting itself (condition variables, `epoll_wait` timeouts) and the ScheduleLoop's exit in `SyncTimerQueue`; only completed waits are steps.
- The other SyncQueue variants, the thread pools and asynchronous logging.
- What a handler body does in MySQL, on other connections and through publish/subscribe; it is a step with an arbitrary acknowledgement. Login, online sets, offline messages and group management.
- Generated Protocol Buffers code; acceptor, socket and address wrappers; MySQL, OpenSSL and hiredis.
- Of `chat_stress.py`: the encoders of individual requests, string decoding from UTF-8, sockets, statistics and the command line.
