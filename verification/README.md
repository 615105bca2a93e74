# A verified model of the YATWB reactor

YATWB is a small reactor in the style of muduo: one event loop polls descriptors, dispatches channels, runs
queued functors and timers, and drives TCP connections through non-blocking reads and writes. This project models
its single-loop server and proves what the loop, the poller, the buffers, the timers and the connections keep over
every run.

## How it is built

Each component has a layer of values, where the properties are proved, and, where the source updates objects in
place, a layer of classes whose methods are proved equal to the functions of the value layer.

| file | models |
|---|---|
| `Buffers.dfy` | the gap buffer: class `Buffer` over an array, and what each operation does to contents and indices |
| `Polling.dfy` | classes `Channel` and `Poller`: dense array, descriptor map and back-indices as one simple map |
| `ConnectionSpec.dfy` | one connection on values: send, drain, half-close, close, destroy, and its invariant |
| `TcpServers.dfy` | classes `TcpConnection` and `TcpServer` over the real buffers, channels, poller and loop |
| `ServerSpec.dfy` | the whole single-loop server as a step machine |
| `ServerSafety.dfy`, `ServerTheorems.dfy` | its invariant, and the results about all runs |
| `Ledgers.dfy` | bookkeeping rules: what a user and the kernel see of connections, functors and reports, and nothing else |
| `ServerBooks.dfy`, `ServerRounds.dfy` | every run of the server keeps exactly these books; every channel reported is dispatched, every functor run, once and in order |
| `ServerDelivery.dfy` | what becomes of buffered output after a shutdown, in whole runs |
| `LoopProtocol.dfy` | the loop and the threads that queue into it, as interleaved atomic steps |
| `EventLoops.dfy` | class `EventLoop`: the queue, the wakeup counter, a batch of functors |
| `TimerSpec.dfy`, `TimerSafety.dfy` | timers on values, and the results about all histories |
| `TimerRequests.dfy` | the same in terms of the requests made |
| `TimerQueues.dfy` | classes `Timer` and `TimerQueue` |
| `Options.dfy` | an optional value; a device that keeps a definition folded in proofs |

The value layers never assume an assertion of the source: they record one that does not hold in a field `failed`, and
theorems say when that can happen. A class method requires what its own source asserts of its arguments, and proves
the assertions inside its body where the source states them.

User callbacks are arbitrary scripts of what user code can do in the loop thread: send or shut down on any
connection, queue functors, add timers. Kernel answers are arbitrary within the interface: a write fails or takes
any part of the request, a read delivers bytes, the end of the stream or an error, and poll() follows POSIX.1-2017,
System Interfaces, poll() (negative descriptors ignored, only requested or always-on conditions reported).

## What was found

* A peer that hangs up without input while the descriptor still counts as readable makes one dispatch close the
  connection twice, and the second close trips `assert(n == 1)` in `TcpServer::removeConnection`. It happens exactly
  when POLLHUP comes without POLLIN but with POLLPRI (or POLLRDHUP) and the read finds the end of the stream
  (`AssertionsHoldIff`, `DoubleCloseAborts`). No other assertion on the way of a connection can fail.
* After a connection was closed with output still buffered, and before it is destroyed, `shutdown()` shuts the write
  side down although accepted bytes were never sent, unless something was sent in between. On an open connection this
  cannot happen (`ShutdownLosesBytesIff`, `OnlyClosedConnectionsLoseBytes`). It does happen in a run from the initial
  state, where a peer hangs up and a timer due in the same dispatch phase shuts the connection down
  (`ShutdownAfterHangUpLosesBytes`).
* `doPendingFunctors` keeps the mutex while the functors run, although the comment above `queueInLoop` says functors
  may call it. As written, the loop thread gets stuck if and only if some functor does so (`StuckIffFunctorQueues`),
  it stays stuck (`StuckForGood`), and a run of 13 steps gets there (`FunctorQueuesAndIsStuck`). If the mutex is
  given back after the swap, as the comment presumes, every call of `queueInLoop` can always return
  (`CallCanReturnIff`).
* A functor that the loop thread queues before it calls `loop()` may not be looked at until poll returns for another
  reason or times out. That can happen exactly if all functors queued before `loop()` were queued by the loop thread
  and no other thread's quit has written to the wakeup descriptor (`LoopMaySleepIff`, `QueueBeforeLoopSleeps`). A
  request to quit made before `loop()` is forgotten: the loop ends exactly for one made since (`QuitHonouredIff`).
* `updateChannel` never unmutes an entry, so a channel that once dropped all interest is never polled again, whatever
  it asks for later (`MutedIffOnceEmptied`). The server relies on it: a send on a closed connection asks for
  writability again and is ignored.
* The timer comparator orders by time alone, which would make simultaneous timers collide and the assertion in
  `getExpired` fail on ties (`InsertableIff`, `BoundaryAssertionByTimeOnlyIff`). The model uses the order the all-ones
  sentry presumes, time and then identity.
* `Buffer::shrink` leaves the indices alone, so it keeps the contents exactly when the data already starts at offset 8
  (`ShrinkKeepsContentsIff`).

## Assumptions

* Single-loop configuration (no pool threads), which the loop-thread assertions on connection set-up and removal need.
* The fields the shown constructors leave unset (the loop's poller, wakeup descriptor, wakeup channel and functor
  flag, the channel's owner) are set as their uses require. The wakeup descriptor is a counter: a write adds one, a
  read zeroes it.
* accept(2) returns a descriptor that no registered channel uses.
* `addTimerInLoop` reads the timer after moving it; the model reads the value it had.
* `LoopProtocol` covers one call of `loop()`: its results about wakeups and quit say nothing of a second call after the
  first has returned.
* Buffer sizes, connection numbers, timer identities and times are unbounded integers.

## Model

| member | source | states |
|---|---|---|
| Buffers.ViewsAgree | src/include/buffer.h:45-49 | over any run of operations the window between the indices is as long as the plain byte sequence the operations describe |
| Buffers.EnsuredShape | src/include/buffer.h:146-166 | making room keeps the amount of readable data, leaves enough room, and grows the storage to no more than twice the coming content plus seven |
| Buffers.Buffer.PerformAll | src/include/buffer.h:28-166 | any sequence of operations on the real storage leaves exactly the contents, sizes and indices the two views say |
| Buffers.StepBound | src/include/buffer.h:94-166 | one operation leaves the storage as large as it was or at most twice the new content plus seven |
| Buffers.MemoryBound | src/include/buffer.h:146-166 | over every run, with reads from descriptors, the storage never exceeds the larger of 1032 and twice the largest content ever held plus seven |
| Buffers.MemoryBoundIsAttained | src/include/buffer.h:146-166 | for every peak above 1024 a run reaches that bound exactly |
| Buffers.ShrinkKeepsContentsIff | src/include/buffer.h:126-130 | shrink keeps every content if and only if the data starts at offset 8, or there is none and the indices fit |
| Buffers.Buffer.constructor | src/include/buffer.h:28-35 | a new buffer is empty with 8 bytes in front and 1024 behind |
| Buffers.Buffer.Retrieve | src/include/buffer.h:60-63 | drops exactly the first bytes of the contents |
| Buffers.Buffer.RetrieveAsString | src/include/buffer.h:84-88 | returns the whole contents and empties the buffer |
| Buffers.Buffer.Compact | src/include/buffer.h:153-165 | the overlapping copy down to offset 8, done in place, preserves the contents |
| Buffers.Buffer.MakeSpace | src/include/buffer.h:146-166 | grows or compacts without changing the contents; the assertion before compaction holds |
| Buffers.Buffer.EnsureWritableBytes | src/include/buffer.h:106-111 | afterwards there is room, the contents unchanged |
| Buffers.Buffer.Append | src/include/buffer.h:94-98 | the contents become the old ones followed by the data, whichever way room is made |
| Buffers.Buffer.Prepend | src/include/buffer.h:119-124 | the contents become the data followed by the old ones |
| Buffers.Buffer.ReadFd | src/buffer.cpp:10-35 | appends exactly the delivered bytes, for every count up to the tail plus 65536; on error leaves the buffer as it was and saves errno |
| Polling.MutedIffOnceEmptied | src/poller.cpp:65-74 | over any history of updates an entry is muted if and only if some update after the first had an empty mask, and it carries the last mask |
| Polling.EntriesAreDistinct | src/poller.cpp:43-74 | descriptors in the array are distinct, one entry for each registered one |
| Polling.AppendEntry | src/poller.cpp:47-56 | pushing an entry keeps array and positions in bijection and adds one unmuted registration |
| Polling.OverwriteEntry | src/poller.cpp:57-74 | overwriting an entry keeps the bijection and updates one registration |
| Polling.SwapOutEntry | src/poller.cpp:96-109 | swap with last and pop, with the moved position repaired, keeps the bijection even if the moved entry is muted, and deletes one registration |
| Polling.ReadyIndicesAreExact | src/poller.cpp:26-41 | the reported positions are exactly the entries with events, each once, in array order, as many as poll() counted |
| Polling.CountReadyUsedUp | src/poller.cpp:28-31 | once the count is used up no later entry has events |
| Polling.CallbacksAreDetermined | src/channel.cpp:27-54 | a sequence of callbacks is what a dispatch makes if and only if it holds each exactly for its bits (POLLHUP without POLLIN; POLLERR or POLLNVAL; POLLIN, POLLPRI or POLLRDHUP; POLLOUT), once, in the order close, error, read, write |
| Polling.Channel.HandleEvents | src/channel.cpp:27-54 | the method makes exactly those callbacks, each for its bits, and the handling flag is down afterwards |
| Polling.Channel.EnableReading | src/include/channel.h:57-60 | the mask gains POLLIN and POLLPRI and the registration follows it |
| Polling.Channel.EnableWriting | src/include/channel.h:63-66 | the mask gains POLLOUT and the registration follows it |
| Polling.Channel.DisableAllEvents | src/include/channel.h:78-81 | the mask becomes empty and the registration follows it |
| Polling.Poller.UpdateChannel | src/poller.cpp:43-75 | the three structures stay consistent and stand for the old map with one registration overwritten; no other entry moves |
| Polling.Poller.RemoveChannel | src/poller.cpp:82-110 | the three structures stay consistent and stand for the old map with one registration deleted; its assertions hold |
| Polling.Poller.FillActiveChannels | src/poller.cpp:26-41 | the early-stopping scan returns exactly the channels of the entries with events, in array order, never a muted one, each told its events, others untouched |
| Polling.Poller.Poll | src/poller.cpp:10-22 | the same for one poll() answer; every channel is told only what it asked for or an always-on condition |
| ConnectionSpec.EstablishKeeps | src/tcp_connection.cpp:132-139 | establishing a new connection makes it connected and watched for input |
| ConnectionSpec.WriteDirectlyConserves | src/tcp_connection.cpp:64-78 | what is written at once is the front of the message after everything sent before; a completion is queued only with nothing unsent |
| ConnectionSpec.SendKeeps | src/tcp_connection.cpp:47-96 | a send keeps the invariant under any answer of the kernel, and accepts the message if and only if the connection is connected |
| ConnectionSpec.ShutdownKeeps | src/tcp_connection.cpp:102-120 | a shutdown keeps the invariant and takes effect exactly on a connected connection |
| ConnectionSpec.HandleWriteKeeps | src/tcp_connection.cpp:163-191 | draining keeps the invariant: order of bytes, write interest exactly while output remains, the deferred shutdown at the end |
| ConnectionSpec.HandleCloseKeeps | src/tcp_connection.cpp:196-204 | closing an open connection leaves it registered but muted |
| ConnectionSpec.DestroyKeeps | src/tcp_connection.cpp:219-227 | the assertions of removeChannel hold whatever was sent after close, and the down callback's sends and shutdowns change nothing |
| ConnectionSpec.SendMeans | src/tcp_connection.cpp:57-96 | on an open connection with nothing waiting, what write() took of the message is sent and exactly the rest is buffered; otherwise, or if write() failed, all of it is buffered behind what is there |
| ConnectionSpec.HandleWriteMeans | src/tcp_connection.cpp:163-170 | draining sends exactly what write() took from the front of the buffer; a failed write moves nothing |
| ConnectionSpec.SendCompletesIff | src/tcp_connection.cpp:64-78 | on an open connection a send queues the completion exactly if there is a callback, nothing was waiting and the kernel took the whole message; then everything accepted is on the wire |
| ConnectionSpec.HandleWriteCompletesIff | src/tcp_connection.cpp:165-180 | draining queues it exactly if there is a callback and what was sent catches up with what was accepted |
| ConnectionSpec.ShutdownLosesBytesIff | src/tcp_connection.cpp:102-120 | after any sends, with or without a close before them, a shutdown cuts off accepted bytes if and only if the connection was closed with output left and nothing was sent since |
| ConnectionSpec.DeferredShutdownHappens | src/tcp_connection.cpp:163-181 | a deferred shutdown happens after at most as many successful writes as bytes are buffered, whatever failures come between, with everything sent |
| TcpServers.OwnScriptIsScript | src/tcp_connection.cpp:47-120 | a callback of any length does to the connection object and the functor queue what it does in the step machine of the server |
| TcpServers.TcpConnection.RunUser | src/tcp_connection.cpp:47-120 | a callback of any length amounts to the value script and queues exactly the functors the script says, in order |
| TcpServers.TcpConnection.SendInLoop | src/tcp_connection.cpp:57-96 | on the real buffer, channel and poller: exactly the send of the value model, a completion queued if and only if it says so, no other registration touched |
| TcpServers.TcpConnection.Shutdown | src/tcp_connection.cpp:102-120 | exactly the shutdown of the value model |
| TcpServers.TcpConnection.EstablishConnection | src/tcp_connection.cpp:132-139 | exactly the establishment of the value model followed by the up callback, with exactly the functors that callback queues |
| TcpServers.TcpConnection.HandleWrite | src/tcp_connection.cpp:163-191 | exactly the drain of the value model on the real buffer and poller |
| TcpServers.TcpConnection.HandleRead | src/tcp_connection.cpp:144-158 | the input buffer gains exactly the bytes read; data reaches the callback, and exactly what it queues is queued; the end of the stream closes; an error changes nothing |
| TcpServers.TcpConnection.HandleClose | src/tcp_connection.cpp:196-204 | exactly the close of the value model, the connection out of the server's map, its destruction queued |
| TcpServers.TcpConnection.DestroyConnection | src/tcp_connection.cpp:219-227 | whatever the down callback does, the channel leaves the poller, no assertion fails, and only functors the callback queues itself are queued |
| TcpServers.TcpServer.NewConnection | src/tcp_server.cpp:58-79 | a fresh connection under the next number, established, in the map; exactly what its up callback queues is queued; no other registration touched |
| TcpServers.TcpServer.RemoveConnection | src/tcp_server.cpp:81-89 | the connection leaves the map and its destruction is queued last |
| ServerSafety.StageMeansOnce | src/tcp_connection.cpp:132-227 | what a log of reports that never breaks the up, messages, down pattern means |
| ServerSafety.ScriptKeeps | src/tcp_connection.cpp:47-120 | arbitrary user code keeps the server's invariant and moves nothing but output sides and the functor queue |
| ServerSafety.CloseKeeps | src/tcp_server.cpp:81-89 | a close during dispatch keeps the invariant with exactly one destruction due |
| ServerSafety.InvokeAllKeepsIff | src/channel.cpp:27-54 | the callbacks of one dispatch violate an assertion if and only if they would close the connection twice |
| ServerSafety.DoubleCloseIff | src/channel.cpp:33-48 | that is the case exactly on POLLHUP without POLLIN, with POLLPRI or POLLRDHUP, when the read finds the end of the stream |
| ServerSafety.NewConnectionKeeps | src/tcp_server.cpp:58-79 | an accept keeps the invariant |
| ServerSafety.DestroyFunctorKeeps | src/tcp_connection.cpp:219-227 | a queued destruction keeps the invariant with any down callback |
| ServerTheorems.StepKeepsIff | src/event_loop.cpp:43-52 | every step of the loop keeps the invariant unless it is a double close |
| ServerTheorems.AssertionsHoldIff | src/tcp_server.cpp:81-89 | in every run, all assertions on the way of accept, read, write, close and destroy hold if and only if no dispatch is a double close |
| ServerTheorems.DoubleCloseAborts | src/channel.cpp:33-48 | a run in which it happens |
| ServerTheorems.NoDanglingChannel | src/poller.cpp:77-81 | in every run, every connection the poller still points to is held by the server's map or by a queued or running functor |
| ServerTheorems.ActiveChannelsStayRegistered | src/event_loop.cpp:43-52 | in every run, between any two steps of a dispatch phase, every active channel is registered and its connection alive, and those not yet dispatched are open |
| ServerTheorems.ActiveChannelsStayRegisteredWithin | src/channel.cpp:27-54 | the same between any two callbacks of one dispatch |
| ServerTheorems.OpenConnectionsAreWatched | src/tcp_connection.cpp:64-95 | at every point from establishment to close: registered, unmuted, read interest on, write interest on exactly while output is buffered |
| ServerTheorems.BeforeEveryPoll | src/event_loop.cpp:43-52 | before every poll the open connections are exactly those in the map and the poller, and every closed one is down and unregistered |
| ServerTheorems.ReportedUpOnceAndDownOnce | src/tcp_connection.cpp:132-227 | in every run each connection is reported up once, down at most once and exactly if disconnected, messages strictly between |
| ServerTheorems.DispatchOutcome | src/channel.cpp:27-54 | in every run, one dispatch reports a message exactly if POLLIN, POLLPRI or POLLRDHUP was set and data was read, and closes exactly on POLLHUP without POLLIN or on the end of the stream, with the destruction then queued |
| ServerTheorems.CompletionsRunOnce | src/tcp_connection.cpp:64-181 | in every run, each write-complete callback asked for is pending, in the batch, or has been run, exactly once |
| ServerTheorems.ConnectionsOnlyAdvance | src/tcp_connection.cpp:47-227 | states move only forward; bytes accepted and sent are never taken back; nothing is accepted after shutdown, nothing sent after the write side is shut down |
| ServerTheorems.BytesAreConserved | src/tcp_connection.cpp:57-191 | in every run, sent followed by buffered equals accepted, in order; completions are queued with nothing unsent; at most one shutdown of the write side, before close only with everything sent |
| ServerBooks.ServerKeepsItsBooks | src/event_loop.cpp:43-52 | in every run, connections, functor queue, reports and numbering are exactly what simple bookkeeping rules, without buffers, masks or batches, make of the events of the run: every call in every callback takes effect, in order, with the kernel's own answers, and nothing else does |
| ServerBooks.SendsTakeEffect | src/tcp_connection.cpp:47-153 | in every run a connection has accepted exactly the messages sent on it while connected, in order, wherever the calls were made |
| ServerBooks.RequestsAreQueued | src/event_loop.cpp:95-125 | in every run the functors asked for by callbacks and other threads are queued once each, in order |
| ServerBooks.FullWriteIsReported | src/tcp_server.cpp:58-79 | a message written whole in the up callback of a new connection queues a write-complete callback exactly if the server has one |
| Ledgers.AcceptedIsWhatWasSent | src/tcp_connection.cpp:47-96 | by the rules of the books, what is accepted on a connection is the concatenation of the messages sent while it was connected |
| Ledgers.UsersAreQueuedInOrder | src/event_loop.cpp:95-97 | by the rules of the books, the user's functors in the queue are those asked for, in order |
| ServerRounds.EveryAnswerIsDispatched | src/event_loop.cpp:43-51 | from a poll to the swap the n-th dispatch is of the n-th channel of the answer, with its events, and the swap comes exactly after the last |
| ServerRounds.FunctorsRunInQueueOrder | src/event_loop.cpp:114-125 | in every run the functors run are the first of those ever queued, in queue order, one a step |
| ServerRounds.LoopGoesOn | src/event_loop.cpp:43-52 | after every run the loop can go on, whatever the kernel answers and the callbacks do |
| ServerDelivery.DeferredShutdownHappens | src/tcp_connection.cpp:163-181 | in every run, whatever else happens in between, a deferred shutdown has happened with everything sent once as many dispatches drained output as bytes were buffered, unless the connection was closed first |
| ServerDelivery.OnlyClosedConnectionsLoseBytes | src/tcp_connection.cpp:114-120 | in every run a shutdown can cut off bytes only of a closed connection that awaits its destruction, never before a poll |
| ServerDelivery.ShutdownAfterHangUpLosesBytes | src/tcp_connection.cpp:102-120 | a run from the initial state in which it does, for any message |
| LoopProtocol.FunctorsRunOnceInOrder | src/event_loop.cpp:95-125 | in every interleaving, executed, then the rest of the batch, then pending is the whole queueing history; the mutex has one holder |
| LoopProtocol.BatchRunsWhatWasPending | src/event_loop.cpp:114-125 | one batch runs exactly what was pending at its swap, and what was queued meanwhile is pending afterwards |
| LoopProtocol.BatchIsBounded | src/event_loop.cpp:121-123 | a batch runs no more functors than the swap took, whatever they queue |
| LoopProtocol.NoLostWakeup | src/event_loop.cpp:95-125 | after any swap, in every interleaving, pending work while the loop is not dispatching means a non-zero wakeup counter or a writer about to raise it |
| LoopProtocol.NoLostQuit | src/event_loop.cpp:127-134 | in poll, a quit requested after the start means a non-zero wakeup counter or the requester's write still to come |
| LoopProtocol.NoLostWakeupFromStart | src/event_loop.cpp:37-45 | the same from the start of the loop, if pending work is covered when it starts |
| LoopProtocol.LoopMaySleepIff | src/event_loop.cpp:37-45 | whatever calls were made before, some continuation sleeps in poll on pending work if and only if functors were queued, all by the loop thread, and no other thread's quit raised the counter |
| LoopProtocol.QueueBeforeLoopSleeps | src/event_loop.cpp:95-112 | a run: the loop thread queues before the start |
| LoopProtocol.QuitHonouredIff | src/event_loop.cpp:37-55 | in every interleaving a test of quit_ ends the loop if and only if quit() has been called since loop() was |
| LoopProtocol.CounterCountsWakeups | src/event_loop.cpp:71-85 | in every interleaving the counter is the number of writes since it was last read, and the wakeup channel is dispatched exactly if there were some |
| LoopProtocol.StuckIffFunctorQueues | src/event_loop.cpp:103-125 | in every run of the code as written the loop thread is stuck if and only if a functor has called queueInLoop |
| LoopProtocol.StuckForGood | src/event_loop.cpp:114-125 | once a functor has called queueInLoop under the mutex, in no continuation does the batch end, a functor run, or any thread queue one |
| LoopProtocol.FunctorQueuesAndIsStuck | src/event_loop.cpp:114-125 | a run of 13 steps that gets stuck |
| LoopProtocol.CallCanReturnIff | src/event_loop.cpp:95-125 | with the mutex held over the batch or not, a waiting call of queueInLoop can go on to return if and only if no functor has queued under the mutex |
| EventLoops.EventLoop.PollOnce | src/event_loop.cpp:43-46 | the active list is exactly the channels of the entries the kernel reported something for, in array order, each once and told that, empty if poll() failed; and it is an answer the step machine of the server allows |
| EventLoops.EventLoop.QueueInLoop | src/event_loop.cpp:95-112 | one functor queued last; the counter raised from another thread or while functors run, and only then |
| EventLoops.EventLoop.RunInLoop | src/event_loop.cpp:87-93 | at once in the loop thread, queued with a wakeup otherwise |
| EventLoops.EventLoop.DoPendingFunctors | src/event_loop.cpp:114-125 | runs exactly what was pending, in order; what is queued meanwhile is pending afterwards, each with a wakeup |
| EventLoops.EventLoop.Quit | src/event_loop.cpp:127-134 | the flag set, and a wakeup from another thread |
| TimerSpec.InsertedIsSorted | src/timer_queue.cpp:137-148 | inserting a timer that collides with none keeps the set ordered |
| TimerSpec.InsertableIff | src/include/timer_queue.h:23-29 | timers collide only if equal in time and identity; ordered by time alone, whenever they are due at one time |
| TimerSpec.GetExpiredSplits | src/timer_queue.cpp:103-114 | the sentry splits the set exactly: due now or earlier, ties included, and strictly later; the boundary assertion holds |
| TimerSpec.BoundaryAssertionByTimeOnlyIff | src/include/timer_queue.h:23-29 | ordered by time alone that assertion holds if and only if no timer is due exactly now |
| TimerSafety.AssertionsHold | src/timer_queue.cpp:103-148 | in every history the assertions of insert and getExpired hold |
| TimerSafety.EachTimerIsAccountedFor | src/timer_queue.cpp:88-135 | in every history a one-shot timer is pending or has run, once, a repeating one is pending one interval after its last run, and none ran early |
| TimerRequests.RequestsBecomeTimers | src/timer_queue.cpp:71-86 | in every history the timers added are exactly those asked for, by callers and by the callbacks that were run, in order, each with the time and interval of its request |
| TimerRequests.EachRequestIsAccountedFor | src/timer_queue.cpp:88-135 | in every history each request is waiting or was run as it asks: once, or again one interval after every run, never early |
| TimerSafety.HandleReadRunsWhatIsDue | src/timer_queue.cpp:88-101 | one alarm runs exactly the timers due when the clock was read, in order of time, each once, none that the callbacks add |
| TimerSafety.KernelTimerTracksMinimum | src/timer_queue.cpp:78-135 | after every completed operation of every history the kernel timer was last armed for the earliest time, even if callbacks added timers in between |
| TimerSafety.ArmsNeverEarly | src/timer_queue.cpp:22-34 | the relative time is a valid timespec, never ends before the timer's time, exactly at it when that is 100 microseconds ahead, never more than 100 late |
| TimerSafety.ExpiryRunsSomething | src/timer_queue.cpp:88-101 | when the kernel timer goes off at or after its time, the earliest timer is run first |
| TimerQueues.Timer.Restart | src/include/timer.h:28-34 | a repeating timer is due one interval from now, any other gets the invalid time |
| TimerQueues.TimerQueue.Insert | src/timer_queue.cpp:137-148 | the timer is put in its place and reported earliest exactly if it comes before all others |
| TimerQueues.TimerQueue.AddTimerInLoop | src/timer_queue.cpp:78-86 | exactly the addition of the value model, also while an alarm is being handled |
| TimerQueues.TimerQueue.GetExpired | src/timer_queue.cpp:103-114 | takes out exactly the timers due, its assertion proved |
| TimerQueues.TimerQueue.Reset | src/timer_queue.cpp:116-135 | exactly the reinsertion and rearming of the value model |
| TimerQueues.TimerQueue.HandleRead | src/timer_queue.cpp:88-101 | exactly the alarm of the value model, with callbacks that add timers |

## Left out

- Thread pool, thread start-up, latch: the server is modelled in its single-loop configuration.
- Sends and shutdowns called from other threads: a queued `sendInLoop` may run after the state has moved on; only the functor queue is modelled across threads.
- Sockets, addresses, acceptor internals, logging, the example program: kernel results are parameters.
- `TimerQueue::cancel`, `TcpServer::removeConnectionInLoop`: declared in the source but not defined.
- The imperative form of `EventLoop::loop`: its rounds are steps of `ServerSpec` and `LoopProtocol`, where other threads can run in between.
- TcpServers.TcpConnection.RunUser: a callback acts on its own connection and the functor queue only; callbacks that act on any connection are in `ServerSpec`, over the same value functions. The next four contracts share this.
- TcpServers.TcpConnection.EstablishConnection: the up callback acts on its own connection and the functor queue only.
- TcpServers.TcpConnection.HandleRead: the message callback acts on its own connection and the functor queue only.
- TcpServers.TcpConnection.DestroyConnection: the down callback acts on its own connection and the functor queue only.
- TcpServers.TcpServer.NewConnection: the up callback acts on the new connection and the functor queue only.
- A second call of `loop()` after the first has returned.
- The input buffer in `ServerSpec`: what a user takes out of it; `TcpServers.TcpConnection.HandleRead` says what is put in.
- Running a write-complete callback after the connection went down: it is queued and run as a functor, but not part of the reports that are ordered.
- Floating-point intervals, differences between the wall clock and the monotonic clock, destructors at process end.
- Buffers.ShrinkKeepsContentsIff: states when shrink is right on values; shrink is not a method of the class, since the operation as written breaks the class's invariant.
- Wrap-around of descriptor numbers, connection numbers, sizes and times at machine width.
- Overflow of the wakeup counter, which would block its writer.
