# Verified model of simplev

simplev is a reactor-style TCP library on libev. This project models its
connection life cycle over many loops, the outgoing byte stream of a connection,
the event loop's functor queue and wakeups, the retrying connector with its client,
timers, the bounded queue and the mutex wrapper, the byte buffer and the log
stream, and proves what holds of them in every run. `dafny verify dfyconfig.toml`
checks everything.

How it is laid out:

| component | state machine | theorems | the code, as classes |
|---|---|---|---|
| TcpServer, connection life cycle | `ServerSpec.dfy` | `ServerProofs.dfy`, `ServerProgress.dfy` | `TcpServer.dfy` |
| TcpConnection, output path | `OutputSpec.dfy` | `OutputProofs.dfy`, `ShutdownProofs.dfy` | `TcpConnection.dfy` |
| EventLoop | `LoopSpec.dfy` | `LoopProofs.dfy` | `EventLoop.dfy` |
| Connector, TcpClient | `ConnectorSpec.dfy` | `ConnectorProofs.dfy`, `ConnectorContract.dfy`, `ConnectorTheorems.dfy`, `ConnectorOutcomes.dfy` | `Connector.dfy` |
| TimerQueue, Timer | `TimerSpec.dfy` | `TimerProofs.dfy` | `TimerQueue.dfy` |
| BoundedBlockingQueue | `QueueSpec.dfy` | `QueueProofs.dfy` | `BoundedBlockingQueue.dfy` |
| MutexLock, Condition | `Mutex.dfy` | `Mutex.dfy` | `Mutex.dfy` |
| Buffer | `Buffer.dfy` | `Buffer.dfy` | `Buffer.dfy` |
| LogStream, FixedBuffer | `Formatting.dfy` | `Formatting.dfy`, `LogStream.dfy` | `LogStream.dfy` |

Each concurrent component is a state machine: `Enabled` says when a step can
happen, `Next` what it does, `Legal` and `Run` are runs of any length from `Init`.
Theorems speak of every legal run. The classes hold the same state in fields, with
the source's asserts in the method bodies, and each method is proved to do exactly
the machine's step, so the theorems are about the code. Beside the invariants, each
machine has laws that are told from the steps alone, from what was called, what the
socket answered and which errno came back, and not from the handlers' own log or
state: `SocketTook`, `AsAsked`, `ReadableExact`, `ConnectBranches`, `HandoverExact`,
`RunningExact` and their neighbours.

Kernel and libev are the environment: a write takes any prefix or fails, a readv
returns any amount up to its two areas, an event is delivered only for interest the
watcher has, a stopped watcher has no event left, and only what was watched or
armed before a poll is ready after it.

Where the code and what it says of itself differ:

- `TcpConnection::send` and `shutdown` are marked thread safe
  (`simplev/src/simplev/net/TcpConnection.h:63-66`). Called from another thread, a
  shutdown can overtake the sends before it (`ForeignShutdownOvertakes`) and
  half-close twice (`HalfClosesTwice`); and a send that has looked at the state before
  a shutdown of the loop thread can be written after its half-close
  (`LateSendOvertakes`). `ShutdownExact` says exactly what a shutdown needs when it is
  called; what holds whatever thread calls is `HalfCloseDrained`.
- `queueInLoop` runs a callback in the loop thread and wakes the loop for it
  (`simplev/src/simplev/net/EventLoop.h:73-77`). Not if the loop's thread calls it while
  the functors it has just run are destroyed: the flag that asks for the wakeup has
  fallen already (`simplev/src/simplev/net/EventLoop.cc:154-155`). `LostWakeup` gives the
  run, `LatePushExact` and `Served` the exact conditions.
- `TimerQueue::addTimer`, `EventLoop::runAfter` and `runEvery` are marked thread safe
  (`simplev/src/simplev/net/TimerQueue.h:31`, `simplev/src/simplev/net/EventLoop.h:61-64`).
  Off the loop's thread the timer's number is read after the timer was posted
  (`simplev/src/simplev/net/TimerQueue.cc:40-41`), when a one-shot timer may be gone
  (`FreedRead`) or another one live in its place (`WrongId`). `AddExact` says exactly
  which calls are safe.
- A comment promises that pending functors are run after the last iteration
  (`simplev/src/simplev/net/EventLoop.cc:113`). `QuitStops` says which are: all but
  those queued after the last batch was swapped.
- `Connector::start` and `stop` can be called in any thread
  (`simplev/src/simplev/net/Connector.h:39-41`), and nothing says when. Stops are
  allowed at any time here. For a start, `ConnectorSpec.MayStart` is the contract
  and `StartExact` shows that it is the weakest one: in a run that has kept to it so
  far, a start it rules out breaks an assert in some continuation. On both threads
  it asks for a disconnected connector, no start queued or on its way to the queue,
  no retry timer left that can still fire, no stop() that has lowered `connect_` but
  not yet queued stopInLoop, and, for a client that retries, no stop() that has yet
  to lower `connect_`. A stop() that only has its timer left to cancel does no harm.
  On the loop thread, where start connects at once, the old channel must be gone and
  no stopInLoop queued; on another thread both may still be queued, since they run
  before the new startInLoop. A connection that closes without a restart leaves
  `state_` at kConnected, from where a start is ruled out (`ConnectAgain`).
- `FixedBuffer::append` takes an `int` length, but `operator<<` passes it `strlen` and
  `size()` (`simplev/src/simplev/base/LogStream.h:136-152`). `OneByteFree` and
  `WholeExact` say exactly which texts that spoils, `LongTexts` gives two.
- `TimerQueue::cancel` is marked thread safe
  (`simplev/src/simplev/net/TimerQueue.h:35-36`). On the loop thread it has no effect
  on a timer whose add another thread still has in the queue; `CancelExact` says so
  as an equivalence.
- `Buffer::shrink` leaves the indices behind; `ShrinkExact` gives the exact condition
  under which it is faithful.

## Model

| member | source | states |
|---|---|---|
| `ServerProofs.NoAssertFails` | simplev/src/simplev/net/TcpServer.cc:58-111 | in every interleaving of any number of loops and connections, with requests of other threads queued however late, the asserts of connectEstablished, handleClose, connectDestroyed and `n == 1` hold, each handler runs on its own loop, no freed connection is touched and no channel dies while it handles an event |
| `ServerProofs.LifeCycle` | simplev/src/simplev/net/TcpServer.cc:93-110 | each accepted connection is established, closed, erased and destroyed at most once each, in that order; between them it holds exactly one token: its establish, remove or destroy functor queued exactly once, at the stage that calls for it and at no other |
| `ServerProofs.MapMembership` | simplev/src/simplev/net/TcpServer.cc:85-108 | a connection is in the map exactly while its establish functor is queued, it is live, or its remove functor is queued |
| `ServerProofs.ReleasedOnlyWhenDone` | simplev/src/simplev/net/Channel.cc:30-34 | when neither the map nor a queued functor refers to a connection any more, its whole life is over, its channel is unwatched and no loop is dispatching an event of it |
| `ServerProofs.PlacedExact` | simplev/src/simplev/net/TcpServer.cc:82-94 | over any run the c-th accepted connection is on the loop it was given and never leaves it, is released by its release and nothing else, and between establishment and destruction is disconnecting exactly if some shutdown found it connected |
| `ServerProofs.WritingExact` | simplev/src/simplev/net/TcpConnection.cc:106-248 | at each step of any run a connection has write interest afterwards if and only if the step left a write over, a request that runs after the close included, or it had it before and the step did not drain, close or destroy it |
| `ServerProofs.RequestsConserved` | simplev/src/simplev/net/TcpConnection.cc:170-178 | over any run every send or shutdown of another thread that got past its look at the state is still on its way, queued, or run, once |
| `ServerProofs.KeepsNext` | simplev/src/simplev/net/TcpServer.cc:58-111 | every handler, callback and foreign call keeps the token invariant behind the results above |
| `ServerProgress.LivesEnd` | simplev/src/simplev/net/TcpServer.cc:93-111 | from any reachable state the loops' own moves, finishing what they dispatch and running functors, empty all queues; every connection that has closed is erased and destroyed by then, every other one established and in the map |
| `ServerProgress.FunctorWorks` | simplev/src/simplev/net/EventLoop.cc:140-155 | each functor a loop runs leaves less work queued, the destroy functor a removal adds included |
| `Servers.TcpServer.NewConnection` | simplev/src/simplev/net/TcpServer.cc:82-94 | accepting numbers the connection, puts it on the loop that was picked and into the map, and establishes it at once on the base loop or posts that to the I/O loop; nothing else changes |
| `Servers.TcpServer.RemoveConnectionInLoop` | simplev/src/simplev/net/TcpServer.cc:102-111 | erases the one map entry (the assert on n is discharged) and posts connectDestroyed to the I/O loop |
| `Servers.TcpServer.HandleClose` | simplev/src/simplev/net/TcpConnection.cc:89-97 | the close handler with its close callback: asserts discharged, removal run at once on the base loop or posted to it |
| `Servers.TcpServer.ConnectEstablished` | simplev/src/simplev/net/TcpConnection.cc:59-66 | requires and asserts kConnecting, turns the connection live |
| `Servers.TcpServer.ConnectDestroyed` | simplev/src/simplev/net/TcpConnection.cc:148-158 | asserts the state and an empty interest mask before the channel is removed |
| `Servers.TcpServer.RunFunctor` | simplev/src/simplev/net/EventLoop.cc:140-155 | running the oldest functor of a loop in any state satisfying the invariant meets every assert on the way and keeps the invariant |
| `OutputProofs.ByteStream` | simplev/src/simplev/net/TcpConnection.cc:106-146 | in every reachable state the wire of the log followed by the output buffer is exactly the messages sendInLoop took, in order; a message hit by EPIPE or ECONNRESET on the direct write is absent whole; `SocketTook` ties that wire to what the socket's write calls reported |
| `OutputProofs.SocketTook` | simplev/src/simplev/net/TcpConnection.cc:187-247 | over any run, the bytes that the write calls report as written, of what each was given, followed by the buffer, are the messages sendInLoop took, each byte once and in order; so after a partial direct write only the rest is buffered |
| `OutputProofs.AsAsked` | simplev/src/simplev/net/TcpConnection.cc:59-263 | over any run, told from the calls alone: the state is what establishment, shutdowns and destruction made of it, a connection that is up is read from until the peer closes, requests of other threads run in the order queued and once each, and a send of another thread gets past its check exactly when the connection is connected |
| `OutputProofs.WriteInterest` | simplev/src/simplev/net/TcpConnection.cc:211-247 | write interest always means waiting bytes; until the close the converse holds too |
| `OutputProofs.NotificationsExact` | simplev/src/simplev/net/TcpConnection.cc:187-241 | an entry of the log is a write-complete or high-water callback exactly when the entry before it made that very callback due, told from the bytes accepted and written alone |
| `OutputProofs.WriteCompleteMeansDrained` | simplev/src/simplev/net/TcpConnection.cc:115-122 | a write-complete callback is queued only when every accepted byte is on the wire |
| `OutputProofs.HighWaterMeansCrossing` | simplev/src/simplev/net/TcpConnection.cc:235-241 | a high-water callback marks an upward crossing of the mark by buffering and reports the level reached |
| `OutputProofs.HighWaterSeparated` | simplev/src/simplev/net/TcpConnection.cc:235-241 | two high-water callbacks are always separated by a time below the mark |
| `ShutdownProofs.HalfCloseDrained` | simplev/src/simplev/net/TcpConnection.cc:106-178 | in every run, whatever thread calls: all accepted bytes are on the wire before a half-close unless the connection was closed by then; once disconnecting with an empty buffer and no shutdown queued or on its way to the queue it has happened |
| `ShutdownProofs.ShutdownLeaves` | simplev/src/simplev/net/TcpConnection.cc:160-178 | a loop-thread shutdown half-closes at once exactly without write interest, and leaves bytes off the wire exactly when the buffer still holds some without write interest; they are the buffer |
| `ShutdownProofs.LastWriteExact` | simplev/src/simplev/net/TcpConnection.cc:250-263 | where a half-close happens, nothing is sent or flushed from then on in any continuation if and only if no send request is queued and no thread is inside send past its check of the state |
| `ShutdownProofs.NoneAfterExact` | simplev/src/simplev/net/TcpConnection.cc:106-178 | a disconnecting connection writes nothing after a half-close in any continuation if and only if no send, queued or on its way to the queue, can come behind a half-close done or possible |
| `ShutdownProofs.HalfClosesExact` | simplev/src/simplev/net/TcpConnection.cc:160-178 | the most half-closes any continuation of a disconnecting connection can show is those done, plus one for write interest, one for each shutdown queued or on its way there and one for each such send that is not empty; some continuation shows that many |
| `ShutdownProofs.ShutdownExact` | simplev/src/simplev/net/TcpConnection.cc:170-178 | what shutdown needs when it is called, on the loop thread or another, as two equivalences over all continuations: for no write after a half-close, and for at most one half-close, told from the request queue, the senders past their check of the state, and the write interest |
| `ShutdownProofs.GracefulShutdown` | simplev/src/simplev/net/TcpConnection.cc:160-178 | with send and shutdown on the loop thread alone: at most one half-close and no write after it |
| `ShutdownProofs.CloseThenShutdown` | simplev/src/simplev/net/TcpConnection.cc:170-178 | a run in which a shutdown between close and destruction half-closes over an unsent byte |
| `ShutdownProofs.ForeignShutdownOvertakes` | simplev/src/simplev/net/TcpConnection.h:63-66 | a run in which another thread's send is written after the half-close of its own later shutdown, although both calls are documented as thread safe |
| `ShutdownProofs.HalfClosesTwice` | simplev/src/simplev/net/TcpConnection.h:63-66 | a run in which another thread's shutdown alone half-closes twice, by the drain and by its own request |
| `ShutdownProofs.LateSendOvertakes` | simplev/src/simplev/net/TcpConnection.cc:250-263 | a run in which another thread's send passes its check of the state, the loop thread's shutdown half-closes, and the message is then queued and written |
| `OutputProofs.KeepsNext` | simplev/src/simplev/net/TcpConnection.cc:59-263 | every step keeps stream, write interest and notification record in agreement |
| `ShutdownProofs.SettledNext` | simplev/src/simplev/net/TcpConnection.cc:59-263 | every step, on any thread, keeps the half-close facts |
| `Connections.TcpConnection.SendInLoop` | simplev/src/simplev/net/TcpConnection.cc:180-248 | the state machine's step, which `SocketTook` pins; the buffer afterwards is told from the write's answer: the rest of a partial direct write, nothing of a broken one, the whole message when nothing was tried or taken, behind what was there |
| `Connections.TcpConnection.HandleWrite` | simplev/src/simplev/net/TcpConnection.cc:106-146 | writes what the socket takes, drops it from the buffer, and on a drain lowers interest, queues write-complete and does the deferred half-close |
| `Connections.TcpConnection.Shutdown` | simplev/src/simplev/net/TcpConnection.cc:170-178 | the state guard and the change of state, with the half-close at once on the loop thread |
| `Connections.TcpConnection.QueueShutdown` | simplev/src/simplev/net/TcpConnection.cc:170-178 | the rest of a shutdown on another thread: the request is queued |
| `Connections.TcpConnection.ShutdownInLoop` | simplev/src/simplev/net/TcpConnection.cc:160-168 | half-closes exactly when there is no write interest |
| `Connections.TcpConnection.Send` | simplev/src/simplev/net/TcpConnection.cc:250-263 | sends only in kConnected: at once on the loop thread, else the message is past the check and on its way to the queue |
| `Connections.TcpConnection.QueueSend` | simplev/src/simplev/net/TcpConnection.cc:250-263 | the rest of a send on another thread: the message is queued whatever the state is by now |
| `Connections.TcpConnection.RunRequest` | simplev/src/simplev/net/TcpConnection.cc:250-263 | a queued send or shutdown runs later without a new look at the state |
| `Connections.TcpConnection.ConnectEstablished` | simplev/src/simplev/net/TcpConnection.cc:59-66 | the assert on kConnecting; connected and reading afterwards |
| `Connections.TcpConnection.HandleRead` | simplev/src/simplev/net/TcpConnection.cc:68-86 | received bytes are appended to the input buffer, an empty read closes, an error changes nothing |
| `Connections.TcpConnection.HandleClose` | simplev/src/simplev/net/TcpConnection.cc:89-97 | the state assert holds whenever the read callback can get here; no interest is left |
| `Connections.TcpConnection.ConnectDestroyed` | simplev/src/simplev/net/TcpConnection.cc:148-158 | both asserts hold, the watcher is stopped |
| `Connections.TcpConnection.HandleEvent` | simplev/src/simplev/net/Channel.cc:36-63 | read callback first, then write callback, even after a close in the same dispatch; the invariant survives |
| `Connections.Channel.Remove` | simplev/src/simplev/net/Channel.cc:82-92 | needs an empty interest mask, stops the watcher |
| `LoopProofs.NoLostWakeup` | simplev/src/simplev/net/EventLoop.cc:109-168 | with functors pending while a swapped batch runs, the eventfd is readable or a thread is between its push and its wakeup; as long as the loop's thread has queued nothing while a batch was destroyed, also after the batch and in poll; with quit set, in poll, in every run |
| `LoopProofs.LatePushExact` | simplev/src/simplev/net/EventLoop.cc:150-168 | what the loop's thread queues between the fall of callingPendingFunctors_ and the poll, from destructors of the swapped functors, is covered in poll if and only if the eventfd was readable before or another thread is about to make it so |
| `LoopProofs.LostWakeup` | simplev/src/simplev/net/EventLoop.cc:150-168 | a run in which such a push leaves the loop in poll with a functor pending, nothing readable and nobody about to wake it |
| `LoopProofs.Conservation` | simplev/src/simplev/net/EventLoop.cc:140-168 | functors queued are those run, then the rest of the batch, then the pending ones, as sequences |
| `LoopProofs.ReadableExact` | simplev/src/simplev/net/EventLoop.cc:120-138 | over any run the eventfd is readable if and only if some wakeup was written after the last handleRead, or since the start if there was none; so a loop that nobody wakes again sleeps in poll |
| `LoopProofs.QueuedExact` | simplev/src/simplev/net/EventLoop.cc:140-211 | the functors run, in the batch and pending are exactly those the steps pushed, in order; quit_ is set exactly once some quit has set it |
| `LoopProofs.ProducerOrder` | simplev/src/simplev/net/EventLoop.cc:140-168 | each thread's functors run in the order that thread queued them |
| `LoopProofs.Served` | simplev/src/simplev/net/EventLoop.cc:109-180 | from a reachable state without quit and without a thread half way through queueInLoop, the loop's own moves, woken by the eventfd alone, can run every functor queued so far if and only if the loop is not past its batch with functors pending and the eventfd unreadable; that never happens without a push while a batch was destroyed |
| `LoopProofs.QuitStops` | simplev/src/simplev/net/EventLoop.cc:109-118 | quit stops the loop unaided from any reachable state in which no thread stands between setting quit_ and its wakeup; everything queued is run first except, exactly, what is queued after the last batch was swapped |
| `LoopProofs.KeepsNext` | simplev/src/simplev/net/EventLoop.cc:109-211 | each step of the protocol keeps the wakeup and conservation invariant |
| `EventLoops.EventLoop.QueueInLoop` | simplev/src/simplev/net/EventLoop.cc:157-168 | appends one functor; a foreign thread, or the loop's own during a batch, leaves the eventfd readable |
| `EventLoops.EventLoop.HandleRead` | simplev/src/simplev/net/EventLoop.cc:120-128 | reads the counter down to 0 |
| `EventLoops.EventLoop.DoPendingFunctors` | simplev/src/simplev/net/EventLoop.cc:140-155 | runs exactly the swapped functors in order and terminates whatever is queued meanwhile, also while they are destroyed; the arrivals are pending afterwards, in order, and those of the batch and of other threads have left the eventfd readable |
| `EventLoops.EventLoop.PrepareCallBack` | simplev/src/simplev/net/EventLoop.cc:109-118 | drains once, leaves the loop exactly when quit is set, and otherwise polls, with the eventfd readable if anything arrived during the batch or from another thread |
| `EventLoops.EventLoop.Quit` | simplev/src/simplev/net/EventLoop.cc:204-211 | quit from another thread leaves the eventfd readable |
| `EventLoops.EventLoop.Wakeup` | simplev/src/simplev/net/EventLoop.cc:130-138 | the counter goes up by one, or stays at 0xfffffffffffffffe when it is full |
| `QueueProofs.Fifo` | simplev/src/simplev/base/BoundedBlockingQueue.h:33-57 | with any number of threads, barging and spurious wakeups: never more than the capacity, takes are a prefix of puts, the rest is the queue, and neither assert fails |
| `QueueProofs.NoLostSignal` | simplev/src/simplev/base/BoundedBlockingQueue.h:36-55 | with the mutex free, waiting takers imply no more items than signalled takers, waiting putters no more free places than signalled putters |
| `QueueProofs.NoDeadlock` | simplev/src/simplev/base/BoundedBlockingQueue.h:33-57 | with a positive capacity putters and takers are never all asleep together |
| `QueueProofs.SleepIsJustified` | simplev/src/simplev/base/BoundedBlockingQueue.h:33-57 | if every thread inside a call sleeps, the queue has no item for each taker that sleeps and is at its capacity for each putter |
| `QueueProofs.KeepsNext` | simplev/src/simplev/base/BoundedBlockingQueue.h:33-57 | each step of lock, test, wait, push or pop, notify and unlock keeps the monitor's invariant |
| `BoundedBlockingQueues.BoundedBlockingQueue.Put` | simplev/src/simplev/base/BoundedBlockingQueue.h:33-43 | the while-wait loop against arbitrary steps of others: a call that returns made exactly one move since it began, on a queue not full, that move pushed x, and nobody else moved between it and the unlock; a call still waiting pushed nothing; with the mutex free and room in the queue it returns at the first turn the others leave it |
| `BoundedBlockingQueues.BoundedBlockingQueue.Take` | simplev/src/simplev/base/BoundedBlockingQueue.h:45-57 | likewise; its one move popped the item returned from the front, and with the mutex free and an item there it returns at the first turn |
| `BoundedBlockingQueues.BoundedBlockingQueue.Wait` | simplev/src/simplev/base/Condition.h:33-37 | the caller is in the wait set of its condition and the mutex is free, in one step |
| `BoundedBlockingQueues.BoundedBlockingQueue.Notify` | simplev/src/simplev/base/Condition.h:50-53 | moves some waiter of the other role to the woken ones if there is a waiter, else changes nothing there |
| `HolderProofs.HolderAgrees` | simplev/src/simplev/base/Mutex.h:57-113 | in every interleaving a recorded holder owns the mutex, a thread sees isLockedByThisThread exactly in its critical section, no two are inside together, and nobody overwrites or clears another's record |
| `HolderProofs.FreeMeansUnheld` | simplev/src/simplev/base/Mutex.h:52-56 | with nobody inside, the destructor's assert holds |
| `Mutexes.MutexLock.Lock` | simplev/src/simplev/base/Mutex.h:68-72 | pthread lock, then the record; the caller is the recorded holder |
| `Mutexes.MutexLock.Unlock` | simplev/src/simplev/base/Mutex.h:74-78 | the record is cleared before the mutex is released |
| `Mutexes.MutexLock.WaitBegin` | simplev/src/simplev/base/Condition.h:33-37 | the record is cleared before the wait releases the mutex |
| `Mutexes.MutexLock.WaitEnd` | simplev/src/simplev/base/Mutex.h:97-100 | the record is restored once the wait has the mutex back |
| `ConnectorTheorems.NoAssertFails` | simplev/src/simplev/net/Connector.cc:55-67 | with any number of starts and stops, each start inside the contract: startInLoop meets kDisconnected, connecting() finds no channel, a queued reset never deletes a channel in use, handleWrite's else-assert holds, and TcpClient's `connection_ == conn` holds with at most one live connection |
| `ConnectorContract.StartExact` | simplev/src/simplev/net/Connector.cc:40-67 | the contract is exact: from any state that a run with its starts inside the contract reaches, a start on the loop thread or on another meets every assert in every continuation without a further start if and only if `MayStart` holds |
| `ConnectorContract.HitsStop` | simplev/src/simplev/net/Connector.cc:213-222 | a queued stopInLoop that meets an attempt with connect_ set leads to a failing run: its retry timer is due before the channel's reset |
| `ConnectorTheorems.StartAfterStop` | simplev/src/simplev/net/Connector.cc:206-222 | from any state that a run with its starts inside the contract reaches, a stop, then a start, both on the loop thread, make an assert fail in some continuation |
| `ConnectorTheorems.ConnectAgain` | simplev/src/simplev/net/TcpClient.cc:128-144 | the run of connect, the peer closing, no retry, and connect again, which fails the assert in startInLoop |
| `ConnectorTheorems.DescriptorLedger` | simplev/src/simplev/net/Connector.cc:69-222 | every socket created is closed exactly once, or handed over exactly once, or is the one the active channel holds, which exists exactly in kConnecting |
| `ConnectorOutcomes.ConnectBranches` | simplev/src/simplev/net/Connector.cc:69-108 | the switch on errno by name, with no channel and from kDisconnected: 0, EINPROGRESS, EINTR and EISCONN leave it connecting with a channel; EAGAIN, EADDRINUSE, EADDRNOTAVAIL, ECONNREFUSED and ENETUNREACH close the socket and, with connect_ set, log the wait and set a timer; every other value closes the socket and does nothing more |
| `ConnectorOutcomes.EventOutcomes` | simplev/src/simplev/net/Connector.cc:55-222 | in every run inside the contract each event comes to what is told of it from the event alone: entries logged, functors queued, state and live connections left, and the retry timers that can still fire, the one just set being the only one |
| `ConnectorOutcomes.HandoverExact` | simplev/src/simplev/net/Connector.cc:123-159 | in every run inside the contract an event hands a descriptor over if and only if it ran the channel's write callback without its error callback, SO_ERROR and the self-connect check were clean, connect_ is set and the channel is that descriptor's |
| `ConnectorOutcomes.FailedAttempt` | simplev/src/simplev/net/Connector.cc:123-171 | an event whose error callback ran or whose socket had failed closes the socket, hands nothing over and leaves the connector disconnected, with exactly one live timer and a logged wait if connect_ is set and none otherwise |
| `ConnectorOutcomes.RestartExact` | simplev/src/simplev/net/TcpClient.cc:100-144 | a closed connection is restarted if and only if the client retries and the last of its connect, disconnect and stop calls was a connect |
| `ConnectorOutcomes.StopCancels` | simplev/src/simplev/net/Connector.cc:206-211 | when stop returns on the loop thread no retry timer can fire any more; on another thread a cancel for the one that can is queued |
| `ConnectorOutcomes.ConnectionsConserved` | simplev/src/simplev/net/TcpClient.cc:128-137 | over any run inside the contract every descriptor handed over is live, or has connectDestroyed queued, or has had it run, once |
| `ConnectorTheorems.ExponentialBackoff` | simplev/src/simplev/net/Connector.cc:188-204 | the k-th retry in a row waits min(500*2^k, 30000) ms, always within 500..30000, in every run, contract or not |
| `ConnectorTheorems.StopIsFinal` | simplev/src/simplev/net/Connector.cc:206-211 | once stop has lowered the flags, and until the next start, nothing but closing of descriptors follows: no attempt, no hand-over, no timer; and kConnecting is never entered again |
| `ConnectorTheorems.StopInLoopClosesAll` | simplev/src/simplev/net/Connector.cc:213-222 | after stopInLoop has run with no start queued or on its way to the queue, and until the next start, every socket created has been closed or handed over |
| `ConnectorTheorems.NeverStuck` | simplev/src/simplev/net/Connector.cc:40-67 | from any start inside the contract with no stop under way, and until the next stop or disconnect, a client that retries has exactly one of: a start queued or on its way to the queue, a retry timer that can fire, a connecting socket, a live connection, as long as connect meets no fatal error |
| `ConnectorProofs.KeepsNext` | simplev/src/simplev/net/Connector.cc:40-222 | each handler, functor, event, stop step and start inside the contract keeps the start token, channel, reset-order and client invariant |
| `Connectors.Connector.Perform` | simplev/src/simplev/net/Connector.cc:40-222 | any step of a run, done on the fields by the handlers below: the machine's step, with every assert met and the control invariant kept |
| `Connectors.Connector.StartHere` | simplev/src/simplev/net/Connector.cc:40-44 | start on the loop thread: the flags, then startInLoop at once, its assert met |
| `Connectors.Connector.StartLater` | simplev/src/simplev/net/Connector.cc:40-44 | start on another thread: the flags |
| `Connectors.Connector.QueueStart` | simplev/src/simplev/net/EventLoop.cc:157-180 | and then startInLoop queued |
| `Connectors.Connector.RunFunctor` | simplev/src/simplev/net/EventLoop.cc:140-155 | runs the oldest functor of the batch with every assert on the way met |
| `Connectors.Connector.HandleTimer` | simplev/src/simplev/net/Connector.cc:188-204 | a retry timer that fires is gone and startInLoop meets its assert |
| `Connectors.Connector.Connect` | simplev/src/simplev/net/Connector.cc:69-108 | the errno switch with the values named: which leave the connector connecting, which close and set a timer, which only close |
| `Connectors.Connector.Connecting` | simplev/src/simplev/net/Connector.cc:110-121 | asserts that no channel is left, installs the new one |
| `Connectors.Connector.HandleWrite` | simplev/src/simplev/net/Connector.cc:123-159 | of an attempt under way: a failed socket is closed, with a wait logged if connect_ is set, and the connector disconnected; a good one is handed over or, without connect_, closed, and the connector connected; in any other state the assert holds |
| `Connectors.Connector.HandleError` | simplev/src/simplev/net/Connector.cc:161-171 | gives a connecting attempt up, ignores everything else |
| `Connectors.Connector.HandleEvent` | simplev/src/simplev/net/Channel.cc:36-63 | error and write callback in one dispatch close the socket once |
| `Connectors.Connector.RemoveAndResetChannel` | simplev/src/simplev/net/Connector.cc:173-181 | stops the watcher and defers the deletion of the channel |
| `Connectors.Connector.Retry` | simplev/src/simplev/net/Connector.cc:188-204 | closes, and sets the timer and the next delay only with connect_ set |
| `Connectors.Connector.StopInLoop` | simplev/src/simplev/net/Connector.cc:213-222 | gives a connecting attempt up, whatever connect_ says |
| `Connectors.Connector.Restart` | simplev/src/simplev/net/Connector.cc:46-53 | resets state and delay and starts again; the assert in startInLoop holds |
| `Connectors.Connector.RemoveConnection` | simplev/src/simplev/net/TcpClient.cc:128-144 | the connection assert holds; restarts exactly when the client wants to |
| `Connectors.Connector.NewConnection` | simplev/src/simplev/net/TcpClient.cc:77-98 | the socket becomes the client's connection |
| `TimerProofs.MemorySafe` | simplev/src/simplev/net/TimerQueue.cc:44-84 | the loop's thread dereferences and deletes allocated timers only, each pointer in the set still has its recorded sequence, and every allocated timer has exactly one owner, its queued add or the set |
| `TimerProofs.AddExact` | simplev/src/simplev/net/TimerQueue.cc:35-42 | on another thread, from any reachable state, addTimer's read of the sequence after the post meets an allocated timer, its own, in every continuation if and only if the timer repeats and no call in flight has posted one at the same address |
| `TimerProofs.LoopAddAnswers` | simplev/src/simplev/net/TimerQueue.cc:35-42 | on the loop's thread addTimer always returns its own timer's id, and a new one |
| `TimerProofs.RepeatsSafe` | simplev/src/simplev/net/EventLoop.cc:99-107 | with other threads adding repeating timers only, no run reads a freed timer and every call in flight is about to return its own timer's id |
| `TimerProofs.FreedRead` | simplev/src/simplev/net/TimerQueue.cc:35-42 | a run in which a one-shot timer added from another thread fires and is deleted before its sequence is read |
| `TimerProofs.WrongId` | simplev/src/simplev/net/TimerQueue.cc:35-42 | a run in which, with the address reused, the call returns a newer timer's id, and cancelling that stops the newer timer |
| `TimerProofs.StaleCancelHarmless` | simplev/src/simplev/net/TimerQueue.cc:57-66 | a cancel leaves every timer with another sequence alone, at the same address or not |
| `TimerProofs.CancelExact` | simplev/src/simplev/net/TimerQueue.cc:52-66 | cancelInLoop on a returned id means the timer it names never fires from then on if and only if its add is not still queued |
| `TimerProofs.QueuedCancelTakes` | simplev/src/simplev/net/TimerQueue.cc:52-55 | a cancel from another thread always takes |
| `TimerProofs.CancelledNeverFires` | simplev/src/simplev/net/TimerQueue.cc:57-66 | in no run does a timer fire after cancelInLoop found and stopped it |
| `TimerProofs.OneShot` | simplev/src/simplev/net/EventLoop.cc:99-107 | a timer that does not repeat fires at most once |
| `TimerProofs.RunningExact` | simplev/src/simplev/net/TimerQueue.cc:44-84 | at each step of any run a timer runs afterwards if and only if the step ran its add, or it ran before and the step was neither a cancel by its own id nor the one firing of a timer that does not repeat; while it runs its address stays its own |
| `TimerProofs.FiringExact` | simplev/src/simplev/net/EventLoop.cc:99-107 | a firing is logged for each expiry, with the number of the timer at that address, and for nothing else |
| `TimerProofs.PostedInOrder` | simplev/src/simplev/net/TimerQueue.cc:35-55 | the functors run and still queued are exactly what other threads' adds and cancels posted, in the order of the calls |
| `TimerProofs.ClearExact` | simplev/src/simplev/net/TimerQueue.cc:68-84 | clearing deletes exactly the stopped timers in the set and changes no other |
| `TimerProofs.KeepsNext` | simplev/src/simplev/net/TimerQueue.cc:35-84 | each step keeps the ownership of heap, set and queue |
| `TimerQueues.TimerQueue.AddTimer` | simplev/src/simplev/net/TimerQueue.cc:35-50 | on the loop's thread: a fresh sequence number at whatever free address, added at once, its own id returned |
| `TimerQueues.TimerQueue.AddTimerFromOutside` | simplev/src/simplev/net/TimerQueue.cc:35-42 | on another thread, against arbitrary steps of others between post and read: the id is what the address holds by then, and the timer's own if it repeats and no call in flight has posted at the address |
| `TimerQueues.TimerQueue.CancelInLoop` | simplev/src/simplev/net/TimerQueue.cc:57-66 | dereferences only after the set vouches for the pointer |
| `TimerQueues.TimerQueue.ClearExpiredTimer` | simplev/src/simplev/net/TimerQueue.cc:68-84 | the erase-while-iterating loop, with no dangling dereference and no double delete |
| `Buffers.StorageBound` | simplev/src/simplev/net/Buffer.h:98-122 | if never more than M bytes are readable, storage stays within 1032 for M up to 1024 and within 2M+7 beyond, over any run of append, readFd, retrieve, retrieveAll and prepend |
| `Buffers.StorageBoundReached` | simplev/src/simplev/net/Buffer.h:171-188 | for every M some run of a new buffer reaches that bound |
| `Buffers.ShrinkExact` | simplev/src/simplev/net/Buffer.h:147-152 | shrink keeps the readable bytes for every content exactly when the reader stands at 8, or the buffer is empty and the indices fit the new storage |
| `Buffers.Layout.Ensured` | simplev/src/simplev/net/Buffer.h:115-122 | making room keeps the indices ordered and the readable count, and leaves the room asked for |
| `Buffers.Buffer.Append` | simplev/src/simplev/net/Buffer.h:103-108 | the contents grow by exactly the data |
| `Buffers.Buffer.MakeSpace` | simplev/src/simplev/net/Buffer.h:171-188 | growth or compaction keeps the contents; the assert on the reader index holds |
| `Buffers.Buffer.Compact` | simplev/src/simplev/net/Buffer.h:178-186 | the overlapping forward copy keeps the contents |
| `Buffers.Buffer.EnsureWritableBytes` | simplev/src/simplev/net/Buffer.h:115-122 | contents kept, assert on the writable bytes met |
| `Buffers.Buffer.Retrieve` | simplev/src/simplev/net/Buffer.h:72-76 | drops a prefix of the contents |
| `Buffers.Buffer.RetrieveAsString` | simplev/src/simplev/net/Buffer.h:91-96 | returns and drops the whole contents |
| `Buffers.Buffer.Prepend` | simplev/src/simplev/net/Buffer.h:139-145 | puts the data in front of the contents |
| `Buffers.Buffer.ReadFd` | simplev/src/simplev/net/Buffer.cc:17-38 | the contents grow by exactly the bytes received, over tail and overflow area; a failed read changes nothing |
| `Buffers.Buffer.Shrink` | simplev/src/simplev/net/Buffer.h:147-152 | the new storage, byte for byte, with the indices left alone |
| `Formatting.DecimalRoundTrip` | simplev/src/simplev/base/LogStream.cc:36-57 | reading a converted integer gives it back, for every integer |
| `Formatting.HexRoundTrip` | simplev/src/simplev/base/LogStream.cc:59-75 | likewise for addresses in hexadecimal |
| `Formatting.NumeralShape` | simplev/src/simplev/base/LogStream.cc:36-75 | only digits of the base, and no leading zero except for zero itself |
| `Formatting.EmitStep` | simplev/src/simplev/base/LogStream.cc:42-47 | one turn of the loop with C's truncated division, for either sign, through the symmetric digit table |
| `Formatting.DecimalLength` | simplev/src/simplev/base/LogStream.cc:100-106 | a 64-bit integer, signed or not, takes at most 20 characters |
| `LogStreams.Convert` | simplev/src/simplev/base/LogStream.cc:36-57 | the in-place digit loop and reversal leave exactly the decimal numeral and a NUL, and touch nothing before it |
| `LogStreams.ConvertHex` | simplev/src/simplev/base/LogStream.cc:59-75 | likewise in hexadecimal |
| `LogStreams.OneByteFree` | simplev/src/simplev/base/LogStream.h:42-60 | a sequence of integer, pointer and text operations stays in bounds if and only if no text's length narrows to a negative int, and then at least one byte is free |
| `LogStreams.AllOrNothing` | simplev/src/simplev/base/LogStream.h:42-49 | with texts below 2^31 bytes the stream is the whole texts of the operations that found room, in order |
| `LogStreams.Admission` | simplev/src/simplev/base/LogStream.cc:108-178 | what finds room, by numbers: an integer or a pointer is added whole while 32 bytes are left and not at all otherwise; a text below 2^31 bytes is added whole if it leaves a byte free and not at all otherwise |
| `LogStreams.NumbersInFull` | simplev/src/simplev/base/LogStream.cc:108-178 | numbers written one after the other all appear in full, in order, as long as 32 bytes are left before each |
| `LogStreams.WholeExact` | simplev/src/simplev/base/LogStream.h:42-49 | an append is all or nothing for every content of the buffer if and only if the text is below 2^31 bytes, or its narrowed length is 0 or never finds room |
| `LogStreams.LongTexts` | simplev/src/simplev/base/LogStream.h:136-152 | a text of 2^31 bytes is written out of bounds, and of one of 2^32 + 3 bytes three are appended |
| `LogStreams.ReserveSuffices` | simplev/src/simplev/base/LogStream.cc:108-116 | an admitted number, with prefix and NUL, ends before the buffer does |
| `LogStreams.FixedBuffer.Append` | simplev/src/simplev/base/LogStream.h:42-49 | as many bytes as the narrowed length says or none, one byte kept free; a length that narrows to a negative int is the caller's to avoid |
| `LogStreams.FixedBuffer.DebugString` | simplev/src/simplev/base/LogStream.cc:80-85 | the terminating NUL is in bounds and not part of the contents |
| `LogStreams.LogStream.FormatInteger` | simplev/src/simplev/base/LogStream.cc:108-116 | appends the decimal numeral when 32 of the 4000 bytes are free, else nothing; every write in bounds |
| `LogStreams.LogStream.FormatPointer` | simplev/src/simplev/base/LogStream.cc:166-178 | likewise the 0x-prefixed address |

## Left out

- SocketsOps, Socket, InetAddress, Acceptor and the libev watchers: kernel and library calls, present only as the results they can return.
- The poll double-check and the failed-poll close in TcpServer::newConnection, connection names (a number stands for the unique name) and the overflow of nextConnId_.
- Round-robin choice of the I/O loop: any loop may be chosen, which includes it.
- User callbacks as code: what they may do (send, shutdown, queue, stop, start) is a step of its own that may come at any point of the loop's thread.
- Changing callbacks or the high-water mark during a run: they are fixed at the start of each run.
- Reading out of the input buffer by message callbacks, and the error callback of a connection, which only logs.
- Data races and the memory model: the check and the change of state_ in shutdown are one step, as are the reads of connect_ and timerId_ inside one handler; the header itself marks state_ as to be made atomic. The queueing that follows a check or change on another thread is a step of its own.
- ConnectorContract.StartExact: the two flags of a start are raised in one step, on the loop thread together with startInLoop; on another thread the queueing is a step of its own. States that a start outside the contract has led to are not covered.
- TcpClient::enableRetry in the middle of a run: retry_ is fixed for a run. TcpClient::disconnect is only its flag; the shutdown it calls is TcpConnection's.
- TcpServer::newConnection constructs the connection's Channel, which starts a watcher on the I/O loop's libev (`simplev/src/simplev/net/Channel.cc:26`), on the base loop's thread: the race with the I/O loop's own use of libev is not modelled.
- ~TcpClient, ~Connector, ~TimerQueue, ~EventLoop and EventLoopThread: the source marks or shows their lifetimes as unsafe, so there is no theorem to state.
- Servers.TcpServer.NewConnection: connections are records in a sequence with a freed mark, not heap objects; shared_ptr ownership is the rule that a connection referred to by the map, a queued functor or a call on another thread is not freed.
- TimerQueues.TimerQueue.AddTimer: the timer heap is a map from addresses to records, so reuse of addresses is modelled and object layout is not; how long a timer waits is not modelled, an active one may fire at any time. Clearing is one step: what destructors of bound callbacks do in the middle of it is not modelled.
- Connectors.Connector.HandleEvent: Connector and TcpClient are one object here, since each is reached only through the other.
- BoundedBlockingQueues.BoundedBlockingQueue.Put: the circular buffer is a sequence of integers, which stand for any element type; a call may also end with the others' steps used up while it still waits, which stands for waiting for ever.
- EventLoops.EventLoop.DoPendingFunctors: other threads' calls made meanwhile come as complete calls in this method; the half-way points of a call are covered by the machine in LoopSpec.dfy.
- Buffers.Buffer.Append: size_t wrap-around in the sums of sizes is not modelled; it needs a buffer near the top of the address space.
- Buffer::retrieveUntil, swap and the copy operations; TcpConnection's socket options: they would add only easy members.
- LogStream for floating point and Fmt: snprintf.
- waitForSeconds, notifyAll, BlockingQueue, CountDownLatch, Thread, Logger, Timestamp, Exception, StringPiece and the curl cases.
- Liveness beyond LoopProofs.Served, LoopProofs.QuitStops, ServerProgress.LivesEnd and ConnectorTheorems.NeverStuck: fair scheduling of threads is not modelled.
- LoopProofs.QuitStops: a thread that stands between setting quit_ and its wakeup has to take that step first; the loop alone cannot.
- LogStreams.FixedBuffer.Append: what memcpy does with a length out of bounds is not modelled; the stream has no value after it.
