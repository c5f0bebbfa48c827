# Verification model of the dwt TCP server

A Dafny model, with machine-checked proofs, of the reactor under `src/` and of the self-contained
algorithms vendored beside it.  `dafny verify dfyconfig.toml` checks everything.

## What is modelled

The server runs one event loop per thread.  Its guarantees (byte order, exactly-once execution, no lost
wake-up, who keeps a connection alive) hold over all interleavings of the loops, of other threads and of
the kernel, and no single function shows them.  The model therefore has two levels.

* **Machines.**  A value for the state, an `Action` type for the atomic steps of every thread and of the
  environment, `Enabled` and `Apply`, and `Exec` over a sequence of actions.  A lemma about every sequence
  that can be executed is a lemma about every schedule.  What a run must come to is also told from its list
  of actions alone, without the machine: which bytes came in and went out, which callbacks were made, whether
  quit was asked for, who was to be notified (`Connections.RunIsTold`, `EventLoops.RunIsTold`,
  `MpmcQueues.WokenThreadsGoOn`), and the machine is proved to agree.
* **Classes.**  The source's classes, with its fields, loops and branches.  `View()` (or `Contents()`,
  `Shape()`, `track`) gives the machine state of an object, and each method is proved to do to it what the
  machine's step does, so the theorems about runs hold of the objects.

| module | what it covers |
|---|---|
| `Buffers` | the growable byte array: in-place compaction, scatter read, space bound |
| `Pollers` | channels, index, map and kernel table of the epoll poller |
| `EventLoops` | functor queue, eventfd, swap-out batching, quit |
| `Connections`, `TcpConnections` | the connection state machine; the class over the real buffers and poller |
| `Servers`, `TcpServers`, `ServerLives` | the hand-off of connections between loops and who keeps them alive |
| `ServerConnections` | the server together with its connections: each of them runs the connection machine, and the server's record describes it |
| `RawFunctors`, `LateRawFunctors` | the functors queued with a raw `this` and when they outlive their connection |
| `EventLoopThreadPools` | round-robin assignment of connections to loops |
| `CircularQueues`, `MpmcQueues`, `MpmcBlockingQueues`, `ThreadPools` | spdlog's ring, blocking queue and pool shutdown |
| `RotatingFileSinks` | spdlog's file rotation |
| `FmtBase`, `FmtChrono` | fmt's wrapping integer parser and its ISO 8601 week arithmetic |

## Conventions

* Kernel results of `read`, `readv` and `write` lie between zero and what was offered.  The source stores
  them in `size_t`, so its tests for negative results are never true (src/TcpConnection.cpp:85,
  src/Buffer.cpp:26, src/Buffer.cpp:42).
* A `send` from another thread carries its payload; the source binds a raw pointer
  (src/TcpConnection.cpp:72-74).
* `shutdown` tests and stores the state in two accesses; here that is one step
  (src/TcpConnection.cpp:147-148).
* User callbacks are events on a trace.  What they call on the connection are further steps, taken after
  the member function that called them has returned.
* A connection is alive while something holds a shared pointer to it: the server's map, a queued functor,
  a swapped batch until all of it has run, the guard of a dispatch, or user code.

## Where the code does not do what one would expect

Each of these is a lemma, with the exact condition under which the code is right.

* A functor that the loop's own thread queues can meet a poll that nothing cuts short exactly when the thread
  is outside `loop()` and no wake-up is pending or on its way.  One queued by a handler gets no wake-up and
  needs none: the same turn swaps it out (`EventLoops.QueueingIsCoveredIffLooping`).
* One epoll report closes a connection twice exactly when it carries hang-up and urgent data without input
  and the read returns nothing; the dead connection is then back in the kernel's table with an empty mask
  (`Connections.DispatchClosesOnce`).
* Dropping all interest takes a channel out of the kernel's table only if its index says added; otherwise it
  puts it in (`Pollers.DisableAllUnregistersIffAdded`).
* After `connectDestoryed` a connection can be registered with the poller again exactly when it was half-way
  through a shutdown with nothing buffered and a non-empty message of another thread was still queued
  (`Connections.DestroyedStaysAbsent`, `Connections.DestroyedComesBack`).  No step of a running server
  destroys a connection that is not yet down (`Servers.FunctorsRunInPlace`), and one it is done with is out of
  the kernel's table (`ServerConnections.GoneIsOutOfTheKernel`); so this arises only at teardown or in a
  direct call.
* A half-close leaves accepted bytes off the wire exactly when a queued shutdown runs on a connection that is
  down and has bytes buffered (`Connections.LateShutdownCutsOff`).
* A functor that `send` or `shutdown` queues from another thread holds no shared pointer.  With the test of
  the state and the push in one step it always runs on a living connection.  With the push later, it can run
  on a dead one exactly when by then the connection has left the server's map and no functor that holds it
  waits in the same vector (`LateRawFunctors.LatePushExactlyWhen`).
* The pool's destructor finishes on every schedule when the queue has capacity, and never on a queue of
  capacity zero (`ThreadPools.DestructorFinishes`, `ThreadPools.ZeroCapacityNeverExits`).
* Lowering the number of rotated files below what the directory holds leaves stale files behind newer ones
  after the next rotation; while it is never lowered the directory is a gap-free suffix of the log
  (`RotatingFileSinks.RotationSafeExactlyWhen`, `RotatingFileSinks.LogsAreRetained`).
* A bare rotation does not reset the size the sink remembers, so the next rotation can come while there is
  still room; without one a message rotates exactly when it would take a file that is not empty over the limit
  (`RotatingFileSinks.LogRotatesExactlyWhen`, `RotatingFileSinks.BareRotationComesEarly`).
* A rotation whose rename fails twice throws away the whole file being written, and at most the oldest old
  file besides; the sink goes on with what is left in order (`RotatingFileSinks.GiveUpStep`).
* The integer parser reports a number that fits when leading zeros take it past ten digits
  (`FmtBase.RightExactlyWhen`, `FmtBase.PaddedNumberFitsTenDigits`).
* The week arithmetic counts 52 weeks for every year before year 0 (`FmtChrono.IsoRightExactlyWhen`).

## Model

| member | source | states |
|---|---|---|
| Buffers.SpaceBound | src/Buffer.h:76-90 | over any run of append, read and retrieve the array is 1032 bytes long or at most twice the largest contents ever held plus 6 |
| Buffers.SpaceBoundIsTight | src/Buffer.h:122-133 | a run that reaches the bound: no smaller one holds |
| Buffers.CompactionMovesDown | src/Buffer.h:122-133 | compaction is chosen only when the contents start strictly above the prepend area, so the copy goes to lower addresses |
| Buffers.GrowsOnlyWhenItMust | src/Buffer.h:122-133 | the array is enlarged if and only if the bytes would not fit even after compaction |
| Buffers.Buffer.constructor | src/Buffer.h:28-31 | a new buffer is empty and 8 + 1024 bytes long whatever size is asked for |
| Buffers.Buffer.Retrieve | src/Buffer.h:54-60 | drops exactly the first bytes of the contents, or all of them |
| Buffers.Buffer.RetrieveAll | src/Buffer.h:62-64 | empties the contents and resets both indices |
| Buffers.Buffer.RetrieveAsString | src/Buffer.h:70-74 | what is returned followed by what is left is what was there; more than the contents yields them first and leaves nothing |
| Buffers.Buffer.RetrieveAllAsString | src/Buffer.h:66-68 | returns exactly the contents and leaves none |
| Buffers.Buffer.ShiftDown | src/Buffer.h:122-133 | the in-place shift with overlapping source and destination moves the contents unchanged |
| Buffers.Buffer.MakeSpace | src/Buffer.h:122-133 | both branches keep the contents and leave room for the bytes asked for |
| Buffers.Buffer.EnsureWritableBytes | src/Buffer.h:76-80 | keeps the contents and leaves room for the bytes asked for |
| Buffers.Buffer.Append | src/Buffer.h:86-90 | append is concatenation |
| Buffers.Buffer.ReadFd | src/Buffer.cpp:8-38 | the contents grow by exactly the bytes the kernel delivered, in order, for every split between the array's tail and the 64 KiB spill area |
| Buffers.Buffer.WriteFd | src/Buffer.cpp:41-47 | what the kernel takes from the read position, followed by the contents without that many bytes, is the contents, which do not change: retrieving the count afterwards loses no byte |
| Pollers.PollerAgreement | src/EpollPoller.cpp:71-121 | after any sequence of enable, disable and remove: kernel entry with exactly the channel's interest iff the index is added, in the map iff it is not new, and the kernel never rejects a call |
| Pollers.KernelWatchesWanted | src/Channel.cpp:79-127 | what the kernel watches after any sequence of calls is what the last calls asked for, and nothing after a removal |
| Pollers.UpdateAgrees | src/EpollPoller.cpp:71-105 | an update brings map, index and kernel back into agreement after any change of interest; a removal keeps them so |
| Pollers.DisableAllUnregistersIffAdded | src/Channel.cpp:95-98 | dropping all interest removes the kernel entry iff the index is added, and otherwise makes an empty one |
| Pollers.MaskOperations | src/Channel.cpp:79-98 | the bit operations on the event mask set and clear exactly the interest named |
| Pollers.Channel.EnableReading | src/Channel.cpp:79-82 | sets the read interest and tells the poller; no other channel's registration changes |
| Pollers.Channel.EnableWriting | src/Channel.cpp:87-90 | the same for the write interest |
| Pollers.Channel.DisableReading | src/Channel.cpp:83-86 | clears the read interest and tells the poller |
| Pollers.Channel.DisableWriting | src/Channel.cpp:91-94 | clears the write interest and tells the poller |
| Pollers.Channel.DisableAll | src/Channel.cpp:95-98 | clears all interest and tells the poller |
| Pollers.Channel.Remove | src/Channel.cpp:116-120 | takes the channel out of the poller; the agreement is kept |
| Pollers.EpollPoller.UpdateChannel | src/EpollPoller.cpp:71-105 | one branch per index, no rejected kernel call, every other channel untouched, the agreement of all channels kept |
| Pollers.EpollPoller.RemoveChannel | src/EpollPoller.cpp:107-121 | out of the map and of the kernel's table, index new, others untouched |
| Pollers.EpollPoller.EpollCtl | src/EpollPoller.cpp:134-158 | the kernel accepts ADD of an absent descriptor and MOD or DEL of a present one, and counts the others as refused |
| Pollers.EpollPoller.FillActiveChannels | src/EpollPoller.cpp:124-132 | exactly the reported channels become active with their reported events, and all are registered with index added |
| EventLoops.NoLostWakeup | src/EventLoop.cpp:66-96 | in every interleaving, a loop about to poll with functors pending or quit asked for by any thread has a readable eventfd or a thread about to write it; only functors the owning thread queued outside `loop()` are excepted |
| EventLoops.NeverSleepsOnWork | src/EventLoop.cpp:109-117 | without that exception the guarantee is unconditional |
| EventLoops.QueueingIsCoveredIffLooping | src/EventLoop.cpp:109-117 | from every state and over every continuation up to the next swap: a functor queued by the loop's own thread can meet an unannounced poll iff the thread is outside `loop()` and no wake-up is pending or on its way |
| EventLoops.ExactlyOnceInOrder | src/EventLoop.cpp:150-164 | at every step executed ++ rest of the batch ++ pending is the sequence of pushes, by whatever thread, in lock order; the batch is what was pushed before the last swap and not yet run |
| EventLoops.InvStep | src/EventLoop.cpp:66-164 | every step of every thread keeps the order and the wake-up invariant |
| EventLoops.RunIsTold | src/EventLoop.cpp:66-164 | over every run the quit flag, the eventfd counter, the pushes and how many have been swapped out and run are what the list of steps tells without the machine |
| EventLoops.QuitStops | src/EventLoop.cpp:90-96 | a quit asked for by any thread since the loop was entered is seen at the next test, and no loop stops without one |
| EventLoops.SwapRunsEverything | src/EventLoop.cpp:71-86 | in every interleaving, whatever functors and threads queue meanwhile, once the loop has swapped and is back at its test or poll, everything pushed before has run |
| EventLoops.WakeupRunsEverything | src/EventLoop.cpp:71-86 | and it can get there: undisturbed, a readable eventfd leads in one turn to everything pushed having run |
| EventLoops.DrainMeans | src/EventLoop.cpp:150-164 | a drain runs the whole batch in order, and what its functors queue is pending with the eventfd readable |
| EventLoops.DrainIsRun | src/EventLoop.cpp:150-164 | a drain without interference is a run of the machine |
| EventLoops.TurnOfIsRun | src/EventLoop.cpp:71-86 | so is a whole turn of the loop |
| EventLoops.EventLoop.Wakeup | src/EventLoop.cpp:121-132 | the eventfd is readable afterwards, even when the write fails on a full counter |
| EventLoops.EventLoop.HandleRead | src/EventLoop.cpp:138-148 | takes the whole counter, as the machine's step |
| EventLoops.EventLoop.Quit | src/EventLoop.cpp:90-96 | the flag is set whoever calls, and the eventfd is readable if another thread does |
| EventLoops.EventLoop.QueueInLoop | src/EventLoop.cpp:109-117 | push under the lock, then a wake-up if another thread calls or functors are being run |
| EventLoops.EventLoop.RunInLoop | src/EventLoop.cpp:101-107 | on the loop thread the functor runs before the call returns, with what it queues and whether it quits; from any other thread it is queued |
| EventLoops.EventLoop.DoPendingFunctors | src/EventLoop.cpp:150-164 | everything that was pending has run in order, what was queued meanwhile is pending, and the eventfd is readable if there is any |
| EventLoops.EventLoop.LoopBody | src/EventLoop.cpp:71-86 | what was pending before the turn and what the handlers queued has run |
| EventLoops.EventLoop.Loop | src/EventLoop.cpp:66-88 | turn after turn until the first test that finds quit set, as a run of the machine |
| EventLoops.TurnsMean | src/EventLoop.cpp:71-86 | each of these turns runs what the one before left pending and what its own handlers queue |
| Connections.StreamConservation | src/TcpConnection.cpp:83-209 | for every sequence of sends, partial writes and reads: bytes taken by the kernel ++ output buffer is the concatenation, in execution order, of every message passed to `sendInLoop`, and the kernel has exactly what it took of messages offered with nothing waiting and in write-ready steps; bytes consumed ++ input buffer is everything that reads delivered |
| Connections.RunIsTold | src/TcpConnection.cpp:67-263 | over every run of a new connection its state, queued tasks, bytes in both directions, mark, callbacks and socket calls are what the list of calls and events tells without the machine |
| Connections.CallbacksAreTold | src/TcpConnection.cpp:67-263 | so every callback and socket call of every run is known, in order and with its arguments |
| Connections.ClosesAndMessages | src/TcpConnection.cpp:188-209 | the close callback is made each time the end is seen, at most once over a run; the message callback after each read that delivered something, with its size |
| Connections.TasksRunInOrder | src/TcpConnection.cpp:67-77 | sends and shutdowns that other threads queue are run once each in the order in which they were queued |
| Connections.SendStream | src/TcpConnection.cpp:83-142 | a direct write happens only when nothing is buffered, so one `sendInLoop` extends the stream by its message |
| Connections.HandleWriteStream | src/TcpConnection.cpp:212-252 | a write-ready step moves bytes from the buffer's front to the wire and changes the stream in no other way |
| Connections.HalfCloseIsGraceful | src/TcpConnection.cpp:146-161 | write interest is on iff bytes are buffered; a half-close happens only with every accepted byte on the wire; a deferred one fires on exactly the draining write |
| Connections.HalfClosesExactlyWhen | src/TcpConnection.cpp:146-161 | the exact steps that half-close the socket: an in-loop shutdown with nothing buffered, a queued one that runs with nothing buffered or after the end, and the write that drains the buffer after a shutdown |
| Connections.LateShutdownCutsOff | src/TcpConnection.cpp:157-161 | over all steps that half-close: accepted bytes are left off the wire iff the connection is already down and has bytes buffered |
| Connections.LateShutdownHappens | src/TcpConnection.cpp:146-161 | a run from a new connection that ends in such a half-close |
| Connections.StateRuns | src/TcpConnection.cpp:164-263 | states only move forward, up at most once, down at most once and after up, and no interest or kernel entry once down |
| Connections.DestroyedStaysAbsent | src/TcpConnection.cpp:172-183 | from every state `connectDestoryed` leaves the channel out of the poller; some run registers it again iff it was half-way through a shutdown with nothing buffered and a non-empty message of another thread still queued |
| Connections.DestroyedForGood | src/TcpConnection.cpp:172-183 | in every other state it stays out over every run that follows |
| Connections.DestroyedComesBack | src/TcpConnection.cpp:172-183 | a run from a new connection that ends with the destroyed connection registered |
| Connections.CallbackAccounting | src/TcpConnection.cpp:94-133 | write-complete is queued on exactly the send and write-ready steps that end with everything on the wire, high-water on exactly the upward crossings of the mark |
| Connections.DrainBetweenHighWaters | src/TcpConnection.cpp:124-133 | two high-water callbacks are separated by a drain below the mark |
| Connections.DispatchClosesOnce | src/Channel.cpp:129-159 | one report closes twice exactly when it has hang-up and urgent data, no input, and the read returns nothing; otherwise its dispatch keeps the invariant |
| Connections.DispatchIsRun | src/Channel.cpp:129-159 | the dispatch of any report that closes at most once is the run of hang-up, read and write, in that order, that its bits ask for |
| Connections.DispatchMoves | src/Channel.cpp:129-159 | bytes read reach the input buffer, write-readiness sends from the front of the output buffer, and an end takes the connection down and sends nothing |
| Connections.DispatchClosesTwice | src/Channel.cpp:129-159 | a connection just established can get such a report |
| Connections.InvStep | src/TcpConnection.cpp:67-263 | every call and event keeps stream, registration and callback invariants |
| TcpConnections.TcpConnection.constructor | src/TcpConnection.cpp:25-59 | a new object is the machine's fresh connection on an unregistered channel |
| TcpConnections.TcpConnection.Send | src/TcpConnection.cpp:67-77 | does to buffers, channel and poller what the machine's send does |
| TcpConnections.TcpConnection.SendInLoop | src/TcpConnection.cpp:83-142 | direct write, rest buffered, callbacks and write interest, as the machine |
| TcpConnections.TcpConnection.Shutdown | src/TcpConnection.cpp:146-155 | as the machine, at once or queued |
| TcpConnections.TcpConnection.ShutdownInLoop | src/TcpConnection.cpp:157-161 | half-closes unless a write is outstanding |
| TcpConnections.TcpConnection.ConnectEstablished | src/TcpConnection.cpp:164-170 | connected and registered for reading, as the machine |
| TcpConnections.TcpConnection.ConnectDestroyed | src/TcpConnection.cpp:172-183 | out of the poller, as the machine |
| TcpConnections.TcpConnection.HandleRead | src/TcpConnection.cpp:188-209 | the bytes read reach the input buffer in order; a read of nothing closes |
| TcpConnections.TcpConnection.HandleWrite | src/TcpConnection.cpp:212-252 | what the kernel takes leaves the buffer; draining turns write interest off and fires a deferred shutdown |
| TcpConnections.TcpConnection.HandleClose | src/TcpConnection.cpp:254-263 | down, no interest, both callbacks, as the machine |
| TcpConnections.TcpConnection.SetHighWaterMarkCallback | src/TcpConnection.h:57-60 | sets mark and callback |
| TcpConnections.TcpConnection.HandleEvent | src/Channel.cpp:26-36 | nothing for a tied channel whose object is gone, otherwise the handlers in the source's order |
| Servers.InvRun | src/TcpServer.cpp:69-126 | the ownership invariant holds in every reachable state, for any number of loops and any interleaving |
| Servers.InvStep | src/TcpServer.cpp:69-126 | every step of the base loop, of the I/O loops and of user code keeps it |
| Servers.ChannelsAreAlive | src/EventLoop.cpp:78-83 | every connection that a poller's map or a batch of active channels refers to has a strong reference |
| Servers.DispatchLocks | src/Channel.cpp:26-36 | so the weak pointer of a channel about to be handled can always be locked |
| Servers.NoResurrection | src/TcpServer.cpp:69-126 | no step gives a reference to a connection that nothing referred to |
| Servers.LaterRun | src/TcpConnection.cpp:164-263 | over any run a connection keeps its name, descriptor and loop, only moves forward, and once dead stays dead |
| Servers.DeadIsFinished | src/TcpConnection.cpp:172-183 | a dead connection is disconnected, out of its poller, of the map and of every queue |
| Servers.NothingKeepsTheDisconnected | src/TcpServer.cpp:114-126 | no leak: with nothing queued, dispatched or held by user code, a disconnected connection is dead |
| Servers.ReusedFdIsNowhere | src/EpollPoller.cpp:71-121 | a descriptor that no living connection owns is in no poller's map, so its reuse meets no stale entry |
| Servers.NewNameOverwritesNothing | src/TcpServer.cpp:74-90 | a new connection's name is not in the map: no live entry is overwritten and the others stay |
| Servers.NameInjective | src/TcpServer.cpp:74-75 | names of different connection numbers differ |
| Servers.PollerAndStateAgree | src/TcpConnection.cpp:164-183 | in the poller's map iff the index is not new, reported by the kernel iff connected or disconnecting; a disconnected connection is still in the server's map only while its removal is queued on the base loop |
| Servers.FunctorsRunInPlace | src/TcpServer.cpp:97-126 | each hand-off functor runs on the loop it is meant for and finds the connection alive and in the state it expects |
| Servers.NotGoneIsStrong | src/TcpServer.cpp:114-126 | until it has been taken out of its poller a connection is held by the map or by the functor that will do it |
| RawFunctors.OneStepRunsAlive | src/TcpConnection.cpp:67-77 | over every run: when the test of the state and the push are one step, a functor queued with a raw `this` runs on a living connection |
| RawFunctors.SoundRunsAlive | src/TcpConnection.cpp:146-155 | and so does any that was queued while the connection was in the server's map or behind a functor that holds it in the same vector |
| RawFunctors.RawsRunInOrder | src/EventLoop.cpp:150-164 | each loop runs the functors queued on it with a raw `this` once each, in the order in which they were queued |
| LateRawFunctors.LatePushExactlyWhen | src/TcpConnection.cpp:67-77 | from every reachable state: queued later than tested, it can run on a dead connection iff the connection has left the map and nothing in the same vector holds it |
| LateRawFunctors.LatePushHappens | src/TcpConnection.cpp:67-77 | a run that comes to that |
| ServerLives.DescriptorIsReused | src/TcpServer.cpp:69-126 | a run over two loops in which a connection is accepted, established, closed, removed and destroyed, is then dead of itself, and the next one lives on its descriptor |
| ServerConnections.ConnectionsAreSimulated | src/TcpServer.cpp:69-126 | over every run of a server with its connections, with sends, queued tasks, partial writes and reads in between, the calls each connection gets are a run of the connection machine and the server's record describes where it led |
| ServerConnections.EveryStreamIsConserved | src/TcpConnection.cpp:83-209 | so for every connection of every server the wire and the buffer hold exactly the messages sent, and what was consumed and is buffered exactly what was read |
| ServerConnections.ClosedExactlyOnce | src/TcpConnection.cpp:254-263 | over every run a connection has made its close callback exactly as often as the server has taken its end: once if the server has, and not before |
| ServerConnections.GoneIsOutOfTheKernel | src/TcpConnection.cpp:172-183 | over every run, a connection that the server is done with or that nothing refers to is down, without interest and out of the kernel's table in its own machine |
| ServerConnections.CallIsDescribed | src/TcpServer.cpp:97-126 | a connection that the server calls can take the call, and the record follows |
| ServerConnections.OthersKept | src/TcpServer.cpp:69-126 | and no other record changes |
| ServerConnections.EstablishedIsDescribed | src/TcpConnection.cpp:164-170 | the server's record of a connection follows the full connection machine when it is established |
| ServerConnections.ClosedIsDescribed | src/TcpConnection.cpp:254-263 | and when its end is seen, as hang-up or as an empty read |
| ServerConnections.DestroyedIsDescribed | src/TcpConnection.cpp:172-183 | and when it is taken out of its poller |
| ServerConnections.ShutdownIsDescribed | src/TcpConnection.cpp:146-155 | and when user code shuts it down |
| ServerConnections.UnseenIsDescribed | src/TcpConnection.cpp:67-252 | everything the record leaves out changes neither state nor index |
| TcpServers.TcpServer.constructor | src/TcpServer.cpp:17-37 | a new server is the machine's start |
| TcpServers.TcpServer.Start | src/TcpServer.cpp:55-66 | only the first call starts the pool and has the acceptor listen, at once on the base loop and by a queued functor from elsewhere |
| TcpServers.TcpServer.NewConnection | src/TcpServer.cpp:69-104 | the machine's step on the loop whose turn it is; it keeps the ownership invariant whenever the kernel's descriptor is free |
| TcpServers.TcpServer.RemoveConnection | src/TcpServer.cpp:106-112 | at once on the base loop, queued there from any other; revives nobody |
| TcpServers.TcpServer.RemoveConnectionInLoop | src/TcpServer.cpp:114-126 | erased from the map and handed to its loop for destruction; nobody comes alive by it |
| TcpServers.TcpServer.HandleClose | src/TcpConnection.cpp:254-263 | the close path from either kind of loop is the machine's and keeps the ownership invariant |
| TcpServers.TcpServer.RunFunctor | src/EventLoop.cpp:150-164 | running the next functor of a batch, of any kind, is the machine's step and keeps the ownership invariant |
| TcpServers.AcceptKeeps | src/TcpServer.cpp:69-104 | accepting keeps the invariant, revives nobody and adds one name |
| TcpServers.ConnectionsAreShared | src/TcpServer.cpp:71 | of the first k connections each of the n workers has k / n or one more, and the base loop none |
| EventLoopThreadPools.SharesAreEven | src/EventLoopThreadPool.cpp:54-74 | after k calls each of n workers has got k / n, rounded down or up |
| EventLoopThreadPools.NeverTheBase | src/EventLoopThreadPool.cpp:54-74 | with workers, never the base loop |
| EventLoopThreadPools.EventLoopThreadPool.Start | src/EventLoopThreadPool.cpp:25-50 | the base loop first, then one loop per thread |
| EventLoopThreadPools.EventLoopThreadPool.GetNextLoop | src/EventLoopThreadPool.cpp:54-74 | the k-th call gets the loop whose turn it is; nothing before the start |
| CircularQueues.Conservation | src/include/spdlog/details/circular_q.h:46-93 | over every run pushes = pops + size + overruns, and the contents are the last items pushed, at most the capacity |
| CircularQueues.PushKeepsNewest | src/include/spdlog/details/circular_q.h:46-57 | a push leaves the last `capacity` of the old items and the new one, and counts an overrun iff the ring was full |
| CircularQueues.CircularQ.PushBack | src/include/spdlog/details/circular_q.h:46-57 | the array with wrapped indices holds exactly those items; a disabled ring ignores the push |
| CircularQueues.CircularQ.PopFront | src/include/spdlog/details/circular_q.h:83 | the oldest item leaves |
| CircularQueues.CircularQ.Size | src/include/spdlog/details/circular_q.h:66-72 | the number of items, across the wrap-around |
| CircularQueues.CircularQ.At | src/include/spdlog/details/circular_q.h:76-79 | the item at that place in order |
| CircularQueues.CircularQ.Front | src/include/spdlog/details/circular_q.h:61 | the oldest item |
| CircularQueues.CircularQ.Empty | src/include/spdlog/details/circular_q.h:85 | true iff there are no items |
| CircularQueues.CircularQ.Full | src/include/spdlog/details/circular_q.h:87-93 | true iff the ring is enabled and holds `capacity` items |
| MpmcQueues.NeverStrands | src/include/spdlog/details/mpmc_blocking_q.h:31-90 | on every schedule: while a consumer sleeps un-notified, the items queued are at most the notified consumers plus the producers about to notify; dually free slots for sleeping producers |
| MpmcQueues.InvStep | src/include/spdlog/details/mpmc_blocking_q.h:31-90 | inductive under stealing, time-outs, overruns, discards and spurious wake-ups |
| MpmcQueues.QuietSleepersAreRight | src/include/spdlog/details/mpmc_blocking_q.h:31-90 | when nobody can move, sleeping consumers mean an empty queue and sleeping producers a full one; both only with capacity zero |
| MpmcQueues.ZeroCapacityLocksUp | src/include/spdlog/details/mpmc_blocking_q.h:31-38 | a run on a queue of capacity zero after which a producer and a consumer sleep for good |
| MpmcQueues.DeliveredOnceInOrder | src/include/spdlog/details/mpmc_blocking_q.h:82-90 | items are dequeued once, in push order; each pushed item was dequeued, is queued or was overrun |
| MpmcQueues.EveryMessageIsKnown | src/include/spdlog/details/mpmc_blocking_q.h:31-90 | over every schedule each message brought to the queue is pushed, waits with its producer, or is counted as discarded; and each pushed one is dequeued, queued or overrun |
| MpmcQueues.WokenThreadsGoOn | src/include/spdlog/details/mpmc_blocking_q.h:31-90 | a woken consumer takes the oldest item, and with none returns exactly when its time has run out; a woken producer pushes the message it came with, or sleeps on with it |
| MpmcBlockingQueues.MpmcBlockingQueue.Enqueue | src/include/spdlog/details/mpmc_blocking_q.h:31-38 | pushes and notifies iff there is room, otherwise the caller sleeps |
| MpmcBlockingQueues.MpmcBlockingQueue.EnqueueNowait | src/include/spdlog/details/mpmc_blocking_q.h:41-47 | always pushes and notifies |
| MpmcBlockingQueues.MpmcBlockingQueue.EnqueueIfHaveRoom | src/include/spdlog/details/mpmc_blocking_q.h:49-64 | pushes and notifies iff there is room, otherwise counts a discard |
| MpmcBlockingQueues.MpmcBlockingQueue.Dequeue | src/include/spdlog/details/mpmc_blocking_q.h:82-90 | the oldest item and a notification, or the caller sleeps |
| MpmcBlockingQueues.MpmcBlockingQueue.ResumeProducer | src/include/spdlog/details/mpmc_blocking_q.h:31-38 | a woken producer pushes and notifies if there is room, sleeps again otherwise |
| MpmcBlockingQueues.MpmcBlockingQueue.ResumeConsumer | src/include/spdlog/details/mpmc_blocking_q.h:68-79 | a woken consumer takes an item if there is one, gives up if its time is over, sleeps again otherwise |
| ThreadPools.DrainedWhenAllExited | src/include/spdlog/details/thread_pool-inl.h:44-55 | when all workers have left, the queue is empty and everything queued before was dequeued, in order, before the first terminate message |
| ThreadPools.NewPoolBegins | src/include/spdlog/details/thread_pool-inl.h:16-30 | a new pool meets what the claims about its destructor start from |
| ThreadPools.DestructorRun | src/include/spdlog/details/thread_pool-inl.h:44-55 | throughout: one terminate is queued, held or unposted for each worker still in its loop, messages before terminates, nothing overrun |
| ThreadPools.SomeoneMoves | src/include/spdlog/details/thread_pool-inl.h:44-55 | with capacity, until all workers have left some thread can move without a spurious wake-up |
| ThreadPools.WorkShrinks | src/include/spdlog/details/thread_pool-inl.h:79-122 | every move but a spurious wake-up lowers a measure of queued and unposted messages |
| ThreadPools.DestructorIsShort | src/include/spdlog/details/thread_pool-inl.h:44-55 | so the destructor ends on every schedule with finitely many spurious wake-ups |
| ThreadPools.DestructorFinishes | src/include/spdlog/details/thread_pool-inl.h:44-55 | with capacity, every run that can go no further but by spurious wake-ups has all workers out and the queue empty, after a bounded number of moves |
| ThreadPools.ZeroCapacityNeverExits | src/include/spdlog/details/thread_pool-inl.h:44-55 | on a queue without capacity no worker ever leaves |
| ThreadPools.ThreadPool.PostAsyncMsg | src/include/spdlog/details/thread_pool-inl.h:79-89 | which policy pushes, overruns, sleeps or discards, and what is counted |
| ThreadPools.ThreadPool.ProcessNextMsg | src/include/spdlog/details/thread_pool-inl.h:98-122 | takes the oldest message, handles it unless it is terminate, and says whether to go on |
| ThreadPools.ThreadPool.WorkerLoop | src/include/spdlog/details/thread_pool-inl.h:91-94 | a worker handles the queued messages up to the first terminate, takes that one and leaves the rest |
| RotatingFileSinks.RotationKeepsSuffix | src/include/spdlog/sinks/rotating_file_sink-inl.h:108-166 | over every run from any directory, with renames that work or fail: the files up to the least limit, joined from the oldest on, are the end of what was there and logged, less what rotations that failed have truncated, and no file is longer than the largest limit or message |
| RotatingFileSinks.SmoothRunKeepsOrder | src/include/spdlog/sinks/rotating_file_sink-inl.h:108-166 | while renames work, indices up to the least limit that start without gaps stay so, and joined stay a suffix of all bytes logged |
| RotatingFileSinks.GiveUpStep | src/include/spdlog/sinks/rotating_file_sink-inl.h:150-162 | a rotation given up loses exactly the file being written from the end of the history and at most the oldest of the old files, and keeps the invariant |
| RotatingFileSinks.OpenedWhole | src/include/spdlog/sinks/rotating_file_sink-inl.h:26-49 | a directory without gaps and with no more files than asked for is whole once opened, so `NeverLoweredStaysWhole` holds of it |
| RotatingFileSinks.LogsAreRetained | src/include/spdlog/sinks/rotating_file_sink-inl.h:108-166 | over every run from an empty directory in which the number of files is never lowered and renames work: the whole directory is gap-free, its files joined are a suffix of all bytes logged, and none is longer than the largest limit or message |
| RotatingFileSinks.NeverLoweredStaysWhole | src/include/spdlog/sinks/rotating_file_sink-inl.h:108-166 | the same from every whole directory |
| RotatingFileSinks.NothingLostUntilFull | src/include/spdlog/sinks/rotating_file_sink-inl.h:108-166 | from an empty directory, with the number of files left alone: until there is one more file than old ones asked for, the files joined are every byte logged |
| RotatingFileSinks.LogRotatesExactlyWhen | src/include/spdlog/sinks/rotating_file_sink-inl.h:108-125 | over every run: a message rotates iff the file is not empty and what the sink believes to be its size would pass the limit, and then all files move up by one; what it believes is right unless there was a bare rotation |
| RotatingFileSinks.LogsFillOneFile | src/include/spdlog/sinks/rotating_file_sink-inl.h:108-125 | as long as everything logged fits into one file it is in one file |
| RotatingFileSinks.BareRotationComesEarly | src/include/spdlog/sinks/rotating_file_sink-inl.h:73-76 | a run in which a bare rotation makes the next one come although there is room |
| RotatingFileSinks.RotationSafeExactlyWhen | src/include/spdlog/sinks/rotating_file_sink-inl.h:138-166 | one rotation leaves every whole directory of k files whole iff k is at most one more than the number of old files it keeps |
| RotatingFileSinks.LoweredLimitLeavesStaleFile | src/include/spdlog/sinks/rotating_file_sink-inl.h:93-99 | a run from an empty directory that lowers the number, after which the directory is no suffix |
| RotatingFileSinks.RotatingFileSink.Open | src/include/spdlog/sinks/rotating_file_sink-inl.h:26-49 | refuses a zero size, too many files, and a directory that is to be rotated and cannot be; otherwise starts with the invariant on any directory |
| RotatingFileSinks.RotatingFileSink.Rotate | src/include/spdlog/sinks/rotating_file_sink-inl.h:138-166 | the descending loop moves every file up by one iff each rename works at once or when tried again; otherwise which rename was given up, which files have moved, and that the file being written is empty |
| RotatingFileSinks.RotatingFileSink.RenameFile | src/include/spdlog/sinks/rotating_file_sink-inl.h:171-176 | the target is gone even when the rename fails |
| RotatingFileSinks.RotatingFileSink.SinkIt | src/include/spdlog/sinks/rotating_file_sink-inl.h:108-125 | a message that fits is appended and nothing is rotated; one that would pass the limit rotates first iff the file is not empty; when that fails nothing is written, the file is truncated, and the invariant still holds |
| RotatingFileSinks.RotatingFileSink.RotateNow | src/include/spdlog/sinks/rotating_file_sink-inl.h:73-76 | a rotation, or the report of a failed rename with the file truncated; the invariant holds after either |
| RotatingFileSinks.RotatingFileSink.SetMaxSize | src/include/spdlog/sinks/rotating_file_sink-inl.h:78-84 | refused iff zero |
| RotatingFileSinks.RotatingFileSink.SetMaxFiles | src/include/spdlog/sinks/rotating_file_sink-inl.h:93-99 | refused iff above the maximum |
| FmtBase.ParseNonnegativeInt | thirdparty/fmt/include/fmt/base.h:1286-1307 | takes the longest digit run; despite 32-bit wrap-around the exact value when it has at most ten digits and fits, else the error value |
| FmtBase.RightExactlyWhen | thirdparty/fmt/include/fmt/base.h:1286-1307 | a fitting value is returned and any other reported exactly when the run has at most ten digits or does not fit |
| FmtBase.RightWithoutLeadingZero | thirdparty/fmt/include/fmt/base.h:1286-1307 | always so without a leading zero, at any length |
| FmtBase.PaddedNumberFitsTenDigits | thirdparty/fmt/include/fmt/base.h:1286-1307 | with k zeros in front of a fitting number, so iff there are at most ten characters |
| FmtChrono.IsoRightExactlyWhen | thirdparty/fmt/include/fmt/chrono.h:1193-1220 | for every day of the proleptic Gregorian calendar, week-year and number are those of the week's Thursday exactly when the raw number needs no year's length, or that year is not before year 0, or it has 52 weeks |
| FmtChrono.IsoWeekIsThursdays | thirdparty/fmt/include/fmt/chrono.h:1207-1220 | from year 1 on they always are, as section 4.1.4 of ISO 8601:2004 asks |
| FmtChrono.WeekDateIsUnique | thirdparty/fmt/include/fmt/chrono.h:1207-1220 | year, week number and weekday determine the day |
| FmtChrono.ComputedWeeks | thirdparty/fmt/include/fmt/chrono.h:1193-1202 | the number of weeks of a year, which is 52 or 53, from year 0 on; always 52 before |
| FmtChrono.WeeksAreThursdays | thirdparty/fmt/include/fmt/chrono.h:1193-1202 | that number is the number of the year's last Thursday |
| FmtChrono.RawWeekNumber | thirdparty/fmt/include/fmt/chrono.h:1203-1206 | the raw number counts Thursdays from 1 January |
| FmtChrono.FailsForNegativeYears | thirdparty/fmt/include/fmt/chrono.h:1193-1220 | a day of year -1 for which the answer is wrong |

## Left out

- Socket set-up and options, `accept4`, address conversion, `Timestamp`: system-call wrappers; they appear as environment actions.
- Errno branches and negative results of read and write: never taken as written, see Conventions.
- Real threads, memory ordering and thread start-up: threads are interleaved atomic steps; an atomic flag is a plain field.
- Teardown: the server's destructor, loop exit with functors still pending and the poller's and the loop's destructors are not steps of `Servers` or `EventLoops`.
- Delivery of a cross-thread send relative to a shutdown made on the loop thread: the half-close claims are about executed `sendInLoop` calls.
- `Servers.ChannelsAreAlive`: the machine has at most one close per dispatched report; when a report closes twice is stated by `Connections.DispatchClosesOnce`.
- `Servers.NewNameOverwritesNothing`: `nextConnId_` is an `int` in the source and unbounded here, so its wrap-around after 2^31 connections is not covered.
- The connection's error handler only reads and logs a socket error; it changes no modelled state.
- The poller's growing event array and its poll time-out: a poll may return with any reportable channels, or none, at any time.
- Sizes are unbounded numbers; overflow of `size_t` buffer lengths and counters is not modelled, except for the eventfd counter.
- `TcpServers.TcpServer.HandleClose`: the connection object is the server's record of it; the object with buffers and channel is `TcpConnections.TcpConnection`, and `ServerConnections` relates the two.
- Constructor arguments of the thread pool (the limit on the number of threads, start and stop callbacks), flush replies and the back-end call of a message: a handled message is recorded.
- `dequeue_for` and `dequeue` are one method with a flag for the time limit; the clock is a free step of the machine.
- What a functor queued with a raw `this` does to its connection is in `Connections`; `RawFunctors` is about its lifetime only.
- Counter reset functions and copy or move of a ring: easy members.
- The build variant of the blocking queue that notifies under the lock (src/include/spdlog/details/mpmc_blocking_q.h:97-147): the default variant is modelled.
- File names of rotated logs: a file is its index.
- All other sinks, the registry, pattern formatting and the rest of fmt: input and output, or template plumbing.
- Log calls and user callback bodies: events on a trace, or nothing.
