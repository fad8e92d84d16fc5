# HPNL, verified

HPNL is a message library over libfabric: an event-queue (EQ) thread handles connection events,
completion-queue (CQ) workers dispatch messages, user threads connect and shut down, and a Java
binding runs its own version of the same protocol over JNI. This project models that logic in
Dafny and proves what it keeps over every run and every interleaving. `dafny verify dfyconfig.toml`
checks all of it.

| modules | what they model |
|---|---|
| `Lifecycle`, `LifecycleInvariant`, `LifecycleTheorems`, `LifecycleSnapshot`, `LifecycleStranded`, `LifecycleMessages` | the native connection lifecycle, one step per statement of the EQ thread, the user thread and the CQ workers; the handler map, its snapshot, the connection map, the epoll set, the status gate |
| `LifecycleRuns`, `LifecycleCode` | the same code as methods over mutable fields, each shown to be a run of the machine |
| `ChunkMgr`, `ChunkMgrProofs`, `PoolContext` | the chunk pool over boost, and several pools that share one static context pointer |
| `ReceiveWindow` | the chunks native connections post, hold, send and reclaim |
| `ExternalPool` | the native chunk manager and the Java memory pool behind it, with the provisioning guard |
| `ByteBuffers`, `HpnlBuffers`, `HpnlBufferProofs` | the two framings of the Java binding over a reused `java.nio.ByteBuffer` |
| `RdmConnections` | the connectionless endpoint: framing and the cache over the address vector |
| `JavaTeardown`, `JavaConnect`, `JavaGate`, `JavaBinding` | the Java binding's lifecycle: connect ordering, the two teardown paths, draining; what connect returns; one connection against its CQ worker; the code |
| `CleanDrain` | `EqService.shutdown` against the EQ thread's loop |
| `SendPath`, `SendPathProofs`, `SendPathHistory`, `SendPathSizes`, `SendPathRuns`, `SendPathCode` | the Java send path: deferred sends, retries, puts that throw, buffer recycling |
| `RmaRegistry` | the RMA chunk map and the round-robin choice of CQs |

Concurrent parts are state machines whose steps interleave freely; sequential objects are classes
whose methods are proved against functions on values, and the lemmas are about those functions.
What the environment chooses (addresses from malloc, block sizes, new queue handles, completions,
results of fabric calls) is a parameter of the step that meets it.

## What turned out not to hold

Several natural expectations are false of the code. For each the table names a lemma at a failing
run or input, and the condition, with its lemma, under which the code meets the expectation and
without which it does not.

| expectation | fails | if and only if |
|---|---|---|
| epoll reports queues of the snapshot only | `TwoConnectsMiss` | it holds when the user registers at most one queue: `SnapshotSoundExactly` |
| between EQ iterations, a blocked worker can still be woken | `LifecycleStranded.StrandedRun` | the status has not passed the gate: `LifecycleStranded.StrandedExactly` |
| `Service::shutdown(con)` succeeds | `ReapFailsRun` | the peer's close was not handled before: `UserShutdownExact` |
| a connection has just the service's callbacks | `WriteSlotRun` | the service has a write callback, or the slot was empty: `WriteSlotExactly` |
| a pool keeps ids and chunks in order | `MisalignedPool` | the chunk size is a multiple of boost's alignment: `PoolSoundExactly` |
| a run of puts is written intact | `PutRefused` | each frame fits the one before it: `PutRunExactly` |
| a run of gets recovers the names | `GetRdmFrame` | names never get longer: `GetRunExactly` |
| a run conserves sends | `LosingRun` | no payload put exceeds its buffer's current limit: `ConservedExactly`, `ThrowsExactly` |
| every run over given payload sizes conserves sends | `TwoSizesLose` | any two sizes differ by just the header: `SizesExactly` |
| a worker keeps the order of arrival | `OvertakingRun` | no handler is put back while another waits: `FifoExactly` |
| messages go to the peer meant | `MisdirectedRun` | no two peers involved share their first 31 printed characters: `AddressesExactly` |
| a step lowers no status (Java) | `FreedUnderCallback`, `ShutdownInCallback` | it does not end FI_CONNECTED after a callback that shut its own connection down: `StatusFallsExactly` |
| messages follow the connected callback (Java) | `EarlyRun` | the callback is not in the middle of shutting its own connection down: `EarlyExactly` |
| between events, a blocked worker can still be released (Java) | `JavaGate.StrandedRun` | the connection has not been closed: `JavaGate.StrandedExactly` |
| connect finds its latch | `NoLatchRun` | FI_CONNECTED has not been handled completely before the lookup: `NoLatchExactly` |
| a timed connect returns a connection | `TimedReturnsNothing` | never |
| a waiting untimed connect is bound to return its connection | `HangingRun`, `LateConnectionRun` | its FI_CONNECTED has come, was the last to come, and no other queue is pending: `SureExactly`; whether it can return at all: `CanReturnExactly` |
| everything queued is down at the free | `FatalErrorRun` | the walk can queue nothing more when the EQ thread leaves its loop: `DrainExactly` |
| draining does not abort the walk that feeds it | `AbortedWalkRun` | at most one connection is there, no other change of the map and no fatal error given: `WalkSafeExactly` |
| nothing aborts the walk | `NeverAbortsExactly` | no connection is there: `NeverAbortsExactly` |
| the native side knows every buffer allocated | `EarlyLookupFails` | no id was looked up before it was allocated: `EarlyLookupExactly`; for one id, `LookupExactly` |
| a registered RMA chunk is found | `PinnedForEver` | its id was never touched while absent: `FoundExactly` |

## Model

| member | source | states |
|---|---|---|
| LifecycleInvariant.StepInv | src/demultiplexer/EqHandler.cc:33-107 | every statement of every thread keeps the invariant that ties the three maps, the statuses, the locks, both threads and all workers together |
| LifecycleTheorems.NoLostWakeup | src/demultiplexer/CqDemultiplexer.cc:92-97 | in every interleaving a worker blocked on a connection whose status is CONNECTED still has the notify to come, within two statements of the EQ thread |
| LifecycleTheorems.OneWaiter | src/demultiplexer/Proactor.cc:58-63 | no two workers ever stand at one connection's gate, so notify_one suffices |
| LifecycleTheorems.NotifyReleases | src/demultiplexer/EqHandler.cc:82-86 | after the notify nobody is blocked on the connection |
| LifecycleTheorems.CallbacksBeforeData | src/demultiplexer/EqHandler.cc:63-86 | a receive that passes the gate sees all callbacks of the service installed, or a new connection's slots; the latter exactly when the connection never was CONNECTED |
| LifecycleTheorems.UnconnectedDispatchIsClosed | src/demultiplexer/CqDemultiplexer.cc:92-103 | the second case arises only for a connection that is being or has been closed |
| LifecycleTheorems.ClosingOpensGate | src/demultiplexer/EqHandler.cc:95-101 | all through the teardown on the EQ thread the status is SHUTDOWN_REQ, past the gate, and the connection is still in conMap |
| LifecycleTheorems.SendersHaveCallbacks | src/demultiplexer/CqDemultiplexer.cc:104-106 | a connection the application has been given has the service's callbacks, so the send completion's assertion holds when the service sets one |
| LifecycleTheorems.WriteSlotExactly | src/core/MsgConnection.cc:45-50 | it has all five if and only if the service has a write callback or the write slot, which the constructor leaves alone, happened to be empty |
| LifecycleTheorems.MapCoherence | src/demultiplexer/EqHandler.cc:93-102 | at every intermediate statement a registered queue is the listener or is in conMap with the service's callbacks, and a watched queue is registered but for the one statement between erase and epoll removal |
| LifecycleTheorems.EqAssertionsHold | src/demultiplexer/EqHandler.cc:64-65 | the connection assertions of handle_event and reap's assertion on the EQ thread never fire |
| LifecycleTheorems.StatusMonotone | src/core/MsgConnection.h:39 | along every run each connection's status only rises in the order of the enumeration |
| LifecycleSnapshot.SnapshotSound | src/demultiplexer/Proactor.cc:43-56 | with one registration by the user thread every queue epoll reports is a key of the snapshot, and the proactor mutex is free on entry to handle_event |
| LifecycleSnapshot.TwoConnectsMiss | src/demultiplexer/EqDemultiplexer.cc:56-59 | a client with two connects has a run in which epoll reports a queue missing from the snapshot |
| LifecycleSnapshot.SnapshotSoundExactly | src/demultiplexer/Proactor.cc:43-56 | the miss is impossible if and only if the user thread registers at most one queue |
| LifecycleStranded.AbandonedIsNeverNotified | src/demultiplexer/EqHandler.cc:93-102 | a connection closed before it was ever CONNECTED is never notified, in any continuation |
| LifecycleStranded.AbandonedIsStranded | src/demultiplexer/CqDemultiplexer.cc:92-97 | a worker blocked on such a connection stays where it is in every continuation without a spurious wakeup |
| LifecycleStranded.StrandedExactly | src/demultiplexer/EqHandler.cc:96-101 | between EQ iterations, with no shutdown by the user under way, no continuation (spurious wakeups apart) lets a blocked worker go on if and only if the status has passed the gate; otherwise some run wakes it |
| LifecycleStranded.StrandsFrom | src/demultiplexer/CqDemultiplexer.cc:92-97 | from every idle state with a registered, unconnected connection a message followed by FI_SHUTDOWN strands the worker |
| LifecycleStranded.StrandedRun | src/demultiplexer/EqHandler.cc:93-102 | every client has such a run |
| LifecycleRuns.RegisterRun | src/demultiplexer/Proactor.cc:67-74 | register_handler without interference is a run of the machine whose net effect is one handler kept or added and one queue watched |
| LifecycleRuns.RemoveRun | src/demultiplexer/Proactor.cc:81-90 | likewise remove_handler: handler and watch go together, and an unregistered queue changes nothing |
| LifecycleRuns.InstalledAt | src/demultiplexer/EqHandler.cc:66-80 | after the five conditional installations each slot holds the handler's callback if there is one and the old one otherwise |
| LifecycleRuns.ConnectedRun | src/demultiplexer/EqHandler.cc:63-92 | the CONNECTED branch is a run: the assertion holds, all callbacks are in place, the gate is open, every waiter is woken |
| LifecycleRuns.CloseRun | src/demultiplexer/EqHandler.cc:93-102 | the CLOSE branch is a run: the assertions hold, the queue leaves all three places, the status is DOWN |
| LifecycleRuns.AcceptRun | src/demultiplexer/EqHandler.cc:35-62 | the ACCEPT branch is a run that registers the new queue with the listener's callbacks and the next CQ |
| LifecycleRuns.ConnectRun | src/service/Service.cc:154-174 | Service::connect is a run |
| LifecycleRuns.UserShutdownExact | src/service/Service.cc:206-215 | Service::shutdown(con) fires reap's assertion if and only if the peer's close was handled before; otherwise the queue is in none of the three places and the connection freed |
| LifecycleRuns.ReapFailsRun | src/service/Service.cc:206-215 | every client has a run in which reap's assertion fires |
| LifecycleRuns.FreedInUseRun | src/service/Service.cc:214 | every client has a run in which the user's shutdown frees a connection whose worker has a completion in hand |
| LifecycleRuns.WriteSlotRun | src/core/MsgConnection.cc:45-50 | a client without a write callback has a run that hands out whatever the write slot held |
| LifecycleRuns.GateRun | src/demultiplexer/CqDemultiplexer.cc:92-103 | a receive completion is a run that dispatches or blocks by the status it finds; the wait's return is WokenRun |
| LifecycleMessages.MessagesInOrder | src/demultiplexer/CqDemultiplexer.cc:87-118 | in every run the connections of the completions a worker has taken are, in order, those of the messages it has dispatched and the one it has in hand: none is dropped, doubled or overtaken |
| LifecycleMessages.WokenRun | src/demultiplexer/CqDemultiplexer.cc:93-97 | a worker whose wait returns, and that can take the lock, has a run that dispatches its own message with the connection's own callbacks if the status is at least CONNECTED, and waits on otherwise |
| LifecycleMessages.WaitingRun | src/demultiplexer/CqDemultiplexer.cc:92-103 | from every state in which FI_CONNECTED is about to be handled, a message that came too early has a run to its dispatch with all the service's callbacks |
| LifecycleMessages.HandedOut | src/demultiplexer/CqDemultiplexer.cc:101-102 | in every run, from the call of the receive callback on, the application has the connection and may send on it or shut it down |
| LifecycleMessages.EmptySnapshot | src/demultiplexer/EqDemultiplexer.cc:45-46 | with an empty snapshot the EQ thread can do nothing but time out, and then looks again |
| LifecycleMessages.TimeoutRun | src/demultiplexer/Proactor.cc:43-56 | a server whose EQ thread looked before it listened has a run that times out, finds the listener in the next snapshot and accepts on it |
| LifecycleMessages.CqsInTurn | src/core/MsgStack.cc:257-288 | in every run, whichever thread creates a connection, it is bound to the CQ numbered by the creations so far, modulo the workers |
| LifecycleMessages.RequestsByRole | src/core/MsgStack.cc:269-288 | CONNECT_REQ is a client's status and ACCEPT_REQ a server's |
| LifecycleCode.Reactor.TakeSnapshot | src/demultiplexer/Proactor.cc:46-51 | the snapshot holds exactly the handlers |
| LifecycleCode.Reactor.RegisterHandler | src/demultiplexer/Proactor.cc:67-74 | adds the handler unless the queue has one, and watches the queue |
| LifecycleCode.Reactor.RemoveHandler | src/demultiplexer/Proactor.cc:81-90 | removes handler and watch together; -1 for an unregistered queue |
| LifecycleCode.Reactor.Create | src/core/MsgStack.cc:257-274 | a new connection bound to the next CQ in turn, entered in conMap after its status is written |
| LifecycleCode.Reactor.ReapCon | src/core/MsgStack.cc:331-338 | erases the entry; fails exactly for a missing one |
| LifecycleCode.Reactor.InstallCallbacks | src/demultiplexer/EqHandler.cc:66-80 | the five conditional assignments are the fold that InstalledAt characterises |
| LifecycleCode.Reactor.HandleAccept | src/demultiplexer/EqHandler.cc:35-62 | the new state is the accept effect, and it is reachable in the machine |
| LifecycleCode.Reactor.HandleConnected | src/demultiplexer/EqHandler.cc:63-92 | the connection is there; the new state is the connected effect, and it is reachable |
| LifecycleCode.Reactor.NotifyOne | src/demultiplexer/EqHandler.cc:86 | with at most one waiter, waking one leaves none |
| LifecycleCode.Reactor.HandleClose | src/demultiplexer/EqHandler.cc:93-102 | the connection is there and reap succeeds; the new state is the close effect, and it is reachable |
| LifecycleCode.Reactor.DoListen | src/service/Service.cc:121-144 | the listener's queue is registered; the new state is reachable |
| LifecycleCode.Reactor.DoConnect | src/service/Service.cc:154-174 | the new state is the connect effect, and it is reachable |
| LifecycleCode.Reactor.DoShutdown | src/service/Service.cc:206-215 | succeeds if and only if the peer's close has not been handled; the new state is reachable |
| LifecycleCode.Reactor.OnRecv | src/demultiplexer/CqDemultiplexer.cc:92-103 | dispatched if and only if the status is at least CONNECTED, else the worker blocks; the new state is reachable |
| LifecycleCode.Reactor.OnWoken | src/demultiplexer/CqDemultiplexer.cc:93-103 | after the wait: dispatched if and only if the status is at least CONNECTED, else blocked again; the new state is reachable |
| ChunkMgr.PoolAllocator.Malloc | src/chunk/ChunkMgr.cc:22-48 | carves the block into consecutive chunks, registered in whatever context the static pointer designates |
| ChunkMgr.ChunkPool.SystemMalloc | src/chunk/ChunkMgr.cc:129-133 | the block is registered in this pool's context, whatever the pointer was before |
| ChunkMgr.ChunkPool.Get | src/chunk/ChunkMgr.cc:104-118 | one chunk leaves the free list under the id the map gives it (a missing key is inserted with id 0) |
| ChunkMgr.ChunkPool.GetById | src/chunk/ChunkMgr.cc:96-102 | the chunk of an id, null for an unknown one |
| ChunkMgr.ChunkPool.Reclaim | src/chunk/ChunkMgr.cc:120-125 | the chunk returns to the head of the free list |
| ChunkMgrProofs.BlockCount | src/chunk/ChunkMgr.cc:23-24 | (n*stride + trailer) / stride = n for every trailer below the stride |
| ChunkMgrProofs.CarveOk | src/chunk/ChunkMgr.cc:39-46 | carving a block outside all registered chunks keeps the maps inverse bijections onto 0..id-1 and the chunks disjoint inside their blocks |
| ChunkMgrProofs.CarveIds | src/chunk/ChunkMgr.cc:39-46 | the k-th chunk of a block gets the counter's old value plus k |
| ChunkMgrProofs.GetOk | src/chunk/ChunkMgr.cc:104-118 | a get keeps the invariant and returns a chunk that was not outstanding, registered under the id it is stamped with |
| ChunkMgrProofs.ReclaimOk | src/chunk/ChunkMgr.cc:120-125 | a reclaim of an outstanding chunk keeps it |
| ChunkMgrProofs.ReclaimThenGet | src/chunk/ChunkMgr.cc:104-125 | the chunk reclaimed last is the next one got, under its old id, and the pool is as before the two |
| ChunkMgrProofs.PoolRuns | src/chunk/ChunkMgr.cc:87-125 | after any gets and reclaims: bijection, disjointness, id = free + used_buffers, every chunk free or out and never both |
| ChunkMgrProofs.FreshOrderIds | src/test/ChunkPoolTest.cc:26-31 | without reclaims the k-th get returns id k across any growths, and get(k) is that chunk |
| ChunkMgrProofs.SecondIdExactly | src/chunk/ChunkMgr.cc:22-48 | the second chunk has id 1 if and only if the allocator's stride is boost's partition size; otherwise it is given the first one's id |
| ChunkMgrProofs.PoolSoundExactly | src/chunk/ChunkMgr.cc:64-66 | a pool keeps its whole invariant over all its runs if and only if buffer size plus header is a multiple of boost's alignment |
| ChunkMgrProofs.RoundedIsLeast | src/chunk/ChunkMgr.cc:64-66 | the partition boost uses is the least multiple of its alignment that holds a chunk |
| PoolContext.ContextIsolation | src/chunk/ChunkMgr.cc:55-62 | for any interleaving of gets and reclaims on any number of pools, of any buffer sizes, every chunk a pool has registered, keeps free or has given out lies in a block that pool asked for, and chunks of different pools never overlap |
| PoolContext.AlignedPools | src/chunk/ChunkMgr.cc:104-125 | and where every chunk size is a multiple of boost's alignment each pool keeps its whole invariant |
| PoolContext.MutexExactly | src/chunk/ChunkMgr.cc:104-118 | in every interleaving the mutex is free, and a get can begin, if and only if no thread is inside a get |
| PoolContext.GetRun | src/chunk/ChunkMgr.cc:104-133 | the statements of a get without interference are the get of the pool asked for, whatever the static pointer designated before, and give the mutex back |
| PoolContext.ReclaimThenGetRun | src/chunk/ChunkMgr.cc:104-125 | a reclaim touches its own pool only, and whichever thread gets from that pool next is given the same chunk and leaves the pools as they were |
| ReceiveWindow.MsgConnection.Init | src/core/MsgConnection.cc:103-145 | posts one chunk per iteration, the chunks successive gets return |
| ReceiveWindow.MsgConnection.ActivateRecvChunk | src/core/MsgConnection.cc:282-292 | posts one more |
| ReceiveWindow.WindowConserved | src/demultiplexer/CqDemultiplexer.cc:89-118 | in every run the outstanding chunks are partitioned into posted, held and in flight; a connection between dispatches has exactly buffer_num posted; the pool's total is free + connections*buffer_num + held + in flight |
| ReceiveWindow.ByIdIsSame | examples/ping-pong/server.cc:42-63 | the chunk a callback finds by its buffer id is the one that completed |
| ReceiveWindow.GetManyOk | src/core/MsgConnection.cc:104-108 | init obtains distinct chunks, none of them outstanding before |
| ReceiveWindow.RecvMoves | examples/ping-pong/server.cc:42-48 | a receive completion moves the chunk that completed to the send queue or to the application, and nothing else |
| ReceiveWindow.RepostMoves | src/core/MsgConnection.cc:282-292 | the repost gives the connection a chunk that was in nobody's hands, and its window is full again |
| ReceiveWindow.SendDoneMoves | examples/ping-pong/server.cc:58-63 | a send completion puts the very chunk that was sent at the head of the free list |
| ReceiveWindow.EchoRun | examples/ping-pong/server.cc:42-63 | receive, send completion and repost: the pool and all windows are as before, the received chunk posted again |
| ReceiveWindow.AppGetMoves | src/chunk/ChunkMgr.cc:104-118 | a get by the application gives it a chunk that nobody had |
| ReceiveWindow.AppSendMoves | src/core/MsgConnection.cc:161-168 | its send moves that chunk and no other to the send queue |
| ExternalPool.ExternalChunkMgr.Reclaim | src/chunk/ExternalChunkMgr.cc:59-67 | the first chunk of an id enters the map, the chunk the free vector |
| ExternalPool.ExternalChunkMgr.Get | src/chunk/ExternalChunkMgr.cc:48-57 | the last free chunk, null when none is free |
| ExternalPool.ExternalChunkMgr.GetById | src/chunk/ExternalChunkMgr.cc:43-46 | operator[]: the chunk the map has; a missing id is given a null that stays |
| ExternalPool.MemPool.AllocOne | java/hpnl/src/main/java/com/intel/hpnl/core/MemPool.java:47-53 | one buffer enters both maps under the next id |
| ExternalPool.MemPool.Realloc | java/hpnl/src/main/java/com/intel/hpnl/core/MemPool.java:37-41 | nextBufferNum of them |
| ExternalPool.MemPool.constructor | java/hpnl/src/main/java/com/intel/hpnl/core/MemPool.java:25-35 | initBufferNum of them |
| ExternalPool.Provision | java/native/com_intel_hpnl_core_EqService.cc:110-112 | the guard loop ends, in the state ProvisionedOk describes |
| ExternalPool.ProvisionedOk | java/native/com_intel_hpnl_core_EqService.cc:136-138 | the provisioning keeps both id maps in agreement, frees at least 2*bufferNum, overshoots by less than nextBufferNum, does nothing when enough is free |
| ExternalPool.ProvisionTerminatesExactly | src/external_service/ExternalEqService.cc:129 | the loop ends if and only if enough is free already or nextBufferNum is positive |
| ExternalPool.ExternalConnection.Init | src/core/MsgConnection.cc:104-144 | succeeds if and only if 2*bufferNum chunks are free, posting the 1st, 3rd, ... and keeping the 2nd, 4th, ... from the end; otherwise it has taken them all |
| ExternalPool.ConnectOneOk | java/native/com_intel_hpnl_core_EqService.cc:110-116 | guard and init together: no failure, 2*bufferNum chunks gone from the free vector, none of them given out before |
| ExternalPool.ConnectsConserve | java/native/com_intel_hpnl_core_EqService.cc:136-139 | over any number of connects no chunk goes to two connections, both id maps agree, free = allocated - 2*bufferNum*connects |
| ExternalPool.EarlyLookupExactly | src/chunk/ExternalChunkMgr.cc:43-46 | a lookup of an id makes the native side miss that buffer if and only if it is allocated only afterwards |
| ExternalPool.EarlyLookupFails | src/chunk/ExternalChunkMgr.cc:43-46 | looking the first id up before anything is allocated loses the first buffer |
| ExternalPool.LookupFinds | src/chunk/ExternalChunkMgr.cc:43-46 | where both sides agree, a lookup of an allocated id returns the chunk of that buffer's own memory, the one the Java map has, and changes nothing |
| ExternalPool.LookupExactly | src/core/MsgConnection.cc:170-173 | after any allocations, connects and lookups a lookup returns the buffer's own chunk if and only if the buffer is allocated and was not looked up before that; otherwise null |
| ExternalPool.FoundForEver | src/chunk/ExternalChunkMgr.cc:43-46 | a lookup that has found its chunk finds the same one after whatever follows |
| HpnlBuffers.HpnlBuffer.Put | java/hpnl/src/main/java/com/intel/hpnl/core/HpnlBuffer.java:102-120 | both overloads, with the caught ArithmeticException and the uncaught ones; only the byte buffer changes |
| HpnlBuffers.HpnlBuffer.PutMetadata | java/hpnl/src/main/java/com/intel/hpnl/core/HpnlBuffer.java:78-100 | the size check on Java ints, the new limit, then the header |
| HpnlBuffers.HpnlBuffer.Get | java/hpnl/src/main/java/com/intel/hpnl/core/HpnlBuffer.java:122-142 | both framings with every exception and what each leaves behind |
| HpnlBuffers.HpnlBuffer.ReadName | java/hpnl/src/main/java/com/intel/hpnl/core/HpnlBuffer.java:130-137 | the name goes into the reused name buffer, created by the first name |
| ByteBuffers.IntRoundTrip | java/hpnl/src/main/java/com/intel/hpnl/core/HpnlBuffer.java:96 | getInt after putInt for every 32-bit value |
| ByteBuffers.LongRoundTrip | java/hpnl/src/main/java/com/intel/hpnl/core/HpnlBuffer.java:86 | getLong after putLong for every 64-bit value |
| ByteBuffers.OctetsBigEndian | java/hpnl/src/main/java/com/intel/hpnl/core/HpnlBuffer.java:86 | byte i of n is the digit of weight 256^(n-1-i): the most significant comes first |
| ByteBuffers.SignedBigEndian | java/hpnl/src/main/java/com/intel/hpnl/core/HpnlBuffer.java:86-99 | and for negative numbers, in two's complement, byte i is (byte) (x >> 8*(n-1-i)) |
| HpnlBufferProofs.FrameBytes | java/hpnl/src/main/java/com/intel/hpnl/core/HpnlBuffer.java:84-99 | the frame byte by byte: kind at 0, MSG type at 1, sequence number at 2..9 and payload from 10; RDM name length at 1..4, name, type, sequence number and payload behind it, both numbers big-endian in two's complement |
| ByteBuffers.PutAllIsOneWrite | java/hpnl/src/main/java/com/intel/hpnl/core/HpnlBuffer.java:84-86 | a sequence of relative puts succeeds if and only if all of it fits, and is then one write of the concatenation |
| HpnlBufferProofs.FrameIsPuts | java/hpnl/src/main/java/com/intel/hpnl/core/HpnlBuffer.java:84-99 | what the puts write is the frame, field by field |
| HpnlBufferProofs.PutExactly | java/hpnl/src/main/java/com/intel/hpnl/core/HpnlBuffer.java:102-120 | put leaves the intact frame if and only if it fits the current limit |
| HpnlBufferProofs.PutRefused | java/hpnl/src/main/java/com/intel/hpnl/core/HpnlBuffer.java:102-110 | any other put throws or leaves the bare payload without its header |
| HpnlBufferProofs.PutOutcome | java/hpnl/src/main/java/com/intel/hpnl/core/HpnlBuffer.java:78-120 | every outcome of a put from the lengths alone: which exception and what it leaves, bare payload, or the whole frame |
| HpnlBufferProofs.GetMsgFrame | java/hpnl/src/main/java/com/intel/hpnl/core/HpnlBuffer.java:125-128 | a MSG frame is read back in full and leaves the name buffer alone |
| HpnlBufferProofs.GetRdmFrame | java/hpnl/src/main/java/com/intel/hpnl/core/HpnlBuffer.java:129-140 | an RDM frame is read back in full if and only if its name length is true and the reused name buffer has room |
| HpnlBufferProofs.GetExactly | java/hpnl/src/main/java/com/intel/hpnl/core/HpnlBuffer.java:122-142 | a get of any bytes whatever: which of the four exceptions, or which bytes become type, sequence number, name and payload |
| HpnlBufferProofs.RoundTripExactly | java/hpnl/src/main/java/com/intel/hpnl/core/HpnlBuffer.java:78-142 | put, delivery and get return type, seq, payload and name if and only if the frame fits the sender's current limit and the receiver, the name length is true and the receiver's name buffer has room |
| HpnlBufferProofs.PutRunExactly | java/hpnl/src/main/java/com/intel/hpnl/core/HpnlBuffer.java:79-83 | a run of puts on one buffer is intact if and only if each frame fits the frame before it; the limit is then the last frame's length |
| HpnlBufferProofs.LimitNeverGrows | java/hpnl/src/main/java/com/intel/hpnl/core/HpnlBuffer.java:79-83 | whatever is put, accepted or not, the limit never grows |
| HpnlBufferProofs.GetRunExactly | java/hpnl/src/main/java/com/intel/hpnl/core/HpnlBuffer.java:133-137 | a run of gets recovers every frame and its name if and only if names never get longer |
| HpnlBufferProofs.EqualNamesAlwaysFit | java/hpnl/src/main/java/com/intel/hpnl/core/HpnlBuffer.java:133-137 | in particular for names of one length |
| RdmConnections.RdmConnection.constructor | src/core/RdmConnection.cc:118-126 | a client's cache starts with its destination |
| RdmConnections.RdmConnection.PeerAddr | src/core/RdmConnection.cc:285-293 | the cached address, or a new insertion's |
| RdmConnections.RdmConnection.SendTo | src/core/RdmConnection.cc:203-219 | the chunk gets the address the cache gives its peer |
| RdmConnections.RdmConnection.SendBufTo | src/core/RdmConnection.cc:237-254 | likewise |
| RdmConnections.RdmConnection.SendToDest | src/core/RdmConnection.cc:163-171 | operator[] on the destination's key |
| RdmConnections.RdmConnection.Encode | src/core/RdmConnection.cc:268-294 | name, payload, size and address, with both early returns and what they leave |
| RdmConnections.EncodeExactly | src/core/RdmConnection.cc:268-294 | byte by byte what encode_ leaves: the name, then the payload, else the old bytes; the chunk's address is what the new cache has for the peer's key, a new insertion's if it had none; on the early returns size, address and cache are as before |
| RdmConnections.KeyExactly | src/core/RdmConnection.cc:281-283 | two peers share a cache key if and only if their printed addresses agree in each of the first 31 places |
| RdmConnections.RdmConnection.Decode | src/core/RdmConnection.cc:296-302 | name and payload by the receiver's own name length |
| RdmConnections.InsertedOnce | src/core/RdmConnection.cc:209-217 | over any mix of calls no peer is inserted into the address vector twice |
| RdmConnections.AddressesExactly | src/core/RdmConnection.cc:203-260 | every address picked is the insertion of that very peer if and only if no two peers involved share a cache key (printed address cut to 31 characters) |
| RdmConnections.MisdirectedRun | src/core/RdmConnection.cc:205-217 | two ports of one host share a key, and the second message goes to the first |
| RdmConnections.SendNeverInsertsZero | src/core/RdmConnection.cc:163-171 | a client's plain send always finds the address init inserted, and never adds an entry |
| RdmConnections.RoundTripExactly | src/core/RdmConnection.cc:268-302 | decode after encode and delivery returns the payload and the sender's name if and only if the name lengths agree and the message fits the sender's chunk and the receiver's |
| JavaTeardown.StepInv | java/native/com_intel_hpnl_core_EqService.cc:126-179 | one step keeps the per-queue invariant over the three maps, keeps what is torn down torn down, and lowers a status in one case only |
| JavaTeardown.TeardownExactlyOnce | java/hpnl/src/main/java/com/intel/hpnl/core/Connection.java:36-52 | in every reachable state an established connection is in all three maps and untouched, or in none, reaped once and handed to one native free |
| JavaTeardown.EitherSideTearsDown | src/external_demultiplexer/ExternalEqDemultiplexer.cc:100-107 | FI_SHUTDOWN and Connection.shutdown each tear the connection down, whichever comes first |
| JavaTeardown.GoneForEver | java/hpnl/src/main/java/com/intel/hpnl/core/EqService.java:115-121 | and no later step, further shutdowns included, changes that |
| JavaTeardown.NoticeExactly | java/hpnl/src/main/java/com/intel/hpnl/core/Connection.java:36-52 | over any run the shutdown callback of a connection is called once if the application ever shuts it down, else never; the flag is down exactly then |
| JavaTeardown.LatchBeforeEvents | java/hpnl/src/main/java/com/intel/hpnl/core/EqService.java:55-68 | a pollable queue that is not established has its status written, its native entry and, on a client, its latch |
| JavaTeardown.NeverFaulted | java/hpnl/src/main/java/com/intel/hpnl/core/EqService.java:123-146 | the EQ thread never meets a missing connection or latch |
| JavaTeardown.StatusFallsExactly | java/native/com_intel_hpnl_core_EqService.cc:166-172 | a status falls if and only if FI_CONNECTED ends after a connected callback that has shut its own connection down |
| JavaTeardown.ShutdownInCallback | java/native/com_intel_hpnl_core_EqService.cc:216-220 | such a callback always leaves a torn-down connection with status CONNECTED |
| JavaTeardown.FreedAfterTeardown | java/hpnl/src/main/java/com/intel/hpnl/core/Connection.java:90-96 | the native connection is freed only when it is torn down completely |
| JavaTeardown.StatusOfFreedExactly | java/native/com_intel_hpnl_core_EqService.cc:166-172 | the EQ thread's write of the status may follow the native free if and only if the callback has shut its own connection down |
| JavaTeardown.FreedUnderCallback | java/hpnl/src/main/java/com/intel/hpnl/core/Connection.java:90-96 | from every connected callback there is a run in which it does |
| JavaTeardown.CallbackRun | java/hpnl/src/main/java/com/intel/hpnl/core/EqService.java:136 | servers do run connected callbacks |
| JavaTeardown.DrainTearsDownAll | java/hpnl/src/main/java/com/intel/hpnl/core/EqService.java:251-256 | pendingReap tears down everything queued; repeated entries do no harm |
| JavaConnect.NoLatchExactly | java/hpnl/src/main/java/com/intel/hpnl/core/EqService.java:61-65 | connect's second lookup finds no latch if and only if the EQ thread has handled FI_CONNECTED completely since the queue was made pollable |
| JavaConnect.NoLatchRun | java/hpnl/src/main/java/com/intel/hpnl/core/EqService.java:143-144 | and there is such a run |
| JavaConnect.TimedReturnsNothing | java/hpnl/src/main/java/com/intel/hpnl/core/EqService.java:69-78 | a connect with a time-out never returns a connection, not even one established in time |
| JavaConnect.ConnectReturnsOwn | java/hpnl/src/main/java/com/intel/hpnl/core/EqService.java:66-68 | as long as no connect times out, every untimed connect that returns returns the connection it asked for |
| JavaConnect.AwaitExactly | java/hpnl/src/main/java/com/intel/hpnl/core/EqService.java:136-145 | a waiting untimed connect can return nothing but its own connection if and only if it cannot return at all, or no other queue is pollable and unestablished and none has come in between |
| JavaConnect.CanReturnExactly | java/hpnl/src/main/java/com/intel/hpnl/core/EqService.java:66-68 | some run has it return if and only if its own FI_CONNECTED has come or its queue is still polled; otherwise it waits for ever |
| JavaConnect.DeniedExactly | src/external_demultiplexer/ExternalEqDemultiplexer.cc:100-107 | FI_SHUTDOWN can still make it wait for ever if and only if its own FI_CONNECTED has not come |
| JavaConnect.SureExactly | java/hpnl/src/main/java/com/intel/hpnl/core/EqService.java:66-68 | it is bound to return its own connection if and only if that has come, was the last to come, and no other queue is pollable and unestablished |
| JavaConnect.HangingRun | java/hpnl/src/main/java/com/intel/hpnl/core/EqService.java:66-67 | there is a run in which it waits for ever |
| JavaConnect.LateConnectionRun | java/hpnl/src/main/java/com/intel/hpnl/core/EqService.java:70-72 | a timed-out connect leaves such a queue behind |
| JavaBinding.EqService.Connect | java/hpnl/src/main/java/com/intel/hpnl/core/EqService.java:55-62 | native entry, then latch, then the queue becomes pollable |
| JavaBinding.EqService.FindLatch | java/hpnl/src/main/java/com/intel/hpnl/core/EqService.java:64-65 | the second lookup; false if and only if the latch is gone |
| JavaBinding.EqService.EndConnect | java/hpnl/src/main/java/com/intel/hpnl/core/EqService.java:66-78 | what connect returns: the recorded connection without a time-out, null with one |
| JavaBinding.EqService.AcceptEvent | java/native/com_intel_hpnl_core_EqService.cc:134-141 | status and native entry before the queue becomes pollable |
| JavaBinding.EqService.OnConnected | java/native/com_intel_hpnl_core_EqService.cc:142-164 | the Java connection is made and entered; -1 if and only if the native one is missing |
| JavaBinding.EqService.AfterCallback | java/hpnl/src/main/java/com/intel/hpnl/core/EqService.java:137-145 | latch counted down and removed, status written; fails if and only if a client has no latch |
| JavaBinding.EqService.OnShutdown | src/external_demultiplexer/ExternalEqDemultiplexer.cc:100-107 | the native half and the Java half of a peer's close |
| JavaBinding.EqService.Shutdown1 | java/native/com_intel_hpnl_core_EqService.cc:206-221 | reaps if and only if the connection is there and not DOWN |
| JavaBinding.EqService.CloseConnection | java/hpnl/src/main/java/com/intel/hpnl/core/EqService.java:115-121 | queues the native free if and only if the Java entry is there |
| JavaBinding.EqService.ConnectionShutdown | java/hpnl/src/main/java/com/intel/hpnl/core/Connection.java:36-52 | the whole new state of a local shutdown, a second one included |
| JavaBinding.EqService.PendingReap | java/hpnl/src/main/java/com/intel/hpnl/core/EqService.java:251-256 | empties the queue, shutting down every entry in order |
| JavaGate.CallbacksBeforeData | java/native/com_intel_hpnl_core_EqService.cc:155-172 | whatever is handed to the Java connection finds its send buffers and all its callbacks in place, in every interleaving |
| JavaGate.EarlyExactly | java/hpnl/src/main/java/com/intel/hpnl/core/Connection.java:44-46 | it is handed over before the connected callback has returned if and only if that callback is in the middle of shutting its own connection down |
| JavaGate.EarlyRun | java/native/com_intel_hpnl_core_EqService.cc:216-220 | and there is such a run |
| JavaGate.MessagesKept | src/external_demultiplexer/ExternalCqDemultiplexer.cc:103-111 | in every run the messages that came are those handed over and the one the worker has; just those handed over between CONNECTED_EVENT and the removal from the Java map reach the connection |
| JavaGate.NoLostWakeup | java/native/com_intel_hpnl_core_EqService.cc:168-172 | a worker blocked while the status is CONNECTED has the notify to come next |
| JavaGate.StrandedExactly | src/external_demultiplexer/ExternalEqDemultiplexer.cc:100-107 | between two events no run releases a blocked worker, spurious wakeups apart, if and only if the connection has been closed |
| JavaGate.StrandedRun | src/external_demultiplexer/ExternalEqDemultiplexer.cc:103-104 | and there is a run that strands one |
| CleanDrain.StepInv | java/hpnl/src/main/java/com/intel/hpnl/core/EqThread.java:29-41 | one access of either thread keeps: what is queued is down, waiting or in hand; the walk misses nothing |
| CleanDrain.CleanDrain | java/hpnl/src/main/java/com/intel/hpnl/core/EqThread.java:29-37 | with no fatal EQ error, in every interleaving, when the EQ thread decides to free the service every queued connection and every one present at the start is down |
| CleanDrain.DrainExactly | java/hpnl/src/main/java/com/intel/hpnl/core/EqThread.java:30 | with fatal errors too: when the EQ thread finds the flag down and the queue empty, everything queued is down in every continuation if and only if the walk can queue nothing more |
| CleanDrain.DrainEnds | java/hpnl/src/main/java/com/intel/hpnl/core/EqThread.java:30-37 | without a fatal error, from every state behind the walk the EQ thread left to itself shuts down all that is queued, and all that was there at the start, and frees the service |
| CleanDrain.FatalErrorLeaks | java/hpnl/src/main/java/com/intel/hpnl/core/EqThread.java:31-33 | the fatal error does break it, from every state in which the walk holds a key and the EQ thread waits with an empty queue |
| CleanDrain.FatalErrorRun | java/hpnl/src/main/java/com/intel/hpnl/core/EqThread.java:31-36 | and there is a run in which the service is freed with a queued connection still up |
| CleanDrain.WalkStep | java/hpnl/src/main/java/com/intel/hpnl/core/EqService.java:90-93 | the walk over the HashMap throws only after the map has changed since it began |
| CleanDrain.WalkSafeExactly | java/hpnl/src/main/java/com/intel/hpnl/core/EqService.java:90-93 | with no other change of the map and no fatal error, no run aborts the walk if and only if conMap has at most one entry when it begins |
| CleanDrain.NeverAbortsExactly | java/hpnl/src/main/java/com/intel/hpnl/core/EqService.java:90-93 | with other changes allowed too, no run aborts the walk if and only if conMap is empty when it begins |
| CleanDrain.PeerCloseAborts | java/hpnl/src/main/java/com/intel/hpnl/core/EqService.java:90-93 | a close by the peer during the walk throws at the queueing of that connection, and otherwise at the next key |
| CleanDrain.DrainAbortsWalk | java/hpnl/src/main/java/com/intel/hpnl/core/EqService.java:251-256 | the step that does it: the EQ thread shuts down what the walk has queued while a key is still to come |
| CleanDrain.AbortedWalkRun | java/hpnl/src/main/java/com/intel/hpnl/core/EqService.java:90-98 | and there is a run to an aborted walk |
| CleanDrain.AbortedNeverFrees | java/hpnl/src/main/java/com/intel/hpnl/core/EqService.java:90-98 | after an abort, without a fatal error, the EQ thread never stops and nothing is freed |
| SendPathProofs.SendPathSound | java/hpnl/src/main/java/com/intel/hpnl/core/Connection.java:58-80 | in every run every send is in exactly one place (worker, flight, completed, lost to a put that threw), every buffer likewise, and only the owning CQ thread executes sends and holds buffers |
| SendPathProofs.PutLimitIsPut | java/hpnl/src/main/java/com/intel/hpnl/core/HpnlBuffer.java:102-110 | the put of the send path leaves the limit, or throws, as HpnlBuffer.put does |
| SendPathProofs.ThrowsExactly | java/hpnl/src/main/java/com/intel/hpnl/core/Connection.java:75 | put throws if and only if the payload exceeds the buffer's current limit or the frame's length overflows an int |
| SendPathProofs.ConservedExactly | java/hpnl/src/main/java/com/intel/hpnl/core/Connection.java:134-144 | every send, and then every buffer pushed at connect, is conserved if and only if no put of the run has thrown |
| SendPathProofs.StillWithWorker | java/hpnl/src/main/java/com/intel/hpnl/core/Connection.java:67-77 | a send neither completed, nor in flight, nor lost is still with its worker |
| SendPathProofs.OrderRequeue | java/hpnl/src/main/java/com/intel/hpnl/core/Connection.java:68-73 | putting a polled handler back keeps the order of arrival if and only if no other handler is waiting |
| SendPathProofs.FifoExactly | java/hpnl/src/main/java/com/intel/hpnl/core/CqService.java:99-105 | a worker keeps to the order of arrival throughout a run if and only if it never puts a handler back while another is waiting |
| SendPathHistory.BuffersInTurn | java/hpnl/src/main/java/com/intel/hpnl/core/Connection.java:67-76 | in every run the buffers pushed at connect and returned since are, in order, those taken for sends and then those idle |
| SendPathHistory.DeadExactly | java/hpnl/src/main/java/com/intel/hpnl/core/CqService.java:99-105 | in every run a CQ thread is dead if and only if the last handler that left its queue for good was lost to a put |
| SendPathSizes.SizesExactly | java/hpnl/src/main/java/com/intel/hpnl/core/HpnlBuffer.java:79-83 | with buffers that have room for every frame to begin with, no run loses a send if and only if any two payload sizes differ by just the ten bytes of the header |
| SendPathSizes.EqualSizesFit | java/hpnl/src/main/java/com/intel/hpnl/core/Connection.java:67-77 | sends of one size never make a put throw if it fits the buffers at the start, and are always framed if the header fits too, however often buffers are reused |
| SendPathRuns.LosingRun | java/hpnl/src/main/java/com/intel/hpnl/core/Connection.java:75 | payloads of 4 and 20 bytes through one buffer of 64 bytes lose the second send, the buffer and the CQ thread |
| SendPathRuns.OvertakingRun | java/hpnl/src/main/java/com/intel/hpnl/core/Connection.java:68-73 | three sends on one buffer leave in the order first, third, second |
| SendPathRuns.PollNowRun | java/hpnl/src/main/java/com/intel/hpnl/core/CqService.java:99-105 | polling and executing a handler is a run of the interleaved machine |
| SendPathRuns.HereNowRun | java/hpnl/src/main/java/com/intel/hpnl/core/Connection.java:66-78 | so is a send on the owning thread |
| SendPathRuns.CompleteNowRun | java/hpnl/src/main/java/com/intel/hpnl/core/Connection.java:187-189 | so is a completion |
| SendPathCode.CqService.AddExternalEvent | java/hpnl/src/main/java/com/intel/hpnl/core/CqService.java:95-97 | the handler joins the tail of its worker's queue |
| SendPathCode.CqService.NativeSend | java/hpnl/src/main/java/com/intel/hpnl/core/Connection.java:67-76 | the first idle buffer is filled and sent; false if and only if put throws, and then the buffer is nowhere |
| SendPathCode.CqService.Send | java/hpnl/src/main/java/com/intel/hpnl/core/Connection.java:58-80 | queued off the owning thread; on it sent from the first idle buffer, queued, or lost with an exception |
| SendPathCode.CqService.WaitExternalEvent | java/hpnl/src/main/java/com/intel/hpnl/core/CqService.java:99-105 | one waiting handler is executed, or put back at the tail, or ends the thread with an exception |
| SendPathCode.CqService.HandleSendEvent | java/hpnl/src/main/java/com/intel/hpnl/core/Connection.java:187-189 | the completed buffer is idle again |
| RmaRegistry.MsgStack.RegRmaBuffer | src/core/MsgStack.cc:296-314 | the four failures, the new chunk as the result, and insert keeps an entry that is there |
| RmaRegistry.MsgStack.UnregRmaBuffer | src/core/MsgStack.cc:316-324 | erases a live entry; of an absent one it leaves a null |
| RmaRegistry.MsgStack.GetRmaChunk | src/core/MsgStack.cc:326-329 | operator[] |
| RmaRegistry.MsgStack.ChooseCq | src/core/MsgStack.cc:257-259 | the CQ in turn; a failed init does not count |
| RmaRegistry.MapRefinesHistory | src/core/MsgStack.cc:296-329 | for every sequence of calls the map is what the history says of each id: absent, live with the first chunk registered since it was last unregistered, or a null pinned by a touch while unregistered |
| RmaRegistry.FoundExactly | src/test/CoreTest.cc:129-147 | a lookup returns a chunk if and only if it is the first since the last unregistration and the id was never touched while absent |
| RmaRegistry.RegisterExactly | src/core/MsgStack.cc:296-314 | a registration returns a chunk if and only if the stack is initialised, the buffer non-null, the size positive and mr given; it has just those four fields, also when the id is taken; an existing entry stays |
| RmaRegistry.RegisterThenLookup | src/core/MsgStack.cc:296-329 | a lookup after a registration returns the very chunk it returned if and only if the id was never touched while absent and holds such a chunk if it was registered before |
| RmaRegistry.RegisteredStays | src/test/CoreTest.cc:129-147 | and every later lookup does until the id is unregistered, whatever else is called in between |
| RmaRegistry.PinnedForEver | src/core/MsgStack.cc:326-329 | a lookup that found nothing makes every later one find nothing |
| RmaRegistry.RoundRobinBalanced | src/core/MsgStack.cc:280-288 | with n connections created, CQ i has n/workers of them, plus one if i < n mod workers |

## Left out

- Reads and writes of `status` outside the lock are taken as sequentially consistent, as are the Java fields two threads share without synchronisation.
- Fabric calls succeed unless a step says otherwise; fatal failures in the middle of accept, and a user-thread shutdown while the EQ thread handles an event, are excluded. FI_CONNREQ comes only on the listener and FI_CONNECTED at most once per queue; queue handles are not reused; a deleted connection gets no further completions.
- LifecycleSnapshot.SnapshotSound: a client is covered for one connect only, because two connects break the property.
- Lifecycle: the maps that connect and accept fill without a lock (`conMap`, shared by Service::connect and the EQ thread) are taken as if each access were atomic.
- LifecycleRuns.FreedInUseRun: what a worker does with a connection that the user's shutdown has freed under it is not modelled beyond the step itself; the same holds of a status written after the native free in JavaTeardown.
- LifecycleStranded.StrandedExactly: while the user is inside a shutdown call nothing is claimed, because that call may end in an assertion that stops the process.
- LifecycleCode.Reactor.HandleConnected: mutexes are free on entry, because waiting for them is the interleaved machine's business; init_addr is not modelled.
- LifecycleCode.Reactor.NotifyOne: the search for the waiter stands for the condition variable's own queue.
- ExternalPool.Provision: requires nextBufferNum to be positive, because otherwise the loop need not end (ProvisionTerminatesExactly says exactly when).
- ExternalPool.EarlyLookupExactly: says what a lookup by id does to the map; the binding's own such lookup (src/core/MsgConnection.cc:170-173) writes through the pointer before its null test, so for an unknown id the process fails there first.
- ChunkMgrProofs.PoolRuns: assumes the allocator's stride is boost's partition size, because otherwise the ids are wrong (PoolSoundExactly).
- SendPathCode.CqService.HandleSendEvent: the send callback sends nothing; callbacks that send are steps of the interleaved machine in SendPath.
- SendPath: connections stay open and native sends succeed, as a refused native send loses its buffer like a put that throws; native frees queued by delCon are not in the worker queues.
- JavaBinding.EqService.PendingReap: shutdown callbacks queue no further connections and do not shut their own connection down again, which would recurse without end.
- JavaTeardown keeps the `connected` flags of the Java connections in a map instead of one object each, and of their callbacks models only the connected one and how often the shutdown one is called.
- JavaConnect.HangingRun: that the waiting caller keeps the monitor on which EqService.shutdown then blocks is not a step of the model.
- JavaGate: one connection only, since connections share no state of it; the latch and the native free are in JavaTeardown.
- JavaBinding.EqService.AfterCallback: counting the latch down and removing it are one method here; in the machine they are two steps.
- CleanDrain takes HashMap's fail-fast check as certain and connection handles as not reused; delete_eq_event of the listening queue is not modelled.
- RmaRegistry.MsgStack.RegRmaBuffer: the address of the Chunk object and its lifetime are not modelled; seq_num and all id counters are unbounded integers.
- RdmConnections.RdmConnection.Encode: source and chunk buffers are disjoint; the fabric's printing of addresses is a parameter of which only the 32-byte cut is modelled.
- HpnlBuffers.HpnlBuffer.Get: running out of memory for a huge name is not modelled; the typed byte is the unsigned one.
- ExternalPool models buffers by address and id; memory registration handles are left out.
- Memory registration handles, `used_chunks` and destructors: the log is keyed before the id is stamped and erased while iterated, so there is no invariant to keep.
- `sendBuf` and heap-allocated contexts, `ExternalRdmCqDemultiplexer`, `init_addr`, resource setup and its cleanup: only easy members.
- The external CQ demultiplexer's gate is modelled in JavaGate with test and wait as one step; its event classification and spin times are left out.
- JNI marshalling, affinity, utilities, generated headers, examples, build files.
- libfabric, epoll, boost::pool, java.util collections: represented by the steps and contracts named above.
