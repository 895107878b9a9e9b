# Concurrency of vclnet, modelled and proved in Dafny

vclnet gives Go programs sockets over VPP's VCL session layer (VLS).  VLS may be
entered only from registered threads, hands out small handles that it reuses at
once, and takes a session into an epoll set only once; the code around it is
therefore a set of cooperating goroutines.  This project models that code and
proves what it promises:

| files | subject |
|---|---|
| Runs, Collections | runs of a step system; optional values and finite sets |
| WaitEngine, WaitTable, WaitLaws | wait sets with union masks over an epoll instance |
| Worker, WorkerClass | the tables of one Mode 2 worker |
| Handles, Sessions, DispatcherClass | virtual handles, owner map and session tables over a VLS that recycles raw handles |
| Retirement, RetirementLaws, Mode2, Mode2Laws, Mode2Progress, Mode2Witness | all workers, callers, queues, accept loops and the teardown of Mode 2 |
| Mode2Answers, Mode2Calls | what each closure answers and does; lookup, submit and progress |
| Mode2Queries, QueryWitness, Mode2Listeners | address and option calls on listeners; which of them a quiescing worker closes |
| FanIn, FanInLaws | the accept fan-in of a sharded listener |
| Poller, PollerClass, PollerSystem, PollerLaws | the shared poller of Mode 3 |
| VlsGate, VlsLaws | the Mode 3 lock between VLS calls, registration and teardown |
| Lifecycle | the registry of live objects and its drain notification |
| Deadline, DeadlineLaws, StreamWrite | resettable deadlines, the read and the write loop |
| Race, RaceSystem | address order and connection race (sections 4 and 5 of RFC 8305) |
| TlsKey, TlsCache | the certificate cache |
| PacketPeers | peer sessions of a packet connection |

Where the source updates an object in place there is a class whose methods are
proved equal to functions on values.  A module of threads is a step system: a
state, `Enabled` and `Do` for each step of each thread, an invariant, and a
lemma `RunsAreSound` that every state of every run satisfies it.  The steps use
the very functions the methods are proved against.  A section under a mutex is
one step unless another thread can change what it reads while it holds the
mutex; every foreign call may succeed or fail.

Conventions: an event mask is the set of its bit positions, so OR is union and a
non-zero AND a common element.  A channel that is only ever closed is a count of
its closes, because closing twice panics.  Time is a counter.  Raw handles are
any number VLS has not got open on that worker.

## What the code does not do

Each of these is a lemma about a concrete run or value.  The lemmas beside it
say what does hold, and under which condition.

- submit can return ErrClosed for an operation that ran (`Mode2Witness.RanButErrClosed`).
- An accepted connection can be left open when its listener closes: abandoned by its loop, refused at shutdown, or because its raw close failed (`FanIn.AbandonedAtStop`, `FanIn.RefusedAtShutdown`, `FanIn.ClosedInVain`; exactly when by `FanIn.CloseLeaksIff` and `FanIn.CloseLeaksNothingIff`).
- A quiescing worker leaves open the listeners its session table does not hold, such as one whose accept loop never waited (`Mode2Listeners.UnservedIsSpared`; exactly which by `Mode2Listeners.QuiesceClosesIff`).
- An address or option call on a listener can reach another caller's session (`QueryWitness.QueryTouchesStranger`; exactly when by `Mode2Queries.QueryReachesIff`).
- A shutdown that overtakes Mode 2 initialisation destroys the app under its workers (`Mode2Witness.DestroyedUnderWorker`; exactly when by `Retirement.OverrunIff`).
- A listener's handle turns negative from the 2^31-th allocation on (`Handles.ListenerHandleCollidesIff`).
- A Mode 3 waiter can be installed after its cancellation and after a close barrier (`PollerSystem.OvertakenRegistration`).
- A connection closed between addConn and its tracked flag keeps the registry undrained for ever (`DrainSystem.ClosedBeforeTracked`; exactly then by `DrainSystem.StaysForEverIff`).
- waitDrain can return false before its timeout; its comment says it blocks until then (`DrainSystem.FalseBeforeTimeout`; exactly when by `DrainSystem.FalseBeforeTimeoutIff`).
- CloseRead can leave a reader parked when SetReadDeadline races it; its comment says any parked reader is woken (`DeadlineSystem.CloseReadMissesReader`; exactly when by `DeadlineSystem.CloseReadMissesIff`).
- The same certificate pair can be registered twice; the comment on resolveCKPair says exactly once (`TlsCache.RegisteredTwice`; exactly when by `TlsCache.IssuedAgainIff`).
- A Read whose wait registrations are refused comes back to the same open channel without bound (`DeadlineSystem.RefusalsUnbounded`; exactly then by `DeadlineSystem.SameChannelIff`).
- A thread can be registered with a destroyed app, and an initialisation that overlaps shutdown leaves reads and writes enabled afterwards; the comment in shutdown.go says no goroutine re-enters VLS (`VlsGate.RegisteredAfterDestroy`, `VlsGate.LateCreationOpensGate`; exactly when by `VlsGate.EntersAfterDestroyIff`).
- A replaced peer session whose loop leaves because of stop is never closed (`PacketPeers.ReplacedSessionLeaks`).
- An IPv4 peer and one IPv6 peer share a key (`PeerKeys.FamiliesCollide`; exactly when by `PeerKeys.SameKeyIff`).

## Model

| member | source | states |
|---|---|---|
| `Mode2Laws.NoUseAfterClose` | internal/vclpoll/mode2.go:178-190 | A session call run by a worker reaches exactly the session created for its handle, on the worker that created it, and answers Done exactly if the session is the worker's own and the foreign call succeeds; it answers ErrClosed and changes nothing if and only if the handle has left the owner map, however raw handles were recycled between lookup and run; in all other cases it answers an error, and changes nothing if the session is not the worker's own |
| `Mode2Answers.RunAnswers` | internal/vclpoll/mode2.go:126-451 | Whatever a worker takes from its queue and runs, its one answer and its whole effect are the outcome of its kind: of the fourteen kinds of closure, in terms of handles, sessions and waiters |
| `Mode2Answers.CreateAnswers` | internal/vclpoll/mode2.go:149-205 | A session that VLS makes gets the counter's next value as its handle, new in the records, the owner map and the table, and stays open; or, if it is not the worker's own or the value is out of range, it is closed and nothing else changes; if VLS makes none the answer is an error |
| `Mode2Answers.AcceptAnswers` | internal/vclpoll/mode2.go:178-190 | The same for an accept through a handle, which reaches the handle's own listener; through a closed handle it answers ErrClosed, on a foreign session an error, without effect |
| `Mode2Answers.CloseAnswers` | internal/vclpoll/mode2.go:431-451 | A close answers Done exactly if rawClose succeeds; either way the handle leaves table and owner map, its waiters are woken once and its session counts one close more; the session stays open exactly if rawClose fails; everything else stays |
| `Mode2Answers.AddAnswers` | internal/vclpoll/worker.go:228-253 | Registering a waiter answers Done exactly if the handle is open, the session the worker's own and epoll either agrees or is not needed; then the waiter is parked beside the others and nobody is woken, otherwise nothing changes |
| `Mode2Answers.CancelAnswers` | internal/vclpoll/worker.go:255-280 | Cancelling answers whether the waiter had been woken; if it had not, it leaves its set, woken, and the other waiters of the session stay parked unless epoll refuses the narrower mask |
| `Mode2Answers.WakeAnswers` | internal/vclpoll/worker.go:291-297 | Waking a handle wakes its waiters once and nobody else |
| `Mode2Answers.ListenAnswers` | internal/vclpoll/shard_listener.go:57-78 | A listening session of the worker's own becomes a shard; any other is closed again |
| `Mode2Answers.ShardAddAnswers` | internal/vclpoll/worker.go:348-372 | Waiting on a raw listener, under its complement key, which enters the table even if epoll refuses |
| `Mode2Answers.ShardCancelAnswers` | internal/vclpoll/worker.go:375-401 | Withdrawing from it takes out one waiter; the key goes with the last |
| `Mode2Answers.ShardCloseAnswers` | internal/vclpoll/shard_listener.go:233-247 | Closing a shard takes it off the list whatever rawClose answers; the answer tells which |
| `Mode2Calls.LookupYields` | internal/vclpoll/mode2.go:165-171 | A lookup succeeds exactly for handles in the owner map and yields the worker and raw handle the session was born with |
| `Mode2Calls.SubmitOpenIff` | internal/vclpoll/mode2.go:126-130 | Calls on a looked-up handle and creations can be submitted exactly until stopping or shutdown has begun |
| `Mode2Calls.SubmitReturns` | internal/vclpoll/mode2.go:130-142 | A submitter sends while its worker's queue of 256 has room, can take its reply exactly once its operation was dequeued, and can return ErrClosed exactly once the worker has quiesced, also with a reply at hand |
| `Mode2Calls.RefusedUnrun` | internal/vclpoll/worker.go:141-144 | What is popped once stopping or shutdown has begun is answered ErrClosed unrun and without effect |
| `Mode2Calls.PoppedIsRun` | internal/vclpoll/worker.go:145-146 | What is popped before is run, once |
| `Mode2Calls.EventIsPrecise` | internal/vclpoll/worker.go:299-326 | An event handled by a worker wakes exactly the waiters of its key that it reaches, by a terminal bit or a bit of their mask; the others stay parked unless epoll refuses, and nothing else changes |
| `Mode2Calls.RetireOutcome` | internal/vclpoll/worker.go:156-159 | Retiring an entry counts one close of its session, whatever the answer, and takes the entry off table, owner map and shard list; all other sessions, handles and listeners stay |
| `Mode2Calls.ListenerEntry` | internal/vclpoll/shard_listener.go:80-95 | A listener is entered under a handle that no session ever had, and that nobody else has while it is positive |
| `Mode2Calls.InitialisationNeverStuck` | internal/vclpoll/mode2.go:56-86 | Until initialisation has succeeded or failed, its thread or the worker it waits for has an enabled step |
| `Mode2Calls.StopNeverStuck` | internal/vclpoll/mode2.go:90-112 | Until stop has returned, the stopping thread or a worker it has told to stop has an enabled step, whatever that worker is at |
| `Mode2Calls.DestructionNeverStuck` | internal/vclpoll/mode2.go:114-124 | So has the destroying thread or the bootstrap worker once stop has returned |
| `Mode2Laws.EveryTouchIsItsOwn` | internal/vclpoll/worker.go:217-226 | Over any run, every foreign call ever made for a session handle (read, write, accept, option, query, close) reached that handle's own session, and that stays true at every later point of the run; calls on a listener handle are the subject of Mode2Queries |
| `Mode2Queries.QueryReachesIff` | internal/vclpoll/mode2.go:455-497 | An address or option call on a listener reaches that listener exactly if its shard is still listed when the closure runs or the shard's close failed; otherwise it reaches whatever open session has the raw handle by then, or none |
| `Mode2Queries.RunsAreSound` | internal/vclpoll/mode2.go:431-451 | In every state of every run a session is open exactly until rawClose succeeded on it, and every shard ever made is listed or was closed |
| `QueryWitness.QueryTouchesStranger` | internal/vclpoll/mode2.go:486-497 | A concrete run: one caller queries a listener it found, a second closes it, a third creates a session that gets the raw handle, and the query reaches the third one's session |
| `Mode2Laws.HandlesKeepTheirSession` | internal/vclpoll/mode2.go:149-163 | Along any run a handle never comes to stand for another session, worker or raw handle |
| `Mode2Laws.OwnerMapAgrees` | internal/vclpoll/mode2.go:149-176 | In every reachable state the owner map names a worker and raw handle for a handle exactly when that worker's session table does, for every positive key |
| `Mode2.RunsAreSound` | internal/vclpoll/mode2.go:56-451 | The system invariant (tables, owner map, queues, operations, accept loops, retirement) holds in every state of every run, for any number of workers, callers and sessions, any interleaving and any outcome of the foreign calls |
| `Mode2.StepKeeps` | internal/vclpoll/mode2.go:126-190 | Each single step of any thread keeps the whole system invariant |
| `Mode2Laws.RunsOnlyOnTarget` | internal/vclpoll/worker.go:137-152 | An operation runs at most once, only on the worker it was submitted to, only while that worker drains its queue, and never once stopping is set or the app is not live |
| `Mode2Laws.ResultsAreReplies` | internal/vclpoll/mode2.go:126-142 | A dequeued operation has exactly one reply; what submit returns is that reply, or ErrClosed from a worker that has quiesced; any other result proves the operation ran |
| `Mode2Witness.RanButErrClosed` | internal/vclpoll/mode2.go:136-141 | A concrete reachable state: submit returned ErrClosed for an operation that ran and made a session |
| `Mode2Laws.SubmitterNeverStuck` | internal/vclpoll/mode2.go:126-142 | Every submitter that has not returned has an enabled step of its own or of its worker, even with a full queue or an operation enqueued after the last drain |
| `Mode2Laws.WorkerCanMove` | internal/vclpoll/worker.go:78-189 | A worker that has not quiesced is never blocked once initialisation has succeeded |
| `Mode2Progress.OperationAdvances` | internal/vclpoll/worker.go:78-189 | Every move of its worker brings a queued operation nearer to being popped, or pops it: its position falls, or the moves left before the next pop (wait batch, retirement stages, listed sessions) do |
| `Mode2Progress.OthersLeaveIt` | internal/vclpoll/mode2.go:126-142 | No step of anybody else sets it back |
| `Mode2Laws.WaiterPartition` | internal/vclpoll/worker.go:228-253 | A waiter whose registration was answered with success is parked under its handle and unwoken, or has left and was woken exactly once |
| `Mode2Laws.CancelAnswer` | internal/vclpoll/mode2.go:577-609 | The answer of a cancellation run by its worker is true exactly when something else had woken the waiter; afterwards it is woken |
| `Mode2Laws.PollWaitAnswers` | internal/vclpoll/mode2.go:589-608 | Of the other exits of pollWaitContext: true means woken; false means not woken unless the worker has quiesced; and exactly from then on the waiter has been woken and both answers are open |
| `Mode2Laws.EpollMirrorsWaitSets` | internal/vclpoll/worker.go:228-413 | On every worker in every reachable state epoll holds exactly one entry per wait set: the raw handle, key and OR of the masks of a session that is listed and open |
| `Mode2Laws.QuiescedWorkerClosedAll` | internal/vclpoll/worker.go:154-189 | A worker that has quiesced has an empty table; every session ever registered on it was closed exactly once and has left the owner map |
| `Mode2Listeners.QuiesceClosesIff` | internal/vclpoll/worker.go:154-160 | Over every continuation in which a worker quiesces, a raw listener of a worker that has left its loop ends up closed, once, unless at that moment it is still listed and its accept loop has not entered it into the session table; in that case it is not closed and stays open |
| `Mode2Listeners.UnservedIsSpared` | internal/vclpoll/shard_listener.go:109-181 | A listed listener whose accept loop was never started is such a case |
| `Mode2Laws.AppDestroyedLast` | internal/vclpoll/mode2.go:90-124 | The app is destroyed at most once; by a worker only after every started worker closed all its sessions and every other one finished its unregister call; by the Mode 3 dispatcher only with every worker up and none told to stop |
| `Retirement.OrderedDestroy` | internal/vclpoll/mode2.go:56-124 | The order in which the Mode 2 dispatcher tears down, on the control state alone, including initialisations that failed half way |
| `Retirement.OverrunIff` | internal/vclpoll/cgo.go:1518-1528 | An AppDestroy call that read the Mode 3 dispatcher, so before Mode 2 initialisation stored its own, destroys the app exactly if initialisation has stored appCreated by the time of the swap |
| `Retirement.OverrunMeans` | internal/vclpoll/dispatch.go:97-120 | Then every worker is up, none was told to stop, and nothing else ever destroys the app; if the swap came too early nothing ever destroys it |
| `Mode2Witness.DestroyedUnderWorker` | internal/vclpoll/dispatch.go:113-117 | A concrete run in which the app is destroyed under a running worker and then goes live |
| `Retirement.MainKeeps` | internal/vclpoll/mode2.go:56-124 | Every step of the initialising, stopping and shutting-down threads keeps the start-up and retirement order, with shutdown beginning at any time |
| `Retirement.MoveKeeps` | internal/vclpoll/worker.go:78-189 | Every control move of a worker keeps it |
| `RetirementLaws.WorkerWay` | internal/vclpoll/worker.go:78-189 | Where each move of a worker leads: registration, start, epoll handle, rounds of at most 64 operations and a batch of events with a stop check between rounds, and quiescence in the order waiters, sessions, queue, unregister or destroy |
| `RetirementLaws.InitFails` | internal/vclpoll/mode2.go:62-83 | A worker that cannot register or make its epoll handle makes initialisation fail, and the start signal is given in any case |
| `Sessions.ExecKeeps` | internal/vclpoll/mode2.go:178-451 | Whatever closure a worker runs, with any foreign outcomes, owner map, session tables, births and closes stay consistent: no session is closed twice, no handle is shared |
| `Sessions.RetireKeeps` | internal/vclpoll/worker.go:154-160 | Closing one listed session during quiesce keeps that consistency |
| `Sessions.ResolveMeans` | internal/vclpoll/worker.go:217-226 | A handle resolves on its worker exactly while it is in the owner map, and then to the open session it was born with |
| `Sessions.PublishKeeps` | internal/vclpoll/shard_listener.go:80-95 | Entering a listener in the owner map, without a handle check, keeps it within 2^32 allocations |
| `Sessions.UnpublishKeeps` | internal/vclpoll/shard_listener.go:245-245 | Removing the listener's entry keeps it |
| `DispatcherClass.Dispatcher.RegisterSession` | internal/vclpoll/mode2.go:149-163 | Updates counter, session table and owner map in place exactly as the specified registration does; the handle is the counter's next value if it fits 1..2^31-1 and the session is owned, otherwise the raw handle is closed |
| `DispatcherClass.Dispatcher.UnregisterSession` | internal/vclpoll/mode2.go:173-176 | Drops the handle from table and owner map and nothing else |
| `DispatcherClass.Dispatcher.QuiesceSessions` | internal/vclpoll/worker.go:154-160 | Every waiter is woken once, then the sessions are retired as specified, whatever their closes answer: every listed one closed exactly once, exactly their handles gone from the owner map |
| `DispatcherClass.Dispatcher.RetireSession` | internal/vclpoll/worker.go:156-159 | One turn of that loop, for either outcome of the close |
| `DispatcherClass.Dispatcher.CloseSessions` | internal/vclpoll/worker.go:156-159 | That loop by itself |
| `DispatcherClass.Dispatcher.DrainOps` | internal/vclpoll/worker.go:137-152 | Pops at most the limit in queue order; between consecutive recorded states each closure that is not refused is run and answered with its result, and each refused one is answered ErrClosed without effect |
| `DispatcherClass.RefusedBatch` | internal/vclpoll/worker.go:141-144 | Once stopping, a whole batch is answered ErrClosed and leaves the state as it was |
| `DispatcherClass.RoundRobin` | internal/vclpoll/mode2.go:144-147 | While the 32-bit counter does not wrap, any n picks in a row among n workers are all different |
| `Handles.HandlesCollideIff` | internal/vclpoll/mode2.go:154-159 | Two allocations get the same session handle exactly when both are usable and lie a multiple of 2^32 apart |
| `Handles.HandlesDistinct` | internal/vclpoll/mode2.go:154-159 | Within fewer than 2^32 allocations handles are pairwise distinct, positive, and never the complement key of a raw listener handle |
| `Handles.ListenerHandleCollidesIff` | internal/vclpoll/shard_listener.go:83-84 | The listener path takes the counter unchecked: its handle is negative, and equal to some raw listener's complement key, exactly from the 2^31-th allocation on |
| `WaitEngine.AddKeeps` | internal/vclpoll/worker.go:228-253 | Registration keeps union masks, epoll mirror and waiter accounting; a failed add or mod leaves everything unchanged |
| `WaitEngine.RemoveKeeps` | internal/vclpoll/worker.go:291-297 | Dropping a key wakes exactly its waiters, once, and removes its epoll entry |
| `WaitEngine.SettleKeeps` | internal/vclpoll/worker.go:299-326 | Waking any part of a wait set and settling the rest stays coherent whether or not the epoll mod succeeds |
| `WaitEngine.CancelKeeps` | internal/vclpoll/worker.go:255-280 | Withdrawing one waiter keeps coherence and leaves it woken exactly once |
| `WaitEngine.HandleKeeps` | internal/vclpoll/worker.go:299-326 | An event wakes every waiter of the key it reaches, once, and keeps coherence |
| `WaitEngine.WakeAllKeeps` | internal/vclpoll/worker.go:328-336 | At shutdown every waiter that ever joined ends up woken exactly once, with no wait set and no epoll entry left |
| `WaitEngine.EventInMaskWakes` | internal/vclpoll/poller.go:212-239 | Epoll is never armed for an event nobody parked asked for: an event inside the registered mask wakes somebody |
| `WaitEngine.FiresIff` | internal/vclpoll/poller.go:218-225 | An event reaches a waiter exactly if it contains bit 3, 4 or 13 or a bit of the waiter's mask |
| `WaitLaws.EventReaches` | internal/vclpoll/poller.go:212-239 | After the delivery of an event to a parked waiter, with the mod succeeding, it has been woken exactly if the event reaches it, and otherwise is still parked under its key |
| `WaitLaws.HandleLeaves` | internal/vclpoll/worker.go:299-326 | Delivery wakes exactly the waiters of the key that the event reaches, once; the others stay parked unless the OR of their masks is narrower and epoll refuses it, in which case all are woken; every other key keeps its waiters, epoll entry and wake counts |
| `WaitLaws.CancelLeaves` | internal/vclpoll/worker.go:255-280 | Withdrawing a parked waiter wakes it once and leaves the others of the key and all other keys in the same way; withdrawing any other changes nothing |
| `WaitLaws.RemoveLeaves` | internal/vclpoll/worker.go:291-297 | Removal of a key wakes its waiters once and touches no other key |
| `WaitLaws.AddJoins` | internal/vclpoll/worker.go:228-253 | Registration is refused exactly if it needs epoll, being the first or asking for a new bit, and epoll refuses; otherwise the waiter is parked with the others, nobody is woken, and epoll watches exactly the bits they ask for |
| `WorkerTables.CancelTellsWhoWoke` | internal/vclpoll/worker.go:255-289 | cancelWaiter answers true exactly when another party had woken the waiter |
| `WorkerTables.AddWaiterKeeps` | internal/vclpoll/worker.go:228-253 | Registration on a worker keeps its tables coherent; refused, it changes nothing |
| `WorkerTables.HandleEventKeeps` | internal/vclpoll/worker.go:299-326 | Event delivery keeps a worker's tables coherent |
| `WorkerTables.AddWaiterRawKeeps` | internal/vclpoll/worker.go:348-372 | Raw-listener waiters obey the same law under the complement key |
| `WorkerTables.CancelWaiterRawKeeps` | internal/vclpoll/worker.go:375-401 | So does their withdrawal, and the session entry goes only with the last waiter |
| `WorkerTables.RemoveWaitersRawKeeps` | internal/vclpoll/worker.go:405-413 | So does their removal at close, which leaves no epoll entry |
| `WorkerTables.WakeAllEmptiesEpoll` | internal/vclpoll/worker.go:328-336 | The epoll deletions of the shutdown loop cover every entry |
| `WaitLaws.CancelWaiterLeaves` | internal/vclpoll/worker.go:255-280 | The withdrawal law for cancelWaiter and its answer |
| `WaitLaws.CancelWaiterRawLeaves` | internal/vclpoll/worker.go:375-401 | The same for cancelWaiterRaw, and its key goes exactly with the last waiter |
| `WaitLaws.HandleEventLeaves` | internal/vclpoll/worker.go:299-326 | The delivery law for a worker's handleEvent |
| `WaitLaws.AddWaiterJoins` | internal/vclpoll/worker.go:228-253 | The registration law for addWaiter: it succeeds exactly if the handle is listed with this raw handle, the session is the worker's own, and epoll is not needed or agrees |
| `WaitLaws.AddWaiterRawJoins` | internal/vclpoll/worker.go:348-372 | The same for addWaiterRaw |
| `WorkerClass.Worker.AddWaiter` | internal/vclpoll/worker.go:228-253 | In place, exactly the specified registration |
| `WorkerClass.Worker.CancelWaiter` | internal/vclpoll/worker.go:255-280 | In place, exactly the specified withdrawal and its answer |
| `WorkerClass.Worker.RemoveWaiters` | internal/vclpoll/worker.go:291-297 | In place, exactly the specified removal |
| `WorkerClass.Worker.HandleEvent` | internal/vclpoll/worker.go:299-326 | In place, exactly the specified delivery; the branch that would drop waiters unwoken is unreachable |
| `WorkerClass.Worker.WakeAllWaiters` | internal/vclpoll/worker.go:328-336 | In place, every waiter woken once and the tables of waiters emptied |
| `WorkerClass.Worker.AddWaiterRaw` | internal/vclpoll/worker.go:348-372 | In place, exactly the specified raw-listener registration |
| `WorkerClass.Worker.CancelWaiterRaw` | internal/vclpoll/worker.go:375-401 | In place, exactly the specified raw-listener withdrawal |
| `WorkerClass.Worker.RemoveWaitersRaw` | internal/vclpoll/worker.go:405-413 | In place, exactly the specified raw-listener removal |
| `WaitTableClass.WaitTable.Join` | internal/vclpoll/poller.go:129-159 | Adds a waiter to its set under the union mask, or changes nothing when epoll refuses |
| `WaitTableClass.WaitTable.CombinedEvents` | internal/vclpoll/poller.go:241-247 | The loop computes the OR of all masks of the set |
| `WaitTableClass.WaitTable.WakeWaitSet` | internal/vclpoll/poller.go:253-257 | Every waiter of the set is woken exactly once, none twice |
| `WaitTableClass.WaitTable.WakeFired` | internal/vclpoll/poller.go:218-225 | The event loop wakes exactly the waiters the event reaches and returns the others |
| `WaitTableClass.WaitTable.Narrow` | internal/vclpoll/poller.go:233-238 | After waiters left, re-registers the narrower mask, or drops the set and wakes the rest when that fails |
| `WaitTableClass.WaitTable.Leave` | internal/vclpoll/poller.go:173-189 | Withdrawal of one parked waiter, in place |
| `WaitTableClass.WaitTable.Fire` | internal/vclpoll/poller.go:212-239 | Event delivery to one wait set, in place |
| `WaitTableClass.WaitTable.DropWaitSet` | internal/vclpoll/poller.go:259-263 | Removes the set and its epoll entry and wakes its waiters |
| `WaitTableClass.WaitTable.WakeEach` | internal/vclpoll/poller.go:113-118 | The loop over all wait sets wakes every parked waiter exactly once |
| `PollerSystem.RunsAreSound` | internal/vclpoll/poller.go:78-374 | The poller invariant holds in every state of every run of the poller goroutine, any number of waiting and closing callers, and the stopping thread, whatever epoll answers |
| `PollerSystem.WaiterPartition` | internal/vclpoll/poller.go:129-263 | A waiter is in exactly one place: with its caller, queued once, parked unwoken under its own handle, or gone and woken exactly once; no channel is closed twice |
| `PollerSystem.BarrierClears` | internal/vclpoll/poller.go:196-210 | The acknowledging step leaves the handle without wait set and without epoll interest, with every waiter that ever joined on it woken |
| `PollerSystem.BarrierSeparates` | internal/vclpoll/poller.go:102-109 | From the acknowledgement on, whoever is parked on the handle joined later, and no event fetched before the acknowledgement wakes such a waiter |
| `PollerSystem.CancelTakesEffectIff` | internal/vclpoll/poller.go:163-194 | A cancellation takes effect exactly when the waiter's registration has been drained before; otherwise it is lost and the registration is still queued |
| `PollerSystem.OvertakenRegistration` | internal/vclpoll/poller.go:102-104 | A concrete run in which a registration is overtaken by its own cancellation and by a close barrier, and is then installed although the caller returned and the handle is closed |
| `PollerSystem.TrueMeansWoken` | internal/vclpoll/poller.go:342-374 | pollWaitContext returns true only for a waiter that was woken; after the poller has halted every waiter that joined is |
| `PollerLaws.WokenReturnsTrue` | internal/vclpoll/poller.go:360-362 | A caller whose waiter has been woken can return at once, and the answer is true |
| `PollerLaws.FalseNeeds` | internal/vclpoll/poller.go:352-374 | A false answer is given up before registering, or follows an expiry, or the halt |
| `PollerLaws.FalseAfterExpiry` | internal/vclpoll/poller.go:359-374 | Over a run, a caller that was registered and waiting returns false only if it has expired in between or the poller has halted |
| `PollerLaws.PollerAdvances` | internal/vclpoll/poller.go:91-111 | Each move of the running poller serves a given non-empty queue from its head, or brings its loop nearer to serving it, by stages and then by what is left in the stage |
| `PollerLaws.OthersQueueUp` | internal/vclpoll/poller.go:319-374 | Callers neither move the poller nor overtake what is queued |
| `PollerLaws.CancellationIsPrecise` | internal/vclpoll/poller.go:161-194 | Serving a cancellation takes out its own waiter and leaves readers and writers of the same session, and everybody else, parked, unless epoll refuses the narrower mask |
| `PollerLaws.DeliveryIsPrecise` | internal/vclpoll/poller.go:212-239 | Serving an event wakes exactly the waiters of its session that it reaches |
| `PollerLaws.RegistrationIsPrecise` | internal/vclpoll/poller.go:129-159 | Serving a registration parks its waiter beside the others, or wakes it at once exactly if it needs epoll and epoll refuses |
| `PollerLaws.BarrierIsPrecise` | internal/vclpoll/poller.go:196-210 | Serving a close barrier wakes the waiters of its session and nobody else |
| `PollerLaws.StopWakes` | internal/vclpoll/poller.go:113-118 | Leaving its loop the poller wakes everybody who joined and empties wait sets and epoll |
| `PollerLaws.StopRejects` | internal/vclpoll/poller.go:119-127 | Then it wakes everybody still queued, and halts |
| `PollerSystem.NobodyStuck` | internal/vclpoll/poller.go:319-374 | Until the poller has halted it can move by itself; from then on every caller still inside a wait or a close barrier can return |
| `PollerSpec.InstallKeeps` | internal/vclpoll/poller.go:129-159 | A drained registration keeps waiter map, union masks and epoll in agreement, or wakes the waiter when epoll refuses |
| `PollerSpec.WithdrawKeeps` | internal/vclpoll/poller.go:163-194 | A drained cancellation keeps the agreement; of a waiter that never joined it does nothing |
| `PollerSpec.UnregisterKeeps` | internal/vclpoll/poller.go:196-210 | A drained close request empties the handle and wakes everybody who joined on it |
| `PollerSpec.DeliverKeeps` | internal/vclpoll/poller.go:212-239 | Delivering any event keeps the agreement even when the mod fails |
| `PollerSpec.WakeAllValid` | internal/vclpoll/poller.go:113-118 | Stopping wakes everybody who ever joined exactly once |
| `PollerSpec.UnregisterAllEmpties` | internal/vclpoll/poller.go:196-210 | A whole drain removes exactly the wait sets of the handles named and leaves the others as they were |
| `WaitLaws.InstallMeans` | internal/vclpoll/poller.go:129-159 | The registration law for the poller |
| `WaitLaws.WithdrawLeaves` | internal/vclpoll/poller.go:163-194 | The withdrawal law for the poller |
| `WaitLaws.DeliverLeaves` | internal/vclpoll/poller.go:212-239 | The delivery law for the poller |
| `PollerClass.Poller.DrainRegistrations` | internal/vclpoll/poller.go:129-159 | In place, the queue is installed in order and emptied |
| `PollerClass.Poller.DrainCancellations` | internal/vclpoll/poller.go:163-194 | In place, the queue is withdrawn in order and emptied |
| `PollerClass.Poller.DrainUnregistrations` | internal/vclpoll/poller.go:196-210 | In place, every request in the queue is served and acknowledged, in order |
| `PollerClass.Poller.HandleEvent` | internal/vclpoll/poller.go:212-239 | In place, exactly the specified delivery |
| `PollerClass.Poller.WakeAll` | internal/vclpoll/poller.go:113-127 | In place, everybody parked and every pending registration is woken exactly once |
| `FanIn.RunsAreSound` | internal/vclpoll/shard_listener.go:109-247 | Conservation and closing discipline hold in every state of every run of any number of accept loops, acceptors, quiescing workers, one closer and a shutdown that makes submit refuse, whatever every raw close answers |
| `FanIn.StepKeeps` | internal/vclpoll/shard_listener.go:109-181 | Each step moves an accepted connection from one place to one other place: in flight, queued, delivered, drained, lost to a quiesced worker, abandoned, or rejected by the registration |
| `FanIn.DeliveredOnce` | internal/vclpoll/shard_listener.go:198-215 | No connection is delivered or closed twice, and a delivered one is nowhere else |
| `FanIn.AfterClose` | internal/vclpoll/shard_listener.go:218-247 | When the listener is closed every accepted connection was delivered, drained, lost to its worker's quiesce, abandoned or rejected; all but the delivered, the abandoned and the refused have been closed once; an abandoned or refused one is listed exactly until its worker quiesces; and VLS holds exactly what was never closed or closed in vain |
| `FanIn.CloseLeaksIff` | internal/vclpoll/shard_listener.go:218-247 | A closed listener leaves an undelivered session open exactly if it was abandoned or refused on a worker that has not quiesced, or its raw close failed |
| `FanIn.CloseLeaksNothingIff` | internal/vclpoll/mode2.go:444-451 | Closing leaves no undelivered session open exactly when the worker of every abandoned and every refused connection has quiesced and every raw close of an undelivered one succeeded |
| `FanIn.AtMostOnePerShard` | internal/vclpoll/shard_listener.go:133-141 | Each shard abandons at most one connection |
| `FanIn.AbandonedAtStop` | internal/vclpoll/shard_listener.go:133-141 | A concrete run that abandons a connection which stays in its worker's table |
| `FanIn.RefusedAtShutdown` | internal/vclpoll/shard_listener.go:223-232 | A concrete run in which the closer's close of a drained connection is refused because shutdown has begun, nothing is abandoned, and the session stays open |
| `FanIn.ClosedInVain` | internal/vclpoll/mode2.go:444-447 | A concrete run, with nothing abandoned or refused, in which the raw close of a drained connection fails: its session is off the table, closed once, and stays open |
| `FanIn.CloseNeverStuck` | internal/vclpoll/shard_listener.go:218-247 | Until Close has finished the closer can move or a loop it waits for can: no full channel, parked waiter or quiesced worker holds it up |
| `FanIn.LoopNeverStuck` | internal/vclpoll/shard_listener.go:109-181 | An accept loop that has not returned can go on, but for a full channel that an acceptor can empty |
| `FanIn.ArrivalsInOrder` | internal/vclpoll/shard_listener.go:109-215 | The channel is first in, first out, for acceptors and the closer alike |
| `FanInLaws.AcceptRound` | internal/vclpoll/shard_listener.go:122-143 | A round that accepts a connection lists it with the worker and ends with the loop offering it |
| `FanInLaws.FailedRound` | internal/vclpoll/shard_listener.go:122-151 | A round whose accept fails, or whose connection cannot be registered and is closed, ends with the loop offering an error |
| `FanInLaws.IdleRound` | internal/vclpoll/shard_listener.go:153-180 | A round that finds nothing waits for readiness and then accepts again |
| `FanInLaws.OfferIsQueued` | internal/vclpoll/shard_listener.go:133-151 | What is offered is queued last; after a connection the loop goes on accepting, after an error it returns |
| `FanInLaws.QuiesceCloses` | internal/vclpoll/worker.go:154-160 | A quiescing worker closes exactly the listed connections of its shard, once each; exactly those whose close fails stay open |
| `FanIn.DrainAccepted` | internal/vclpoll/shard_listener.go:223-232 | The drain loop ends with every queued connection drained, exactly those, none delivered; refused are exactly those met after shutdown or found not owned, the others are off the table, and of those exactly the ones still listed whose raw close fails become open for ever |
| `FanIn.CreateShards` | internal/vclpoll/shard_listener.go:57-78 | One shard per worker in order, or, on the first refusal, every raw listener created so far submitted for closing once, in order; those whose submission is refused are left |
| `FanIn.ClosedOrLeft` | internal/vclpoll/shard_listener.go:42-52 | In that cleanup every raw listener created is either closed or left, once |
| `DrainSystem.RunsAreSound` | lifecycle.go:51-201 | The drain invariant holds in every state of every run of closers, dials, notifiers and waiters, with the dial counter changing between a check and its action |
| `DrainSystem.WaiterWillBeWoken` | lifecycle.go:151-192 | No lost wakeup: while the registry is drained and a waiter's channel is open, some goroutine still owes a notification and can move; when none is owed every waiter can return |
| `DrainSystem.ChannelsCloseOnce` | lifecycle.go:182-192 | Each drain channel is closed at most once, and the shared one is open |
| `DrainSystem.DialHoldsOff` | dialer.go:95-112 | From beginDial until its connection has been removed, a successful dial keeps the registry undrained |
| `DrainSystem.FalseBeforeTimeoutIff` | lifecycle.go:165-172 | A woken waitDrain answers false before its timeout exactly if something registered after the check that closed its channel is still registered |
| `DrainSystem.FalseBeforeTimeout` | lifecycle.go:165-172 | A concrete run in which waitDrain returns false before its timeout, against its comment, because a dial began in between |
| `DrainSystem.WaitBegins` | lifecycle.go:151-164 | A wait that finds the registry drained answers true at once; any other gets the one channel that all waiters share |
| `DrainSystem.WaitEnds` | lifecycle.go:165-172 | It can end by its channel exactly once that is closed, and by its timeout at any time, with the truth about the registry |
| `DrainSystem.StaysForEverIff` | conn.go:276-293 | Over all continuations of a run, a closed object stays registered for ever exactly if its Close read the tracked flag before that was set |
| `DrainSystem.LeakedForEver` | dialer.go:108-111 | An object closed before its flag was set stays registered for ever and the registry is never drained again |
| `DrainSystem.ClosedBeforeTracked` | dialer.go:108-111 | A concrete run that gets there |
| `Lifecycle.LiveRegistry.Add` | lifecycle.go:51-81 | Adds to the map of its category and touches no other |
| `Lifecycle.LiveRegistry.Remove` | lifecycle.go:57-88 | Removes, and closes the drain channel exactly if that drained the registry |
| `Lifecycle.LiveRegistry.EndDial` | lifecycle.go:94-98 | Uncounts it, and closes the drain channel exactly if that drained the registry |
| `Lifecycle.LiveRegistry.NotifyIfDrained` | lifecycle.go:182-192 | Closes the drain channel, once, exactly if the registry is drained, and forgets it |
| `Lifecycle.LiveRegistry.AwaitChannel` | lifecycle.go:151-164 | Yields the shared open channel, or none exactly if the registry is drained already |
| `Lifecycle.LiveRegistry.DrainedLocked` | lifecycle.go:196-201 | All three maps are empty and no dial is pending |
| `DeadlineSystem.RunsAreSound` | conn.go:36-100 | The deadline invariant holds in every state of every run of readers, setters, timers, stale callbacks, CloseRead, Close and shutdown |
| `DeadlineSystem.ClosedOnce` | conn.go:95-100 | No wait channel is closed twice, and a stale callback changes nothing |
| `DeadlineSystem.ClosedForAReason` | conn.go:218-234 | If the current channel is closed, the deadline has passed or the interrupting call had stored its flag before |
| `DeadlineSystem.DeadlineIsPending` | conn.go:36-65 | An open channel has a deadline exactly if a timer or callback is on its way; past the deadline it can run, and it closes the channel |
| `DeadlineSystem.RetriesBounded` | conn.go:140-172 | The close of a channel makes a Read retry at most once more than its deadline was set during the call, and no channel cancels two waits of one call |
| `DeadlineSystem.SameChannelIff` | conn.go:140-172 | A reader waits on the channel of its previous wait again exactly if the registration of that wait was refused and the deadline was not set in between |
| `DeadlineSystem.RefusalsUnbounded` | internal/vclpoll/mode2.go:583-588 | Refused registrations are not bounded: for every n there is a run in which a Read comes back n times to the same open channel |
| `DeadlineSystem.SameChannelEndsRead` | conn.go:140-172 | A reader cancelled by a channel that is still current does not wait again: one of its checks ends the call |
| `DeadlineSystem.ParkedAfterCloseRead` | conn.go:218-234 | A reader parked after CloseRead interrupted is on an open channel exactly if a SetReadDeadline came after the interrupt and the reader is on its channel, which is open |
| `DeadlineSystem.CloseReadMissesIff` | conn.go:140-234 | Once the interrupt is done, some continuation without a further SetReadDeadline leaves a reader parked on an open channel exactly if the channel is open, so set since the interrupt, and some reader past its half-close check has a path to it |
| `DeadlineSystem.CloseReadMissesReader` | conn.go:218-234 | A concrete run in which such a reader is parked with nothing pending to wake it, against the comment on CloseRead |
| `DeadlineLaws.SetMeans` | conn.go:36-65 | Setting a deadline closes the previous channel and makes a new one; the deadline in force is the one asked for, the channel is closed if it has passed, and otherwise open with exactly one timer, armed for that time |
| `DeadlineLaws.InterruptMeans` | conn.go:85-93 | An interrupt closes the current channel and disarms its timer, and leaves the deadline as it is |
| `DeadlineLaws.LastSetHolds` | conn.go:36-65 | Only SetReadDeadline changes the deadline in force, to what it was given |
| `DeadlineLaws.CancelledReaderAnswers` | conn.go:153-172 | A reader whose channel is closed gets away from it at once, and its checks answer end of file after CloseRead, closed after Close or shutdown, and timeout past the deadline, in this order; otherwise it waits on the current channel |
| `DeadlineLaws.CallAnswers` | conn.go:140-160 | A new Read goes through the same checks |
| `DeadlineLaws.CloseReaches` | conn.go:265-293 | Close goes on to the session once it has interrupted, and from then on a read answers closed |
| `DeadlineLaws.ReaderNeverStuck` | conn.go:140-172 | A reader that has not returned has an enabled step of its own; from a closed channel it is the cancellation |
| `Deadline.DeadlineState.SetDeadline` | conn.go:36-65 | In place, exactly the specified replacement of channel, deadline and timer |
| `Deadline.DeadlineState.OnTimer` | conn.go:56-63 | In place, a callback closes its channel only while that is current |
| `Deadline.DeadlineState.InterruptWaiters` | conn.go:85-93 | In place, disarms the timer and closes the current channel if open |
| `StreamWrite.Write` | conn.go:174-205 | A call that the state check refuses writes nothing, even of an empty buffer; otherwise the count returned is what the session accepted: a prefix of the buffer, in order, each byte once; complete exactly if it is the whole buffer |
| `RaceSystem.RunsAreSound` | dialer.go:172-243 | The race invariant holds in every state of every run over any number of addresses |
| `RaceSystem.SendsNeverBlock` | dialer.go:182-188 | A finished attempt can always send its result, whether or not anybody still receives |
| `RaceSystem.RaceIsBounded` | dialer.go:205-242 | At most 2n selects, something outstanding at every select, the return behind the loop is never reached, and all-failed only with every address started |
| `RaceSystem.StartsNext` | dialer.go:202-235 | Attempts start one at a time, in address order, none twice, and while one is left the timer that starts it is armed |
| `RaceSystem.AllFailedMeansAll` | dialer.go:213-215 | The last error is returned only when every address was tried and received as a failure |
| `RaceSystem.VerdictIff` | dialer.go:205-242 | The race is decided, once and for all, exactly by a success that is received, by the context, or by the failure that leaves nothing outstanding and no address to try; while it selects it can take any result at hand and the timer while that is armed |
| `RaceSystem.SuccessIsReturnedOrClosed` | dialer.go:189-201 | Once the closing goroutine expects nothing more, every connection made is the one returned or was closed exactly once |
| `RaceSystem.CloserIsFed` | dialer.go:189-201 | Until then a result is there for it or an attempt can send one |
| `Race.SelectDecreases` | dialer.go:205-242 | Every select that does not end the race decreases 2*(n - nextIdx) + outstanding + timerArmed |
| `Race.DialHappyEyeballs` | dialer.go:202-242 | The loop performs exactly the specified selects, at most 2n, reports all-failed only when every address was tried, nothing is outstanding and nothing succeeded, a winner only from a success, and never falls through |
| `Interleaving.InterleaveAddrs` | dialer.go:302-329 | The loops compute the closed form: IPv6 and IPv4 alternately for twice the shorter family, then the rest of the longer one |
| `Interleaving.InterleavingKeepsAll` | dialer.go:302-329 | That order is a permutation of the input and keeps the order within each family |
| `Interleaving.OrderOfTrial` | dialer.go:302-329 | An IPv6 address comes first if there is one; while both families last they take turns; the rest is of the longer one |
| `Interleaving.AlternatingKeeps` | dialer.go:302-329 | The same for any two families |
| `TlsKey.PutUint64BE` | tls.go:96-106 | Writes the eight base-256 digits, most significant first, and nothing behind them |
| `TlsKey.ValueOfDigits` | tls.go:96-106 | The digits determine the number |
| `TlsKey.EncodeInjective` | tls.go:83-94 | The hashed byte strings of two pairs are equal exactly if certificate and key are, however the bytes are split |
| `TlsCache.RunsAreSound` | tls.go:135-173 | The cache invariant holds in every state of every run of concurrent resolutions, with a store that recycles deleted indexes |
| `TlsCache.SameIndexIffSameBytes` | tls.go:135-173 | With a digest that does not collide, resolutions answer the same index exactly if certificate and key are the same bytes |
| `TlsCache.CachedForEver` | tls.go:135-173 | Over a run a cached index is never replaced, deleted or reissued |
| `TlsCache.EveryIndexAccountedFor` | tls.go:149-168 | Every issue of an index is matched by a deletion unless it is cached under one key, in flight at one config, or its deletion failed |
| `TlsCache.StoreIsCacheAtRest` | tls.go:149-168 | With nothing in flight and no failed deletion the store holds exactly the cached indexes |
| `TlsCache.CallsStoreIff` | tls.go:139-154 | A resolution calls the store exactly if its first look into the cache came before the insertion of its pair |
| `TlsCache.ResolutionGoesOn` | tls.go:135-173 | A resolution that has not ended can go on: a cached pair is answered from the cache, a new index is entered for its pair, or deleted again in favour of the one entered meanwhile |
| `TlsCache.IssuedPerEarlyCaller` | tls.go:139-169 | The store issues one index for a pair per resolution that looked before the insertion and whose call succeeded |
| `TlsCache.EarlyCallersOverlap` | tls.go:139-169 | Any two such resolutions of a pair overlapped in time |
| `TlsCache.IssuedAgainIff` | tls.go:139-169 | So a pair is issued more than once exactly if two of its resolutions overlapped, both looking before the insertion, and both calls succeeded |
| `TlsCache.RegisteredTwice` | tls.go:130-134 | A concrete run that registers the same bytes twice, against the comment that says exactly once |
| `VlsGate.RunsAreSound` | internal/vclpoll/cgo.go:725-788 | The lock, registry and teardown invariant holds in every state of every run of any number of goroutines and threads |
| `VlsGate.Exclusion` | internal/vclpoll/cgo.go:752-788 | No registration, creation or destruction overlaps any other call into VLS |
| `VlsGate.EachThreadOnce` | internal/vclpoll/cgo.go:752-764 | No OS thread is registered twice |
| `VlsLaws.OnlyRegisteredEnter` | internal/vclpoll/cgo.go:725-788 | In every state of every run whoever is in a VLS call, or past its registration, is on a registered thread; the creation of the app, which registers its own, is the only exception |
| `VlsLaws.NobodyStuck` | internal/vclpoll/cgo.go:725-788 | No deadlock: a goroutine that has not gone can go on, or somebody who holds the lock it waits for can |
| `VlsLaws.CallArrives` | internal/vclpoll/cgo.go:752-764 | A call on a registered thread goes straight to the read lock; on any other it locks, checks again, registers the thread, and then goes there |
| `VlsLaws.CallReturns` | internal/vclpoll/cgo.go:975-1001 | A call that returns lets go of the lock; then the poller goes to its next round, a read, write or accept that would block waits for readiness, and everything else is over |
| `VlsLaws.RefusedReturns` | internal/vclpoll/cgo.go:975-1001 | A call refused by the gate lets go of the lock and is over |
| `VlsGate.EntersAfterDestroyIff` | internal/vclpoll/cgo.go:975-1001 | After the destruction a goroutine enters VLS exactly by registering a thread that is not in the registry, or by a call that only pins, or by a read, write or accept whose app was created after BeginShutdown cleared appLive; the poller, the creator and the destroyer never do |
| `VlsGate.InsideAfterDestroy` | internal/vclpoll/cgo.go:1511-1528 | So whoever is inside VLS then is in the first registration of its thread, or in a pinned call, or the creation was late |
| `VlsGate.GateOpensIff` | internal/vclpoll/cgo.go:975-1001 | Under the read lock a read, write or accept goes on exactly while appLive holds, which after BeginShutdown is exactly when the creation stored it late |
| `VlsGate.RegisteredAfterDestroy` | internal/vclpoll/cgo.go:752-764 | A concrete run, with no late creation, in which a read, write or accept on a fresh thread registers it with the destroyed app: registration comes before the gate |
| `VlsGate.LateCreationOpensGate` | internal/vclpoll/cgo.go:725-743 | A concrete run, of a creation overlapping shutdown, in which a read enters VLS after the app is gone |
| `PacketPeers.RunsAreSound` | packetconn.go:73-155 | The peer-map invariant holds in every state of every run of accepts, re-accepts, read loops, readers and Close |
| `PacketPeers.ClosedOnceIff` | packetconn.go:233-261 | No peer session is closed twice; once Close has returned a session was closed exactly if it was not replaced or its loop left by a read error |
| `PacketPeers.ReplacementSurvives` | packetconn.go:147-155 | A peer's entry goes only by its own session's exit or by Close, and changes only by a later accept |
| `PacketPeers.ReplacedExitHarmless` | packetconn.go:147-155 | A replaced session that exits leaves the map as it is |
| `PacketPeers.ReplacedSessionLeaks` | packetconn.go:107-113 | A concrete run in which a replaced session leaves because of stop and is never closed |
| `PacketPeers.LoopStuckIff` | packetconn.go:117-128 | After stop a read loop cannot move by itself exactly if it is reporting an error into a full channel |
| `PacketPeers.LoopGoesRound` | packetconn.go:106-140 | While the channel has room a read loop reads, offers and reads again, and after a failed read removes and then closes its own session |
| `PacketPeers.ListedOnce` | packetconn.go:242-247 | Sessions are listed under one key each and unclosed, so Close closes none twice |
| `PacketPeers.PeerTable.Remove` | packetconn.go:147-155 | In place, removes the entry only if it is this session's, and closes the session |
| `PacketPeers.PeerTable.CloseAll` | packetconn.go:242-247 | The loop closes every listed session exactly once and empties the map |
| `PeerKeys.SameKeyIff` | packetconn.go:292-301 | Two peers, whatever their addresses' lengths, share a key exactly if their ports agree in 16 bits and their addresses are equal, or one, shorter in canonical form, becomes the other when zeros are appended |
| `PeerKeys.NoAddressIsZero` | packetconn.go:292-301 | An address of neither 4 nor 16 bytes is filed with 0.0.0.0 and ::, and with nothing else of its port but its like |
| `PeerKeys.KeyInjectivePerFamily` | packetconn.go:292-301 | Among addresses of one canonical length the key determines the peer |
| `PeerKeys.FamiliesCollide` | packetconn.go:292-301 | Two concrete addresses of different families with one key |

## Left out

- Mode2.RunsAreSound: speaks of runs with fewer than 2^32 handle allocations; `Handles.HandlesCollideIff` says what happens beyond.
- Mode2Laws.HandlesKeepTheirSession: same bound.
- Mode2Laws.EveryTouchIsItsOwn: same bound.
- Mode2Queries.RunsAreSound: same bound.
- Sessions.PublishKeeps: same bound.
- Mode2Laws.WorkerCanMove: states that some step is enabled, not that the scheduler takes it; so do the other lemmas about progress.
- TlsCache.SameIndexIffSameBytes: SHA-256 in hexadecimal is a function assumed not to collide; lengths are below 2^64.
- StreamWrite.Write: the session never accepts more than it was offered.
- FanIn.DrainAccepted: nobody else steps while it loops; the interleavings are in the step system.
- FanIn.RunsAreSound: the fan-in is a system of its own, with one listener and only the steps of worker and dispatcher that reach its connections; that these are steps of module Mode2 is not proved.
- DeadlineLaws.CallAnswers: a Read into an empty buffer, which returns after its first checks, is not modelled.
- Mode2Answers.RunAnswers: same bound of 2^32 allocations as Mode2.RunsAreSound.
- Mode2Listeners.QuiesceClosesIff: same bound of 2^32 allocations as Mode2.RunsAreSound.
- Mode2Progress.OperationAdvances: the measure is a position and a rank; a bound in numbers of moves would depend on the sessions made while the queue drains.
- Race.DialHappyEyeballs: the results and ticks come in as a script; the goroutines that produce them are in module RaceSystem.
- A submitted closure runs as one step on its worker, since only that worker touches its tables; the owner map is read and written by other goroutines between any two closures, and a closure's effect on it counts from its single write.
- Looking up a listener's handle where a session is expected panics in the source; callers are modelled as holding session handles.
- drainCloseNotifications and the close of the worker's own epoll handle: they give VPP time and change none of the state here.
- The rawClose inside a refused registration is taken to succeed, as its result is discarded.
- The write direction of a deadline is the same code as the read direction and is not repeated; packet connections use the same deadline type.
- What the foreign calls do to a session whose app the Mode 3 dispatcher has destroyed: they may answer anything.
- The contents of datagrams and addresses.
- connectWait's polling goroutine: it works around behaviour of VPP that is not in this repository.
- The C preamble, VPP and VLS internals, errno texts: foreign; represented by their outcomes.
- DNS resolution, error wrapping, HTTP transport, signals, TLS records, option parsing: single-branch code over libraries.
- Fairness, real time and poll intervals: only order and enabledness are stated.
- Memory ordering below Go's guarantees: every atomic load, store and mutex section is one step of a sequentially consistent interleaving.
