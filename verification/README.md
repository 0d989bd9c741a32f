# Etfw, verified

A Dafny model of the stateful parts of Etfw, an embedded application framework: the zero-copy message broker with
its reference-counted buffer pool, the blocking message queue, the active service runner, the service lifecycle,
the child registry and the executor, and two smaller pieces, the telemetry request lookup and the example message
scheduler. `dafny verify dfyconfig.toml` checks the whole project.

Code that several threads enter is modelled as a transition system whose steps are the single accesses and calls
between which another thread may run. Code that one thread runs at a time is modelled as classes whose methods
change their fields, each method's contract giving the new state.

| file | what it models |
|---|---|
| `Collections.dfy` | erase-remove, list linking, filtered walks, sublists |
| `Pool.dfy` | `MsgBufPool` and its counters |
| `Broker.dfy` | `subscription`, a queued pipe, `Buf` and `Broker` as objects |
| `BrokerProtocol.dfy`, `BrokerInvariant.dfy`, `BrokerTheorems.dfy`, `BrokerOrder.dfy`, `BrokerTraces.dfy` | senders, readers, subscription edits and the pool, interleaved; the counting invariant; what follows from it; the one order of all queues; what each call asked for against what comes of it |
| `MsgQueue.dfy` | `BlockingMsgQueue` and `QueuedRouter` as objects |
| `QueueProtocol.dfy` | one producer and one draining consumer, interleaved |
| `RunnerProtocol.dfy`, `RunnerTheorems.dfy`, `RunnerHooks.dfy`, `RunnerRace.dfy`, `RunnerOutcomes.dfy` | the active runner with `Os::Thread`; one worker at a time, accepted stops, the language of hook calls, the race in `stop()`, the State each end leaves and what start() then does |
| `Service.dfy`, `App.dfy`, `Executor.dfy` | `iSvc` gates, child registry and passive runner, executor |
| `Telemetry.dfy` | message IDs and the recursive request lookup |
| `Scheduler.dfy` | `MsgScheduler` |

## What is taken from outside the repository's files

ETL is not part of the repository's files. Three facts about it are used, all of which the broker's tests rely on:
a handle made from a `Buf` sets its count to 1, a copy adds one, a destruction subtracts one and releases at zero;
the broker visits each subscription once, taking the handle by value; subscribing a router that is already in the
list replaces its entry (here: in place), an unknown one is appended. The mutexes are modelled as what they make
atomic, the semaphore as a number, user hooks as arbitrary results, and initialisation of OS objects as successful.
Memory is sequentially consistent.

## Where the code and its promises part

* `Broker::send_buf` documents that the buffer must not be used after the call. If the buffer is smaller than a
  message header the code does nothing with it, so it stays with the caller and counts as in use until returned:
  `BrokerTheorems.TakenIffLargeEnough`.
* `iActiveRunnerExt::stop()` reads `State` and writes it in two steps. The worker's final write, EXITED after a DONE
  or ERROR after a failed `process()`, can fall between them; nothing else can, so a life in which no `process()`
  returned DONE or ERROR is never raced (`RunnerHooks.RacedOnlyAfterOwnEnd`). What then happens is exact. A worker
  that has not yet looked for a stop is caught: it stops its children and cleans up again
  (`RunnerHooks.CaughtStopsAgain`), its hook calls are a word of the language exactly if it was not caught
  (`RunnerHooks.HooksFormWord`), and it runs two successful cleanups exactly if it had EXITED and the second did not
  fail (`RunnerHooks.CleansTwiceIff`). A worker that has looked misses the stop: the runner stays at STOP_REQUESTED
  and can never be started again, exactly in that case (`RunnerTheorems.WedgedIffMissed`). `RunnerRace` gives a run
  of each kind. "At most one worker" and "an accepted stop ends the worker" hold without exception.
* A `post_run_cleanup` that returns ERROR inside the run loop is followed by another `process()`. One cleanup per
  life holds exactly if none failed: `RunnerHooks.OneSuccessfulCleanup`.
* A child whose start failed stays registered, and a second `start_child` is refused: `App.PassiveApp.StartChild`.
* `TlmReqHandler` accepts any stored message. A request resolves to its own message exactly if that is a telemetry
  message of the application with no earlier twin: `Telemetry.RequestResolvesIff`.

## Model

| member | source | states |
|---|---|---|
| `Pool.WaterMarkIsPeak` | src/msg/Pool.cpp:15-38 | Over any history of allocation attempts and disciplined releases the water mark, bumped by one only, is the maximum of ItemsInUse; ItemsInUse is allocations minus releases and never exceeds NumItems |
| `Pool.MsgBufPool.constructor` | src/msg/Pool.cpp:56-62 | A new pool of the given size has no history and nothing in use |
| `Pool.MsgBufPool.Allocate` | src/msg/Pool.cpp:111-120 | Succeeds exactly if an item is left; the counters move accordingly and the history grows by the attempt |
| `Pool.MsgBufPool.Release` | src/msg/Pool.cpp:81-99 | Gives one item back; the water mark and the allocation count stay |
| `Pool.MsgBufPool.HighWater` | inc/etfw/msg/Pool.hpp:22-28 | The reported mark is the highest number of items in use at once over the pool's own history |
| `Broker.Subscription.Subscribe` | inc/etfw/msg/Subscription.hpp:64-68 | Appends the ID, also a second time |
| `Broker.Subscription.Unsubscribe` | inc/etfw/msg/Subscription.hpp:73-79 | Removes every occurrence of the ID and keeps the others in order |
| `Collections.FilterPicks` | inc/etfw/msg/Subscription.hpp:73-79 | Erasing keeps the elements at exactly the remaining positions, from front to back |
| `Broker.Subscription.IsSubscribed` | inc/etfw/msg/Subscription.hpp:84-94 | True exactly if the ID is in the list |
| `Broker.Pipe.Receive` | test/test_msg_broker.cpp:226-232 | Queues one more handle, or drops the message when the queue is full |
| `Broker.Broker.constructor` | src/msg/Broker.cpp:12-17 | An empty subscription list over a pool of 100 |
| `Broker.Broker.RegisterPipe` | src/msg/Broker.cpp:34-40 | A new pipe goes to the end of the list, a known one keeps its place; the counter and the list move together exactly if it was new |
| `Broker.Broker.UnregisterPipe` | src/msg/Broker.cpp:42-48 | The pipe is gone from the list and no other; counter and list move together exactly if it was there |
| `Broker.Broker.Receive` | src/msg/Broker.cpp:23-26 | The delivery loop appends the buffer to exactly the subscribed pipes with room and adds one to the count for each |
| `Broker.TakersCount` | src/msg/Broker.cpp:23-26 | The count that delivery adds is the number of listed pipes that are subscribed and have room, each once |
| `Broker.Broker.SendBuf` | src/msg/Broker.cpp:19-32 | Afterwards the count is the number of queues that took the message; the buffer is back in the pool exactly if none did; a buffer below header size is untouched |
| `Broker.Broker.GetMessageBuf` | src/msg/Broker.cpp:50-54 | A fresh buffer exactly if the pool has one |
| `Broker.Broker.ReturnMessageBuf` | src/msg/Broker.cpp:56-63 | An unused buffer goes back; null is ignored |
| `Broker.Broker.Send` | inc/etfw/msg/Broker.hpp:163-178 | A copy of the whole message, in a buffer of its size, reaches every taking pipe, or the pool is empty and exactly one failure is counted and nothing else changes |
| `BrokerInvariant.InitInv` | src/msg/Broker.cpp:6-17 | The counting invariant holds of a fresh broker |
| `BrokerInvariant.StepInv` | src/msg/Broker.cpp:19-63 | Every step of every sender, reader, subscription edit and pool call keeps the invariant: counts equal handles, counters equal buffers, lock discipline, queue bounds, call records |
| `BrokerTheorems.CountIsHandles` | src/msg/Broker.cpp:19-32 | In every state of every interleaving a buffer's count equals the live handles to it (locals, parameters, queue slots, reader copies); with none left it has been released, or is about to be, once |
| `BrokerTheorems.NoUseAfterRelease` | src/msg/Pkt.cpp:23-26 | No copy, drop or pop ever touches a released buffer |
| `BrokerTheorems.HandlesAreLive` | src/msg/Broker.cpp:19-32 | A buffer in any queue, with any reader or in any sender's hands has not been released and no release of it is due |
| `BrokerTheorems.NothingTakenAway` | src/msg/Broker.cpp:19-48 | A reader about to pop finds the message it copied at the head; a thread inside a pipe's receive finds that pipe registered |
| `BrokerTheorems.ReleasedAtMostOnce` | src/msg/Pool.cpp:81-99 | Each buffer goes back to the pool at most once and never while a handle exists |
| `BrokerTheorems.AliveThroughDelivery` | src/msg/Broker.cpp:23-26 | From making the handle to its end the message is live, whatever early pipes' readers do; inside the loop two handles of the broker are counted |
| `BrokerTheorems.TakenIffLargeEnough` | src/msg/Broker.cpp:19-31 | send_buf takes a buffer over exactly if it can hold a header, with the ID its caller wrote and a count of 1; otherwise nothing changes |
| `BrokerTheorems.BuffersConserved` | src/msg/Pool.cpp:15-45 | ItemsInUse is allocations minus releases and the number of buffers owned, held or being released; it stays within the pool and is positive at every decrement |
| `BrokerTheorems.QuietMeansAllReturned` | inc/etfw/msg/Broker.hpp:201-209 | After any history, with queues drained and callers holding nothing, ItemsInUse is 0 and releases equal allocations |
| `BrokerTheorems.WaterMarkIsPeakOfRun` | src/msg/Pool.cpp:15-24 | Over any interleaving the water mark is the maximum of ItemsInUse |
| `BrokerTheorems.RoutingRefinesSets` | src/msg/Broker.cpp:34-48 | Registration and subscription on lists with duplicates simulate a set of registered pipes and a set of IDs per pipe, and no other step shows in it |
| `BrokerTheorems.DeliveredExactly` | src/msg/Broker.cpp:19-32 | Whatever edits, senders and readers overlap a send, its calls go in list order, each pipe once, and a pipe that did not change its mind about the ID meanwhile is called exactly if it is registered and subscribed; if none did, the calls are exactly those pipes |
| `BrokerTheorems.CalledAtMostOnce` | src/msg/Broker.cpp:19-32 | Also under edits no pipe is called twice with one message and only registered pipes are called |
| `BrokerTheorems.EveryCallQueuedOrFull` | test/test_msg_broker.cpp:226-244 | Every call led to a queued handle or found a full pipe; a queue's intake is what its reader popped, in order, and what is left |
| `BrokerTheorems.RefusedExactlyWhenFull` | test/test_msg_broker.cpp:226-232 | A pipe refuses exactly when full, and between its test and its push the queue cannot fill |
| `BrokerTheorems.FinishingDecreases` | src/msg/Broker.cpp:19-32 | Every step that finishes something begun lowers a natural-valued measure |
| `BrokerTheorems.NeverStuck` | src/msg/Broker.cpp:19-48 | Whatever callers hold, where a thread is in send_buf, a queue is not drained or a release is due, some thread can go on: no deadlock |
| `BrokerTheorems.EveryDrainEnds` | src/msg/Broker.cpp:19-32 | From any reachable state, finishing takes a bounded number of steps in any order |
| `BrokerTheorems.DrainedPoolIsWhole` | inc/etfw/msg/Broker.hpp:201-209 | When nothing is left to finish, no thread waits and the buffers in use are exactly those that callers hold; with none held the pool has every buffer back |
| `BrokerOrder.StepOrdered` | src/msg/Broker.cpp:19-32 | Every step keeps the order: each queue's intake is a sublist of the order in which senders took the lock, and the buffer in the section is the last of it |
| `BrokerOrder.QueueFollowsEntries` | src/msg/Broker.cpp:23-26 | In every interleaving a queue takes no message twice and takes them in the order in which the sends entered |
| `BrokerOrder.QueuesAgree` | src/msg/Broker.cpp:23-26 | Any two queues took the messages they have in common in the same order |
| `BrokerTraces.FixturesKept` | src/msg/Pkt.cpp:17-21 | Buffer sizes, queue depths and the numbers of items, threads and pipes never change |
| `BrokerTraces.AllocationGranted` | src/msg/Pool.cpp:64-79 | An allocation is granted exactly if an item is left; the buffer is new, owned by its caller, and keeps the size asked for; a refusal changes no buffer |
| `BrokerTraces.FailuresCounted` | inc/etfw/msg/Broker.hpp:163-178 | AllocateFailures is the number of sends that found the pool empty |
| `BrokerTraces.RegisteredIff` | src/msg/Broker.cpp:34-48 | Over any run a pipe is in the list exactly if some call registered it and none has unregistered it since |
| `BrokerTraces.SubscribedIff` | inc/etfw/msg/Subscription.hpp:64-79 | Over any run a pipe listens to an ID exactly if it was made to and no unsubscribe has ended that since, however often the ID was added |
| `BrokerTraces.MessageKept` | src/msg/Broker.cpp:19-26 | A message taken over keeps the ID its sender gave it and stays in that thread's hands |
| `BrokerTraces.DeliveredAsSent` | src/msg/Broker.cpp:19-26 | From the call of send_buf with an ID to the end of its loop: each pipe that neither began nor ceased to listen to that ID since the lock was taken is called exactly if it is registered and listens to it |
| `BrokerTraces.WhoMayStep` | src/msg/Broker.cpp:19-63 | Callers are held up by nothing but the lock and the rule to send and return only what they own |
| `QueueProtocol.StepInv` | inc/etfw/msg/BlockingMsgQueue.hpp:25-69 | Every step of producer and consumer keeps the agreement of queue, semaphore and histories |
| `QueueProtocol.PermitsMatchItems` | inc/etfw/msg/BlockingMsgQueue.hpp:25-69 | Queue length is permits plus the two operations under way; the assertion never fails and no wake-up is lost |
| `QueueProtocol.FirstInFirstOut` | inc/etfw/msg/BlockingMsgQueue.hpp:25-69 | Accepted messages are those handled, the one on its way, and the queue, in order, within the depth |
| `QueueProtocol.AcceptedExactlyWithRoom` | inc/etfw/msg/BlockingMsgQueue.hpp:25-69 | Over a run the queue is the bounded queue that its pushes and pops alone define: accepted are, in order, the values pushed when fewer than the depth were unpopped; the rest are refused |
| `QueueProtocol.RefusedOnlyWhenFull` | inc/etfw/msg/BlockingMsgQueue.hpp:37-45 | At every push of an interleaving a full queue refuses it and nothing else changes, else the value is the next one accepted |
| `QueueProtocol.DrainsInOrder` | inc/etfw/msg/Router.hpp:135-151 | A call of receive_msgs dispatches exactly the messages it took, in acceptance order; TIMEOUT exactly if none |
| `QueueProtocol.NothingLeftBehind` | inc/etfw/msg/Router.hpp:135-151 | When a take finds no permit only an item just being pushed can be in the queue |
| `QueueProtocol.DrainTerminates` | inc/etfw/msg/Router.hpp:135-151 | With k pushes meanwhile, the call ends after at most four steps per initial or new item and one more |
| `QueueProtocol.DispatchesBounded` | inc/etfw/msg/Router.hpp:135-151 | It dispatches at most the initial length plus k messages |
| `QueueProtocol.NobodyBlocks` | inc/etfw/msg/Router.hpp:135-151 | Producer and consumer have a step of their own in every state, a take without permit exactly if there is none |
| `MsgQueue.BlockingMsgQueue.constructor` | inc/etfw/msg/BlockingMsgQueue.hpp:19-23 | Empty queue, no permits |
| `MsgQueue.BlockingMsgQueue.Emplace` | inc/etfw/msg/BlockingMsgQueue.hpp:25-35 | Appends exactly if there is room |
| `MsgQueue.BlockingMsgQueue.Front` | inc/etfw/msg/BlockingMsgQueue.hpp:47-57 | Takes the head exactly if there is one |
| `MsgQueue.QueuedRouter.constructor` | inc/etfw/msg/Router.hpp:109-111 | An empty router for the given message types |
| `MsgQueue.QueuedRouter.Receive` | inc/etfw/msg/Router.hpp:113-120 | Queues accepted messages while there is room, drops the rest |
| `MsgQueue.QueuedRouter.ReceiveMsgs` | inc/etfw/msg/Router.hpp:135-151 | With no pushes meanwhile handles the whole queue in order; TIMEOUT exactly if it was empty |
| `RunnerTheorems.StepInv` | src/svcs/Runner.cpp:80-214 | Every step of control and workers keeps the relation of State, thread state and program places |
| `RunnerTheorems.OneWorkerAtATime` | src/os/posix/Task.cpp:11-34 | At most one worker is alive in every interleaving of start, stop and worker steps, also when a restart overlaps a worker's end |
| `RunnerTheorems.AcceptedStopEndsWorker` | src/svcs/Runner.cpp:114-123 | After any stop that returned OK, raced or not, State is never ACTIVE in that life, at most one process() begins, and the worker is gone after at most 12 of its own steps |
| `RunnerTheorems.EndsInFinalState` | src/svcs/Runner.cpp:156-214 | A worker past its last write leaves STOPPED, EXITED or ERROR, or a restart has begun, exactly if the runner is not wedged |
| `RunnerTheorems.RacedStopOutcome` | src/svcs/Runner.cpp:114-123 | A stop's write is no race exactly if it finds ACTIVE; else the worker had finished with EXITED or ERROR and is caught exactly if it has not yet looked for a stop; if it has, it misses the stop and the runner is wedged |
| `RunnerTheorems.WedgedForever` | src/svcs/Runner.cpp:80-123 | In every continuation of a run a wedged runner takes no start and no stop and stays wedged |
| `RunnerTheorems.WedgedIffMissed` | src/svcs/Runner.cpp:80-214 | In every reachable state the runner is wedged exactly if the newest worker missed a raced stop |
| `RunnerHooks.HooksFormWord` | src/svcs/Runner.cpp:134-214 | The hook calls of a life that is over form a word of a fixed language exactly if no raced stop caught its worker, and a life that was not caught, missed stops included, ends only where the language allows |
| `RunnerHooks.RacedOnlyAfterOwnEnd` | src/svcs/Runner.cpp:114-123 | A stop races only with a worker whose process() returned DONE or ERROR |
| `RunnerHooks.CaughtStopsAgain` | src/svcs/Runner.cpp:183-214 | A caught worker had ended itself, keeps that trace, and by its end has stopped its children and cleaned up exactly once more |
| `RunnerHooks.InitFirstAndOnce` | src/svcs/Runner.cpp:134-154 | In a word pre_run_init is first and once and all else presupposes that it returned OK |
| `RunnerHooks.WordOrder` | src/svcs/Runner.cpp:156-214 | In a word a failed process() and a successful cleanup come last, the children are stopped right before each cleanup and nowhere else, and after a DONE process() |
| `RunnerHooks.OneSuccessfulCleanup` | src/svcs/Runner.cpp:163-181 | In a word that ends with a successful cleanup all earlier cleanups failed: exactly one ran if and only if none failed |
| `RunnerHooks.CleansTwiceIff` | src/svcs/Runner.cpp:163-214 | A life that is over has run two successful cleanups exactly if it was caught after EXITED and the second did not fail, and never more than two |
| `RunnerHooks.CleanedExactlyOnce` | src/svcs/Runner.cpp:156-214 | Whenever STOPPED, or EXITED after process(), is about to be written, a successful cleanup was the last event; it is the only cleanup exactly if none failed and the worker was not caught after EXITED; successful ones are two in that case, else one |
| `RunnerRace.RaceCleansTwice` | src/svcs/Runner.cpp:114-123 | A run in which a raced stop makes one life clean up successfully twice |
| `RunnerRace.RaceCleansAfterError` | src/svcs/Runner.cpp:114-123 | A run in which a raced stop makes a life clean up once after its process() failed |
| `RunnerRace.RaceWedges` | src/svcs/Runner.cpp:114-123 | A run in which a raced stop wedges the runner |
| `RunnerOutcomes.FinalStateTold` | src/svcs/Runner.cpp:134-214 | Until the next start() a worker past its last write leaves the State its last events call for: EXITED after a pre_run_init that was DONE or the cleanup after a DONE process(), ERROR after any failure, STOPPED after any other successful cleanup; a missed stop is the one exception |
| `RunnerOutcomes.HookResultsRecorded` | src/svcs/Runner.cpp:134-214 | What a hook returns is what the trace records, there and only there |
| `RunnerOutcomes.CallsCounted` | src/svcs/Runner.cpp:156-161 | The count of process() calls that bounds an accepted stop is the number in the trace and one under way |
| `RunnerOutcomes.ChildrenStoppedFirst` | src/svcs/Runner.cpp:163-200 | In every life, raced or not, the children are stopped right before each cleanup and right after a DONE process() |
| `RunnerOutcomes.StartOutcome` | src/svcs/Runner.cpp:80-112 | start() is let in exactly from its five states; it gives one new worker if the last thread has ended and a thread is to be had, else ERROR and none |
| `RunnerOutcomes.RestartableIff` | src/svcs/Runner.cpp:84-88 | A runner whose worker is past its last write takes a start(), from STOPPED, EXITED and ERROR alike, exactly if it is not wedged |
| `RunnerOutcomes.NobodyWaits` | src/svcs/Runner.cpp:114-123 | stop() is let in exactly from ACTIVE, and a live worker can always take its next step |
| `Service.LifecycleLanguage` | src/svcs/iSvc.cpp:20-97 | For all API calls and hook results the successful hook calls are a prefix of (init (start stop)* cleanup)* and the flags say where in it |
| `Service.AnswersByPhase` | src/svcs/iSvc.cpp:20-97 | What every call answers in every phase of the lifetime: UNINIT_ERR, ALREADY_INIT, STOPPED or ALREADY_STARTED as spelled out, else the hook's own result; the hook calls grow exactly if that is OK |
| `Service.StartedImpliesInit` | src/svcs/iSvc.cpp:34-97 | IsStarted implies IsInit |
| `Service.Svc.constructor` | src/svcs/iSvc.cpp:13-18 | Neither initialised nor started |
| `Service.Svc.DoInit` | src/svcs/iSvc.cpp:20-32 | Gate, hook and flag of init |
| `Service.Svc.DoStart` | src/svcs/iSvc.cpp:34-55 | Gates, hook and flag of start |
| `Service.Svc.DoStop` | src/svcs/iSvc.cpp:57-76 | Gates, hook and flag of stop |
| `Service.Svc.DoCleanup` | src/svcs/iSvc.cpp:78-97 | Gates, hook and flag of cleanup |
| `App.Registry.constructor` | inc/etfw/svcs/iSvc.hpp:102-108 | An empty registry |
| `App.Registry.FindSvc` | inc/etfw/svcs/iSvc.hpp:135-147 | The service with the ID, or null exactly if there is none |
| `App.Registry.RegisterSvc` | inc/etfw/svcs/iSvc.hpp:113-133 | IDs stay distinct and within capacity; the duplicate answer precedes the full answer |
| `App.PassiveApp.constructor` | inc/etfw/svcs/App.hpp:161-164 | A new application, neither initialised nor started, with no hook calls and room for 16 children |
| `App.PassiveApp.RegisterChild` | src/svcs/App.cpp:14-31 | The three answers and the registry after each |
| `App.PassiveApp.StartChild` | src/svcs/App.cpp:33-49 | Starts only a newly registered child; a failed start leaves it registered |
| `App.PassiveApp.StopChildren` | src/svcs/Runner.cpp:19-32 | Every child is stopped as by its own stop, none is skipped, nothing else changes |
| `App.PassiveApp.DoInit` | src/svcs/iSvc.cpp:20-32 | Initialising changes only the flags |
| `App.PassiveApp.DoStart` | src/svcs/Runner.cpp:47-52 | pre_run_init runs exactly when the gate passes; the two hooks alternate strictly |
| `App.PassiveApp.DoStop` | src/svcs/Runner.cpp:54-62 | Children first, then post_run_cleanup; at the cleanup a child's flag is set only if its own stop hook failed; the two hooks alternate strictly |
| `App.PassiveApp.DoCleanup` | src/svcs/iSvc.cpp:78-97 | Cleaning up changes only the flags |
| `App.NewAppWithChildren` | src/svcs/App.cpp:14-31 | A new application takes any 16 children with different IDs, in order, and answers REGISTRY_FULL to every further one |
| `Executor.BroughtUpRuns` | src/svcs/Executor.cpp:132-161 | An application runs afterwards exactly if it ran before or every hook still due succeeded |
| `Executor.Executor.constructor` | inc/etfw/svcs/Executor.hpp:98-101 | An empty list with a capacity |
| `Executor.Executor.Find` | src/svcs/Executor.cpp:11-25 | The application with the ID, or null exactly if there is none |
| `Executor.Executor.RegisterApp` | src/svcs/Executor.cpp:45-79 | IDs stay distinct and within capacity; the full answer precedes the duplicate answer; new ones go to the front |
| `Executor.Executor.StartAll` | src/svcs/Executor.cpp:132-161 | Each application ends as if brought up alone; no failure reaches another; always OK |
| `Executor.Executor.BringUp` | src/svcs/Executor.cpp:163-203 | One application's way up inside start(id) and the four answers |
| `Executor.Executor.StartOne` | src/svcs/Executor.cpp:163-203 | Only the named application changes, and the answer tells how far it got |
| `Executor.Executor.StopAll` | src/svcs/Executor.cpp:205-216 | Each application is stopped as by its own stop |
| `Executor.Executor.StopOne` | src/svcs/Executor.cpp:218-259 | Only the named application changes; the answer is OK even if its stop failed |
| `Telemetry.LayoutInNumbers` | inc/etfw/msg/Message.hpp:116-123 | An ID is module * 65536 + type * 256 + function |
| `Telemetry.ExtractPacked` | inc/etfw/msg/Message.hpp:94-123 | The three extractors undo packing for 8-bit fields |
| `Telemetry.PackExtracted` | inc/etfw/msg/Message.hpp:94-123 | Packing undoes extraction exactly for IDs with a clear top byte |
| `Telemetry.PackingInjective` | inc/etfw/msg/Message.hpp:116-123 | Different fields give different IDs |
| `Telemetry.ConversionSetsType` | inc/etfw/msg/Message.hpp:82-87 | Conversion replaces the type field only |
| `Telemetry.ConversionInNumbers` | inc/etfw/msg/Message.hpp:82-87 | For every ID conversion puts 2 into the type byte and leaves the other three bytes |
| `Telemetry.ConversionIdempotent` | inc/etfw/msg/Message.hpp:82-87 | Converting twice is converting once |
| `Telemetry.FindsFirst` | inc/etfw/msg/TlmReqHandler.hpp:39-60 | The recursion finds the first stored message with the request's telemetry ID and fails exactly if there is none |
| `Telemetry.RequestFields` | inc/etfw/msg/TlmReqHandler.hpp:81-94 | A made request has the application's module, type 4 and the message's function |
| `Telemetry.RouterTakesRequests` | inc/etfw/msg/TlmReqHandler.hpp:121-127 | The router listens to one such request per stored message, in order, and to no telemetry ID |
| `Telemetry.RequestNamesTelemetry` | inc/etfw/msg/TlmReqHandler.hpp:90-94 | A made request stands for a message exactly if that is the application's telemetry message with this function |
| `Telemetry.RequestResolvesIff` | inc/etfw/msg/TlmReqHandler.hpp:108-130 | The k-th request the router is built from resolves to the k-th message exactly if that is telemetry of the application with no earlier twin |
| `Scheduler.EmissionMembers` | examples/Messaging/MsgScheduler.hpp:53-63 | A tick emits a message exactly if an entry in use carries it and its period divides the count |
| `Scheduler.EmittedInTableOrder` | examples/Messaging/MsgScheduler.hpp:53-63 | Each tick's messages come, one each and in table order, from exactly the entries in use whose period divides the count |
| `Scheduler.SentAsOwed` | examples/Messaging/MsgScheduler.hpp:48-64 | After N ticks each message has been sent as often as the sum of floor(N / W) over the entries in use that carry it |
| `Scheduler.EverythingHasSender` | examples/Messaging/MsgScheduler.hpp:48-64 | Every message sent is put down to an entry that carries it |
| `Scheduler.SentPerEntry` | examples/Messaging/MsgScheduler.hpp:48-64 | After N ticks each entry in use with period W has sent exactly floor(N / W) times, also where entries share a message; the others never |
| `Scheduler.SentPerPeriod` | examples/Messaging/MsgScheduler.hpp:48-64 | An entry in use with period W whose message no other entry carries has been sent exactly floor(N / W) times after N ticks |
| `Scheduler.MsgScheduler.constructor` | examples/Messaging/MsgScheduler.hpp:42-46 | The table has 10 entries: those given, the rest unused |
| `Scheduler.MsgScheduler.Run` | examples/Messaging/MsgScheduler.hpp:48-64 | One tick adds exactly the due messages in table order; the counter wraps at 2^64 |
| `Scheduler.MsgScheduler.SentInTime` | examples/Messaging/MsgScheduler.hpp:48-64 | Until the counter wraps the bus has seen every message as often as it was due, and from each entry floor(N / W) times |

## Left out

- Heap updates in the interleaved parts: the broker, queue and runner protocols are on values, with buffers, pipes and threads named by position; the classes in `Broker.dfy` and `MsgQueue.dfy` show the same code updating objects, one caller at a time.
- BrokerTheorems.DeliveredExactly: for a pipe that changes its mind about the ID during the loop only `CalledAtMostOnce` holds, because the code edits ID lists without the broker lock; an ID list changes in one step here.
- `Broker::Stats::AllocateFailures` is incremented outside every lock (inc/etfw/msg/Broker.hpp:176, 197), so concurrent failures can lose an update; the interleaved model increments it in one step with the failed allocation (`BrokerTraces.FailuresCounted`), which is an upper bound for the code.
- BrokerTheorems.BuffersConserved: assumes that a caller sends or returns a buffer at most once and only its own, as the header demands.
- Pool.MsgBufPool.Release: requires a buffer to be in use, as the header demands; the wrap of the 64-bit counters is not modelled.
- App.PassiveApp.RegisterChild: a child other than the application itself; the code accepts the application as its own child and its stop() then calls itself without end.
- App.PassiveApp.StartChild: the same, a child other than the application itself.
- Executor.Executor.StopOne: requires a registered ID, because the code reads through the null pointer it has just found otherwise.
- Scheduler.SentPerEntry: holds until the 64-bit tick counter wraps; `Run` itself models the wrap.
- Scheduler.MsgScheduler.constructor: entries in use must have a period above 0 and fit the table; with a period of 0 the code divides by zero, and it copies a longer list past its table.
- QueueProtocol.DrainTerminates: a take interrupted by a signal is not distinguished from one that times out.
- RunnerTheorems.OneWorkerAtATime: one control thread per runner; several threads calling start() at once are outside the protocol.
- `IsStarted` against runner activity: the application and child start hooks report OK whatever the runner answers, so nothing is claimed.
- Waiting for child threads before cleanup: the code marks it as to be done.
- POSIX wrappers (mutex, semaphore, file, socket, select), logging, names, status strings and the layout of message bytes.
- `QueuedPipe`, `StaticPipe`, `StaticQueuedPipe` and the older `Subscription` class: placeholders or duplicates; the reader modelled is the shared-handle queue pipe of the broker tests.
- `StatsMon` and `StatsHandler` of the messaging example, `Broker::Stats::NumSendCalls` (never updated), `AppExecutor` storage, configuration traits, `Os::iTask` and `Os::Task`.
- Handlers that send to their own queue while draining, several producers on one queue, handlers that call the broker from inside a delivery.
- The UNKNOWN_REGISTRATION_ERR answers: they guard against a container that fails silently.
