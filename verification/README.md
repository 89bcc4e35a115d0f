# Verified models of the concurrency benchmarks

This project models the concurrent cores of the benchmark repository in Dafny and proves what they promise over
whole runs, for any number of threads, items and phases:

- the bounded queue built from two semaphores, and the producer/consumer benchmarks that drive it;
- the hand-written barrier, and the publication of phase start times through `std::barrier`;
- the condition-variable queue, the thread pool, the timer service and the coroutines it resumes;
- index claiming with promises and futures, the contention window around the spinlock, and the fairness measure.

## How the models are built

Each concurrent core has two forms. A pure step function (`Act`, `Step`, `Apply`) says what one atomic action of one
thread does to the shared fields and to that thread's program counter. An action is one flag load, one semaphore
operation, one lock or unlock, one access to guarded data, one wake-up. Between two actions of a thread every other
thread may act, so a run is any sequence of enabled steps. Beside it a class holds the real fields and updates them in
place; each of its methods is proved to do exactly what the step function says. The benchmark and pool classes also
have a scheduler loop `Run` that drives those methods in an arbitrary order and is proved to reach the promised end.

Most theorems follow the same path: an invariant `Inv` (or `Good`) holds at the start, every step of every thread
keeps it, and the promise follows from it. A measure that every step makes smaller, together with a lemma that some
thread can always move, shows that runs end. Where a program breaks a promise in some situations, the theorem is an
if-and-only-if with the condition under which the promise holds.

Primitives are those of ISO/IEC 14882:2020: semaphores (section 32.7), condition variables with wait sets and spurious
wake-ups (section 32.6), barriers (section 32.8). Histories (everything enqueued, dequeued, run, resumed) are extra
fields; a timer entry is named by its place in the history of pushes, a task by its place in that of submits.

| file | models |
|---|---|
| Tally.dfy | sums of a weight over the threads, used by all invariants |
| SemaphoreQueue.dfy | include/semaphore_queue.hpp |
| PcSemaphore.dfy | src/bench_pc_semaphore.cpp |
| ManualBarrier.dfy | src/bench_barrier.cpp, the manual barrier |
| PublishedPhases.dfy | src/bench_barrier.cpp, publication of phase starts |
| PcCondVar.dfy | src/bench_pc_condvar.cpp |
| ThreadPool.dfy | include/thread_pool.hpp |
| TimerService.dfy, Coroutines.dfy | src/bench_coroutines.cpp |
| PromiseFuture.dfy | src/bench_async_future.cpp |
| ContentionWindow.dfy | include/bench_harness.hpp, include/spinlock.hpp, src/bench_counter_spin.cpp |
| Fairness.dfy | common/variance_tracker.cpp, include/bench_harness.hpp |

## Where the code does less than it says

- The destructor of the thread pool promises a graceful shutdown (include/thread_pool.hpp:24), but it stores `stop_`
  without the mutex. Whatever the pool is doing when it is called, some run returns and some run comes to a stop in
  which it has not (`ThreadPools.DestructorMayHang`). At the notify it is decided: if no worker is between its predicate
  and the wait set, every run returns, otherwise none does without the help of a spurious wake-up
  (`ThreadPools.DestructorReturnsIffNoGap`, `ThreadPools.NapsRescue`). If no wake-up is ever spurious, a call made while
  all workers are in the wait set always returns, and no other (`ThreadPools.DestructorReturnsIffAllAsleep`).
- The condition-variable benchmark reports N processed items (src/bench_pc_condvar.cpp:73) but moves
  producers * (N / producers), which is N exactly when the producers divide N (`PcCondVar.AllItemsIff`).
- With capacity zero a push and a pop of the semaphore queue wait for each other for ever
  (`SemaphoreQueues.MutualWaitIffNoCapacity`, `PcSemaphore.FinishesIff`).
- With no worker thread, as when `hardware_concurrency()` is 0, the reads of the futures in ManualPromiseFuture block
  for ever unless there is no task (`PromiseFutures.AllSetIff`).

## Model

| member | source | states |
|---|---|---|
| `SemaphoreQueues.StepInv` | include/semaphore_queue.hpp:51-122 | every atomic action of every thread keeps the whole invariant: lock ownership, both permit balances, capacity, history, and the frozen state once some pop gives up |
| `SemaphoreQueues.BeginInv` | include/semaphore_queue.hpp:51-122 | starting any call (push, pop, close, shutdown) at any time keeps that invariant |
| `SemaphoreQueues.ReachableInv` | include/semaphore_queue.hpp:43-122 | every state reachable by any threads making any calls in any interleaving satisfies it |
| `SemaphoreQueues.CapacityHolds` | include/semaphore_queue.hpp:36-73 | the queue never holds more than max_size items, however many surplus permits shutdowns have added |
| `SemaphoreQueues.PermitsConserved` | include/semaphore_queue.hpp:57-107 | free permits plus permits held by threads balance the queue length, the capacity and the wake permits, for both semaphores |
| `SemaphoreQueues.PopNeverRetries` | include/semaphore_queue.hpp:79-109 | a pop woken to an empty queue always finds a flag set, so the loop in pop never goes round a second time |
| `SemaphoreQueues.LateCallsFail` | include/semaphore_queue.hpp:52-106 | in every run a call that comes to any of its pairs of flag checks with a flag set fails without enqueuing and without waiting further: a new push for no slot, one with a permit for no mutex, a pop that saw an empty queue for no item |
| `SemaphoreQueues.LateWaitersFail` | include/semaphore_queue.hpp:57-71 | in every run a push that waits for its permit or for the mutex when a flag is set gets through to its next flag checks and is turned away |
| `SemaphoreQueues.SettledForever` | include/semaphore_queue.hpp:65-73 | once nothing is queued, a flag is set and no push is past its last check, the history never changes again |
| `SemaphoreQueues.DrainIsFinal` | include/semaphore_queue.hpp:82-107 | from the moment a pop decides to return false the queue is empty for ever and everything ever enqueued has been dequeued, even while close and shutdown race with pushes |
| `SemaphoreQueues.FifoHolds` | include/semaphore_queue.hpp:65-99 | in every reachable state the dequeued items followed by the queued ones are the enqueued ones, overall and per pusher |
| `SemaphoreQueues.StepRank` | include/semaphore_queue.hpp:51-122 | without new calls, every action uses up one of a bounded number of actions |
| `SemaphoreQueues.StuckShape` | include/semaphore_queue.hpp:57-90 | when no thread can act, the mutex is free and every open call waits at a semaphore that has no permit, with the exact permit balance |
| `SemaphoreQueues.NoMutualWait` | include/semaphore_queue.hpp:57-90 | with a positive capacity a push and a pop never both wait with nobody able to act |
| `SemaphoreQueues.MutualWaitIffNoCapacity` | include/semaphore_queue.hpp:43-90 | a state in which a push and a pop wait for each other is reachable exactly when the capacity is zero |
| `SemaphoreQueues.ReturnedForGood` | include/semaphore_queue.hpp:112-122 | when a call of close or shutdown has returned, its flags are set and all max_size + 1 permits of each loop have been released, for the rest of the run |
| `SemaphoreQueues.CloseReleasesPops` | include/semaphore_queue.hpp:30-34 | from the return of a close on there are always at least max_size + 1 filled permits free or in hand, and no pop is ever left waiting with nobody able to act |
| `SemaphoreQueues.ShutdownReleasesAll` | include/semaphore_queue.hpp:36-40 | from the return of a shutdown on the same holds for the empty permits, and no call at all is left waiting |
| `SemaphoreQueues.WaitersLeave` | include/semaphore_queue.hpp:112-122 | after the return of a close any number of waiting pops, and of a shutdown any number of waiting calls, leave after a bounded number of actions under every schedule |
| `SemaphoreQueues.SemaphoreQueue.constructor` | include/semaphore_queue.hpp:43-46 | a new queue is empty, open, with max_size empty permits and no filled permit |
| `SemaphoreQueues.SemaphoreQueue.PushAction` | include/semaphore_queue.hpp:51-77 | each action of push on the real fields has exactly the effect of the step function |
| `SemaphoreQueues.SemaphoreQueue.PopAction` | include/semaphore_queue.hpp:79-109 | the same for pop |
| `SemaphoreQueues.SemaphoreQueue.CloseAction` | include/semaphore_queue.hpp:30-40 | the same for close and shutdown with their wake loops |
| `PcSemaphore.AdvanceGood` | src/bench_pc_semaphore.cpp:71-111 | every action of every producer, consumer and the main thread keeps the roles, the queue invariant and the books of items pushed, taken and counted |
| `PcSemaphore.AdvanceMeasure` | src/bench_pc_semaphore.cpp:71-111 | every action makes a natural-number measure smaller |
| `PcSemaphore.Progress` | src/bench_pc_semaphore.cpp:71-111 | in every state of a run that is not final some thread can move, given room for one item or nothing to push |
| `PcSemaphore.EveryRunFinishes` | src/bench_pc_semaphore.cpp:71-111 | however the threads are scheduled the run is bounded, and where it stops all threads are joined and exactly producers times items have been consumed |
| `PcSemaphore.FinishesIff` | src/bench_pc_semaphore.cpp:20-46 | the benchmark has a run that finishes if and only if the capacity is positive or there is nothing to push |
| `PcSemaphore.FinalBooks` | src/bench_pc_semaphore.cpp:82-111 | at the end of every run that has ended the queue is empty, each producer pushed all its items, and the items taken, the shared counter and the sum of the per-consumer counts all equal the total |
| `PcSemaphore.OrderAlways` | src/bench_pc_semaphore.cpp:81-86 | at any time of any run the items taken from a producer are its first items in the order it pushed them |
| `PcSemaphore.SpscReceivesInOrder` | src/bench_pc_semaphore.cpp:27-41 | at any time of any run the single consumer has received 0, 1, 2, ... without gap, and in the end exactly all items |
| `PcSemaphore.NoPushFails` | src/bench_pc_semaphore.cpp:84-86 | in no run is the break after a refused push taken |
| `PcSemaphore.ProducerFairnessIsZero` | src/bench_pc_semaphore.cpp:113-119 | the reported producer fairness is 0 in every finished run |
| `PcSemaphore.Benchmark.CallTurn` | src/bench_pc_semaphore.cpp:84-97 | an action inside a queue call changes the real queue and this thread's program counter as the model says, and nothing else |
| `PcSemaphore.Benchmark.ProducerTurn` | src/bench_pc_semaphore.cpp:27-34 | each action of the producer loops between calls has the effect of the model's step |
| `PcSemaphore.Benchmark.ConsumerTurn` | src/bench_pc_semaphore.cpp:95-101 | the same for the consumer loops |
| `PcSemaphore.Benchmark.MainTurn` | src/bench_pc_semaphore.cpp:104-111 | the same for join, close, join, shutdown |
| `PcSemaphore.Benchmark.Turn` | src/bench_pc_semaphore.cpp:71-111 | any runnable thread performs exactly its next action on the real state |
| `PcSemaphore.Benchmark.Run` | src/bench_pc_semaphore.cpp:71-111 | the scheduler loop over the real queue and threads terminates for every scheduler choice with everything consumed |
| `ManualBarriers.StepInv` | src/bench_barrier.cpp:48-63 | every action of every thread keeps: lock ownership, the arrival count, each thread's fit to the generation, and no sleeper of a past generation without a notify to come |
| `ManualBarriers.PhaseSafety` | src/bench_barrier.cpp:162-172 | in every run no thread is in a phase before all threads have finished all earlier ones, and generation times count plus waiting is the number of arrivals |
| `ManualBarriers.LeavesNextGeneration` | src/bench_barrier.cpp:50-61 | in every run, with spurious wake-ups, a waiter leaves only with the generation exactly one above the one it read, and a notified waiter does leave |
| `ManualBarriers.NotAllWaiting` | src/bench_barrier.cpp:52-62 | the threads never all wait for the current generation |
| `ManualBarriers.Progress` | src/bench_barrier.cpp:48-63 | unless all threads are done some thread can move without a spurious wake-up |
| `ManualBarriers.StepMeasure` | src/bench_barrier.cpp:162-172 | every action makes the measure smaller |
| `ManualBarriers.RunsComplete` | src/bench_barrier.cpp:162-176 | runs are bounded up to spurious wake-ups, stop exactly when all threads are done, and end with one generation per phase and nobody waiting |
| `ManualBarriers.ManualBarrier.Turn` | src/bench_barrier.cpp:48-63 | each action of arrive_and_wait and of the phase loop on the real fields is the model's step |
| `ManualBarriers.ManualBarrier.NotifyAll` | src/bench_barrier.cpp:56 | notify_all wakes every sleeper and nobody else |
| `ManualBarriers.ManualBarrier.Run` | src/bench_barrier.cpp:157-177 | any scheduler with any bounded number of spurious wake-ups takes all threads through all phases |
| `PublishedPhases.StepInv` | src/bench_barrier.cpp:96-118 | every action keeps the arrival count, each thread's place relative to the barrier phase, and which slots are published |
| `PublishedPhases.NoOverlap` | src/bench_barrier.cpp:104-112 | in every run, while thread 0 writes a start time nobody reads any start time and nobody else writes |
| `PublishedPhases.ReadsSeeThePublishedStart` | src/bench_barrier.cpp:87-118 | in every run a read of a start time finds the one value ever written there, before the arrival time, with no write in progress |
| `PublishedPhases.OffsetIsStored` | src/bench_barrier.cpp:99-105 | in every run the offset a thread stores is its arrival time in the phase less the start of that phase, and stays until the next one; at the end last_arrival holds the offsets of the last phase |
| `PublishedPhases.StartsAreWriteTimes` | src/bench_barrier.cpp:91-112 | in every run the start of phase 0 is the time before the launch, and the start of each later phase is the clock value at which thread 0 began to write it |
| `PublishedPhases.StartsAfterArrivals` | src/bench_barrier.cpp:99-117 | in every run the start of a phase is not before any arrival in the phase before it |
| `PublishedPhases.RunsComplete` | src/bench_barrier.cpp:91-124 | every run is bounded and ends with all starts published, all arrival offsets non-negative and the barrier used 2 * phases - 1 times |
| `PublishedPhases.PhaseStarts.Turn` | src/bench_barrier.cpp:96-118 | each action on the real vectors and barrier is the model's step |
| `PublishedPhases.PhaseStarts.Run` | src/bench_barrier.cpp:93-124 | under every scheduler and every clock that does not go back, the real vectors end up complete |
| `PcCondVar.StepInv` | src/bench_pc_condvar.cpp:24-70 | every action of every thread keeps the invariant, whichever sleeper notify_one picks |
| `PcCondVar.NoLostWakeup` | src/bench_pc_condvar.cpp:27-31 | in every run, while an item is queued some consumer is awake and will look, or a producer is about to notify |
| `PcCondVar.NoSleepAfterDone` | src/bench_pc_condvar.cpp:39-65 | in every run, once done is set no consumer goes to sleep for the rest of the run |
| `PcCondVar.Progress` | src/bench_pc_condvar.cpp:24-70 | unless all threads are joined some thread can move without a spurious wake-up |
| `PcCondVar.RunsComplete` | src/bench_pc_condvar.cpp:24-70 | with at least one consumer, runs are bounded up to spurious wake-ups, stop exactly when all are joined, and then exactly the pushed items have been popped, in order: producers * (N / producers) |
| `PcCondVar.ItemsReceived` | src/bench_pc_condvar.cpp:24-45 | at the end of every run with a consumer each of the items 0 .. per - 1 has been received once from every producer and nothing else has; from a single producer in this order |
| `PcCondVar.AllItemsIff` | src/bench_pc_condvar.cpp:25-73 | the items moved are never more than the N reported, and equal to it exactly when the producers divide N |
| `PcCondVar.CondVarQueue.ProducerTurn` | src/bench_pc_condvar.cpp:24-33 | each producer action on the real queue, mutex and wait set is the model's step |
| `PcCondVar.CondVarQueue.ConsumerTurn` | src/bench_pc_condvar.cpp:35-47 | the same for consumers |
| `PcCondVar.CondVarQueue.MainTurn` | src/bench_pc_condvar.cpp:60-70 | the same for the main thread: join, set done, notify_all, join |
| `PcCondVar.CondVarQueue.Run` | src/bench_pc_condvar.cpp:49-70 | under every scheduler, with any bounded number of spurious wake-ups, all real threads are joined and everything pushed has been popped, in order |
| `ThreadPools.MoveInv` | include/thread_pool.hpp:41-88 | every action of workers, submitters and destructor, every new call and every spurious wake-up keeps the invariant; front() of an empty queue is never reached |
| `ThreadPools.TasksInOrder` | include/thread_pool.hpp:52-55 | in every run tasks are taken in order of acceptance and no task runs twice |
| `ThreadPools.ExitMeansDrained` | include/thread_pool.hpp:49-84 | once some worker has left, for ever: the queue is empty, no task is accepted, submit throws |
| `ThreadPools.AllJoinedAllRan` | include/thread_pool.hpp:64-68 | in every run, when all workers have left every accepted task has run exactly once |
| `ThreadPools.WorkersStarted` | include/thread_pool.hpp:35-58 | in every run the pool has the number of workers asked for, and one where none was |
| `ThreadPools.EverySubmitHasItsTask` | include/thread_pool.hpp:80-88 | in every run the accepted tasks are counted by the submits that have returned normally and those about to; where nobody can act each submit that returned normally has had its own task run exactly once |
| `ThreadPools.NoTaskStranded` | include/thread_pool.hpp:45-88 | in every run, while a task is queued some worker is awake or some submit owes its notify_one; where nobody can act every submit is over and every accepted task has run exactly once, also before any destructor |
| `ThreadPools.RunsBounded` | include/thread_pool.hpp:41-88 | from any state, without new calls, every run is bounded up to spurious wake-ups |
| `ThreadPools.DestructorMayHang` | include/thread_pool.hpp:61-69 | at the call of the destructor, in every state of a pool of any size: some run returns, and some run, spurious wake-ups being possible, comes to a stop without having returned |
| `ThreadPools.DestructorReturnsIffAllAsleep` | include/thread_pool.hpp:61-69 | at the call, if no wake-up is spurious: every run returns if and only if all workers are in the wait set |
| `ThreadPools.DestructorReturnsIffNoGap` | include/thread_pool.hpp:63-68 | at the notify_all: every run, with any spurious wake-ups, returns if and only if no worker is between its predicate and the wait set; and only then does any run return without a spurious wake-up |
| `ThreadPools.NapsRescue` | include/thread_pool.hpp:63-68 | a destructor that hangs can still be saved by spurious wake-ups |
| `ThreadPools.GapIsReachable` | include/thread_pool.hpp:45-63 | a pool of any size has a run, without spurious wake-ups, that reaches the notify_all with a worker in the gap |
| `ThreadPools.AlwaysJoins` | include/thread_pool.hpp:61-69 | without a worker in the gap every run after the notify_all is bounded and stops only with all workers joined; no spurious wake-up is possible in it |
| `ThreadPools.ThreadPool.WorkerTurn` | include/thread_pool.hpp:41-57 | each worker action on the real queue, flag and mutex is the model's step |
| `ThreadPools.ThreadPool.SubmitTurn` | include/thread_pool.hpp:80-88 | the same for submit |
| `ThreadPools.ThreadPool.DestroyTurn` | include/thread_pool.hpp:61-69 | the same for the destructor |
| `ThreadPools.ThreadPool.Run` | include/thread_pool.hpp:41-88 | under every scheduler, with any bounded number of new calls and spurious wake-ups at any moments, the real pool comes to rest with every accepted task run exactly once |
| `ThreadPools.ThreadPool.NotifyAndJoin` | include/thread_pool.hpp:63-68 | the destructor from the notify_all on, with no worker in the gap, returns under every scheduler, with all tasks run |
| `ThreadPools.ThreadPool.Close` | include/thread_pool.hpp:61-69 | the whole destructor of a pool whose workers all sleep returns, with all tasks run, under every scheduler that wakes no worker spuriously |
| `TimerServices.MoveInv` | src/bench_coroutines.cpp:28-78 | every action of the worker, of any number of schedulers and of the destructor, clock ticks and spurious wake-ups keep the invariant |
| `TimerServices.NothingMissed` | src/bench_coroutines.cpp:58-72 | in every run, while the worker sleeps until some time every entry due before it has a notify coming; while it sleeps without deadline, any entry has |
| `TimerServices.ResumedOnceInOrder` | src/bench_coroutines.cpp:68-76 | in every run no entry is resumed twice or before its deadline, and when it is popped no earlier entry is in the heap; one not resumed is still in the heap or in hand |
| `TimerServices.DelayHonoured` | src/bench_coroutines.cpp:42-49 | in every run a call of schedule pushes an entry for its handle that is due the given delay after the call, and this entry is not resumed before |
| `TimerServices.LeavesOnlyWhenEmpty` | src/bench_coroutines.cpp:61-63 | in every run the step with which the worker leaves is taken only when the service has been stopped and the heap is empty |
| `TimerServices.DestructorResumesAll` | src/bench_coroutines.cpp:28-37 | for any number of clients, with no schedule in progress at the destructor's call and none later: when the worker has left or the destructor has returned, every entry ever pushed has been resumed exactly once; and where nobody can act with all deadlines past, the destructor has returned |
| `TimerServices.StoppedOnlyByClock` | src/bench_coroutines.cpp:58-78 | in every run, when nobody can act and the worker has not left, no entry in the heap is due |
| `TimerServices.DueEntriesAreResumed` | src/bench_coroutines.cpp:42-78 | with the clock standing still runs are bounded, and where they stop with the worker still there, every due entry has been resumed exactly once |
| `TimerServices.TimerService.WorkerTurn` | src/bench_coroutines.cpp:58-78 | each worker action on the real heap, flag and mutex is the model's step |
| `TimerServices.TimerService.ScheduleTurn` | src/bench_coroutines.cpp:42-49 | the same for schedule |
| `TimerServices.TimerService.DestroyTurn` | src/bench_coroutines.cpp:28-37 | the same for the destructor |
| `Coroutines.MoveInv` | src/bench_coroutines.cpp:87-227 | every action of the launching thread and the timer worker keeps the link between tasks, timer entries, bodies and flags |
| `Coroutines.ExactlyOnePlace` | src/bench_coroutines.cpp:158-211 | in every run a started task that is not done is on the launching thread, in the heap or on the worker, and never in two of them |
| `Coroutines.OneEntryPerTask` | src/bench_coroutines.cpp:158-182 | in every run a task is scheduled at most once and its handle is resumed at most once |
| `Coroutines.ScheduledIffSuspends` | src/bench_coroutines.cpp:158-182 | in every run, when wait_all has returned, exactly the tasks that yield and those that wait for a positive duration have been scheduled |
| `Coroutines.DeadlineIsDuration` | src/bench_coroutines.cpp:158-206 | in every run the entry of a task is due at the time of its co_await plus the duration it waits for, and at once if it only yields |
| `Coroutines.FlagsAreHonest` | src/bench_coroutines.cpp:98-113 | a done flag is set only after the body has ended, and stays set |
| `Coroutines.WaitAllReturnsWhenAllDone` | src/bench_coroutines.cpp:213-227 | in every run, when the one-by-one scan returns all tasks are done at the same time and the heap is empty; after the destructor every entry has been resumed exactly once |
| `Coroutines.StoppedOnlyByClock` | src/bench_coroutines.cpp:233-246 | no deadlock: in every run, where neither thread can act the run is over or every entry in a non-empty heap lies in the future |
| `Coroutines.RunsComplete` | src/bench_coroutines.cpp:233-246 | from any point of any run, with the clock standing still the rest is bounded, and past all deadlines it stops only at the end, with every task done and every entry resumed once |
| `Coroutines.CoroutineRun.CallerTurn` | src/bench_coroutines.cpp:240-246 | each action of the launching thread on the real flags and timer service is the model's step |
| `Coroutines.CoroutineRun.WorkerTurn` | src/bench_coroutines.cpp:68-113 | the same for the worker that ends bodies, stores flags and goes on |
| `Coroutines.CoroutineRun.Run` | src/bench_coroutines.cpp:240-246 | under every scheduler, with any bounded number of rounds of wait_all, spurious wake-ups and clock changes, and the clock going on where nothing else can, the run ends with every task done and every entry resumed exactly once |
| `PromiseFutures.StepInv` | src/bench_async_future.cpp:150-166 | every worker action keeps: indices handed out without gap or repetition, each claimed promise set by its claimer to the outcome of its own task |
| `PromiseFutures.RunsComplete` | src/bench_async_future.cpp:150-171 | in every run no promise is set twice, and it stops exactly when all workers are joined, with every promise set to its own outcome |
| `PromiseFutures.AllSetIff` | src/bench_async_future.cpp:134-177 | after the joins every future is ready if and only if there was a worker or no task |
| `PromiseFutures.Collect` | src/bench_async_future.cpp:173-177 | reading the futures in order gives the sequential total, or the first exception |
| `PromiseFutures.Deferred` | src/bench_async_future.cpp:104-117 | the deferred benchmark computes the same sequential total |
| `PromiseFutures.TotalMeans` | src/bench_async_future.cpp:113-117 | that total is the sum of the values if no task throws, and otherwise the exception of the first task that throws |
| `PromiseFutures.PromiseFuture.Turn` | src/bench_async_future.cpp:153-165 | each worker action on the real counter and promises is the model's step |
| `PromiseFutures.PromiseFuture.Run` | src/bench_async_future.cpp:148-177 | for every scheduler the concurrent total equals the sequential one |
| `ContentionWindows.MutualExclusion` | include/spinlock.hpp:19-39 | in every run two threads are never both between a successful test_and_set and the clear |
| `ContentionWindows.StepInv` | include/bench_harness.hpp:63-82 | every worker action keeps exclusion and the balance of counter, counts and pending operations modulo 2^64 |
| `ContentionWindows.CounterEqualsOps` | src/bench_counter_spin.cpp:24-30 | in every run, after the joins the split load/store counter equals the sum of the counts modulo 2^64, for the blocking and the try_lock callable: no update is lost |
| `ContentionWindows.NothingBeforeStart` | include/bench_harness.hpp:66-68 | in every run no worker does anything before start is stored, and it can be stored |
| `ContentionWindows.LeavesOnlyAfterStop` | include/bench_harness.hpp:69-80 | in every run a worker has left its loop only if stop has been stored |
| `ContentionWindows.WindowIsAlive` | include/bench_harness.hpp:69-74 | from every state that a window with a thread reaches between start and stop, some run completes a further operation and counts it, for both callables |
| `ContentionWindows.StopStopsCounting` | include/bench_harness.hpp:69-86 | once stop has been stored a worker counts at most the operation it has begun and begins no other |
| `ContentionWindows.Progress` | include/bench_harness.hpp:66-81 | in a started window that is not over some thread has an action that is no spin and changes the state, for both callables |
| `ContentionWindows.WindowEnds` | include/bench_harness.hpp:84-90 | after stop every run is bounded except for rounds of the loop in lock, of which the try_lock callable has none, and it is over exactly when nobody can do more than spin |
| `ContentionWindows.Spinlock.TryLock` | include/spinlock.hpp:37-39 | the lock is acquired exactly when it was free, and is taken afterwards |
| `ContentionWindows.ContentionWindow.Turn` | src/bench_counter_spin.cpp:95-103 | each worker action on the real lock, counter and counts is the model's step |
| `ContentionWindows.ContentionWindow.Result` | include/bench_harness.hpp:92-111 | the reported ops are the value of the shared counter, and the reported fairness is the coefficient of the per-thread counts |
| `ContentionWindows.ContentionWindow.Run` | include/bench_harness.hpp:60-111 | under every scheduler, with any number of actions before stop and any bounded number of spins after it, all workers leave and that result is reported |
| `Fairness.Cauchy` | common/variance_tracker.cpp:73-79 | the square of the sum is at most n times the sum of squares, with equality exactly when all counts are equal |
| `Fairness.SquaresBelow` | common/variance_tracker.cpp:73-79 | the sum of squares is at most the square of the sum, with equality exactly when at most one count is positive |
| `Fairness.CvBounds` | common/variance_tracker.cpp:50-86 | the squared coefficient lies between 0, exactly at equal counts, and n - 1, exactly when one thread did everything |
| `Fairness.ZeroIffAllEqual` | common/variance_tracker.cpp:15-16 | the coefficient is 0, perfect fairness, exactly when all counts are equal, with or without operations |
| `Fairness.WindowResult` | include/bench_harness.hpp:92-111 | the loops of the harness report the sum of counts modulo 2^64 and the root of n * (sum of squares) / (square of sum) - 1, or 0 where nothing was counted |
| `Fairness.VarianceTracker.CoefficientOfVariation` | common/variance_tracker.cpp:50-86 | the tracker reports that root for its own counts |
| `Fairness.SameCv` | include/bench_harness.hpp:92-110 | the counts determine the coefficient, so harness and tracker agree |
| `Fairness.VarianceTracker.RecordOperation` | common/variance_tracker.cpp:39-48 | one count grows by one; an unknown thread id changes nothing |
| `Fairness.VarianceTracker.GetCounts` | common/variance_tracker.cpp:97-107 | returns all counts in order |
| `Fairness.VarianceTracker.Reset` | common/variance_tracker.cpp:88-95 | all counts are 0 afterwards |

## Left out

- Weak memory orderings: all atomic operations are interleaved sequentially consistently.
- Internals of the standard library: mutexes, semaphores, condition variables, barriers and containers are their abstract specifications; the largest value a semaphore may hold is not modelled.
- Integer width: item numbers, int totals and the promise totals are mathematical integers; only the contention window's 64-bit counters wrap. The tracker's counters do not wrap.
- Fairness.WindowResult: arithmetic is over the reals without rounding, and `std::sqrt` is any function that meets `Fairness.IsSqrt`.
- Fairness.VarianceTracker.CoefficientOfVariation: the same.
- ThreadPools.DestructorReturnsIffAllAsleep: the case without spurious wake-ups; with them no state at the call is safe, which is `ThreadPools.DestructorMayHang`. In all these theorems no submit is in progress, since the pool is being destroyed.
- ThreadPools.ThreadPool.Close: no worker wakes spuriously before the notify_all; with such a wake-up the destructor can hang from the same state.
- PublishedPhases.ReadsSeeThePublishedStart: that the start is not later than the arrival rests on a clock that never goes back, while src/bench_barrier.cpp:91, 100 and 111 read high_resolution_clock, which need not be steady; the rest of the statement does not use the values.
- PublishedPhases.RunsComplete: the same for the non-negative offsets.
- PublishedPhases.StartsAfterArrivals: the same.
- ManualBarriers.StepInv: the section from taking the mutex to the comparison (reading the generation, counting the arrival, resetting) is one action, because the mutex is held throughout.
- Coroutines.RunsComplete: rescans of wait_all while a flag is still false are moves of their own and not counted, since polling has no bound; `Coroutines.CoroutineRun.Run` allows any finite number of them.
- ContentionWindows.WindowEnds: rounds of the loop in lock are not bounded, since test_and_set promises no fairness.
- Order of timer resumptions between entries that are never in the heap together, because the deadline is taken before the mutex.
- Lifetime of coroutine frames after the done flag has been stored (src/bench_coroutines.cpp:105-108).
- SemaphoreQueues.FifoHolds: items are integers tagged with the pusher; the element type is not a parameter.
- PcSemaphore.FinalBooks: in the SPSC benchmark, which has no tracker, the pushed count is the loop counter.
- Thread creation, affinity, sleeps and elapsed time: all threads exist from the start, and the clock is any monotone value.
- The work functions (simulate_work, cpu_work, the loops in the coroutine bodies) and the consumer's sum are opaque or absent.
- The observers size, is_shutdown and is_closed of the queue and size of the pool.
- The arrival_cv computation of StdBarrier_WithWork repeats the fairness formula over nanoseconds and is not modelled again.
- StdBarrier_WithCompletion and the other barrier benchmarks, BinarySemaphore_vs_Mutex, the remaining async benchmarks and the reader/writer benchmarks: thin wrappers over library primitives that would add easy members.
- Google Benchmark counters, command line, scripts and result files.
