# Boost.GreenThread: a model of the run-time and what is built on it

Boost.GreenThread runs green threads on a pool of native workers. This project models it in four
layers and proves what each promises, over any number of threads and any interleaving.

1. **Scheduling and wake-ups** (`Runtime*.dfy`, `Thread.dfy`). One state machine: thread states, the strand
   of each thread, timers, mutexes, condition variables, joins, creation, exit and shutdown. A label is one
   atomic step: a spinlock section, a context switch, a strand handler or a timer event. `RuntimeInvariant`
   has the inductive invariant, `RuntimeTheorems` and `RuntimeOutcomes` what
   follows from it, `RuntimeFifo` the order of hand-offs.
2. **Mutexes and condition variables** (`Mutex.dfy`, `Condition.dfy`, `Mesa*.dfy`). The
   sections as class methods; hand-off order over runs of one mutex; and the proof that the queues and tokens
   of layer 1 refine an atomic Mesa monitor.
3. **Monitors** (`SharedMutex*.dfy`, `ConcurrentQueue*.dfy`, `Barrier*.dfy`). A critical section is one step here,
   and a wait releases the mutex and queues in that same step; a wait loop is a section that runs again after
   each wake-up. The files `...OnMonitor.dfy` show that every such step is a run of the monitor of layer 2:
   entering, notifying, and leaving or waiting. `BarrierExecution.dfy` has the converse for the barrier.
4. **Futures** (`SharedState*.dfy`, `Continuations.dfy`, `InputsOnStates.dfy`, `Combinators.dfy`, `WaitForAll.dfy`,
   `AsyncWaitForAny.dfy`). The mutex of a shared state is explicit, because the notification loop releases it;
   its steps, too, are shown to be runs of the monitor. The combinators see a shared state as an input that
   becomes ready and a waiter that runs; `InputsOnStates.dfy` derives that view.

Each class modelled is a Dafny class with the same fields, and its methods are the sections of the original's
members. A method of a mutex, of the shared mutex, of the queue and of the barrier is tied by its contract to
a function on values (`LockStep`, `Section`, `PushLoop`, `Arrive`, ...), and the state machines are built from
the same functions. The other classes (`ConditionVariable`, `ThreadObject`, `Scheduler`, `SharedState`,
`Continuation`, `AsyncAllState`, `AnyState`, `AsyncAnyState`) have a predicate `Represents` that relates the object
to a state of the machine, and their methods take it to the state after the step or the run that they are.

## Assumptions

- A strand runs one handler at a time. Its queue is a counter of activations and the set of handlers ready to
  run, and any of them may be next, which includes first-in-first-out.
- An armed timer gives one handler call, expired or cancelled. Cancelling an expired timer changes nothing.
- A spinlock section is one step and ends where a relock guard releases the lock.
- Whether a thread yields after a hand-off is a free choice, since it depends on the sizes of the pool and on
  shared strands; without a hint it always yields.
- A coroutine switch and the store of its value into `state_` are one step.
- Interruption is never requested; continuations and registered functions do not throw; counters do not wrap.

## Where the code is not what one might expect

- `try_lock()` of a non-recursive mutex by its owner returns true and acquires nothing; the history of
  acquisitions does not count it.
- `recursive_timed_mutex::level_` is not initialised. It is only read while there is an owner.
- A suspended item of a condition variable keeps a pointer to the mutex that no code reads.
- `notify_one()` on an empty queue does not yield, `notify_all()` always does.
- `try_unlock_shared_and_lock_until()` ignores a converter that is waiting: see `TimedConversionIff` and
  `StrandedConverter`.
- `async_wait_for_all()` of no futures is never fulfilled: see `AsyncAllOfNothing`.
- A conversion by `try_unlock_shared_and_lock_upgrade_until()` waits in the queue of the writers without setting
  `exclusive_waiting_blocked`, and can take the one notification meant for a writer, so that readers keep
  entering over a parked writer: see `StepGuarded` and `WriterOvertaken`.
- The waiters of a blocking `wait_for_all()` do not take its mutex. It can miss its notification, and a waiter can
  notify a condition variable that is gone: see `WaitForAllMayHangIff` and `WaiterMayOutliveCallIff`.
- `async_wait_for_any()` tests and sets its flag in two steps, so that the promise can refuse a second value: see
  `MayRefuseIff`.

## Model

| member | source | states |
|---|---|---|
| `MutexModel.Mutex.Lock` | src/mutex.cpp:29-46 | `lock()`: owner gets a deadlock error, a free mutex is taken, otherwise the caller joins the end of the queue; nothing happens without a green thread |
| `MutexModel.Mutex.Unlock` | src/mutex.cpp:48-67 | `unlock()`: only the owner; frees the mutex or hands it to the longest waiter and wakes exactly that one |
| `MutexModel.Mutex.TryLock` | src/mutex.cpp:69-82 | `try_lock()`: true iff the caller is the owner afterwards; a free mutex is taken, no other changes its owner |
| `MutexModel.RecursiveMutex.Lock` | src/mutex.cpp:84-105 | the two assertions of `lock()` follow from the invariant; the level counts re-entry and restarts at 1 |
| `MutexModel.RecursiveMutex.Unlock` | src/mutex.cpp:107-133 | the level goes down; at 0 the mutex is freed or handed on with level 1 |
| `MutexModel.RecursiveMutex.TryLock` | src/mutex.cpp:135-152 | true iff the caller is the owner afterwards; a free mutex is taken, and its owner gets one level more |
| `MutexModel.TimedMutex.Lock` | src/mutex.cpp:154-171 | an untimed waiter queues without a timer |
| `MutexModel.TimedMutex.TryLock` | src/mutex.cpp:173-188 | true iff the caller is the owner afterwards; a free mutex is taken |
| `MutexModel.TimedMutex.Unlock` | src/mutex.cpp:190-216 | hand-off: a waiter with a timer has it cancelled, one without is resumed, never both |
| `MutexModel.TimedMutex.TimeoutHandler` | src/mutex.cpp:218-235 | the handler drops the entry unless its thread became the owner, and resumes it once |
| `MutexModel.TimedMutex.TryLockRel` | src/mutex.cpp:237-263 | the part before the pause: the entry carries the timer just armed |
| `MutexModel.RecursiveTimedMutex.LockOrEnqueue` | src/mutex.cpp:355-382 | `lock()` and `try_lock_rel()`; the level is meaningless while there is no owner, as the constructor leaves it |
| `MutexModel.RecursiveTimedMutex.Unlock` | src/mutex.cpp:286-319 | as for the recursive mutex, with the timer cancelled or the waiter resumed |
| `MutexModel.RecursiveTimedMutex.TryLock` | src/mutex.cpp:321-336 | true iff the caller is the owner afterwards; a free mutex is taken, and its owner gets one level more |
| `MutexModel.RecursiveTimedMutex.TimeoutHandler` | src/mutex.cpp:338-353 | as for the timed mutex |
| `Basics.FindAndErase` | src/mutex.cpp:225-230 | find-then-erase removes the first entry of the thread and keeps the rest in order |
| `MutexModel.LockAnswers` | src/mutex.cpp:29-46 | `lock()` is refused exactly to the owner of a mutex that is not recursive, and then changes nothing; it acquires or queues exactly when it says so |
| `MutexModel.TryLockAnswers` | src/mutex.cpp:69-152 | `try_lock()` returns true exactly to the owner after it; it takes a free mutex and no other |
| `MutexModel.UnlockAnswers` | src/mutex.cpp:48-133 | `unlock()` is refused exactly to a thread that is not the owner, and then changes nothing; otherwise it keeps, frees or hands on, as it says |
| `MutexModel.RunKeepsOk` | src/mutex.cpp:29-152 | over every legal run: somebody queued implies an owner, the owner is not queued, nobody is queued twice, no owner iff level 0 |
| `MutexModel.NoBarging` | src/mutex.cpp:69-82 | while somebody waits no call of another thread acquires the mutex |
| `MutexModel.HandOffIsFifo` | src/mutex.cpp:41-66 | over every run without timeouts: those queued, then those that enqueue, are exactly those handed the mutex, then those still queued |
| `MutexModel.WaiterAtPositionK` | src/mutex.cpp:56-66 | the waiter at position k moves up with each hand-off and is the (k+1)-th to be handed the mutex |
| `MutexModel.WaiterWithTimeouts` | src/mutex.cpp:190-235 | when others time out, it is handed the mutex by the (k+1)-th hand-off at the latest |
| `ConditionModel.ConditionVariable.Wait` | src/condition.cpp:19-33 | the step of the run-time: refused, with nothing changed, unless the caller owns the mutex; otherwise queued last and about to unlock |
| `ConditionModel.ConditionVariable.TimeoutHandler` | src/condition.cpp:35-54 | the timer step of the run-time: an expired handler takes the entry out and reports timeout, a cancelled one does neither; both resume the thread once |
| `ConditionModel.ConditionVariable.NotifyOne` | src/condition.cpp:80-103 | the step of the run-time: exactly the longest waiter leaves the queue and is woken; the empty queue is left alone, without a yield |
| `ConditionModel.ConditionVariable.NotifyAll` | src/condition.cpp:105-126 | the loop is the step of the run-time: everybody queued before the call leaves and is woken once, in order |
| `RuntimeWake.NotifyAllWakes` | src/condition.cpp:108-119 | the loop of the run-time step does what the method promises: it empties the queue and wakes exactly its threads in order |
| `ThreadModel.ThreadObject.Pause` | src/thread_object.cpp:200-206 | always switches out, and is the pause of the run-time |
| `ThreadModel.ThreadObject.Yield` | src/thread_object.cpp:239-258 | switches out iff one of the four conditions holds, always without a hint; the run-time has a yield that does and one that does not |
| `ThreadModel.ThreadObject.JoinSection` | src/thread_object.cpp:260-304 | self-join is refused; otherwise the test and the entry in the queue are those of the run-time, for both threads; only a stopped thread hands its exception over at once |
| `ThreadModel.ThreadObject.PropagateException` | src/thread_object.cpp:276-283 | the run-time hands the exception to this joiner iff there is one, and leaves none |
| `ThreadModel.ThreadObject.Finish` | src/thread_object.cpp:129-145 | the end of the runner is the stop of the run-time, with the exception kept |
| `ThreadModel.ThreadObject.Enter` | src/thread_object.cpp:214-220 | an activation, up to the coroutine, is the activation of the run-time, whatever the thread had come to |
| `ThreadModel.ThreadObject.OneStep` | src/thread_object.cpp:155-193 | the coroutine is entered until it reports something else than RUNNING; what follows leaves the state of `StepEnd` and posts exactly its activations |
| `ThreadModel.ThreadObject.EndStep` | src/thread_object.cpp:173-192 | READY posts one activation, STOPPED activates every joiner once, in order, and posts the exit message: the state of `StepEnd` |
| `ThreadModel.StepEndIsRun` | src/thread_object.cpp:173-192 | the end of `one_step()`, with its loop over the join queue, is a run of the run-time |
| `ThreadModel.StepEndPosts` | src/thread_object.cpp:173-192 | in that run every thread gets as many activations as the method posts to it, and nobody else any |
| `ThreadModel.ActivateThread` | src/thread_object.cpp:214-221 | an activation always enters the coroutine |
| `ThreadModel.PostAllCounts` | src/thread_object.cpp:187-189 | activating a list posts to each thread as often as the list names it and changes nothing else |
| `ThreadModel.DrainLoop` | src/thread_object.cpp:180-189 | the drain loop is a run of the run-time: one step per joiner, and together exactly one activation for each |
| `ThreadModel.Scheduler.MakeThread` | src/scheduler_object.cpp:22-31 | the counters and the new thread are those of the run-time step, with one activation posted |
| `ThreadModel.Scheduler.OnThreadExit` | src/scheduler_object.cpp:95-100 | the counters follow the run-time step |
| `ThreadModel.Scheduler.OnCheckTimer` | src/scheduler_object.cpp:102-111 | stops the service exactly when the run-time does, otherwise arms the timer again |
| `RuntimeSafety.StepInv` | src/thread_object.cpp:155-258 | every step of every thread, timer, strand and worker keeps the invariant of the whole run-time |
| `RuntimeSafety.ReachableInv` | src/thread_object.cpp:155-258 | so it holds in every reachable state, for any number of threads |
| `RuntimeTheorems.TokensConserved` | src/thread_object.cpp:155-258 | untimed entries in all queues + unrun timer handlers + posted activations + a READY held by `one_step` = suspensions committed to and not left |
| `RuntimeTheorems.PauseReturnsOnlyWhenWoken` | src/thread_object.cpp:200-212 | a paused thread that can be activated has no entry and no handler left, exactly one activation, and what it waited for has happened |
| `RuntimeTheorems.NoLostWakeUp` | src/thread_object.cpp:234-236 | a thread switched out with nothing posted has exactly one entry or handler that will wake it, also when the wake-up came before the pause |
| `RuntimeTheorems.StoppedIsNeverActivated` | src/thread_object.cpp:214-221 | nothing is posted for a stopped thread, ever |
| `RuntimeTheorems.MutualExclusion` | src/mutex.cpp:29-382 | acquisitions minus releases a thread has returned from is the level of the mutex it owns, and 0 for everybody else |
| `RuntimeTheorems.LastReleaseHandsOver` | src/mutex.cpp:107-133 | the owner keeps the mutex until its releases equal its acquisitions; then the longest waiter gets it at level 1, or nobody |
| `RuntimeTheorems.LockReturnsOwning` | src/mutex.cpp:41-46 | `lock()` returns to the owner |
| `RuntimeOutcomes.TryLockResult` | src/mutex.cpp:69-82 | in every reachable state `try_lock()` returns true iff the caller owns the mutex then, and false changes nothing; acquisitions are counted as they should be |
| `RuntimeOutcomes.RefusedCalls` | src/condition.cpp:19-25 | `lock()` by the owner of a mutex that is not recursive, `unlock()` and `wait()` by a thread that is not the owner, change nothing |
| `RuntimeOutcomes.AcceptedCalls` | src/mutex.cpp:29-46 | every other `lock()` acquires at once or parks its thread, and `wait()` by the owner goes on to its unlock |
| `RuntimeOutcomes.NotifierYields` | src/condition.cpp:98-102 | a green thread that notified somebody with `notify_one()`, or called `notify_all()`, has to switch out next |
| `RuntimeOutcomes.SleepReturnsAfterItsTime` | src/thread_object.cpp:306-317 | `sleep_rel()` comes back only after its time, with its handler gone |
| `RuntimeTheorems.TimedLockResult` | src/mutex.cpp:237-263 | `try_lock_rel()` returns true iff an unlock chose the caller, false only if its time expired; no entry and no handler remain |
| `RuntimeTheorems.TimedLockHandler` | src/mutex.cpp:218-235 | in every order of hand-off, expiry and cancel the handler settles the wait: no entry, same owner, one activation |
| `RuntimeTheorems.QueuedTimersAreLive` | src/mutex.cpp:204-213 | every timer pointer in a queue belongs to a waiter still inside its call and was neither cancelled nor handled |
| `RuntimeTheorems.WaitRelResult` | src/condition.cpp:56-78 | `no_timeout` means a notification chose the caller, `timeout` that the time expired; no entry and no handler remain |
| `RuntimeTheorems.JoinReturnsAfterStop` | src/thread_object.cpp:260-274 | `join()` returns only after STOPPED |
| `RuntimeTheorems.JoinLosesNobody` | src/thread_object.cpp:179-192 | once the exit message is posted every joiner still waiting has been activated exactly once |
| `RuntimeTheorems.NoLateJoiner` | src/thread_object.cpp:262-271 | a joiner inside the spinlock section comes before the drain |
| `RuntimeTheorems.ExceptionReachesAtMostOneJoiner` | src/thread_object.cpp:276-304 | an uncaught exception is rethrown to at most one joiner |
| `RuntimeOutcomes.ExceptionIsKeptOrRethrown` | src/thread_object.cpp:276-304 | an uncaught exception is kept until it is rethrown, and that to exactly one joiner |
| `RuntimeOutcomes.StopKeepsException` | src/thread_object.cpp:129-145 | a thread that ends with an exception keeps it |
| `RuntimeOutcomes.JoinReturnHandsOver` | src/thread_object.cpp:300-304 | after its pause `join_and_rethrow()` rethrows iff there is an exception, and takes it; `join()` leaves it |
| `RuntimeOutcomes.JoinTestHandsOver` | src/thread_object.cpp:285-298 | the same at once when the thread to join has stopped; otherwise nothing is taken |
| `RuntimeTheorems.CountIsLive` | src/scheduler_object.cpp:22-42 | `thread_count_` is the number of threads whose exit was not processed |
| `RuntimeTheorems.StopIsFinal` | src/scheduler_object.cpp:102-111 | the service is stopped only when every thread is STOPPED, with nothing pending |
| `RuntimeTheorems.NothingStartsAfterStop` | src/scheduler_object.cpp:102-111 | after the stop there is no timer left and no thread can be created |
| `RuntimeOutcomes.StopsWhenDone` | src/scheduler_object.cpp:102-111 | the check timer stops the service exactly when a thread was created and every exit was processed |
| `RuntimeOutcomes.LastExitStops` | src/scheduler_object.cpp:95-111 | once the last exit was processed the next check stops the service |
| `RuntimeFifo.ExecIsRun` | src/mutex.cpp:29-382 | what any run of the system does to a mutex is a run of that mutex |
| `RuntimeFifo.SystemIsFifo` | src/mutex.cpp:41-66 | so contended acquisitions follow enqueue order in every run of the system |
| `RuntimeFifo.SystemServesWaiter` | src/mutex.cpp:190-235 | and a waiter at position k is handed the mutex by the (k+1)-th hand-off at the latest when others time out |
| `MesaRefinement.SimulateUnlock` | src/mutex.cpp:48-67 | the unlock section is the exit of the holder and the entry of the longest waiter |
| `MesaRefinement.SimulateCondWait` | src/condition.cpp:19-33 | release-and-wait is one step of the monitor, although the mutex is unlocked in a later section |
| `MesaRefinement.SimulateUnlockInWait` | src/condition.cpp:32-32 | the unlock inside the wait only lets the next thread in |
| `MesaRefinement.SimulateNotifyOne` | src/condition.cpp:80-103 | `notify_one()` moves the longest waiter to the entry, and nobody else |
| `MesaRefinement.SimulateNotifyAll` | src/condition.cpp:105-126 | `notify_all()` moves exactly those queued before it |
| `MesaRefinement.SimulateHandler` | src/condition.cpp:35-54 | a timer handler moves its waiter iff it expired and found the entry, and is invisible otherwise |
| `MesaRefinement.SimulateLockReturn` | src/mutex.cpp:259-262 | a timed lock gives up exactly when its caller is not the owner |
| `MesaRefinement.StepRefines` | src/condition.cpp:19-126 | every step of the run-time is the stated monitor steps, or none |
| `MesaRefinement.RunRefines` | src/condition.cpp:19-126 | so every run of the run-time is a run of the monitor |
| `MesaMonitor.WaitEndsBySignal` | src/condition.cpp:19-33 | in the monitor an untimed wait ends by a signal that found the thread at the front, and then its entry |
| `MesaMonitor.SignalsAreFifo` | src/condition.cpp:80-126 | in the monitor notifications serve the waiters of a condition in the order in which they began to wait |
| `MesaRefinement.WaitReturnsNotified` | src/condition.cpp:19-33 | the same of `wait()` in every run of the run-time |
| `MesaRefinement.ConditionIsFifo` | src/condition.cpp:19-126 | the same in every run of the run-time in which no timed wait is given up |
| `SharedMutexModel.SharedTimedMutex.DoLockShared` | include/boost/green_thread/shared_mutex.hpp:141-147 | waits while exclusive or blocked; data, verdict and queues are those of `Section` and `Enqueued` |
| `SharedMutexModel.SharedTimedMutex.DoTryLockShared` | include/boost/green_thread/shared_mutex.hpp:152-159 | the same test, without waiting; data, verdict and queues are those of `Section` and `Enqueued` |
| `SharedMutexModel.SharedTimedMutex.DoTryLockSharedUntil` | include/boost/green_thread/shared_mutex.hpp:175-184 | a timeout is final, without another look; data, verdict and queues are those of `Section` and `Enqueued` |
| `SharedMutexModel.SharedTimedMutex.DoUnlockShared` | include/boost/green_thread/shared_mutex.hpp:189-207 | the last reader grants a waiting converter or unblocks, and releases the waiters; data, verdict and queues are those of `Section` and `Enqueued` |
| `SharedMutexModel.SharedTimedMutex.DoLock` | include/boost/green_thread/shared_mutex.hpp:212-219 | waits while held, blocking new readers; data, verdict and queues are those of `Section` and `Enqueued` |
| `SharedMutexModel.SharedTimedMutex.DoTryLock` | include/boost/green_thread/shared_mutex.hpp:224-233 | the same test, without waiting; data, verdict and queues are those of `Section` and `Enqueued` |
| `SharedMutexModel.SharedTimedMutex.DoTryLockUntil` | include/boost/green_thread/shared_mutex.hpp:249-264 | looks again after a timeout; giving up unblocks the readers and releases them; data, verdict and queues are those of `Section` and `Enqueued` |
| `SharedMutexModel.SharedTimedMutex.DoUnlock` | include/boost/green_thread/shared_mutex.hpp:269-276 | frees the lock, so that the assertion after it holds; data, verdict and queues are those of `Section` and `Enqueued` |
| `SharedMutexModel.SharedTimedMutex.DoLockUpgrade` | include/boost/green_thread/shared_mutex.hpp:278-306 | `lock_upgrade()` and its timed form; data, verdict and queues are those of `Section` and `Enqueued` |
| `SharedMutexModel.SharedTimedMutex.DoTryLockUpgrade` | include/boost/green_thread/shared_mutex.hpp:308-318 | its assertion holds on success; data, verdict and queues are those of `Section` and `Enqueued` |
| `SharedMutexModel.SharedTimedMutex.DoUnlockUpgrade` | include/boost/green_thread/shared_mutex.hpp:320-330 | notifies everybody on shared_cond, or releases the waiters when nobody is left; data, verdict and queues are those of `Section` and `Enqueued` |
| `SharedMutexModel.SharedTimedMutex.DoUnlockUpgradeAndLock` | include/boost/green_thread/shared_mutex.hpp:333-343 | gives up its share, waits for the readers, and then asserts exclusive ownership; data, verdict and queues are those of `Section` and `Enqueued` |
| `SharedMutexModel.SharedTimedMutex.DoUnlockAndLockUpgrade` | include/boost/green_thread/shared_mutex.hpp:345-354 | keeps a share; its assertion holds; data, verdict and queues are those of `Section` and `Enqueued` |
| `SharedMutexModel.SharedTimedMutex.DoTryUnlockUpgradeAndLock` | include/boost/green_thread/shared_mutex.hpp:356-371 | succeeds iff it is the only one and nobody is blocked; data, verdict and queues are those of `Section` and `Enqueued` |
| `SharedMutexModel.SharedTimedMutex.DoTimedToExclusive` | include/boost/green_thread/shared_mutex.hpp:379-396 | both timed conversions to exclusive ownership have this body; data, verdict and queues are those of `Section` and `Enqueued` |
| `SharedMutexModel.SharedTimedMutex.DoUnlockAndLockShared` | include/boost/green_thread/shared_mutex.hpp:399-406 | keeps a share and releases the waiters; data, verdict and queues are those of `Section` and `Enqueued` |
| `SharedMutexModel.SharedTimedMutex.DoTryUnlockSharedAndLock` | include/boost/green_thread/shared_mutex.hpp:408-421 | succeeds iff it is the only reader, with no upgrader and nobody blocked; data, verdict and queues are those of `Section` and `Enqueued` |
| `SharedMutexModel.SharedTimedMutex.DoUnlockUpgradeAndLockShared` | include/boost/green_thread/shared_mutex.hpp:449-455 | gives up the upgrade right and releases the waiters; data, verdict and queues are those of `Section` and `Enqueued` |
| `SharedMutexModel.SharedTimedMutex.DoTryUnlockSharedAndLockUpgrade` | include/boost/green_thread/shared_mutex.hpp:457-469 | succeeds iff there is no upgrader and nobody blocked; data, verdict and queues are those of `Section` and `Enqueued` |
| `SharedMutexModel.SharedTimedMutex.DoTryUnlockSharedAndLockUpgradeUntil` | include/boost/green_thread/shared_mutex.hpp:477-498 | looks again after every wake-up, gives up on a timeout; data, verdict and queues are those of `Section` and `Enqueued` |
| `SharedMutexModel.SharedTimedMutex.NotifyExclusive` | include/boost/green_thread/shared_mutex.hpp:510-513 | notify_one: at most the first waiter leaves |
| `SharedMutexModel.SharedTimedMutex.NotifyShared` | include/boost/green_thread/shared_mutex.hpp:510-513 | notify_all: everybody leaves |
| `SharedMutexRuns.SectionFlags` | include/boost/green_thread/shared_mutex.hpp:141-498 | every section of a correct caller keeps count and flags in step with who holds what, across all conversions |
| `SharedMutexRuns.SectionFacts` | include/boost/green_thread/shared_mutex.hpp:141-498 | whatever frees the lock or opens a condition is followed by the notification that serves the waiters |
| `SharedMutexRuns.StepInv` | include/boost/green_thread/shared_mutex.hpp:141-498 | every section, notification and timeout, interleaved freely, keeps the invariant |
| `SharedMutexTheorems.Exclusion` | include/boost/green_thread/shared_mutex.hpp:141-421 | a writer, or a converter granted by the last reader, excludes everybody else |
| `SharedMutexTheorems.OneUpgrader` | include/boost/green_thread/shared_mutex.hpp:278-371 | there is at most one upgrader or converter |
| `SharedMutexTheorems.FieldsMean` | include/boost/green_thread/shared_mutex.hpp:25-132 | shared_count is readers plus upgrader; exclusive iff somebody holds exclusively; upgrade iff upgrader or ungranted converter, and then the count is at least 1 |
| `SharedMutexTheorems.EntryAssertions` | include/boost/green_thread/shared_mutex.hpp:34-62 | the assertions made on entry hold for every correct caller |
| `SharedMutexTheorems.ExitAssertions` | include/boost/green_thread/shared_mutex.hpp:333-371 | the assertions made before returning hold |
| `SharedMutexTheorems.WokenConverterOwns` | include/boost/green_thread/shared_mutex.hpp:333-343 | a converter that wakes up leaves its loop as the writer |
| `SharedMutexTheorems.BlockedKeepsOut` | include/boost/green_thread/shared_mutex.hpp:81-83 | while exclusive_waiting_blocked is set nobody new shares the lock; it is taken back only with a release or by an exclusive owner |
| `SharedMutexTheorems.BlockedImpliesHeld` | include/boost/green_thread/shared_mutex.hpp:212-219 | exclusive_waiting_blocked implies that the lock is held |
| `SharedMutexTheorems.FreeLockServesWriters` | include/boost/green_thread/shared_mutex.hpp:249-276 | a free lock with a parked writer has a notified writer or a release in flight |
| `SharedMutexTheorems.PassableIsServed` | include/boost/green_thread/shared_mutex.hpp:278-330 | a reader or upgrader parked although it could pass has a notification in flight |
| `SharedMutexTheorems.ConverterIsServed` | include/boost/green_thread/shared_mutex.hpp:189-207 | a parked converter waits for readers, or its own notification is in flight |
| `SharedMutexTheorems.NobodyStranded` | include/boost/green_thread/shared_mutex.hpp:510-513 | when nothing is in flight and the lock is free, nobody waits |
| `SharedMutexTheorems.WokenCanRun` | include/boost/green_thread/shared_mutex.hpp:141-498 | a woken thread can always run its section again, so that the model restricts nobody on its way; the timed conversion above a waiting converter apart |
| `SharedMutexTheorems.TimedConversionIff` | include/boost/green_thread/shared_mutex.hpp:428-446 | at the call, after a notification and after a timeout, `try_unlock_shared_and_lock_until()` keeps the invariant iff it does not find the count at 1 with `upgrade` set |
| `SharedMutexTheorems.StrandedConverter` | include/boost/green_thread/shared_mutex.hpp:428-446 | the run that shows it otherwise: a free lock, nothing in flight, and a converter parked for ever |
| `SharedMutexWriters.StepGuarded` | include/boost/green_thread/shared_mutex.hpp:189-276 | that a parked writer finds the lock closed to newcomers, or a writer on its way, is kept by every step except exactly one: `notify_one()` taking a timed conversion to upgrade ownership from the same queue |
| `SharedMutexWriters.ParkedWriterKeepsOut` | include/boost/green_thread/shared_mutex.hpp:212-219 | in every run without that conversion nobody new can share the lock while a writer is parked, until a writer looks at it |
| `SharedMutexWriters.WriterOvertaken` | include/boost/green_thread/shared_mutex.hpp:477-498 | the run with it: nothing in flight, a writer parked in `lock()`, and readers can enter |
| `SharedMutexWriters.StepBlocked` | include/boost/green_thread/shared_mutex.hpp:249-264 | every step keeps: exclusive_waiting_blocked on a lock not held exclusively is there for a writer inside its call |
| `SharedMutexWriters.ClosedOnlyForWriters` | include/boost/green_thread/shared_mutex.hpp:249-264 | in every reachable state a lock that nobody holds exclusively is closed to readers only while a writer is inside its call, so not by one that gave up |
| `SharedMutexWriters.NoWriterReadersPass` | include/boost/green_thread/shared_mutex.hpp:254-258 | without such a writer a reader parked before can pass, and has a notification in flight |
| `SharedMutexOutcomes.SuccessIff` | include/boost/green_thread/shared_mutex.hpp:141-498 | every member succeeds exactly when those who hold the lock and the flag admit what it asks for, waits exactly when they do not and it may and its time is not up, and is refused otherwise |
| `SharedMutexOutcomes.NotifiesWhom` | include/boost/green_thread/shared_mutex.hpp:189-513 | whom a member notifies is decided by who else holds the lock, and what becomes of the flag by what it answered |
| `MonitorSections.SignalsRun` | src/condition.cpp:80-126 | n notifications of a condition let exactly its first n waiters go, in order |
| `MonitorSections.SectionRuns` | src/condition.cpp:19-126 | enter, notify, leave or wait: a critical section as monitor steps |
| `MonitorSections.LeaveLater` | src/condition.cpp:80-126 | notifying and then leaving ends where leaving and then notifying does |
| `SharedMutexOnMonitor.StepRefines` | include/boost/green_thread/shared_mutex.hpp:141-513 | every section, notification and timeout is a run of the monitor; the notifications of `Release` come after the section |
| `SharedMutexOnMonitor.RunRefines` | include/boost/green_thread/shared_mutex.hpp:141-513 | so is every run of the shared mutex, with the notifications placed like that |
| `SharedMutexOnMonitor.NotifyingInside` | include/boost/green_thread/shared_mutex.hpp:269-276 | for the members that notify before they release the mutex: entering, `release_waiters()` and only then leaving ends where the section and its two notification steps end |
| `ConcurrentQueueModel.ConcurrentQueue.DoOpen` | include/boost/green_thread/concurrent_queue.hpp:38-42 | only opens |
| `ConcurrentQueueModel.ConcurrentQueue.DoClose` | include/boost/green_thread/concurrent_queue.hpp:44-49 | closes and notifies everybody parked |
| `ConcurrentQueueModel.ConcurrentQueue.DoPush` | include/boost/green_thread/concurrent_queue.hpp:56-74 | refused when closed; otherwise the loop |
| `ConcurrentQueueModel.ConcurrentQueue.DoPushLoop` | include/boost/green_thread/concurrent_queue.hpp:63-73 | waits while full and open, is refused when closed, otherwise appends and notifies one consumer |
| `ConcurrentQueueModel.ConcurrentQueue.DoPushAgain` | include/boost/green_thread/concurrent_queue.hpp:63-73 | the loop after a notification |
| `ConcurrentQueueModel.ConcurrentQueue.DoPushSome` | include/boost/green_thread/concurrent_queue.hpp:105-116 | takes as many as fit, one notification each |
| `ConcurrentQueueModel.ConcurrentQueue.DoPushAll` | include/boost/green_thread/concurrent_queue.hpp:119-131 | takes all of them, whatever the capacity |
| `ConcurrentQueueModel.ConcurrentQueue.DoTryPush` | include/boost/green_thread/concurrent_queue.hpp:133-147 | refused when closed or full |
| `ConcurrentQueueModel.ConcurrentQueue.DoPopLoop` | include/boost/green_thread/concurrent_queue.hpp:265-281 | waits while empty and open, fails when closed and empty, otherwise takes the front and notifies one producer |
| `ConcurrentQueueModel.ConcurrentQueue.DoPopAgain` | include/boost/green_thread/concurrent_queue.hpp:268-281 | the loop after a notification |
| `ConcurrentQueueModel.ConcurrentQueue.DoTryPop` | include/boost/green_thread/concurrent_queue.hpp:283-294 | fails when empty |
| `ConcurrentQueueModel.StepInv` | include/boost/green_thread/concurrent_queue.hpp:38-131 | every operation keeps: no stranded party, conservation, and who is where |
| `ConcurrentQueueModel.ParkedConsumerIsServed` | include/boost/green_thread/concurrent_queue.hpp:265-281 | a parked consumer implies items <= notified consumers |
| `ConcurrentQueueModel.ParkedProducerIsServed` | include/boost/green_thread/concurrent_queue.hpp:56-74 | a parked producer implies max(0, capacity - size) <= notified producers |
| `ConcurrentQueueModel.NobodyStranded` | include/boost/green_thread/concurrent_queue.hpp:38-131 | with everybody notified back, a parked consumer means empty, a parked producer full, and a closed queue nobody parked |
| `ConcurrentQueueModel.Fifo` | include/boost/green_thread/concurrent_queue.hpp:56-131 | the accepted items are the popped ones followed by the contents, in order |
| `ConcurrentQueueModel.BatchStaysContiguous` | include/boost/green_thread/concurrent_queue.hpp:119-131 | what one call accepted stays contiguous whatever happens later |
| `ConcurrentQueueModel.WithinCapacity` | include/boost/green_thread/concurrent_queue.hpp:63-73 | without `push_all()` the capacity is never exceeded |
| `ConcurrentQueueModel.PopResult` | include/boost/green_thread/concurrent_queue.hpp:265-294 | in every reachable state, at the call and after a wait: `pop()` fails iff closed and empty, waits iff open and empty, `try_pop()` fails iff empty, and otherwise the oldest item not popped is returned and popped |
| `ConcurrentQueueModel.PushResult` | include/boost/green_thread/concurrent_queue.hpp:56-147 | `push()` waits iff open and full, `try_push()` never; they return true iff the item was accepted, which is iff the queue is open and not full |
| `ConcurrentQueueModel.BatchResult` | include/boost/green_thread/concurrent_queue.hpp:103-131 | `push_all()` accepts everything or nothing and says which; `push_some()` accepts a beginning, and stops early only if the queue is closed or full then |
| `ConcurrentQueueModel.CloseAndOpen` | include/boost/green_thread/concurrent_queue.hpp:38-49 | after `close()` nothing is accepted in any run until `open()` |
| `ConcurrentQueueOnMonitor.PushEachPlaces` | include/boost/green_thread/concurrent_queue.hpp:105-131 | pushing items lets one consumer go for each, as long as there are any |
| `ConcurrentQueueOnMonitor.StepRefines` | include/boost/green_thread/concurrent_queue.hpp:38-131 | every operation is a run of the monitor, whichever thread makes it |
| `ConcurrentQueueOnMonitor.RunRefines` | include/boost/green_thread/concurrent_queue.hpp:38-131 | so is every run of the queue |
| `BarrierModel.Barrier.Create` | include/boost/green_thread/barrier.hpp:100-174 | a count of 0 is refused; otherwise the first generation has that size, and nobody has arrived |
| `BarrierModel.Barrier.DoArrive` | include/boost/green_thread/barrier.hpp:135-148 | the last arrival starts a generation with the size the completion function returns and wakes everybody |
| `BarrierModel.Barrier.DoAgain` | include/boost/green_thread/barrier.hpp:147-149 | a woken thread compares generations |
| `BarrierModel.ExecInv` | include/boost/green_thread/barrier.hpp:135-150 | every run of arrivals and wake-ups keeps the invariant |
| `BarrierModel.CurrentGeneration` | include/boost/green_thread/barrier.hpp:135-150 | m_count + arrivals = size, nobody of the generation has returned, and exactly its threads are parked |
| `BarrierModel.OneTruePerGeneration` | include/boost/green_thread/barrier.hpp:135-150 | a completed generation of size n has exactly one true and n - 1 false |
| `BarrierModel.NobodyReturnsEarly` | include/boost/green_thread/barrier.hpp:139-148 | nobody returns before the n-th arrival |
| `BarrierModel.NobodyLeftBehind` | include/boost/green_thread/barrier.hpp:139-149 | a thread of a completed generation is awake and returns false |
| `BarrierModel.NextSize` | include/boost/green_thread/barrier.hpp:140-143 | the next size is what the completion function returned |
| `BarrierOnMonitor.StepRefines` | include/boost/green_thread/barrier.hpp:135-150 | every arrival and wake-up is a run of the monitor |
| `BarrierOnMonitor.RunRefines` | include/boost/green_thread/barrier.hpp:135-150 | so is every run of the barrier |
| `BarrierExecution.StepIsRun` | include/boost/green_thread/barrier.hpp:135-150 | conversely, of threads that execute `wait()` one monitor step at a time, the look at the fields is a step of the barrier and every other step is none |
| `BarrierExecution.ExecutionsAreRuns` | include/boost/green_thread/barrier.hpp:135-150 | so every such execution, of any threads in any interleaving, is in a reachable state of the barrier |
| `SharedStateModel.SharedState.MarkReadyAndNotify` | include/boost/green_thread/future/detail/shared_state.hpp:60-68 | every registered function runs once, in order, after readiness and with the mutex released |
| `SharedStateModel.SharedState.Set` | include/boost/green_thread/future/detail/shared_state.hpp:78-106 | single assignment: a second value is refused; the outcome, the list, the queue and what ran are those of the run of the machine |
| `SharedStateModel.SharedState.OwnerDestroyed` | include/boost/green_thread/future/detail/shared_state.hpp:70-76 | the outcome is a broken promise exactly if there was none yet, and then everything registered runs; the run of the machine |
| `SharedStateModel.SharedState.AddExternalWaiter` | include/boost/green_thread/future/detail/shared_state.hpp:168-178 | the run of the machine: runs at once when ready, is registered otherwise |
| `SharedStateModel.SharedState.Get` | include/boost/green_thread/future/detail/shared_state.hpp:108-126 | the run of the machine: the outcome, or a place in the queue exactly if there is none |
| `SharedStateModel.OpIsRun` | include/boost/green_thread/future/detail/shared_state.hpp:60-178 | what each of these methods leaves is where the machine ends when its thread runs the call alone, through the loop that releases the mutex |
| `SharedStateRuns.StepInv` | include/boost/green_thread/future/detail/shared_state.hpp:60-178 | every interleaving of setters, registrations and waiters, with the mutex dropped in the loop, keeps the invariant |
| `SharedStateRuns.ExactlyOnce` | include/boost/green_thread/future/detail/shared_state.hpp:60-68 | no function runs twice; once nobody is inside a call every function ran iff the state is ready |
| `SharedStateRuns.RunsUnlocked` | include/boost/green_thread/future/detail/shared_state.hpp:64-67 | a function runs after readiness and while its thread does not hold the mutex |
| `SharedStateRuns.LoopRunsPrefix` | include/boost/green_thread/future/detail/shared_state.hpp:60-68 | only one thread is ever in the loop, and it has run a prefix of the list |
| `SharedStateRuns.OutcomeIsFinal` | include/boost/green_thread/future/detail/shared_state.hpp:78-106 | outcome and list are frozen once ready |
| `SharedStateRuns.StepOutcome` | include/boost/green_thread/future/detail/shared_state.hpp:70-106 | a step makes an outcome only if there is none: the value or exception set, or a broken promise when the promise ends |
| `SharedStateRuns.FirstDecides` | include/boost/green_thread/future/detail/shared_state.hpp:70-106 | in every run the outcome is what the first setter, or the end of the promise, to take the mutex decided |
| `SharedStateRuns.GetWaitsForOutcome` | include/boost/green_thread/future/detail/shared_state.hpp:108-126 | `get()` returns only with the outcome, and nobody is parked on a ready state |
| `SharedStateRuns.MutualExclusion` | include/boost/green_thread/future/detail/shared_state.hpp:35-45 | at most one thread holds the mutex |
| `SharedStateOnMonitor.StepRefines` | include/boost/green_thread/future/detail/shared_state.hpp:60-178 | every step, with the mutex taken and released as in the code, is a run of the monitor |
| `SharedStateOnMonitor.RunRefines` | include/boost/green_thread/future/detail/shared_state.hpp:60-178 | so is every run of the shared state |
| `Continuations.Continuation.Invoke` | include/boost/green_thread/future/promise.hpp:637-640 | the step of the forest that runs this continuation; the promise is not refused, and everything registered on it is started |
| `Continuations.StepInv` | include/boost/green_thread/future/promise.hpp:629-645 | every `then()`, value and continuation, in any order, keeps the invariant |
| `Continuations.ReadyMeans` | include/boost/green_thread/future/promise.hpp:512-517 | a ready future has the composition of the functions on its path, and its continuation ran once, after its source |
| `Continuations.OrderDoesNotMatter` | include/boost/green_thread/future/promise.hpp:629-645 | outcomes depend on the forest and the values only, not on the order of `then()` and `set_value()` |
| `Continuations.DueCanRun` | include/boost/green_thread/future/detail/shared_state.hpp:168-178 | a continuation that is due can always run |
| `Continuations.ChainIsComposition` | include/boost/green_thread/future/promise.hpp:629-645 | a chain of any length is function composition |
| `InputsOnStates.StepEvent` | include/boost/green_thread/future/detail/shared_state.hpp:60-178 | a step of a shared state makes an input ready, registers the waiter, or runs it, once and after readiness; only a registration on a ready state runs it at once |
| `InputsOnStates.RunProjects` | include/boost/green_thread/future/future.hpp:1075-1093 | what any run of n shared states does to the waiters of one combinator is a run of its inputs |
| `Combinators.AsyncAllState.Count` | include/boost/green_thread/future/promise.hpp:585-594 | `count()` is one step of the machine, and a second one in the call that reaches the count |
| `Combinators.RegisterAll` | include/boost/green_thread/future/promise.hpp:802-814 | the registration loop sets the promise iff all inputs are ready at the call, and there are some |
| `Combinators.AsyncAllExactlyOnce` | include/boost/green_thread/future/promise.hpp:777-814 | for n >= 1: set at most once, never refused, only after all inputs are ready and ran their waiters, and then indeed |
| `Combinators.AsyncAllOfNothing` | include/boost/green_thread/future/promise.hpp:802-814 | for n = 0 it is never set |
| `WaitForAll.WaitForAllReturns` | include/boost/green_thread/future/future.hpp:1172-1220 | returns only after every input is ready, in both forms and whatever is ready at the call |
| `WaitForAll.WaitForAllMayHangIff` | include/boost/green_thread/future/future.hpp:1172-1220 | a call can hang for ever although all inputs become ready and run their waiters, iff some input is not ready at the call |
| `WaitForAll.WaiterMayOutliveCallIff` | include/boost/green_thread/future/future.hpp:1201-1220 | a call can return while a waiter is still about to notify its condition variable, iff some input is not ready at the call |
| `Combinators.AnyState.SetValue` | include/boost/green_thread/future/future.hpp:1041-1046 | `set_value()` is the step of the machine that sets the value and wakes the waiting thread |
| `Combinators.AnyState.Wait` | include/boost/green_thread/future/future.hpp:1048-1052 | one look of `wait()` is the test of the machine: the index of an input that is ready, or a place in the queue |
| `Combinators.WaitForAnyReturns` | include/boost/green_thread/future/future.hpp:1132-1170 | returns some input that is ready, and while it waits no waiter has finished |
| `AsyncWaitForAny.AsyncAnyState.SetValue` | include/boost/green_thread/future/promise.hpp:535-545 | `set_value()`, run without interruption, is the three steps of the machine |
| `AsyncWaitForAny.AsyncWaitForAnyResult` | include/boost/green_thread/future/promise.hpp:737-759 | the promise gets an input that is ready and keeps it, and has got one once some waiter ran and none is in flight |
| `AsyncWaitForAny.MayRefuseIff` | include/boost/green_thread/future/promise.hpp:535-545 | a waiter can find the promise satisfied iff there are two inputs or more and the first is not ready at the call |

## Left out

- Interruption, the dispatch branch of `activate()`, foreign threads and their pool: every statement is about
  green threads, and joiners and sleepers are resumed through their strand.
- Two threads that share a strand: each thread has its own.
- `scheduler_object::start`, `add_thread` and `join`, worker threads and the real clock: only creation, exit and
  the check timer change what is stated.
- The order of handlers on a strand, memory ordering, coroutines and Asio themselves: see the assumptions.
- Liveness under fairness: what is shown is that a wake-up is on its way, not that it arrives in time.
- MutexModel.TimedMutex.TryLockRel: stops at the pause; what the call returns after it is `TimedLockResult`.
- SharedMutexRuns.StepInv: does not cover a section of `try_unlock_shared_and_lock_until()` that finds the count at 1
  with `upgrade` set, because the invariant fails there; every other section of it is covered, waiting or not.
- SharedMutexTheorems.WokenCanRun: has the same exception.
- SharedMutexOnMonitor.StepRefines: places the notifications of members that notify while they hold the mutex after
  the section; `NotifyingInside` shows that they end in the same place. That every execution on the monitor is a
  run of the machine is shown for the barrier only.
- Continuations.StepInv: the run of a continuation and the setting of its promise are one step, which is not derived
  from runs of the shared states, as the inputs of the combinators are.
- PassableIsServed: says nothing of a timed conversion that waits, which is not notified when its condition
  becomes true and ends by its timeout.
- The timed push and pop operations and `pop_some()` of the queue: they report a timeout after having taken a
  notification, so the statement about stranded parties does not hold of them.
- `shared_state::reset`, `packaged_task`, allocators, reference counts, moves and swaps: no state of their own
  in this model.
- Streams, `greenify`, thread-specific storage, thread groups: thin layers over the above or input and output.
