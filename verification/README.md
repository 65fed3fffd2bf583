# Verified model of the coroutine runtime's synchronisation stack

This project models, in Dafny 4.11, the synchronisation objects of a C++ coroutine runtime (hand-off
mutex, condition variable, channel, event, latch) and the run loop beneath them (scheduler, context,
engine, fixed-fd pool), and proves what they guarantee in every interleaving.

`dafny verify dfyconfig.toml` verifies everything.

## How the model is built

* **Interleaved machines.** `Sync`, `Channel`, `WaitCount`, `WaitGuarantee`, `Event`, `Latch`,
  `SharedCount`, `StopToken`, `Engine` and `Workers` are state machines over the program's own memory: pointers,
  atomic words, counters and local variables of every thread of control. A label names one atomic
  operation; `Enabled` says when it can happen and `Do` what it does. A run is any sequence of enabled
  labels, over any number of tasks, threads and calls. A weak compare-and-exchange may fail
  spuriously. History variables sit beside the memory, are read by no step, and serve to state
  properties such as order of arrival.
* **Objects.** `HandOff` holds the mutex, the condition variable and the awaiters as classes whose
  methods relink the awaiters in place, for one thread running alone; `Buffers` holds the three ring
  buffers; `FdPool` the marked buffer, the proxy's pool and the borrowed slots.
* **Layering.** The channel machine drives the pointer-level mutex and condition variables of `Sync`
  step by step; its buffer is the bounded queue that all three classes of `Buffers` refine, and
  `ChannelTheorems.BufferAccessInBounds` shows that the preconditions of their methods hold. The latch
  machine drives the event machine. `SharedCount` interleaves any number of mutexes and events over the
  one wait counter of each context, and `Workers` any number of engines whose workers write to each
  other's eventfds. The hand-offs of `StopToken` go only to contexts with a positive
  wait counter, which is what `SharedCount.ZeroMeansNobody` proves.

| file | content |
|---|---|
| `Sync.dfy`, `SyncInv.dfy`, `SyncTheorems.dfy` | mutex word, resume list, `m_next` links, condition variables; inductive invariant; mutual exclusion, link discipline, FIFO refinement |
| `HandOff.dfy` | the same lists as heap objects; exact result of `unlock`/`resume`, `notify_one`, `notify_all` |
| `WaitGuarantee.dfy` | what a task may rely on after a predicate wait, for arbitrary predicates and data |
| `Channel.dfy`, `ChannelInv.dfy`, `ChannelTheorems.dfy` | send, recv, close; invariant; wake-ups, conservation, end of stream |
| `ChannelLedger.dfy` | what calls pass and return, read off the steps of a run and the calls' results |
| `ChannelClose.dfy`, `ChannelPhases.dfy`, `ChannelRuns.dfy`, `ChannelMissed.dfy` | when close leaves nobody asleep; the senders' law phase by phase; failing runs; a missed sleeper sleeps for good |
| `Buffers.dfy`, `Bits.dfy` | reset ring, power-of-two ring with wrapping counters, single slot; bit masks |
| `WaitCount.dfy`, `SharedCount.dfy`, `Counting.dfy` | wait counters of contexts: the share of one mutex with its condition variables, and the shared counter |
| `Event.dfy`, `EventTheorems.dfy`, `Latch.dfy` | event and latch |
| `StopToken.dfy`, `StopTheorems.dfy`, `StopRuns.dfy`, `StopLedger.dfy`, `Quiescence.dfy` | contexts, stop flags and token, atomic step by atomic step; when stop is called and what it leaves behind; failing runs; tasks, waits and I/O from the steps; undivided submissions and idle tests |
| `Engine.dfy`, `EngineTheorems.dfy`, `EngineLedger.dfy`, `EngineProgress.dfy` | worker wake-ups, I/O accounting, an engine's state from the steps, a worker's own steps |
| `Workers.dfy`, `WorkersProgress.dfy`, `WorkersStop.dfy`, `WorkersRuns.dfy` | several workers; when each can move and when never again; how stop reaches them all; runs in which they block for good |
| `FdPool.dfy` | fixed-fd pool |

## Findings

Properties that do not hold of the code as one would first state them. Each has a concrete run or
input, and the exact condition under which the property holds.

* `channel::close` can return and leave one receiver asleep for good on a closed channel: the receiver
  evaluated its predicate before the store and registers after both `notify_all` calls
  (`ChannelRuns.CloseCanMissOne`), and no later send, recv or hand-off resumes it
  (`ChannelMissed.MissedForGood`). A close leaves nobody asleep, in every continuation, if and only if
  nobody is between a false predicate and its registration at the store
  (`ChannelClose.CloseLeavesNobodyExactly`); never more than one task is left
  (`ChannelTheorems.AtMostOneStraggler`).
* Between the store of `close` and the first detachment of the producers' queue, at every capacity, a
  sender can sleep beside a free slot with the mutex free (`ChannelRuns.SenderStrandedWhileClosing`).
  The law for senders holds throughout a phase of the channel's closing if and only if the phase is
  not that one (`ChannelPhases.SendersLawExactly`).
* A latch built with a count of 2^63 or more opens at the first `count_down`, because the unsigned
  argument becomes a negative signed counter; it never opens early if and only if the count is below
  2^63 (`Latch.NeverEarlyExactly`).
* A value event shows every awaiter a value passed to `set` if and only if it was not constructed set
  (`EventTheorems.ValuesShownExactlyIfUnset`).
* The scheduler can call stop beside a queued task, with any number of contexts: when a submission
  overlaps a context's window from its queue test to the clearing of its flag
  (`StopRuns.StopCanMissATask`), or adds to the token after the subtraction that reached zero
  (`StopRuns.StopCanPrecedeAddition`). Clearing a flag leaves nothing behind if and only if the window
  was not overlapped (`StopTheorems.ClearsExactly`). Stop leaves everything quiet if and only if no
  addition is pending, the window of the context that calls it was not overlapped, and every other
  context whose window was overlapped has since run what it missed
  (`StopTheorems.StopLeavesQuietExactly`).
* Writes to a full eventfd block workers for good. A worker is the only reader of its counter, and a
  loop pass with no wait, no I/O and a queued task continues without reading, so one task that submits
  itself each time it runs fills the counter with 2^20 - 1 unread wake-ups. Its worker then blocks in
  its own submission (`WorkersRuns.SelfSubmissionBlocks`); or, if the task ends at that point and its
  context is the last to go idle, in the stop callback, which asks that context first and never
  returns (`WorkersRuns.StopHangs`); and a worker that hands a task to a blocked one blocks with it
  (`WorkersRuns.OneBlocksAnother`). A worker can move if and only if it has not left its loop, does not
  wait on a zero counter, and is not about to write to a full counter, its own or another's
  (`WorkersProgress.WorkerMovesExactly`); workers that write to each other's full counters never move
  again (`WorkersProgress.JamForever`).
* The completion test of the eventfd counter fails at 2^24 unread completions (`Engine.CqeTestExact`);
  the bound on outstanding operations keeps them at no more than 2 * 16384
  (`EngineTheorems.CompletionTest`).

## Model

| member | source | states |
|---|---|---|
| `SyncInv.StepInv` | src/comp/mutex.cpp:21-93 | every atomic step of any task, notifier or unlocker preserves the invariant: one thread in charge of the mutex, one place per published awaiter, links, tails, pending exchanges |
| `SyncTheorems.EveryRun` | src/comp/condition_variable.cpp:6-126 | the invariant holds after every run of the mutex and its condition variables |
| `SyncTheorems.MutualExclusion` | src/comp/mutex.cpp:21-93 | at most one thread of control owns the mutex or is handing it over, in every reachable state |
| `SyncTheorems.UnlockAsserts` | src/comp/mutex.cpp:66-90 | the three assertions of unlock hold whenever they are reached |
| `SyncTheorems.LinksNeverShared` | src/comp/mutex.cpp:26-38 | walks along `m_next` from two list heads, or from two depths of one list, never meet: no awaiter is on two lists |
| `SyncTheorems.ListsEnd` | src/comp/mutex.cpp:80-91 | every list (stack, reversal remainder, resume list, cv queue, detached chain) is acyclic and ends at null |
| `SyncTheorems.TailIsLast` | src/comp/condition_variable.cpp:32-47 | a cv's tail is the last node of its head's chain, and null exactly when the head is |
| `SyncTheorems.NobodyIsLost` | src/comp/condition_variable.cpp:91-126 | the awaiter of a suspended task is on some list or in the hand of some thread |
| `SyncTheorems.PushArrives` | src/comp/mutex.cpp:34-43 | a successful push appends to the queue hidden in the two lists |
| `SyncTheorems.TakeOvertakesNobody` | src/comp/mutex.cpp:27-33 | `lock` and `try_lock` take the mutex only when it is free, and then nobody is queued |
| `SyncTheorems.PopGrantsHead` | src/comp/mutex.cpp:90-92 | unlock grants the head of the queue |
| `SyncTheorems.FreesOnlyWhenEmpty` | src/comp/mutex.cpp:68-75 | unlock frees the mutex if and only if nobody is queued at that instant |
| `SyncTheorems.ReversalIsInvisible` | src/comp/mutex.cpp:77-87 | taking the stack and each iteration of the reversal leave the queue unchanged, whatever is pushed meanwhile |
| `SyncTheorems.RefinesFifo` | src/comp/mutex.cpp:21-93 | every step of the program is a step of a plain FIFO lock, or invisible to it |
| `SyncTheorems.GrantedInArrivalOrder` | src/comp/mutex.cpp:64-93 | over any run, arrivals = grants, in order, followed by the queue |
| `HandOff.ReverseInPlace` | src/comp/mutex.cpp:80-87 | the reversal loop relinks the nodes into the reversed list |
| `HandOff.CondVar.RegisterCv` | src/comp/condition_variable.cpp:32-47 | appends the awaiter to the linked queue |
| `HandOff.CondVar.PopFirst` | src/comp/condition_variable.cpp:93-108 | removes the first awaiter and keeps the tail right |
| `HandOff.CondVar.DetachQueue` | src/comp/condition_variable.cpp:115-118 | takes the whole chain |
| `HandOff.Mutex.TakeStack` | src/comp/mutex.cpp:77-87 | exchange and reversal keep the order of arrival |
| `HandOff.Mutex.NextWaiter` | src/comp/mutex.cpp:64-91 | the first in arrival order leaves the queue; if there is none, and only then, the mutex is free |
| `HandOff.Mutex.RegisterLock` | src/comp/mutex.cpp:21-46 | takes a free mutex, else joins the back of the queue |
| `HandOff.Mutex.TryLock` | src/comp/mutex.cpp:53-57 | succeeds exactly when the mutex is free, and then nobody is queued |
| `HandOff.FirstQualified` | src/comp/condition_variable.cpp:57-69 | the position of the first awaiter that is a plain one or whose predicate holds |
| `HandOff.Mutex.Unlock` | src/comp/mutex.cpp:64-93 | terminates; ownership goes to the first qualified waiter in arrival order; everybody skipped is at the back of its own cv in the same order; free if nobody qualifies |
| `HandOff.Mutex.Resume` | src/comp/condition_variable.cpp:57-69 | the other half of the recursion, with the same exact result |
| `HandOff.Mutex.WakeUp` | src/comp/condition_variable.cpp:49-55 | queues the awaiter on a held mutex, resumes it on a free one |
| `HandOff.Mutex.NotifyOne` | src/comp/condition_variable.cpp:91-109 | exact new queues and owner, with the mutex held and with the mutex free |
| `HandOff.Mutex.WaitOn` | src/comp/condition_variable.cpp:17-30 | goes on if the predicate holds, else sleeps behind the others and passes the mutex on |
| `HandOff.Mutex.NotifyAll` | src/comp/condition_variable.cpp:111-126 | visits each waiter present at the detachment once and terminates; held: appends them to the mutex queue in order; free: first qualified owns, earlier ones back on the cv, later ones queued |
| `HandOff.Mutex.VisitFirst` | src/comp/condition_variable.cpp:120-125 | one round of that loop: the next node is read before the current one may move |
| `HandOff.OutcomeSnoc` | src/comp/condition_variable.cpp:120-125 | waking one more awaiter extends the exact result of waking those before it |
| `WaitGuarantee.MonotoneIsEnough` | src/comp/condition_variable.cpp:17-30 | a task about to continue after a predicate wait, suspended or not, is the unique owner and its predicate is true, for arbitrary data, if non-owners can only make predicates true |
| `WaitGuarantee.GuaranteedExactlyIfMonotone` | src/comp/condition_variable.cpp:49-69 | that guarantee holds in every run if and only if non-owners can only make predicates true |
| `WaitCount.WStepInv` | src/comp/condition_variable.cpp:12-30 | every step keeps a mutex's share of each counter equal to its waiting tasks; going back to sleep does not count again |
| `WaitCount.NeverUnderflows` | src/comp/mutex.cpp:9-19 | what `await_resume` subtracts is one, and it is there |
| `SharedCount.CountIsExact` | include/coro/context.hpp:104-117 | over any interleaving of any number of mutexes, condition variables and events, each context's counter is the number of its awaiters between register and unregister |
| `SharedCount.NeverUnderflows` | include/coro/context.hpp:114-117 | what any step subtracts from the shared counter is there |
| `SharedCount.ZeroMeansNobody` | include/coro/context.hpp:142-145 | a zero counter means that no task of the context is suspended, granted or being resumed at any mutex or condition variable, nor waiting at any event |
| `ChannelInv.CStepInv` | include/coro/comp/channel.hpp:30-122 | every step of any send, recv, close or hand-off preserves the channel's invariant |
| `ChannelTheorems.EveryRun` | include/coro/comp/channel.hpp:62-134 | the invariant holds after every run, from an empty channel of any capacity |
| `ChannelTheorems.ReceiversNeverStranded` | include/coro/comp/channel.hpp:104-121 | while a receiver sleeps, buffered values are at most the receivers engaged on the mutex plus one pending notification; mutex free: no receiver sleeps beside a value |
| `ChannelTheorems.SendersNeverStranded` | include/coro/comp/channel.hpp:77-94 | the same for senders and free slots, unless a close has stored and none has detached the producers |
| `ChannelPhases.SendersLawExactly` | include/coro/comp/channel.hpp:30-94 | at every capacity the senders' law holds in every reachable state of a phase of closing if and only if the phase is not "closed, producers not yet detached" (or there is no slot) |
| `ChannelTheorems.Conservation` | include/coro/comp/channel.hpp:70-122 | accepted values = received values followed by the buffer; the buffer never exceeds its capacity |
| `ChannelLedger.Delivery` | include/coro/comp/channel.hpp:70-122 | over every run, the values passed by the calls that stored, in order, are the values returned by the calls that took, in order, followed by the buffer; no call stores or takes twice; those that stored are exactly the sends that return true, those that took exactly the recvs that return a value |
| `ChannelLedger.DoesWhatWasCalled` | include/coro/comp/channel.hpp:68-97 | each call performs the operation, with the value, it was called with |
| `ChannelLedger.ResultStays` | include/coro/comp/channel.hpp:93-121 | the result of a call, once fixed, never changes |
| `ChannelLedger.RefusedMeansClosed` | include/coro/comp/channel.hpp:72-83 | a send returns false only if the channel is closed |
| `ChannelLedger.LateSendNeverLocks` | include/coro/comp/channel.hpp:72-75 | a send that begins on a closed channel never uses the mutex and returns false |
| `ChannelLedger.GoesOnExactly` | include/coro/comp/channel.hpp:38-46 | the first test of a call lets a send go on exactly on an open channel and a recv exactly before the closing is complete |
| `ChannelLedger.CloseStateIsLast` | include/coro/comp/channel.hpp:32-108 | the close state is what the last close, or the last recv that found the end, left |
| `ChannelLedger.NulloptMeansAllDelivered` | include/coro/comp/channel.hpp:99-110 | once a recv has returned nullopt, the values returned are all the values accepted, and no continuation stores or takes another |
| `ChannelTheorems.ContinuesWithPredicate` | include/coro/comp/channel.hpp:78-110 | a call that continues after its wait is the unique owner and its predicate is true |
| `ChannelTheorems.BufferAccessInBounds` | include/coro/comp/channel.hpp:85-112 | a store finds room and a take finds a value |
| `ChannelTheorems.EndedForever` | include/coro/comp/channel.hpp:30-48 | once the channel has ended, no run accepts or takes anything, and calls begun later return false or nullopt |
| `ChannelTheorems.NulloptIsFinal` | include/coro/comp/channel.hpp:99-110 | once a recv has returned nullopt everything accepted has been received, and it stays so even if the channel is closed again |
| `ChannelTheorems.ClosedNeverSleeps` | include/coro/comp/channel.hpp:30-35 | no task whose predicate is evaluated after the close store goes to sleep |
| `ChannelTheorems.CloseWakes` | include/coro/comp/channel.hpp:30-35 | when close returns, each task it detached has been resumed, is queued on the mutex, or is in the hand of a resumer |
| `ChannelLedger.DetachedAreWoken` | src/comp/condition_variable.cpp:111-126 | every task on a cv when a close detaches it is resumed, queued on the mutex or in a resumer's hand once that close has returned |
| `ChannelTheorems.AtMostOneStraggler` | include/coro/comp/channel.hpp:30-35 | when close has returned, at most one task sleeps on the two cvs together |
| `ChannelClose.CloseLeavesNobodyExactly` | include/coro/comp/channel.hpp:30-35 | in every reachable state: a close that stores now leaves both cvs empty, in every continuation in which it has returned, if and only if nobody is about to register |
| `ChannelRuns.CloseCanMissOne` | include/coro/comp/channel.hpp:30-35 | a run after which close has returned, everything is at rest and one receiver sleeps on the closed channel |
| `ChannelMissed.MissedForGood` | include/coro/comp/channel.hpp:97-122 | for every capacity, such a run after which the receiver stays suspended in every continuation without another close |
| `ChannelRuns.SenderStrandedWhileClosing` | include/coro/comp/channel.hpp:72-83 | for every capacity, a run in which, between close's store and its first detachment, a sender sleeps beside a free slot |
| `Bits.AndMask` | include/coro/comp/channel.hpp:141-193 | masking with 2^k - 1 is the remainder by 2^k |
| `Buffers.MinusSteps` | include/coro/comp/channel.hpp:195-197 | the wrapped difference of the counters follows every increment across 2^64, and is zero exactly when they are equal |
| `Buffers.MaskedTail` | include/coro/comp/channel.hpp:161-193 | the masked tail is the position behind the window, because the capacity divides 2^64 |
| `Buffers.MaskedPut` | include/coro/comp/channel.hpp:161-162 | writing at the masked tail appends to the window and disturbs nothing, whether or not the counter wraps |
| `Buffers.MaskedGet` | include/coro/comp/channel.hpp:183-184 | the masked head is the oldest value, and advancing it removes exactly that one |
| `Buffers.ResetRing.Store` | include/coro/comp/channel.hpp:85-91 | appends to the contents |
| `Buffers.ResetRing.Take` | include/coro/comp/channel.hpp:112-118 | removes the oldest value |
| `Buffers.PowerRing.Store` | include/coro/comp/channel.hpp:161-162 | appends to the contents, at every position of the counters |
| `Buffers.PowerRing.Take` | include/coro/comp/channel.hpp:183-184 | removes the oldest value, at every position of the counters |
| `Buffers.Slot.Store` | include/coro/comp/channel.hpp:228-228 | fills the slot |
| `Buffers.Slot.Take` | include/coro/comp/channel.hpp:249-250 | empties the slot |
| `Buffers.DriveReset` | include/coro/comp/channel.hpp:70-134 | any sequence of operations on the reset ring gives the bounded queue's answers |
| `Buffers.DrivePower` | include/coro/comp/channel.hpp:161-203 | any sequence of operations from any counter values, including across the wrap, gives the bounded queue's answers |
| `Buffers.DriveSlot` | include/coro/comp/channel.hpp:228-261 | the single slot gives the answers of a queue of capacity one |
| `Buffers.SameAnswers` | include/coro/comp/channel.hpp:136-203 | a power-of-two ring and a reset ring of that capacity cannot be told apart |
| `Buffers.SlotAnswers` | include/coro/comp/channel.hpp:205-262 | the single slot and a ring of capacity one cannot be told apart |
| `Event.EStepInv` | src/comp/event.cpp:6-62 | every atomic step of awaiters and setters preserves the event's invariant |
| `EventTheorems.ExactlyOnce` | src/comp/event.cpp:23-62 | an awaiter that slept is resumed exactly once, one that observed the set state never |
| `EventTheorems.NeverBeforeSet` | src/comp/event.cpp:6-62 | nobody stops waiting before the event is set |
| `EventTheorems.FirstSetResumesAll` | src/comp/event.cpp:23-42 | only the call that found the event unset resumes anybody, newest first; when it has returned nobody is asleep |
| `EventTheorems.SetIsFinal` | src/comp/event.cpp:23-31 | once set, no run pushes anybody or changes which call set it |
| `EventTheorems.NobodyIsForgotten` | src/comp/event.cpp:44-62 | if the event is set and only new calls could move, every awaiter has finished |
| `EventTheorems.FindsOutExactly` | src/comp/event.cpp:44-62 | a waiter's test or load lets it go on exactly if the event is set, and its exchange then cannot succeed |
| `EventTheorems.ShownIsLastStored` | include/coro/comp/event.hpp:69-86 | an awaiter that finishes is shown the argument of the last `set` that has stored by then, and nothing exactly if none has |
| `EventTheorems.ShownStays` | include/coro/comp/event.hpp:72-76 | what an awaiter was shown never changes |
| `EventTheorems.ValuesShownExactlyIfUnset` | include/coro/comp/event.hpp:69-86 | in every run every awaiter is shown a value that some `set` stored, if and only if the event was not constructed set |
| `Latch.Signed` | include/coro/comp/latch.hpp:31-31 | conversion of the count to a signed 64-bit integer |
| `Latch.OpensAtFullCount` | include/coro/comp/latch.hpp:14-26 | for counts below 2^63: open only after a full count of decrements among the steps; after it, open or about to be |
| `Latch.NeverEarlyExactly` | include/coro/comp/latch.hpp:14-26 | the latch never opens early if and only if the count is below 2^63 |
| `StopToken.StepInv` | src/scheduler.cpp:28-65 | every atomic step of submitters, workers and hand-offs preserves the token law and, context by context, what a clear flag means |
| `StopTheorems.TokenLaw` | src/scheduler.cpp:18-65 | after every atomic step: token + pending additions - pending subtractions = number of set flags |
| `StopTheorems.ClearsExactly` | src/context.cpp:64-66 | a context clears its flag with no task, wait or I/O left and nobody about to push to it, if and only if no submission overlapped its window |
| `StopTheorems.ClearFlagMeansIdle` | src/context.cpp:56-75 | a context with a clear flag whose last window was not overlapped has no task, no wait and no I/O, runs nothing, and nobody is submitting to it |
| `StopTheorems.StopExactly` | src/scheduler.cpp:30-34 | a step calls stop if and only if it is a subtraction after which set flags and pending subtractions balance the pending additions |
| `StopTheorems.StopLeavesQuietExactly` | src/scheduler.cpp:28-35 | whenever stop is called: it leaves every context idle and nobody submitting, if and only if no addition is pending, the calling context's window was not overlapped, and every other context with an overlapped window has recovered |
| `StopTheorems.StaysIdle` | src/scheduler.cpp:58-65 | with all flags clear and no window overlapped, stop has been called and everything stays quiet until somebody submits |
| `StopLedger.TasksConserved` | src/scheduler.cpp:58-65 | over every run, what is queued at a context or on its way to it is what the steps brought and did not take; its waits and its I/O are those begun and not ended |
| `StopLedger.PassTakesAll` | src/context.cpp:78-91 | between the start of a pass and the idle test after it, a worker runs exactly as many tasks as were queued at the start |
| `StopLedger.PollsExactly` | src/context.cpp:64-73 | a worker polls exactly after finding waits or I/O, or after its callback, and loops at once exactly after finding a task |
| `StopRuns.StopCanMissATask` | src/context.cpp:64-66 | for every number of contexts, a run in which one overlapped window makes stop leave a queued task |
| `StopRuns.StopCanPrecedeAddition` | src/scheduler.cpp:62-64 | for every number of contexts, a run without overlapped windows in which a late addition leaves a queued task after stop |
| `Quiescence.StopMeansAllIdle` | src/scheduler.cpp:28-65 | with undivided submissions and idle tests: a clear flag means idle; stop is called if and only if an idle context tests and every other flag is clear; then everything is quiet |
| `Engine.CqeTest` | include/coro/engine.hpp:43-57 | the completion test sees exactly the counter modulo 2^24 |
| `Engine.CqeTestExact` | include/coro/engine.hpp:43-57 | below 2^24 completions it is true exactly if one was signalled; at 2^24 it fails |
| `Engine.StepInv` | src/engine.cpp:43-123 | every step of the worker, the submitters and the kernel preserves the engine's invariant |
| `EngineTheorems.NeverBlocksBesideWork` | src/engine.cpp:97-105 | a worker blocked on a zero eventfd has no task, stop request or completion whose sender is not about to raise it |
| `EngineTheorems.PassFindsItsTasks` | src/context.cpp:78-91 | every pop of a pass finds a task |
| `EngineTheorems.CompletionTest` | src/engine.cpp:101-105 | with at most 16384 outstanding operations, unread completions are at most twice that: in every reachable state the completion test is exact and a completion fits in the counter |
| `EngineProgress.RoomExactly` | src/engine.cpp:120-123 | a wake-up can be written if and only if fewer than 2^20 - 1 are unread |
| `EngineProgress.LeavesExactly` | src/context.cpp:58-58 | a worker leaves its loop exactly at a loop test with a stop requested |
| `EngineProgress.StuckForever` | src/engine.cpp:43-47 | about to write to its own full counter, a worker never moves again, whatever others do |
| `Workers.FStepInv` | src/engine.cpp:43-47 | every step of any number of workers, of their kernels and of outside threads keeps each engine's invariant and who is between push, or stop request, and write |
| `WorkersStop.StopReachesAll` | src/scheduler.cpp:49-55 | in every reachable state a worker inside the stop loop has asked every context before its place, and when it comes out every context has been asked to stop |
| `WorkersStop.StopHasACause` | src/scheduler.cpp:28-35 | no context is asked to stop before an outside request or a callback that found the token equal to its share |
| `WorkersStop.StopCalledExactly` | src/scheduler.cpp:30-34 | the callback of an idle context calls stop exactly if no other context's flag is set |
| `WorkersStop.TasksConserved` | src/engine.cpp:43-47 | over every run of any number of workers each queue holds what was pushed to it, by its own worker, others or outside threads, and not popped |
| `WorkersProgress.WorkerMovesExactly` | src/context.cpp:33-75 | a worker can move if and only if it has not left its loop, does not wait on a zero counter and is not about to write to a full counter: its own, another context's, or any in its stop callback |
| `WorkersProgress.JamForever` | src/engine.cpp:120-123 | workers that have left, or are about to write to full counters of each other, stand still in every continuation |
| `WorkersRuns.SelfSubmissionBlocks` | src/context.cpp:56-75 | for every number of workers, a run in which one task that submits itself each time it runs blocks its worker for good |
| `WorkersRuns.StopHangs` | src/scheduler.cpp:49-55 | for every number of contexts, a run in which the last context to go idle blocks for good inside the stop callback, and no other context is told to stop |
| `WorkersRuns.OneBlocksAnother` | src/comp/mutex.cpp:48-51 | for any two or more workers, a run in which a blocked worker blocks for good another one that hands it a task |
| `EngineTheorems.PollTakesEverything` | src/engine.cpp:107-117 | a signalled poll takes every posted completion, and they fit in the array |
| `EngineTheorems.IoAccounting` | src/engine.cpp:87-118 | waiting + running = started - handled = operations in rings and kernel, through forced submits; no underflow; `empty_io` is exact |
| `EngineLedger.TasksConserved` | src/engine.cpp:43-70 | over every run the queue changes by one task at each push, of others, of the worker's own task or of a callback, and at each pop |
| `EngineLedger.CompletionsQueueTasks` | src/engine.cpp:81-117 | over every run each posted completion is ready, or in the batch with its callback still to run, or has queued one task; waiting + running are the operations started less the callbacks run, corrected by the current batch |
| `EngineLedger.CounterIsUnread` | src/engine.cpp:101-123 | the eventfd holds exactly the wake-ups and completions written since it was last read |
| `EngineLedger.StopIsRequested` | src/context.cpp:33-37 | a worker is asked to stop exactly by a request, and has left its loop only then |
| `FdPool.MarkedBuffer.SetData` | include/coro/marked_buffer.hpp:34-47 | appends all indices and copies the values |
| `FdPool.MarkedBuffer.Borrow` | include/coro/marked_buffer.hpp:50-59 | lends the index that has been free longest, or an invalid item |
| `FdPool.UringProxy.constructor` | include/coro/uring_proxy.hpp:70-95 | an initialised pool is valid and entirely free |
| `FdPool.UringProxy.Make` | include/coro/io/base_io_type.hpp:10-14 | a new object holds the first free slot; free and borrowed slots still partition the indices |
| `FdPool.UringProxy.Assign` | include/coro/io/base_io_type.hpp:18-28 | the slot takes the fd, the caller gets the index and the flag; nothing else changes |
| `FdPool.UringProxy.GiveBack` | include/coro/uring_proxy.hpp:260-269 | the slot gets its own null fd back and is free; a second return does nothing |
| `FdPool.UsePool` | include/coro/io/base_io_type.hpp:8-41 | any sequence of uses keeps the partition and the null fds; when everything is returned all slots are free again |

## Left out

- Memory orderings: every machine is sequentially consistent.
- Object lifetime: awaiters and coroutine frames are identities that stay readable while somebody may still read them, including the link that `resume_all_awaiter` reads after submitting the coroutine (`src/comp/event.cpp:38-40`).
- Spinlocks: the critical sections of a condition variable are single steps.
- A full task queue: the inline execution and the discarding at `src/engine.cpp:49-63` are not modelled; queues are large enough.
- ChannelTheorems.SendersNeverStranded: excludes the states between the first close store and the detachment of the producers' queue, because the law is false there (see `ChannelPhases.SendersLawExactly`).
- HandOff.Mutex.Unlock: no other thread joins a queue during the call; interleaved runs are those of `Sync`. Each awaiter's predicate is evaluated at most once in a call, so `ready` stands for the outcomes of these evaluations whether or not predicates change meanwhile.
- HandOff.Mutex.Resume: as `HandOff.Mutex.Unlock`.
- Quiescence.StopMeansAllIdle: speaks of runs with undivided submissions and idle tests; the exact conditions at atomic granularity are those of `StopTheorems`.
- Granularity of stop in `Workers`: an idle test with its callback's flag and token is one step, and so are a submitter's flag and token; `StopToken` has them apart.
- Workers leaving their loop after stop: they may go on looping in `StopToken`; leaving is part of `Engine`.
- Starting an operation beyond 16384 outstanding ones is excluded, as is a failing or partial io_uring submit; each submission entry is counted by one `add_io_submit`. No result depends on the number of submission entries.
- io_uring, eventfd and the lock-free task queue: used through their contracts (completions posted once and signalled once, a blocking counter, a FIFO).
- The channel's element type: values are integers, and the copy or move of a value is one step.
- 32-bit width of the stop token: the token is unbounded. The assertion at `src/scheduler.cpp:60` is not made a precondition: submissions may come at any time.
- `wait_group`: it tests its count and pushes in separate steps, and promises less than event and latch.
- Tasks (`include/coro/task.hpp`), stored results, exceptions, the dispatcher, TCP, stdin and timer awaiters, logging.
