# The FreeRTOS kernel, proved

This project models the FreeRTOS V9.0.0rc2 kernel that the clock firmware in this
repository bundles under `software/src/FreeRTOS`, and proves what the kernel is for:
lists that stay lists, a scheduler that runs the right task and wakes every task at
its tick, queues that lose no wake-up, timers that fire once per expiry, event groups
that wake exactly whom they should.

One configuration is fixed: preemption and time slicing, generic task selection,
vTaskSuspend and vTaskDelete included, mutexes, timers and 32-bit event words on, queue
sets and tickless idle off. The tick width is not fixed: `Tick.M` stands for two to
the number of bits, and wrap-around is explicit everywhere.

## How it is laid out

| files | what they are about |
|---|---|
| `Tick`, `Epochs`, `EpochLists` | wrapping tick counts, unbounded time as wraps and ticks, and lists of what falls due in one epoch |
| `Lists`, `RoundRobin`, `ListRing` | the list of `list.c`: as a sequence, as a ring with a roving index (no starvation), and with pointers |
| `TaskLists`, `Kernel` | which list each task's two items are on; the scheduler state and its invariant |
| `KernelTick`, `KernelCalls`, `KernelResume`, `KernelRuns` | the tick, the calls, resuming the scheduler, and that each keeps the invariant |
| `KernelHistory`, `KernelDelays` | theorems about whole runs, and periodic delays |
| `KernelAnswers`, `KernelTurns`, `KernelPending` | what each call does to the task it concerns, time slicing, and what a resume catches up with and asks for |
| `EventOrder`, `EventRuns`, `EventLimits` | the order of event lists: each step, whole runs, and a run that loses it |
| `Scheduler` | the file-scope variables of `tasks.c`, updated in place, proved against that state machine |
| `Mutex`, `MutexOrder`, `MutexLimits` | priority inheritance, who waits in what order and gets the mutex, and runs that show where it ends |
| `QueueLock`, `QueueAnswers`, `QueueStore` | the queue's lock protocol between tasks and interrupts, what its calls do to the messages and how they return, and its byte ring |
| `Timeouts` | time-outs of blocking calls, and vTaskDelayUntil |
| `Timers`, `TimerCycle`, `TimerOnce`, `TimerPeriod`, `TimerSwitch` | the timer daemon as a state machine, its exactly-once theorems for auto-reload and one-shot timers, changes of period, and the switch of its lists |
| `TimerDaemon` | the functions of the daemon, in place |
| `EventGroups`, `EventAnswers` | event groups, and what their calls answer |
| `CoRoutines`, `CoRoutineRuns`, `CoRoutineTurns`, `CoRoutineLoops` | the co-routine clock, whole runs of the co-routine scheduler, turns among equals, and its loops in place |

State machines are datatypes with a step function; a step is one critical section, or
one stretch with the scheduler suspended. A yield is a request that the port serves
later. Classes hold the C variables, and their methods, with the C loops, are proved to
do what the step functions say. Where a class carries a ghost copy of the machine, the
real fields hold tick counts only and `Valid` or `Linked` ties the two together.

What the code does not promise is stated as exactly as what it does: a reset queue can
strand senders, a lock count can wrap, a priority change can break inheritance, a
priority change or an inheritance can break the order of an event list, a give can drop
a switch, a stop command can be overtaken, a time-out check can miss two wraps. Each has
a lemma that says exactly when, and one that shows an input on the failing side.

`dafny verify dfyconfig.toml` checks the whole project.

## Model

| member | source | states |
|---|---|---|
| Lists.InsertSortedKeeps | software/src/FreeRTOS/list.c:145-209 | an insertion by value keeps a list in order and adds one item once |
| Lists.InsertSortedAt | software/src/FreeRTOS/list.c:145-209 | where the insertion scan stops (all before not greater, the next greater) is where the item goes, so behind its equals |
| Lists.RemoveKeeps | software/src/FreeRTOS/list.c:212-238 | a removed item is gone and no other is duplicated |
| Lists.RekeyedInOrder | software/src/FreeRTOS/tasks.c:1410-1419 | an item value rewritten in place keeps the list in order if and only if it fits between its neighbours' |
| RoundRobin.InsertEndKeeps | software/src/FreeRTOS/list.c:116-142 | inserting at the end adds exactly the item and leaves the selected item selected |
| RoundRobin.RemoveItemKeeps | software/src/FreeRTOS/list.c:212-238 | removing takes out exactly the item, and another selected item stays selected |
| RoundRobin.InsertEndNoFurther | software/src/FreeRTOS/list.c:116-142 | an insertion at the end never moves an item further from its turn |
| RoundRobin.RemoveItemNoFurther | software/src/FreeRTOS/list.c:212-238 | a removal never moves another item further from its turn |
| RoundRobin.AdvanceCloser | software/src/FreeRTOS/include/list.h:318-329 | every selection is of the item or strictly lowers its rank (laps to go, then steps) |
| RoundRobin.AdvanceInTurn | software/src/FreeRTOS/include/list.h:318-329 | a selection is of the item whose turn is next, brings every other one a turn nearer, and puts the selected one behind all others |
| RoundRobin.InsertEndInTurn | software/src/FreeRTOS/list.c:116-142 | an item inserted at the end has its turn after everyone's but the selected one's, and puts off nobody else's |
| RoundRobin.RemoveItemInTurn | software/src/FreeRTOS/list.c:212-238 | a removal brings forward exactly those whose turn was to come after the removed item's |
| RoundRobin.ItsTurnComes | software/src/FreeRTOS/include/list.h:318-329 | in any endless history of selections and steps that take an item no further from its turn, with always another selection, the item is selected |
| RoundRobin.EveryItemIsSelected | software/src/FreeRTOS/tasks.c:154-169 | no starvation within a priority: in any infinite interleaving of inserts, removals and selections an item that stays in the list is selected |
| ListRing.SplicedKeepsRing | software/src/FreeRTOS/list.c:116-142 | the pointer writes of an insertion turn a ring with inverse next and previous links into such a ring with the item in it |
| ListRing.UnlinkedKeepsRing | software/src/FreeRTOS/list.c:212-238 | the pointer writes of a removal leave such a ring without the item |
| ListRing.List.constructor | software/src/FreeRTOS/list.c:79-101 | an initialised list is the empty ring with its index at the end marker |
| ListRing.List.InsertEnd | software/src/FreeRTOS/list.c:116-142 | on pointers: the ring becomes the sequence insertion in front of the index, links, container and count included |
| ListRing.List.FindPlace | software/src/FreeRTOS/list.c:150-195 | the scan of an insertion by value terminates at the last item not greater, also for values equal to the end marker's |
| ListRing.List.Insert | software/src/FreeRTOS/list.c:145-209 | on pointers: the ring becomes the insertion by value, equal values last, and the index keeps its item |
| ListRing.List.Remove | software/src/FreeRTOS/list.c:212-238 | on pointers: the ring becomes the sequence removal, the index steps back off a removed item, the count is returned |
| ListRing.List.Next | software/src/FreeRTOS/include/list.h:318-329 | on pointers: the index moves to the next item past the end marker and that item is the one selected |
| Tick.PlusIsModular | software/src/FreeRTOS/tasks.c:4606 | the sums and differences of TickType_t are those of the integers modulo two to the width |
| Epochs.WithinIsAbs | software/src/FreeRTOS/tasks.c:219-231 | order and distance of times read off the wrap count and the tick count are those of unbounded time |
| Epochs.MinusIsElapsed | software/src/FreeRTOS/tasks.c:2943-2947 | a difference of tick counts is the time that passed, if less than a wrap did |
| TaskLists.PutLastKeeps | software/src/FreeRTOS/tasks.c:239-243 | moving a state item to the end of a list keeps every task on exactly the list its container names |
| TaskLists.PutByWakeKeeps | software/src/FreeRTOS/tasks.c:4606-4622 | moving a state item into a delayed list keeps every task on exactly the list its container names |
| TaskLists.PutByWakeOrder | software/src/FreeRTOS/tasks.c:4606-4622 | moving a state item into a delayed list keeps both delayed lists in wake order |
| TaskLists.JoinedKeeps | software/src/FreeRTOS/tasks.c:2705-2719 | an event item that joins a list is on that list only |
| TaskLists.TakeEventKeeps | software/src/FreeRTOS/tasks.c:2797-2799 | an event item that leaves its list is on none |
| KernelTick.HeadFacts | software/src/FreeRTOS/tasks.c:3508-3529 | the head of a delayed list wakes no later than any task on it |
| KernelTick.WakeDueExact | software/src/FreeRTOS/tasks.c:2417-2493 | the loop of the tick readies exactly the tasks that are due, takes them off their event lists, and leaves xNextTaskUnblockTime not late |
| KernelTick.WakeDueSwitch | software/src/FreeRTOS/tasks.c:2474-2491 | the loop asks for a switch exactly if a due task is at least as urgent as the running one |
| KernelTick.CurrentListEmptyAtWrap | software/src/FreeRTOS/tasks.c:223-224 | the current delayed list is empty whenever the tick count wraps, so the assertion at the swap never fails |
| KernelTick.NextTickFacts | software/src/FreeRTOS/tasks.c:2398-2411 | an increment, with or without the swap of the delayed lists, moves absolute time by one and no task's absolute wake time at all |
| KernelTick.CountTickExact | software/src/FreeRTOS/tasks.c:2384-2493 | exact wake-up over a wrap: a tick readies exactly the tasks whose absolute wake time has come, everyone else keeps waiting for the same absolute time, strictly later than now |
| KernelCalls.CreateKeeps | software/src/FreeRTOS/tasks.c:867-929 | creating a task keeps containers, lists and wake order consistent |
| KernelCalls.ForgetKeeps | software/src/FreeRTOS/tasks.c:962-1000 | a deleted task is off every list and no other task moved |
| KernelCalls.TimeOutKeeps | software/src/FreeRTOS/tasks.c:4565-4634 | a task that blocks leaves its ready list for a delayed list or the suspended list, with order and containers kept |
| KernelCalls.WakeFirstKeeps | software/src/FreeRTOS/tasks.c:2779-2811 | waking the first waiter, to a ready list or the pending-ready list, keeps containers and order |
| KernelCalls.SuspendKeeps | software/src/FreeRTOS/tasks.c:1470-1505 | suspending a task keeps containers and order |
| KernelCalls.ChangePriorityKeeps | software/src/FreeRTOS/tasks.c:1388-1446 | changing a priority keeps every ready task on the ready list of its priority |
| KernelResume.DrainKeeps | software/src/FreeRTOS/tasks.c:1926-1954 | resuming the scheduler readies exactly the tasks on the pending-ready list, empties it, and does not leave a less urgent task running without asking for a switch |
| KernelResume.CountTickRight | software/src/FreeRTOS/tasks.c:2474-2509 | a tick that asks for no switch leaves the most urgent ready task running |
| KernelResume.RunTicksKeeps | software/src/FreeRTOS/tasks.c:1960-1984 | counting any number of held-back ticks moves time by exactly that number and keeps the right task running or a yield pending |
| KernelResume.RunTicksMove | software/src/FreeRTOS/tasks.c:1960-1984 | held-back ticks, counted in a batch, wake exactly the tasks whose absolute time came meanwhile |
| KernelRuns.TopIsHighest | software/src/FreeRTOS/tasks.c:154-169 | the search down from uxTopReadyPriority ends on the highest priority that has a ready task |
| KernelRuns.SwitchRight | software/src/FreeRTOS/tasks.c:2646-2702 | after a context switch the running task is ready and none is more urgent |
| KernelRuns.CreateInv | software/src/FreeRTOS/tasks.c:867-946 | creating a task keeps the whole scheduler invariant and concerns no other task |
| KernelAnswers.CreateExact | software/src/FreeRTOS/tasks.c:867-946 | a new task is ready at its priority, clamped to the greatest, and a switch is asked for exactly if one was or the task is more urgent than the running one |
| KernelRuns.DeleteSelf | software/src/FreeRTOS/tasks.c:952-1036 | a task that deletes itself keeps the invariant and is on the termination list and no event list, counted for cleaning up but still counted as a task, and off its ready list |
| KernelRuns.DeleteOther | software/src/FreeRTOS/tasks.c:952-1036 | deleting another task keeps the invariant and removes exactly it, with one task fewer counted and none more to clean up |
| KernelRuns.CleanUpInv | software/src/FreeRTOS/tasks.c:3250-3291 | cleaning up one deleted task keeps the invariant and the counts |
| KernelAnswers.CleanUpExact | software/src/FreeRTOS/tasks.c:3250-3291 | exactly the first deleted task is gone and counted no longer |
| KernelRuns.BlockInv | software/src/FreeRTOS/tasks.c:4565-4634 | blocking, with a wake time on the list of its epoch, keeps the invariant |
| KernelAnswers.BlockExact | software/src/FreeRTOS/tasks.c:4565-4634 | a task that blocks is on one list for the absolute time it waits for, or on the suspended list, and joins its event list behind all as urgent as itself, or last on an unordered one |
| KernelRuns.WakeFirstInv | software/src/FreeRTOS/tasks.c:2779-2823 | waking a waiter keeps the invariant: if it outranks the running task a yield is pending |
| KernelAnswers.WakeFirstExact | software/src/FreeRTOS/tasks.c:2779-2823 | the first waiter leaves its event list and is ready, or last on the pending-ready list, and a yield is pending exactly if one was or the waiter outranks the running task |
| KernelRuns.WakeWaiterInv | software/src/FreeRTOS/tasks.c:2847-2890 | taking any one waiter of an event group straight to its ready list keeps the invariant |
| KernelAnswers.WakeWaiterExact | software/src/FreeRTOS/tasks.c:2847-2890 | the given waiter is ready and on no event list, with a yield pending exactly if one was or it outranks the running task |
| KernelRuns.SuspendInv | software/src/FreeRTOS/tasks.c:1470-1553 | suspending a task keeps the invariant and moves no other task |
| KernelAnswers.SuspendExact | software/src/FreeRTOS/tasks.c:1470-1553 | a suspended task is last on the suspended list and on no ready, delayed or event list; if it is the running task it is off its ready list and about to yield |
| KernelAnswers.StaysSuspended | software/src/FreeRTOS/tasks.c:1470-1553 | over any run in which nobody resumes or deletes it a suspended task stays on the suspended list only, and is the running task only until the switch asked for is done |
| KernelRuns.ResumeInv | software/src/FreeRTOS/tasks.c:1606-1652 | resuming a task keeps the invariant |
| KernelAnswers.ResumeExact | software/src/FreeRTOS/tasks.c:1606-1652 | a task that is really suspended is then ready and on no other list, and a switch is asked for exactly if it is as urgent as the running one; any other task is left alone |
| KernelRuns.ResumeInISRInv | software/src/FreeRTOS/tasks.c:1660-1725 | resuming a task from an interrupt keeps the invariant, with the scheduler suspended or not |
| KernelAnswers.ResumeFromISRExact | software/src/FreeRTOS/tasks.c:1660-1725 | from an interrupt likewise, and with the scheduler suspended the task joins the end of the pending-ready list instead |
| KernelRuns.SetPriorityInv | software/src/FreeRTOS/tasks.c:1306-1463 | changing a priority keeps the invariant: the cases that ask for no switch need none |
| KernelAnswers.SetPriorityExact | software/src/FreeRTOS/tasks.c:1306-1463 | the task has the new priority, on the ready list of it if it is ready, and when that asks for a switch |
| KernelRuns.SwitchInv | software/src/FreeRTOS/tasks.c:2646-2702 | a context switch keeps the invariant and leaves the right task running with no switch asked for; while the scheduler is suspended it keeps the task and notes a yield |
| KernelAnswers.SwitchExact | software/src/FreeRTOS/tasks.c:2646-2702 | the task selected is the one after pxIndex round the ready list of the highest priority that has a task, pxIndex is then at it, and nothing else moves |
| KernelRuns.TickInv | software/src/FreeRTOS/tasks.c:2384-2553 | a tick interrupt keeps the invariant, counted at once or held back |
| KernelTurns.TickAsksExactly | software/src/FreeRTOS/tasks.c:2474-2509 | a tick asks for a switch exactly if one was asked for or noted, or, with the scheduler running, a task whose absolute time has come is as urgent as the running one or two tasks are then ready at its priority |
| KernelTurns.OthersShare | software/src/FreeRTOS/tasks.c:2497-2508 | with the running task ready the latter means that another task is ready at its priority |
| KernelRuns.ResumeAllInv | software/src/FreeRTOS/tasks.c:1902-2009 | resuming the scheduler keeps the invariant, nested or outermost |
| KernelPending.DrainInOrder | software/src/FreeRTOS/tasks.c:1926-1954 | the tasks held back join the ready list of their priority in the order in which they were held back |
| KernelPending.ResumeAsksExactly | software/src/FreeRTOS/tasks.c:1902-2009 | the outermost resume asks for a switch exactly if one was asked for or noted, a task held back is as urgent as the running one, or one of the held-back ticks asks; a nested resume changes nothing else |
| KernelAnswers.NobodyElseRuns | software/src/FreeRTOS/tasks.c:1829-1836 | while the scheduler is suspended the running task runs on and the tick count stands still, every tick interrupt being held back |
| KernelAnswers.SuspensionsNest | software/src/FreeRTOS/tasks.c:1829-2009 | after any run uxSchedulerSuspended counts the suspensions not yet resumed |
| KernelRuns.SuspendThenResume | software/src/FreeRTOS/tasks.c:1829-2009 | suspending the scheduler and resuming it with nothing in between undoes itself at any nesting, except that a yield already noted is then asked for |
| KernelHistory.StepKeeps | software/src/FreeRTOS/tasks.c:867-2890 | every call and interrupt keeps the scheduler invariant, the wake-ups of event groups included |
| KernelHistory.BootOk | software/src/FreeRTOS/tasks.c:3218-3247 | the state in which the scheduler starts satisfies the invariant |
| KernelHistory.NoTickIsLost | software/src/FreeRTOS/tasks.c:1902-2009 | tick conservation: after any run and any nesting of suspensions xTickCount plus uxPendedTicks is the number of tick interrupts modulo two to the width, and an unsuspended scheduler holds back no tick and no readied task |
| KernelHistory.TheRightTaskRuns | software/src/FreeRTOS/tasks.c:144-169 | after any run, with no switch asked for, the running task is in its ready list and every more urgent ready list is empty |
| KernelTurns.StepKept | software/src/FreeRTOS/tasks.c:867-2890 | no call and no interrupt but a context switch moves a task that stays ready further from its turn |
| KernelTurns.TurnsComeRound | software/src/FreeRTOS/tasks.c:154-169 | of the tasks that stay ready at the top priority each is selected again and again in any endless run with always another context switch |
| KernelTurns.TimeSlices | software/src/FreeRTOS/tasks.c:2497-2508 | time slicing: of the tasks that stay ready at the top priority each runs again and again, if time goes on and every switch asked for is done in the end |
| KernelHistory.StepWaits | software/src/FreeRTOS/tasks.c:2384-2493 | any step either leaves a delayed task waiting for the same absolute time or, when that time comes, readies it; nothing else does unless it concerns the task |
| KernelHistory.BlockedUntil | software/src/FreeRTOS/tasks.c:4606-4622 | blocking for n ticks is waiting for the absolute time n ticks from now |
| KernelHistory.WakesOnTime | software/src/FreeRTOS/tasks.c:2384-2493 | over any run and any wraps a task blocked for n > 0 ticks at T waits while the time is before T + n and is ready at the first step that brings it to T + n, unless an event, suspension or deletion came first |
| KernelHistory.EveryTaskOnOneList | software/src/FreeRTOS/tasks.c:3261-3280 | after any run each task is on exactly one state list (a ready one on that of its priority) and at most one event list, the lengths add up to uxCurrentNumberOfTasks, uxDeletedTasksWaitingCleanUp is the termination list's length, and a non-empty pending-ready list means a suspended scheduler |
| KernelDelays.DelaysUntil | software/src/FreeRTOS/tasks.c:1060-1103 | on the scheduler: a task that delays until its previous wake time plus an increment waits for exactly that absolute time |
| EventOrder.MostUrgentFirst | software/src/FreeRTOS/tasks.c:2787-2799 | with waiters in priority order the head, which is woken, is as urgent as any waiter |
| EventOrder.BlockingKeepsOrder | software/src/FreeRTOS/tasks.c:2705-2719 | blocking on an event list keeps its waiters in priority order |
| EventOrder.PrioritySetKeepsOrderExactly | software/src/FreeRTOS/tasks.c:1410-1419 | changing a waiter's priority in place keeps the order of the event list if and only if the new priority fits between its neighbours' |
| EventLimits.RaisedWaiterBreaksOrder | software/src/FreeRTOS/tasks.c:1410-1419 | a run from the start in which raising the rear of two waiters leaves the list out of order, so that the less urgent one would be woken |
| EventRuns.StepOrder | software/src/FreeRTOS/tasks.c:867-2890 | every call and interrupt keeps an event list in priority order, if who blocks there does so by priority and a waiter's new priority fits |
| EventRuns.MostUrgentIsWoken | software/src/FreeRTOS/tasks.c:2779-2799 | after any run of such steps the waiter that an event wakes, the head, is a most urgent one |
| Scheduler.Scheduler.SwitchDelayedLists | software/src/FreeRTOS/tasks.c:219-231 | in place: the delayed lists are swapped, the overflow counted, xNextTaskUnblockTime set again |
| Scheduler.Scheduler.ResetNextUnblock | software/src/FreeRTOS/tasks.c:3508-3529 | in place: xNextTaskUnblockTime becomes the head's wake time, or the maximum |
| Scheduler.Scheduler.WakeDueTasks | software/src/FreeRTOS/tasks.c:2417-2493 | in place: the loop over the delayed list does what the state machine's wake-up does and returns its switch request |
| Scheduler.Scheduler.IncrementTick | software/src/FreeRTOS/tasks.c:2384-2553 | in place: the variables after a tick, and the value returned, are the state machine's, with the scheduler running or suspended |
| Scheduler.Scheduler.DrainPendingReady | software/src/FreeRTOS/tasks.c:1926-1954 | in place: the loop over the pending-ready list, and whether it moved a task |
| Scheduler.Scheduler.RunPendedTicks | software/src/FreeRTOS/tasks.c:1960-1984 | in place: the loop over the held-back ticks, which ends with none |
| Scheduler.Scheduler.ResumeAll | software/src/FreeRTOS/tasks.c:1902-2009 | in place: the whole resume is the state machine's, and it reports a yield exactly if it asked for one |
| Scheduler.Scheduler.SelectHighestPriorityTask | software/src/FreeRTOS/tasks.c:154-169 | in place: the downward scan terminates and selects the next task of the highest non-empty ready list |
| Scheduler.Scheduler.SwitchContext | software/src/FreeRTOS/tasks.c:2646-2702 | in place: a switch, or a noted yield while the scheduler is suspended |
| Scheduler.Scheduler.AddCurrentToDelayedList | software/src/FreeRTOS/tasks.c:4565-4634 | in place: the running task goes to the current, overflow or suspended list, and xNextTaskUnblockTime is brought forward when it must be |
| Scheduler.Scheduler.PlaceOnEventList | software/src/FreeRTOS/tasks.c:2705-2743 | in place: the running task waits on an event list, by priority or last, and for its time-out |
| Scheduler.Scheduler.RemoveFromEventList | software/src/FreeRTOS/tasks.c:2779-2844 | in place: the first waiter is woken, and the value returned says whether it outranks the running task |
| Scheduler.Scheduler.RemoveFromUnorderedEventList | software/src/FreeRTOS/tasks.c:2847-2890 | in place: the given waiter becomes ready, and the value returned says whether it outranks the running task |
| Scheduler.Scheduler.Suspend | software/src/FreeRTOS/tasks.c:1470-1553 | in place: the task goes to the suspended list from wherever it is |
| Scheduler.Scheduler.Resume | software/src/FreeRTOS/tasks.c:1606-1652 | in place: only a task that is really suspended is readied |
| Scheduler.Scheduler.ResumeFromISR | software/src/FreeRTOS/tasks.c:1660-1725 | in place: readied or held pending, and the value returned |
| Scheduler.Scheduler.PrioritySet | software/src/FreeRTOS/tasks.c:1306-1463 | in place: the priority, the ready list and the yield of a task that holds no mutex |
| Scheduler.Scheduler.Create | software/src/FreeRTOS/tasks.c:867-946 | in place: a new task at the end of its ready list, preempting if it is more urgent |
| Scheduler.Scheduler.Delete | software/src/FreeRTOS/tasks.c:952-1036 | in place: a deleted task is dropped, or parked if it deletes itself |
| Scheduler.Scheduler.CheckTasksWaitingTermination | software/src/FreeRTOS/tasks.c:3250-3291 | in place: the idle task's loop frees every deleted task and only those, leaving none counted |
| Mutex.InheritKeeps | software/src/FreeRTOS/tasks.c:3579-3638 | raising a holder keeps every inheritance fact and brings it to the blocking task's priority at least |
| Mutex.TakeKeeps | software/src/FreeRTOS/queue.c:1264-1280 | taking a free mutex keeps inheritance and counts the mutex |
| Mutex.BlockKeeps | software/src/FreeRTOS/queue.c:1370-1391 | blocking on a held mutex keeps inheritance, the new waiter included |
| MutexOrder.BlockJoins | software/src/FreeRTOS/queue.c:1370-1391 | a blocking task joins the waiters behind all whose item value is as urgent, is ready no longer and asks for a switch |
| MutexOrder.StepHolds | software/src/FreeRTOS/queue.c:1264-1280 | mutual exclusion: a mutex is taken only when free, by the running task, and freed only by its holder's give |
| Mutex.GiveKeeps | software/src/FreeRTOS/queue.c:1694-1710 | giving a mutex keeps inheritance: a task disinherits with its last mutex only |
| MutexOrder.GiveReleases | software/src/FreeRTOS/queue.c:1694-1710 | a give frees the mutex and releases exactly the first waiter, which leaves the list and is ready |
| MutexOrder.TimeOutReleases | software/src/FreeRTOS/tasks.c:2455-2466 | a time-out takes the waiter off the list, ready, the others staying in order |
| MutexOrder.SetPriorityKeepsValuesExactly | software/src/FreeRTOS/tasks.c:1388-1419 | a priority change leaves the event item with the value of the priority in force if and only if nothing more urgent stays inherited |
| MutexOrder.StepKeepsValues | software/src/FreeRTOS/tasks.c:3579-3719 | every other step leaves every event item with the value of its task's priority |
| MutexOrder.StepQueues | software/src/FreeRTOS/queue.c:1370-1391 | every step keeps the waiters of every mutex in order of priority, if item values rewritten in place fit where their tasks wait |
| MutexLimits.FreshQueues | software/src/FreeRTOS/queue.c:1264-1280 | with no mutex held and item values as they should be such a run can begin |
| MutexOrder.MostUrgentIsReleased | software/src/FreeRTOS/queue.c:1694-1710 | after any run of such steps a give releases a waiter that no other waiter outranks |
| Mutex.SetPriorityKeepsExactly | software/src/FreeRTOS/tasks.c:1388-1403 | a priority change keeps inheritance if and only if a base priority does not pass an inherited one and a priority in force does not fall below what this hold's waiters need |
| MutexLimits.InheritingIsReached | software/src/FreeRTOS/tasks.c:3579-3638 | a run from no mutex held to a holder that has inherited, waiter and all |
| MutexLimits.BaseCanPassPriority | software/src/FreeRTOS/tasks.c:1388-1403 | there, raising the holder's base past what it inherited is a legal call that leaves it running below its base |
| MutexLimits.ValueCanLag | software/src/FreeRTOS/tasks.c:1388-1419 | or setting a base between leaves it running at what it inherited with the item value of its base |
| Mutex.InheritKeepsOrderExactly | software/src/FreeRTOS/tasks.c:3595-3598 | inheritance rewrites the item value of a holder that itself waits: the order of its event list survives if and only if nothing was inherited or the new value fits between its neighbours' |
| MutexLimits.WaitingHolderIsReached | software/src/FreeRTOS/queue.c:1370-1391 | a run from no mutex held to a holder that waits for a second mutex behind another task |
| MutexLimits.InheritCanBreakOrder | software/src/FreeRTOS/tasks.c:3595-3598 | there, one more task blocking on the first mutex puts the second one's waiters out of order |
| Mutex.PriorityInheritance | software/src/FreeRTOS/tasks.c:3579-3719 | over whole runs uxMutexesHeld counts the mutexes held, priority is at least base and equal to it with none held, and a holder runs at least at the priority each waiter of this hold blocked with |
| Mutex.NothingInBetweenRuns | software/src/FreeRTOS/tasks.c:3590-3628 | bounded inversion: with the holder ready and no switch asked for nothing less urgent than a waiter of this hold runs |
| Mutex.GiveSchedulesExactly | software/src/FreeRTOS/queue.c:802-829 | after a give the right task runs or a switch is asked for, except exactly when the give disinherits, wakes a waiter that asks for no switch, and another ready task outranks the giver's base |
| MutexLimits.CrossedIsReached | software/src/FreeRTOS/tasks.c:1388-1446 | a run on from there in which the waiter's priority is lowered and a third task wakes up, the right task running all along |
| MutexLimits.GiveCanDropTheSwitch | software/src/FreeRTOS/queue.c:802-829 | in that world the holder's give leaves a less urgent task running with no switch asked for |
| Mutex.ScheduledSteps | software/src/FreeRTOS/tasks.c:3579-3719 | every other step leaves the right task running or a switch asked for |
| Mutex.Mutexes.PriorityInherit | software/src/FreeRTOS/tasks.c:3579-3638 | in place: the holder's priority and event item value rise to the running task's |
| Mutex.Mutexes.PriorityDisinherit | software/src/FreeRTOS/tasks.c:3645-3719 | in place: the count goes down, the base priority returns with the last mutex, and the flag says so |
| Mutex.Mutexes.Acquire | software/src/FreeRTOS/queue.c:1252-1399 | in place: one turn of the receive loop on a mutex, taken or blocked |
| Mutex.Mutexes.Surrender | software/src/FreeRTOS/queue.c:744-832 | in place: a give by the holder, with its yield, keeps inheritance |
| Mutex.Mutexes.PrioritySet | software/src/FreeRTOS/tasks.c:1332-1456 | in place: base, priority, event item value and yield of a priority change |
| QueueLock.UnlockKeeps | software/src/FreeRTOS/queue.c:1782-1899 | unlocking delivers the wake-ups counted while the queue was locked, so that none is owed any more |
| QueueLock.NotifyKeeps | software/src/FreeRTOS/queue.c:963-1050 | an interrupt's notification, delivered or counted, keeps availability covered by wake-ups |
| QueueLock.TryKeeps | software/src/FreeRTOS/queue.c:736-862 | a try to send or receive keeps the invariant, whether it succeeds or finds nothing |
| QueueLock.PlaceKeeps | software/src/FreeRTOS/queue.c:871-892 | placing the task on the event list under the lock keeps the invariant |
| QueueLock.StepKeeps | software/src/FreeRTOS/queue.c:717-1063 | every step of every task and interrupt keeps the wake-up invariant |
| QueueLock.NoWakeUpIsLost | software/src/FreeRTOS/queue.c:717-1063 | no lost wake-up in any interleaving: while a receiver sleeps the messages are matched by woken receivers who can go and fetch them, and free space likewise by senders |
| QueueLock.SleepersAreJustified | software/src/FreeRTOS/queue.c:1231-1516 | with no woken task on its way a receiver sleeps only on an empty queue, a sender only on a full one |
| QueueAnswers.MessagesAreConserved | software/src/FreeRTOS/queue.c:717-1516 | message conservation: in any interleaving uxMessagesWaiting is what was there plus what tasks and interrupts sent minus what they received, an overwrite of a full queue adding and a peek taking nothing, and never over the length |
| QueueAnswers.StepCounts | software/src/FreeRTOS/queue.c:738-1516 | a receive succeeds exactly if there is a message and a send exactly if there is room, and nothing else changes the count |
| QueueAnswers.ReturnsExactly | software/src/FreeRTOS/queue.c:717-912 | a call that may block returns from a try that finds what it needs, or after its time-out; a receive that gives up has then looked once more and found nothing |
| QueueAnswers.TriesAgainExactly | software/src/FreeRTOS/queue.c:871-898 | between two tries of one call the task was put on the event list, or saw what it needs turn up |
| QueueAnswers.OneTryExactly | software/src/FreeRTOS/queue.c:835-845 | a call that must not block returns from its one try, and takes and wakes nothing if it fails |
| QueueAnswers.PlacedAt | software/src/FreeRTOS/queue.c:871-892 | placing puts the task to sleep on its event list behind all as urgent as itself |
| QueueAnswers.StillAsleep | software/src/FreeRTOS/queue.c:1782-1899 | a sleeping task leaves its event list only by being woken, timing out or being suspended |
| QueueAnswers.StepWakesReceivers | software/src/FreeRTOS/queue.c:1782-1868 | a step wakes at most one receiver, and only for a message that came or was left by a peek; an unlock at most as many as were counted |
| QueueAnswers.StepWakesSenders | software/src/FreeRTOS/queue.c:1871-1898 | likewise senders, for space |
| QueueAnswers.StepInOrder | software/src/FreeRTOS/queue.c:873-892 | every step keeps both event lists in order of the item values, if values rewritten in place fit |
| QueueAnswers.MostUrgentWokenFirst | software/src/FreeRTOS/queue.c:1782-1899 | after any run of such steps the tasks woken are as urgent as any that go on waiting |
| QueueAnswers.LeaveExact | software/src/FreeRTOS/tasks.c:2455-2466 | a waiter that times out is on neither event list, and nobody else moves |
| QueueLock.ResetStrandsExactly | software/src/FreeRTOS/queue.c:277-327 | a reset leaves wake-ups owed exactly if more than one sender waits and too few are on their way |
| QueueLock.ResetCanStrandASender | software/src/FreeRTOS/queue.c:292-314 | such a reset exists |
| QueueAnswers.ResetExact | software/src/FreeRTOS/queue.c:277-327 | a reset empties and unlocks the queue and wakes exactly the first sender |
| QueueLock.CountOverflowLosesExactly | software/src/FreeRTOS/queue.c:1045-1050 | a notification is lost exactly if the lock count stands at its greatest value and no woken task covers it |
| QueueLock.CountOverflowCanStrandAReceiver | software/src/FreeRTOS/queue.c:1045-1050 | a locked queue with a sleeping receiver and 127 counted sends: one more send and the unlock leave 128 messages and the receiver asleep with no wake-up owed to it |
| QueueLock.Queue.UnlockTx | software/src/FreeRTOS/queue.c:1790-1868 | in place: the loop on the transmit lock count wakes as many receivers as it counted, while there are any |
| QueueLock.Queue.UnlockRx | software/src/FreeRTOS/queue.c:1871-1898 | in place: the loop on the receive lock count wakes as many senders as it counted, while there are any |
| QueueLock.Queue.TrySend | software/src/FreeRTOS/queue.c:738-833 | in place: a send under the critical section |
| QueueLock.Queue.TryReceive | software/src/FreeRTOS/queue.c:1252-1332 | in place: a receive or peek under the critical section |
| QueueLock.Queue.GiveFromISR | software/src/FreeRTOS/queue.c:915-1063 | in place: a send from an interrupt, which wakes or counts |
| QueueLock.Queue.TakeFromISR | software/src/FreeRTOS/queue.c:1428-1516 | in place: a receive from an interrupt, which wakes or counts |
| QueueLock.Queue.PlaceOnEventList | software/src/FreeRTOS/queue.c:873-876 | in place: the task joins its event list in priority order |
| QueueLock.Queue.Clear | software/src/FreeRTOS/queue.c:277-327 | in place: a reset of a queue in use |
| QueueStore.PutBackRefines | software/src/FreeRTOS/queue.c:1711-1723 | sending to the back appends and occupies the next slot modulo the length |
| QueueStore.PutFrontRefines | software/src/FreeRTOS/queue.c:1724-1735 | sending to the front prepends |
| QueueStore.OverwriteRefines | software/src/FreeRTOS/queue.c:1724-1758 | overwriting a queue of length one leaves exactly the new item, whether it was full or empty |
| QueueStore.TakeFrontRefines | software/src/FreeRTOS/queue.c:1764-1779 | receiving returns and removes the front item |
| QueueStore.StepRefines | software/src/FreeRTOS/queue.c:738-860 | every call returns and does to the ring what it does on a bounded double-ended queue, the full and empty cases included |
| QueueStore.RingIsDeque | software/src/FreeRTOS/queue.c:1685-1779 | no sequence of calls distinguishes the ring from a bounded double-ended queue |
| QueueStore.OneSlotWritten | software/src/FreeRTOS/queue.c:1713-1726 | writing the bytes of one slot changes no byte of another |
| QueueStore.Buffer.constructor | software/src/FreeRTOS/queue.c:285-288 | a new queue is empty |
| QueueStore.Buffer.CopyToBack | software/src/FreeRTOS/queue.c:1711-1758 | on bytes: the slot at pcWriteTo becomes the item and pcWriteTo moves on over pcTail |
| QueueStore.Buffer.CopyToFront | software/src/FreeRTOS/queue.c:1724-1758 | on bytes: the slot at pcReadFrom becomes the item and pcReadFrom moves back over pcHead; overwriting does not count a message twice |
| QueueStore.Buffer.CopyFrom | software/src/FreeRTOS/queue.c:1764-1779 | on bytes: pcReadFrom moves on over pcTail and the bytes of that slot are returned |
| QueueStore.Buffer.Send | software/src/FreeRTOS/queue.c:744-747 | on bytes: appended if there is room, unchanged if not |
| QueueStore.Buffer.SendFront | software/src/FreeRTOS/queue.c:744-747 | on bytes: prepended if there is room, unchanged if not |
| QueueStore.Buffer.SendOverwriting | software/src/FreeRTOS/queue.c:744-747 | on bytes: a queue of length one holds exactly the new item |
| QueueStore.Buffer.TryReceive | software/src/FreeRTOS/queue.c:1254-1341 | on bytes: taking pops the front byte for byte, peeking returns it and changes nothing, an empty queue is reported |
| Timeouts.CheckMeasures | software/src/FreeRTOS/tasks.c:2900-2958 | with at most one wrap since the last check, expiry is reported exactly if the wait has passed, and otherwise what remains is the wait less the time that passed |
| Timeouts.CheckExactly | software/src/FreeRTOS/tasks.c:2933-2953 | the check is wrong exactly if the tick count wrapped twice or more and stands before the remembered one by no more than the wait allows |
| Timeouts.CheckCanMissExpiry | software/src/FreeRTOS/tasks.c:2933-2953 | an instance: nearly two wraps later the check still asks for one more tick |
| Timeouts.RetriesTelescope | software/src/FreeRTOS/queue.c:848-911 | over any number of retries what remains plus what passed is the original wait, and the first check at which all of it passed gives up |
| Timeouts.Waiter.CheckForTimeOut | software/src/FreeRTOS/tasks.c:2900-2958 | in place: the caller's time-out and remaining wait; an indefinite wait never expires |
| Timeouts.Waiter.BlockUntilTimeOut | software/src/FreeRTOS/queue.c:1345-1424 | the retry loop: every block is positive and would end at the original deadline, and the loop ends at the first check past it |
| Timeouts.DelayUntilExact | software/src/FreeRTOS/tasks.c:1060-1103 | a task delays exactly if its wake time is still to come, for exactly the time until then, wherever the wraps are |
| Timeouts.NoDrift | software/src/FreeRTOS/tasks.c:1093-1094 | after any calls the kept wake time is the first plus the sum of the increments |
| Timeouts.PeriodicTask.DelayUntil | software/src/FreeRTOS/tasks.c:1044-1121 | in place: the kept wake time moves by the increment, and the block, if any, ends then |
| Timers.PlacementExact | software/src/FreeRTOS/timers.c:650-688 | in unbounded time: a timer is processed now exactly if it is due, filed in the current list exactly if it expires in this epoch, and in the overflow list exactly if in the next |
| Timers.ProcessExpiredKeeps | software/src/FreeRTOS/timers.c:465-502 | processing an expired timer keeps both lists sorted and epoch-pure |
| Timers.HandleKeeps | software/src/FreeRTOS/timers.c:748-830 | handling a command keeps both lists sorted and epoch-pure |
| Timers.DrainKeeps | software/src/FreeRTOS/timers.c:838-894 | every turn of the switching loop, and the swap, keep both lists sorted and epoch-pure |
| Timers.StepKeeps | software/src/FreeRTOS/timers.c:541-894 | every step of the daemon, however it interleaves with time and commands, keeps both lists sorted and epoch-pure and calls no callback early |
| TimerCycle.StartBegins | software/src/FreeRTOS/timers.c:752-763 | starting an auto-reload timer that is not running, called back before or not, begins its cycle: one pending restart and no callback of the cycle yet |
| TimerCycle.ExpiredCycle | software/src/FreeRTOS/timers.c:467-501 | processing the head advances exactly the head's cycle, by one callback, and leaves it on one list or with one restart for the next expiry |
| TimerCycle.HandleSelf | software/src/FreeRTOS/timers.c:757-780 | a restart advances the cycle by one callback exactly if the next expiry is already due, and restarts again; otherwise the timer is filed for it |
| TimerCycle.DrainHeadCycle | software/src/FreeRTOS/timers.c:849-889 | a turn of the switching loop advances exactly the head's cycle, by one callback |
| TimerSwitch.EpochExpiriesExact | software/src/FreeRTOS/timers.c:862-888 | an expiry and those after it that do not wrap are consecutive expiries of one epoch, and the one after the last is in the next epoch |
| TimerSwitch.LoopServes | software/src/FreeRTOS/timers.c:849-889 | the whole loop: each auto-reload timer on the old list is called back for each of its expiries left in the old epoch, in order, and leaves as exactly one restart command, for the last; a one-shot timer is called back once; no other timer is touched |
| TimerSwitch.SwitchCycle | software/src/FreeRTOS/timers.c:849-889 | after the loop the timer's cycle stands at the last expiry of the old epoch, with that one restart pending and the next expiry in the new epoch |
| TimerCycle.StepCycle | software/src/FreeRTOS/timers.c:465-894 | any step advances the timer's cycle by at most one callback, the right one |
| TimerCycle.EveryExpiryOnce | software/src/FreeRTOS/timers.c:465-894 | over any run in which nobody else commands the timer, its callbacks are for start + period, start + 2 periods, ... in order, none skipped or doubled, across wraps, late runs and the daemon's own restarts |
| TimerCycle.BlocksWithNothingDue | software/src/FreeRTOS/timers.c:541-598 | the daemon blocks only when the timer has had exactly the callbacks for its expiries up to the sampled time |
| TimerCycle.DrainWorks | software/src/FreeRTOS/timers.c:849-889 | the switching loop terminates: the work left strictly decreases although timers go back into the list |
| TimerCycle.StopOvertaken | software/src/FreeRTOS/timers.c:782-786 | a stop takes effect if and only if the timer is on a list when the daemon receives it; otherwise a restart queued behind it goes on with the cycle |
| TimerCycle.StopCanBeOvertaken | software/src/FreeRTOS/timers.c:482-486 | a stop sent to an active timer can come to nothing |
| TimerCycle.StoppedStays | software/src/FreeRTOS/timers.c:782-786 | a stopped timer stays off the lists without callbacks until it is sent a command |
| TimerPeriod.ChangeExact | software/src/FreeRTOS/timers.c:790-804 | a change of period gives the timer its new period and files it for the handling time plus that period, with no callback and no other timer touched |
| TimerPeriod.ReceivedChangeBegins | software/src/FreeRTOS/timers.c:691-804 | received with nothing else commanded it begins a new cycle of the new period, or arms a one-shot timer, at the time it is handled |
| TimerPeriod.HeldChangeBegins | software/src/FreeRTOS/timers.c:691-894 | likewise if the lists were switched in between |
| TimerOnce.StartArms | software/src/FreeRTOS/timers.c:752-763 | starting a one-shot timer that is not running arms it, called back before or not |
| TimerOnce.OneCallback | software/src/FreeRTOS/timers.c:465-894 | over any run in which nobody else commands it a started one-shot timer is still armed with no callback, or had exactly one, for start plus period, and is stopped |
| TimerOnce.BlocksBeforeItsTime | software/src/FreeRTOS/timers.c:541-598 | the daemon blocks with a one-shot timer still armed only before its time |
| Timers.BlockEndsInTime | software/src/FreeRTOS/timers.c:566-624 | the block of the daemon ends when the head expires, or with an empty current list at the next wrap (at once in tick 0), and no timer expires before it ends |
| TimerDaemon.TimerTask.InsertTimerInActiveList | software/src/FreeRTOS/timers.c:650-688 | in place: the item's value, the list it joins, and whether to process it now |
| TimerDaemon.TimerTask.ProcessExpiredTimer | software/src/FreeRTOS/timers.c:465-502 | in place: the head is called back and refiled or restarted |
| TimerDaemon.TimerTask.SwitchTimerLists | software/src/FreeRTOS/timers.c:838-894 | in place: the loop terminates with the current list drained and the lists are swapped, every timer having had what LoopServes says |
| TimerDaemon.TimerTask.SampleTimeNow | software/src/FreeRTOS/timers.c:627-647 | in place: the lists are switched exactly if the tick count went back since the last sample |
| TimerDaemon.TimerTask.ProcessTimerOrBlockTask | software/src/FreeRTOS/timers.c:541-624 | in place: a run of daemon steps, which blocks only if the head is not due, for the ticks BlockEndsInTime is about, and indefinitely exactly if both lists are empty |
| TimerDaemon.TimerTask.HandleCommand | software/src/FreeRTOS/timers.c:750-830 | in place: start, stop or change of period |
| TimerDaemon.TimerTask.ProcessOneCommand | software/src/FreeRTOS/timers.c:698-832 | in place: a command is received, its timer taken off its list, the time sampled, the command handled |
| TimerDaemon.TimerTask.ProcessReceivedCommands | software/src/FreeRTOS/timers.c:691-835 | in place: with the time sampled anew for each command the loop empties the queue and terminates although the daemon sends itself restarts meanwhile |
| EventGroups.EncodeReads | software/src/FreeRTOS/event_groups.c:373-399 | control bits and waited-for bits stored in one item value are read back as they were |
| EventGroups.PassExact | software/src/FreeRTOS/event_groups.c:552-616 | one pass wakes exactly the waiters the bits satisfy, keeps the others in order, hands each woken task those bits and gathers exactly the bits to clear |
| EventGroups.OrderIsNoMatter | software/src/FreeRTOS/event_groups.c:552-616 | the outcome does not depend on the order of the waiters |
| EventGroups.SetBitsExact | software/src/FreeRTOS/event_groups.c:530-621 | setting bits wakes exactly the waiters that old and new bits together satisfy and leaves old and new bits less what those waiters clear on exit |
| EventGroups.SetBitsKeeps | software/src/FreeRTOS/event_groups.c:530-621 | no waiter is left that the bits satisfy, although bits are cleared last |
| EventGroups.SyncKeeps | software/src/FreeRTOS/event_groups.c:223-265 | a rendezvous leaves no satisfied waiter, whether it completes, blocks or gives up |
| EventAnswers.WaitExact | software/src/FreeRTOS/event_groups.c:342-409 | a wait returns at once exactly if its condition holds or it must not block, with the bits as they were, and takes those it waited for exactly if the condition held and it was to clear them; otherwise it is the last waiter with its wait stored |
| EventAnswers.MetExactly | software/src/FreeRTOS/event_groups.c:682-715 | the condition is that all of the bits are set, or any of them |
| EventAnswers.SyncExact | software/src/FreeRTOS/event_groups.c:223-265 | a rendezvous sets its bits whatever comes of it; complete, it returns old and new bits and takes those it waited for; otherwise it blocks as the last waiter, or returns the bits there are |
| EventAnswers.ClearExact | software/src/FreeRTOS/event_groups.c:472-496 | clearing takes exactly the given bits |
| EventAnswers.ResumeExact | software/src/FreeRTOS/event_groups.c:415-465 | a task that ran on after blocking returns the bits it was handed, or after a time-out the bits there are, which it then takes exactly if they meet its condition and it was to clear them |
| EventAnswers.TimeOutExact | software/src/FreeRTOS/tasks.c:2455-2466 | a time-out takes exactly the waiter off the list |
| EventAnswers.SetItemExact | software/src/FreeRTOS/tasks.c:1410-1419 | a priority change rewrites the event item exactly if it holds no event bits |
| EventAnswers.NotSetByRun | software/src/FreeRTOS/event_groups.c:208-496 | no run of calls brings a bit back unless one of them sets it |
| EventAnswers.ConsumedOnce | software/src/FreeRTOS/event_groups.c:357-359 | a bit that a clear-on-exit wait consumed satisfies no later wait until it is set again |
| EventGroups.StepKeeps | software/src/FreeRTOS/event_groups.c:208-496 | between calls no waiter is left that the bits satisfy, after any call, time-out or priority change |
| EventGroups.HandedStays | software/src/FreeRTOS/tasks.c:1410-1419 | the value handed to a woken task is left alone by every other call, priority changes included |
| EventGroups.WokenWithTheBits | software/src/FreeRTOS/tasks.c:4035-4046 | a woken task returns the bits as they were before anything was cleared, whatever happens before it runs |
| EventGroups.EventGroup.Set | software/src/FreeRTOS/event_groups.c:530-621 | in place: the walk over the list with satisfied waiters leaving on the way |
| EventGroups.EventGroup.Clear | software/src/FreeRTOS/event_groups.c:472-496 | in place: the bits go and the value before is returned |
| EventGroups.EventGroup.Wait | software/src/FreeRTOS/event_groups.c:342-409 | in place: returns at once, or stores what the task waits for and blocks |
| EventGroups.EventGroup.Rendezvous | software/src/FreeRTOS/event_groups.c:223-265 | in place: sets bits, then returns or blocks for all of them |
| EventGroups.EventGroup.Unblocked | software/src/FreeRTOS/event_groups.c:415-465 | in place: what a task that blocked returns, woken or timed out, with its event item put back |
| EventGroups.EventGroup.Delete | software/src/FreeRTOS/event_groups.c:624-663 | in place: every waiter is woken with no bits |
| CoRoutines.WakeHeadsServe | software/src/FreeRTOS/croutine.c:284-313 | the inner loop readies exactly the co-routines due at this tick |
| CoRoutines.EmptyAtSwap | software/src/FreeRTOS/croutine.c:272-282 | the current delayed list is empty whenever the co-routine tick count wraps |
| CoRoutines.OneTickServes | software/src/FreeRTOS/croutine.c:267-314 | one tick of catching up keeps the lists epoch-pure and serves exactly those due |
| CoRoutines.CatchUpServes | software/src/FreeRTOS/croutine.c:262-317 | for any number of missed ticks, wraps included, the clock ends that many ticks on, and each co-routine whose time came is readied once, at its own tick |
| CoRoutines.DelayKeeps | software/src/FreeRTOS/croutine.c:201-236 | a delay of n ticks waits, on the list of its epoch, for the tick n from now, and moves nobody else |
| CoRoutines.EventMayComeFirst | software/src/FreeRTOS/croutine.c:290-312 | an interrupt that readies a co-routine between two wake-ups of the clock might as well have come before both |
| CoRoutineRuns.StepKeeps | software/src/FreeRTOS/croutine.c:201-395 | every batch of ticks, delay, event, creation and selection keeps the delayed lists epoch-pure and in order, every co-routine either ready or waiting, and the event lists to those that wait |
| CoRoutineRuns.BootOk | software/src/FreeRTOS/croutine.c:350-367 | the state after the first creation satisfies the invariant |
| CoRoutineRuns.DelayIsExact | software/src/FreeRTOS/croutine.c:201-395 | over any run up to its next delay a co-routine delayed n > 0 ticks at t still waits and t + n has not come, or was made ready once, by the clock, at exactly t + n, or once, by an event it waited for, before t + n |
| CoRoutineRuns.DrainPendingServes | software/src/FreeRTOS/croutine.c:239-259 | the loop over the pending list makes exactly its co-routines ready, each once, and moves nobody else |
| CoRoutineRuns.SelectRight | software/src/FreeRTOS/croutine.c:328-341 | the co-routine that is called is ready and none that is ready is more urgent |
| CoRoutineRuns.CreateKeeps | software/src/FreeRTOS/croutine.c:144-198 | a new co-routine is ready at its priority, clamped to the greatest, and nobody else moves |
| CoRoutineTurns.StepKept | software/src/FreeRTOS/croutine.c:201-395 | no step but a selection moves a co-routine that stays ready further from its turn |
| CoRoutineTurns.TurnsComeRound | software/src/FreeRTOS/croutine.c:328-341 | of the co-routines that stay ready at the top priority each is called again and again |
| CoRoutineTurns.DrainInOrder | software/src/FreeRTOS/croutine.c:239-259 | pending co-routines join the ready list of their priority in the order of the pending list |
| CoRoutineTurns.EventsJoinInOrder | software/src/FreeRTOS/croutine.c:370-393 | after any number of events that is the order of the events |
| CoRoutines.ReadyPendingKeeps | software/src/FreeRTOS/croutine.c:239-259 | a co-routine an event readied leaves the delayed lists for its ready list, and no other is touched |
| CoRoutineLoops.CoRoutineScheduler.WakeTimedOut | software/src/FreeRTOS/croutine.c:284-313 | in place: the inner loop wakes what the batch wakes |
| CoRoutineLoops.CoRoutineScheduler.CheckDelayedList | software/src/FreeRTOS/croutine.c:262-317 | in place: the nested loops end with the co-routine clock at the sampled kernel tick, having done what the batch does |
| CoRoutineLoops.CoRoutineScheduler.CheckPendingReadyList | software/src/FreeRTOS/croutine.c:239-259 | in place: the loop drains the pending list as DrainPendingServes says |
| CoRoutineLoops.CoRoutineScheduler.AddToDelayedList | software/src/FreeRTOS/croutine.c:201-236 | in place: the running co-routine leaves its ready list for the delayed list of its wake time's epoch, and joins an event list if there is one |
| CoRoutineLoops.CoRoutineScheduler.RemoveFromEventList | software/src/FreeRTOS/croutine.c:370-393 | in place: the head of an event list moves to the pending list, and the value returned compares priorities |
| CoRoutineLoops.CoRoutineScheduler.SelectHighest | software/src/FreeRTOS/croutine.c:328-341 | in place: the downward search and the next entry, or none if nobody is ready |
| CoRoutineLoops.CoRoutineScheduler.Schedule | software/src/FreeRTOS/croutine.c:320-347 | in place: pending co-routines, then the clock, then the selection, which finds one exactly if one is ready |
| CoRoutineLoops.CoRoutineScheduler.Create | software/src/FreeRTOS/croutine.c:144-198 | in place: a new co-routine is ready at its priority, clamped to the greatest |

## Left out

- Queue sets, notifications to tasks, AbortDelay, tickless idle, tracing, statistics, MPU and memory management: off in this configuration, or without kernel logic of interest.
- Recursive mutexes, creation of mutexes and counting semaphores: thin wrappers over the mutex and queue operations modelled here.
- TCBs as objects: the scheduler's classes keep task records in a map from task to record, so aliasing of TCB pointers is not modelled; `ListRing` has the pointers of the lists themselves.
- The event item and the state item of a task in `Scheduler` move in an order that can differ from the C text inside one critical section; the state at its end is the same.
- Tasks created before the scheduler starts: `Boot` starts with one task and the others are created as it runs.
- The scheduler model holds no mutexes and the mutex model no delayed lists; vTaskPrioritySet on a mutex holder is in `Mutex` only.
- An interrupt that wakes a task with xTaskResumeFromISR is taken to yield when the returned flag tells it to; the kernel itself records nothing in that case.
- A context switch is taken to find a ready task: the idle task never blocks.
- A block of no ticks is allowed except in the last tick before a wrap, where the source's assertion at the swap would fail; the timer daemon makes its one such block at tick 0.
- QueueLock.NoWakeUpIsLost: assumes that the lock counts stay inside `int8_t`, that no woken task is deleted or suspended before it has retried, and no reset; `CountOverflowLosesExactly` and `ResetStrandsExactly` say what happens otherwise.
- TimerDaemon.TimerTask.ProcessReceivedCommands: assumes that the command loop takes less than a wrap.
- Timers.StepKeeps: assumes that a sampled time is used, and a start command handled, less than one wrap after it was taken; that a command can always be queued, as the source asserts.
- Deleting a timer, functions pended to the daemon: the first is a stop followed by freeing memory, the second a callback.
- Timeouts.CheckMeasures: assumes at most one wrap between checks, and xNumOfOverflows is not itself allowed to wrap; `CheckExactly` says what happens after more wraps.
- Timeouts.DelayUntilExact: assumes that the task is less than a wrap late, as the function's 16- or 32-bit comparison must.
- QueueStore.Buffer.constructor: items of at least one byte; semaphores and mutexes, with items of none, keep a count only.
- CoRoutineRuns.StepKeeps: an event may name any co-routine on an event list, of which the source takes the head; the order of those lists and the bodies of co-routines are not modelled.
- EventRuns.MostUrgentIsWoken: for tasks without mutexes, as the scheduler model; `Mutex.InheritKeepsOrderExactly` covers what inheritance does to the order.
- Mutex.SetPriorityKeepsExactly: what the waiters of this hold need is recorded in the ghost `pressure`, the priorities they blocked with; the kernel keeps no such record.
- The port layer, the device drivers, the network stack and the clock application: not part of this model.
- Liveness that depends on the application, such as a task that never gives a mutex or a callback that blocks.
