# Verification of the pico toolkit's concurrency core

A Dafny model of the parts of the toolkit where several cores, threads and interrupt handlers meet, and proofs of what
they promise. `dafny verify dfyconfig.toml` checks all of it.

**The scheduler.** `Kernel` gives each region between taking and releasing the scheduler lock as one function on the
kernel state: priority queues (`TaskQueues`), the timeout list with its cached deadline (`TaskTimers`), the lists of
owned futexes (`OwnedFutexes`), tasks, futex words, current tasks and pending switches, for any number of tasks, cores
and futexes. `Steps` says what each of them changes. `Scheduler` is the same scheduler as a class that links and
unlinks nodes in memory, walks its lists from node to node and updates fields in place; every handler is proved to
compute the function that specifies it and to leave the nodes of all lists linked as that function says. `Rings` has
the insertion and removal of nodes and what they do to one list and to all others, `Wiring` and `Memory` the queues,
timers, tasks and owned futexes as rings that share one memory, `Slots` the deferred wakes of a core. `Placement`
shows that every task is always in exactly one place, `Dispatching` that a switch picks the right task and kicks the
right cores, `Timeouts` and `TimeoutRuns` that timeouts are neither missed nor early, step by step and over whole
runs, with `Clock` for the ticks they are counted in. `Preemption` and `SwitchRuns` show which calls ask for a switch
and that no ready task is overlooked but in the cases they name, `LateSwitch` a run into such a case, and
`SwitchWakes` that a switch performs the deferred wakes before it looks at the timeouts.

**Mutexes.** `MutexProtocol` interleaves the user-side steps of acquire and release, one per atomic access of the
word, with the service calls and everything else the kernel does. `MutexRuns` proves mutual exclusion, truthful status
and that no waiter is stranded over whole runs; `AcquireRuns` keeps the arguments of every pending call and shows that
each answers what it was asked; `Inheritance` and `InheritanceRuns` bound priorities from both sides; `ReleaseRuns`
says exactly when a release frees the mutex, and `DeadOwners` what becomes of a mutex that names a thread that has
exited. `MutexKernel` and `Calmness` hold what these rest on.

**Message queue, pool, semaphores.** `MessageQueue` interleaves the atomic steps of all four operations on a message
list, a free list and two semaphores, and proves the joint accounting and the stable priority order; `MessageRequests`
connects both with what the callers have asked for, and `QueueReset` adds the reset. `MemoryPool` is the free list
threaded through the blocks, `IntrusiveLists` the circular doubly linked lists on nodes, and `ListPlaces` connects
their ordered insertion to the three queues that use it.

**Wake-ups.** `EventFlags`, `Condition` and `DeferredWake` show that no wakeup is lost, with the exact condition where
the code can lose one, and `EventRequests` what a wait for flags answers; `RtosTimers` is the RTOS timer list with its
tick hook, and `ListRace` what happens when that hook and another core change the list at the same time.

**Locks.** `TicketLock` is the 16-bit ticket lock with wrap-around, `PackedLock` the two-core locks packed into a
register and the atomic operations inside them, and `AtomicOps` says what each of those does to its object.

**Trace buffer.** `RttRing` shows that all writers and the reader of the terminal ring refine one byte queue, and
`RttHost` does so against a host that reads at the same time; `RttTerminals` reads the virtual terminals back from it.

Histories that no operation consults (`stamp`, `clock`, `stale`, `delivered`, `accepted`, `answers`, `line`, `log`,
the requests of pending calls) exist to state order and conservation. Clocks, interrupts, the outcome of weak tests
(is a stack damaged, does the dispatch queue take a timer, how long does an acquire wait) and the order of all steps
are parameters of the runs, so each theorem about runs holds for every choice.

Several promises do not hold of the code as it is. They are stated with the exact condition under which they do, and
where the failing state takes several steps to reach, with the run that reaches it: releasing a mutex whose waiters
have all given up (`ReleaseRuns.ReleaseSticks`, `DeadOwners.Sticks`), waiting for such a mutex after its last owner
has exited (`MutexRuns.FailsExactly`, `DeadOwners.SomeRunFails`), releasing a mutex below a ready task without a
switch (`Preemption.OverlookedExactly`, `LateSwitch.SomeRunMisses`), a request for a switch that comes while the
scheduler is locked (`SwitchRuns.StepPrompt`), two waits that take one flag (`EventRequests.TakenTwice`), deadlines of
the C11 timed calls (`Condition.DeadlinesExactly`), 64-bit atomic loads of values above 32 bits
(`AtomicOps.OperationIsAtomic`), a refused deferred wake (`EventFlags.RefusedWakeIsLost`, `EventFlags.LosesWakeup`),
timeouts and timers across a wrap of the tick counter (`Timeouts.WaitTimesOutExactly`, `RtosTimers.RearmedIsLater`), a
timer started twice (`IntrusiveLists.InsertAgain`) or stopped beside the tick hook
(`ListRace.RemovalsCommuteExactly`), overwriting with more than one wrap (`RttRing.OverwriteExactly`), the byte count
of a wrapped buffer (`RttRing.UpBuffer.BytesInBuffer`), more than 65536 threads at a ticket lock
(`TicketLock.ExcludesExactly`), a waiter overtaken by 2^32 signals (`Condition.SleepsExactly`,
`Condition.OvertakenSleeps`).

## Model

| member | source | states |
|---|---|---|
| MutexRuns.SafeOnEveryRun | src/pico-cmsis-rtos2/cmsis-rtos2-mutex.c:101-185 | In every state that any run reaches, on any number of cores, tasks and mutexes: one holder at most, and the word names it; while anybody waits the word is contended and names a thread, and a word of 0 means that nobody waits; whoever is named holds the mutex or has just been handed it, unless the last release found nobody waiting, and only then can the named one be dead; the owned list, the flag and the named owner agree; a task that lends nothing runs at its base priority; every task is in exactly one place |
| MutexRuns.FailsExactly | src/pico-scheduler/scheduler.c:590-632 | A step violates what the kernel asserts of its callers (live owner, caller on the core, futex present) if and only if a thread waits for a priority-inheriting mutex whose word names a dead thread; and then the last release of that mutex found nobody waiting |
| DeadOwners.SafeWhileCareful | src/pico-scheduler/scheduler.c:617-632 | On every run on which nobody exits while a word names him, every named owner is alive and no assertion fails, whatever step comes next |
| DeadOwners.FailsForDead | src/pico-scheduler/scheduler.c:617-632 | The failing run from the start, step by step: a waiter gives up, the releaser stays named by the word, it exits, and the next waiter runs into the assertion about the owner |
| DeadOwners.SomeRunFails | src/pico-scheduler/scheduler.c:617-632 | The same from a concrete start with three tasks on three cores: every step is allowed and the last one fails |
| DeadOwners.Sticks | src/pico-scheduler/scheduler.c:708-711 | The state in which a word names somebody who holds nothing is reached from the start |
| DeadOwners.LostForGood | src/pico-cmsis-rtos2/cmsis-rtos2-mutex.c:123-150 | Once a word names a dead thread, it does so for ever and no thread holds that mutex again, on any run that creates no task at the same address |
| MutexRuns.ApplyKeeps | src/pico-cmsis-rtos2/cmsis-rtos2-mutex.c:123-184 | Every atomic step (user-side compare-and-swap, service call, tick, switch, any other service call in between, the end of a thread that holds nothing) keeps the protocol invariant |
| MutexRuns.TruthfulOnEveryRun | src/pico-cmsis-rtos2/cmsis-rtos2-mutex.c:101-185 | After every run, whatever step comes next: the kernel objects to nothing but to a wait for a dead owner, and what acquire or release returns is the truth |
| MutexRuns.AcquireIsTruthful | src/pico-cmsis-rtos2/cmsis-rtos2-mutex.c:101-150 | About holds only: acquire returns osOK exactly when its caller has become a holder, and any error only while the mutex is not its own, so an expiry that races with the hand-off never wins; re-acquiring a mutex that is not recursive is the one exception. Which error, and after which wait, is `AcquireRuns.AcquireAnswers` |
| AcquireRuns.AcquireAnswers | src/pico-cmsis-rtos2/cmsis-rtos2-mutex.c:101-150 | After every run, with the arguments of each pending call as a history: the call that finds a free mutex takes it, a taken one is given up on at once with osErrorResource exactly if the call is from the RTOS layer with timeout 0, and then no wait has been made; every wait is for the mutex of the call, blocks exactly if the word is still the one the call has seen, and its timer runs out exactly the timeout of the call later, modulo 2^32, or never; osErrorTimeout comes only from a wait that a switch has found timed out, with a finite timeout, or that somebody has resumed; osErrorParameter exactly for a mutex whose word names the caller already and that is not recursive |
| AcquireRuns.StepOver | src/pico-scheduler/scheduler.c:590-649 | A wait that is over keeps its result until its thread looks at it, whatever step anybody takes, the end of the thread apart |
| MutexRuns.ReleaseIsTruthful | src/pico-cmsis-rtos2/cmsis-rtos2-mutex.c:152-185 | Release gives up exactly one hold when it returns osOK and none otherwise, and it refuses only who holds nothing |
| MutexProtocol.Exclusive | src/pico-cmsis-rtos2/cmsis-rtos2-mutex.c:123-150 | Two threads that hold the same mutex are one, and the word names it |
| MutexProtocol.NotStranded | src/pico-scheduler/scheduler.c:604-615 | A mutex with waiters has its contention flag set and names a thread; a word of 0 means that nobody waits |
| MutexProtocol.SwapKeeps | src/pico-cmsis-rtos2/cmsis-rtos2-mutex.c:124-129 | The acquiring compare-and-swap keeps the invariant against every interleaving; its loser has seen an owner that is not itself |
| MutexProtocol.SwapOutKeeps | src/pico-cmsis-rtos2/cmsis-rtos2-mutex.c:173-176 | The releasing compare-and-swap frees the mutex only while it is not contended, and otherwise goes on to the wake |
| MutexProtocol.SvcWaitKeeps | src/pico-scheduler/scheduler.c:590-649 | The wait call keeps the invariant whatever happened between the failed compare-and-swap and the call, unless it would have to lend to a dead owner |
| MutexProtocol.SvcWakeKeeps | src/pico-scheduler/scheduler.c:720-739 | The wake call moves the mutex from the releaser to the head waiter, which has not been told of a timeout, without passing through 0 |
| MutexKernel.OwnerWakes | src/pico-scheduler/scheduler.c:680-714 | Direct hand-off: afterwards the word names the first waiter, who is ready with a result of 0, everybody else keeps place and result, and without waiters the word keeps naming the releaser |
| MutexKernel.FlagAfterWake | src/pico-scheduler/scheduler.c:708-714 | After a hand-off the flag is set exactly if somebody still waits |
| MutexKernel.WaitKeeps | src/pico-scheduler/scheduler.c:604-632 | Waiting keeps every word, owned list and boost right; the second clause of the compare-and-swap lets a late waiter join a word that became contended meanwhile |
| MutexKernel.WakeFutexKeeps | src/pico-scheduler/scheduler.c:651-718 | So does waking |
| MutexKernel.SetWordKeeps | src/pico-cmsis-rtos2/cmsis-rtos2-mutex.c:125-175 | So do the user-side writes, which only ever replace an uncontended word |
| ReleaseRuns.ReleaseFrees | src/pico-cmsis-rtos2/cmsis-rtos2-mutex.c:173-184 | On every run on which no waiter gives up: whoever the word names is alive and holds the mutex or is about to learn it, a thread that releases is named no longer, and no assertion of the kernel fails |
| ReleaseRuns.ReleaseSticks | src/pico-scheduler/scheduler.c:708-711 | The exact condition for the flaw of the code: the wake of a release leaves the word naming a releaser that holds nothing if and only if no waiter is left |
| InheritanceRuns.OwnersAreUrgent | src/pico-scheduler/scheduler.c:617-632 | Over every run without set-priority on which nobody blocks on a lending mutex while owning one: a live owner of a contended mutex is at least as urgent as each of its waiters, and a dead one was last released to nobody |
| Inheritance.OwnerGivesBack | src/pico-scheduler/scheduler.c:655-677 | After its wake the former owner runs at the most urgent of its base and of everybody who waits for a mutex still on its list, no more and no less |
| Inheritance.MostUrgentInherits | src/pico-scheduler/scheduler.c:668-674 | The loop over the owned futexes finds exactly that priority among all waiters, although it looks at head waiters only |
| Inheritance.WaitBound | src/pico-scheduler/scheduler.c:617-632 | A wait keeps the bound |
| Inheritance.WakeBounded | src/pico-scheduler/scheduler.c:655-695 | A wake keeps it, for the old owner, the new one and everybody else |
| Placement.SuspendPlaced | src/pico-scheduler/scheduler.c:495-544 | Suspend keeps every live task in exactly one place: ready on the ready queue, blocked on one futex queue, suspended on none, running on exactly the core it names, timers only for blocked and suspended tasks |
| Placement.ResumePlaced | src/pico-scheduler/scheduler.c:546-588 | Resume keeps every live task in exactly one place: ready on the ready queue, blocked on one futex queue, suspended on none, running on exactly the core it names, timers only for blocked and suspended tasks |
| Placement.WaitPlaced | src/pico-scheduler/scheduler.c:590-649 | Wait keeps every live task in exactly one place: ready on the ready queue, blocked on one futex queue, suspended on none, running on exactly the core it names, timers only for blocked and suspended tasks |
| Placement.WakePlaced | src/pico-scheduler/scheduler.c:651-739 | Wake keeps every live task in exactly one place: ready on the ready queue, blocked on one futex queue, suspended on none, running on exactly the core it names, timers only for blocked and suspended tasks |
| Placement.CreatePlaced | src/pico-scheduler/scheduler.c:444-474 | Create keeps every live task in exactly one place: ready on the ready queue, blocked on one futex queue, suspended on none, running on exactly the core it names, timers only for blocked and suspended tasks |
| Placement.TerminatePlaced | src/pico-scheduler/scheduler.c:741-773 | Terminate keeps every live task in exactly one place: ready on the ready queue, blocked on one futex queue, suspended on none, running on exactly the core it names, timers only for blocked and suspended tasks |
| Placement.SetPriorityPlaced | src/pico-scheduler/scheduler.c:775-799 | Set-priority keeps every live task in exactly one place: ready on the ready queue, blocked on one futex queue, suspended on none, running on exactly the core it names, timers only for blocked and suspended tasks |
| Placement.TickPlaced | src/pico-scheduler/scheduler.c:419-442 | The tick keeps every live task in exactly one place: ready on the ready queue, blocked on one futex queue, suspended on none, running on exactly the core it names, timers only for blocked and suspended tasks |
| Placement.SwitchPlaced | src/pico-scheduler/scheduler.c:870-980 | The context switch, including a pass that ends in the idle hook, keeps every live task in exactly one place: ready on the ready queue, blocked on one futex queue, suspended on none, running on exactly the core it names, timers only for blocked and suspended tasks |
| Placement.DispatchPlaced | src/pico-scheduler/scheduler.c:929-976 | The dispatched task was ready and the core was free, so the assertion and the abort around the dispatch are never reached |
| Placement.OnlyOn | src/pico-scheduler/scheduler.c:957-976 | A task runs on one core at most: the one it names, and only while it is running |
| Placement.EvictPlaced | src/pico-scheduler/scheduler.c:939-946 | Evicting a task without refreshing the cached deadline is the same as a proper removal |
| Dispatching.RoundPicks | src/pico-scheduler/scheduler.c:901-1003 | One pass for a vacant core: the dispatched task goes before everybody ready for that core, by priority and then by order of arrival; another core is kicked exactly if somebody ready for it is strictly more urgent than what it runs; a core is left without a task while somebody is ready for it only if a task with a damaged stack was dropped |
| Dispatching.SwitchPicks | src/pico-scheduler/scheduler.c:870-1003 | The whole switch: a running task keeps its core exactly while the scheduler is locked, otherwise it competes with everybody else, and the same holds of who runs next, who is kicked and when no task is found; whether the core then idles or leaves the scheduler is `Dispatching.SwitchEnds` |
| Dispatching.SwitchEnds | src/pico-scheduler/scheduler.c:949-960 | A switch that finds no task leaves the scheduler exactly if the core can return to its starter and every task that is left is a daemon; otherwise it idles |
| SwitchRuns.NeverEndsEarly | src/pico-scheduler/scheduler.c:949-960 | After every run: no switch leaves the scheduler while a live task is not a daemon |
| SwitchWakes.SwitchPerforms | src/pico-scheduler/scheduler.c:901-927 | What a switch does about a wait: a deferred wake that is about the waiting task ends it with success even if its timeout has passed too; while no deferred wake is about its futex it times out exactly if its deadline has passed, and goes on otherwise; a switch of a locked scheduler does nothing about it |
| Preemption.CreateRequests | src/pico-scheduler/scheduler.c:462-466 | A create asks for a switch exactly if the new task is ready and more urgent than its creator |
| Preemption.SuspendRequests | src/pico-scheduler/scheduler.c:495-544 | A suspend takes its caller off the core, asks for exactly one more switch, of that core, and returns 0 |
| Preemption.ResumeRequests | src/pico-scheduler/scheduler.c:546-588 | A resume always asks for a switch, returns 0 exactly for a waiting or suspended task, and otherwise -EINVAL with every task as it was |
| Preemption.WaitRequests | src/pico-scheduler/scheduler.c:634-648 | A wait, blocking or not, takes its caller off the core and asks for a switch of it |
| Preemption.WakeRequests | src/pico-scheduler/scheduler.c:720-739 | A wake returns the number of tasks that waited and are now ready, and asks for a switch of the caller's core exactly if there are any; if there are none, no other request is touched and no task moves |
| Preemption.TerminateRequests | src/pico-scheduler/scheduler.c:741-773 | A terminate asks for a switch exactly if the task ends itself |
| Preemption.SetPriorityRequests | src/pico-scheduler/scheduler.c:775-799 | A change of priority always asks for a switch |
| Preemption.OverlookedExactly | src/pico-scheduler/scheduler.c:655-677 | The exact condition for a missed switch: the owner of a lending mutex gives it up to nobody, falls back below a ready task, and no switch has been requested before |
| SwitchRuns.CallsPreempt | src/pico-scheduler/scheduler.c:462-799 | After every run, whatever service call comes next: whoever newly is a more urgent contender for the caller's core than what runs there finds a switch of that core requested, if and only if the call is not such a release |
| SwitchRuns.PromptOnOneCore | src/pico-scheduler/scheduler.c:444-1003 | On one core, over every run in which nobody is neglected: a ready task is more urgent than the running one only while a switch has been requested |
| SwitchRuns.StepPrompt | src/pico-scheduler/scheduler.c:444-1003 | A step keeps that promise if and only if it is not a release of a lending mutex to nobody that drops its owner below a ready task, nor a switch that finds the scheduler locked and takes the request away from a more urgent task |
| LateSwitch.ReleaseMisses | src/pico-scheduler/scheduler.c:655-677 | The run on which such a release overlooks a ready and more urgent task, from every start with three idle threads on three cores, the second one more urgent than the first |
| LateSwitch.SomeRunMisses | src/pico-scheduler/scheduler.c:655-677 | The same from a concrete start |
| Dispatching.FirstIsBest | src/pico-scheduler/scheduler.c:301-307 | The first eligible entry of the queue goes before every other contender |
| Dispatching.OutrankedExactly | src/pico-scheduler/scheduler.c:994-999 | Looking at the first eligible entry only is enough to know whether any contender is strictly more urgent |
| TaskQueues.PushGood | src/pico-scheduler/scheduler.c:265-285 | Pushing keeps links and lists in agreement and every list sorted by priority and arrival |
| TaskQueues.RemoveGood | src/pico-scheduler/scheduler.c:257-263 | Removal does so too, and takes away nothing else |
| TaskQueues.ReprioritizeGood | src/pico-scheduler/scheduler.c:324-334 | So does a change of priority, which moves a queued task behind its new equals |
| Timeouts.WaitTimesOutExactly | src/pico-scheduler/scheduler.c:607-610 | A wait with a finite timeout is due at exactly the ticks from now + timeout on if and only if that sum fits 32 bits |
| Timeouts.TickNotices | src/pico-scheduler/scheduler.c:425-434 | The tick asks for a switch whenever a timer is due, and apart from the time slice only then |
| Timeouts.ExpiresExactly | src/pico-scheduler/scheduler.c:913-927 | The expiry loop readies exactly the tasks whose timers are due, with a timeout result, and leaves none due |
| Timeouts.TimersOfWaiters | src/pico-scheduler/scheduler.c:917-924 | Only blocked and suspended tasks are on the timer list |
| TimeoutRuns.TimedWait | src/pico-scheduler/scheduler.c:590-615 | On every run, from a wait with a timeout on and unless the tick counter wraps: it is never over with a timeout before its tick, no switch from that tick on leaves it waiting, and it ends by a timeout that a switch finds, a resume, a wake, a suspension or the end of the task only |
| TimeoutRuns.StepWait | src/pico-scheduler/scheduler.c:913-927 | What one step of any run can do to a wait, with or without a timeout |
| Clock.ClockOnRun | src/pico-scheduler/scheduler.c:413-428 | On every run the reference clock has moved by the number of ticks of core 0, modulo 2^32, and by nothing else |
| Clock.LastsItsTicks | src/pico-scheduler/scheduler.c:363-411 | So a wait that ends with a timeout has lasted for at least as many ticks of core 0 as its caller has asked for, unless its deadline wraps |
| TaskTimers.Push | src/pico-scheduler/scheduler.c:355-379 | Arming keeps the list sorted without duplicates and the cached deadline equal to its head |
| TaskTimers.Remove | src/pico-scheduler/scheduler.c:381-392 | Disarming does so too, with UINT_MAX for an empty list |
| TaskTimers.DueExactly | src/pico-scheduler/scheduler.c:363 | A timer is neither early nor late if and only if tick + delay does not wrap |
| TaskTimers.CachedTellsDue | src/pico-scheduler/scheduler.c:429-434 | The cached deadline has passed exactly when some timer on the list is due |
| Steps.WaitStep | src/pico-scheduler/scheduler.c:604-648 | A wait that blocks: exactly the caller joins the queue of the futex with its timeout and leaves the core, the word becomes contended, the owner gets the futex on its list and at most the priority of the head waiter; nothing else changes |
| Steps.WaitReadyStep | src/pico-scheduler/scheduler.c:634-648 | A wait whose word has moved on: the caller is ready again with result 0 and nothing else changes |
| Steps.WakeMutexStep | src/pico-scheduler/scheduler.c:680-714 | A wake of a contended mutex: exactly the head waiter becomes ready, at the priority of the next waiter if it inherits, and the word names it, contended if others still wait |
| Steps.WakeLoopStep | src/pico-scheduler/scheduler.c:680-706 | A wake of a plain futex readies exactly the first waiter or all of them, and keeps their priorities |
| Steps.SuspendStep | src/pico-scheduler/scheduler.c:495-544 | Suspend: exactly which fields of which tasks change, for oneself and for another task |
| Steps.ExpireAllStep | src/pico-scheduler/scheduler.c:913-927 | The expiry loop changes exactly the tasks whose timers have run out |
| Scheduler.SchedulerState.constructor | src/pico-scheduler/scheduler.c:1114-1157 | An empty scheduler, with its list heads linked to themselves and all slots empty, is in order |
| Scheduler.SchedulerState.InitFutex | src/pico-scheduler/scheduler.c:1359-1368 | A new futex: its two nodes are initialised, and no other list is disturbed |
| Scheduler.SchedulerState.QueueRemove | src/pico-scheduler/scheduler.c:257-263 | Four assignments unlink the node of the task from whatever queue it is on, or do no harm; every other list stays as it is |
| Scheduler.SchedulerState.QueuePush | src/pico-scheduler/scheduler.c:265-285 | The walk from node to node finds the insertion point and the node is linked there; the nodes of all lists again form exactly the lists of the specification |
| Scheduler.SchedulerState.QueuePop | src/pico-scheduler/scheduler.c:287-299 | Takes the head of a queue |
| Scheduler.SchedulerState.QueuePopFor | src/pico-scheduler/scheduler.c:301-309 | Takes the first ready task that may run on the core, or none |
| Scheduler.SchedulerState.HighestPriority | src/pico-scheduler/scheduler.c:312-322 | The priority of the head, or 64 |
| Scheduler.SchedulerState.QueueReprioritize | src/pico-scheduler/scheduler.c:324-334 | Remove, change, push: the queues become those of the specification |
| Scheduler.SchedulerState.TimerPush | src/pico-scheduler/scheduler.c:355-379 | Unlinked, walked to its place, linked again: the timers are those of the specification, and so is the refreshed deadline |
| Scheduler.SchedulerState.TimerRemove | src/pico-scheduler/scheduler.c:381-392 | The unlinked timer and the refreshed deadline |
| Scheduler.SchedulerState.TimerPop | src/pico-scheduler/scheduler.c:394-411 | The first timer if it is due, else nothing changes |
| Scheduler.SchedulerState.TickIrq | src/pico-scheduler/scheduler.c:419-442 | Refines the tick step |
| Scheduler.SchedulerState.CreateSvc | src/pico-scheduler/scheduler.c:444-474 | Refines the create step; the nodes of the new task are initialised and every list stays well linked |
| Scheduler.SchedulerState.SuspendSvc | src/pico-scheduler/scheduler.c:495-544 | Refines the suspend step, with its return value |
| Scheduler.SchedulerState.ResumeSvc | src/pico-scheduler/scheduler.c:546-588 | Refines the resume step, with its return value |
| Scheduler.SchedulerState.WaitSvc | src/pico-scheduler/scheduler.c:590-649 | Refines the wait step: same queues, timers, words, owned lists and priorities |
| Scheduler.SchedulerState.LowerOwner | src/pico-scheduler/scheduler.c:655-677 | The owner's priority is recomputed from its remaining futexes |
| Scheduler.SchedulerState.WakeHead | src/pico-scheduler/scheduler.c:680-701 | One turn of the wake loop: hand-over, inheritance, ready |
| Scheduler.SchedulerState.WakeTasks | src/pico-scheduler/scheduler.c:651-718 | The whole wake, loops included, refines the wake of the specification and counts the woken tasks |
| Scheduler.SchedulerState.WakeSvc | src/pico-scheduler/scheduler.c:720-739 | Refines the wake call, with its return value and its request for a switch, of which `Preemption.WakeRequests` says what they are |
| Scheduler.SchedulerState.TerminateSvc | src/pico-scheduler/scheduler.c:741-773 | Refines the terminate step, with its return value |
| Scheduler.SchedulerState.PrioritySvc | src/pico-scheduler/scheduler.c:775-799 | Refines the set-priority step, with its return value |
| Scheduler.SchedulerState.IsAlive | src/pico-scheduler/scheduler.c:482-493 | The walk over the list of all tasks finds exactly the live ones |
| Scheduler.SchedulerState.LinkOwner | src/pico-scheduler/scheduler.c:624-626 | The futex is linked to its owner exactly if its node is linked to nobody yet |
| Scheduler.SchedulerState.HighestWaiter | src/pico-scheduler/scheduler.c:665-672 | The walk over the owned futexes computes the most urgent head waiter |
| Scheduler.SchedulerState.Defer | src/pico-scheduler/scheduler.c:1386-1413 | The wake from an interrupt handler: refused for a futex with tracking, otherwise the search loop puts it into a slot, or finds it there, or finds all slots taken, as `DeferredWake.Post` says |
| Scheduler.SchedulerState.IsViable | src/pico-scheduler/scheduler.c:801-817 | The walk over the list of all tasks is true exactly if some live task is not a daemon |
| Scheduler.SchedulerState.WakeSlots | src/pico-scheduler/scheduler.c:904-911 | The loop over slots and counters performs exactly the wakes that were in the slots, in slot order, although it stops as soon as the counters agree; afterwards all slots are empty and the counters equal |
| Scheduler.SchedulerState.ExpireTimers | src/pico-scheduler/scheduler.c:913-927 | The loop expires every due timer |
| Scheduler.SchedulerState.KickOthers | src/pico-scheduler/scheduler.c:979-1003 | The two nested loops request exactly the switches of the specification |
| Scheduler.SchedulerState.SwitchSvc | src/pico-scheduler/scheduler.c:870-1003 | One pass of the context switch refines the switch step with the wakes found in the slots, and its outcome, of which `Dispatching.SwitchPicks` and `Dispatching.SwitchEnds` say what it is |
| Rings.InsertRing | src/pico-scheduler/scheduler.c:137-145 | The assignments of an insertion turn the ring of a list into the ring with the node at that place |
| Rings.UnlinkRing | src/pico-scheduler/scheduler.c:157-165 | Those of a removal give the ring without the node and make the node a ring of its own |
| Rings.InsertOther | src/pico-scheduler/scheduler.c:137-145 | An insertion leaves the ring of every other list in the same memory alone |
| Rings.UnlinkOther | src/pico-scheduler/scheduler.c:157-165 | So does a removal |
| Wiring.WiredPush | src/pico-scheduler/scheduler.c:265-285 | A queued node changes the ring of its queue as the specification of the push says; all other queues and single nodes stay |
| Wiring.WiredRemove | src/pico-scheduler/scheduler.c:257-263 | The same for a removal, also of a task that is on no queue |
| Wiring.ListUnlinked | src/pico-scheduler/scheduler.c:381-392 | A timer may be unlinked whether it runs or not |
| Wiring.OwnedLinkedTest | src/pico-scheduler/scheduler.c:188-193 | A node is on a list exactly if it is not its own successor |
| Memory.SpellsBorn | src/pico-scheduler/scheduler.c:1028-1034 | Initialising the nodes of a new task, even at the address of a dead one that owns nothing, disturbs no list |
| IntrusiveLists.InsertBefore | src/toolkit-support/include/pico/toolkit/linked-list.h:75-83 | On linked nodes: the ring with the node inserted at that place, forwards and backwards; with the head it appends |
| IntrusiveLists.InsertAgain | src/toolkit-support/include/pico/toolkit/linked-list.h:75-83 | Inserting a node that is linked already always breaks the list: afterwards no ring contains all its nodes, in whatever order |
| IntrusiveLists.Link | src/toolkit-support/include/pico/toolkit/linked-list.h:75-83 | The four assignments on nodes do to their pointers exactly what `Rings.Insert` says |
| IntrusiveLists.Cut | src/toolkit-support/include/pico/toolkit/linked-list.h:85-92 | ... and those of a removal what `Rings.Unlink` says |
| IntrusiveLists.Remove | src/toolkit-support/include/pico/toolkit/linked-list.h:85-92 | The ring without the node, which becomes a ring of its own |
| IntrusiveLists.Push | src/toolkit-support/include/pico/toolkit/linked-list.h:122-130 | The node becomes the first one |
| IntrusiveLists.Pop | src/toolkit-support/include/pico/toolkit/linked-list.h:132-143 | Takes the first node, or nothing from an empty list |
| IntrusiveLists.IsEmpty | src/toolkit-support/include/pico/toolkit/linked-list.h:58-63 | True exactly for a list without nodes |
| IntrusiveLists.InsertOrdered | src/pico-cmsis-rtos2/cmsis-rtos2-message-queue.c:169-175 | The walk to the first greater key and the insertion before it put the node into the place that keeps the order stable |
| ListPlaces.QueuePlace | src/pico-scheduler/scheduler.c:265-285 | The walk over linked nodes and the insertion point of the task queues agree |
| ListPlaces.TimerPlace | src/pico-scheduler/scheduler.c:365-372 | ... of the timer list |
| ListPlaces.MessagePlace | src/pico-cmsis-rtos2/cmsis-rtos2-message-queue.c:169-175 | ... and of the messages |
| MessageQueue.Accounting | src/pico-cmsis-rtos2/cmsis-rtos2-message-queue.c:159-232 | Over every interleaving: free blocks = tokens + takers before their pop + freers before their token; queued messages = data tokens + getters before their pop + putters before their token; every block is in exactly one place; the branches for a missing block, a missing message and a full semaphore are never taken |
| MessageRequests.CallsAreAnswered | src/pico-cmsis-rtos2/cmsis-rtos2-message-queue.c:144-243 | Over every interleaving, with the requests of all threads as a history: a put that is done has sent exactly the message and priority it was called with, once; a get returns exactly what it has received, once; a call that gives up has sent and received nothing; an allocation hands out one block, and a free gives back the block it was asked to |
| MessageRequests.QueueIsFair | src/pico-cmsis-rtos2/cmsis-rtos2-message-queue.c:169-220 | ... and in that history, of what has been sent and not yet been received, every get receives what was sent first among those of the highest requested priority; what waits in the queue is exactly what has been sent and not been received |
| MessageQueue.StablePriorityQueue | src/pico-cmsis-rtos2/cmsis-rtos2-message-queue.c:169-220 | Of the messages on the list, over every interleaving: a getter takes the one inserted first among those of the highest priority, copies out what its putter wrote, and every message is queued or delivered exactly once; that these are the messages the callers asked to send is `MessageRequests.QueueIsFair` |
| MessageQueue.StepKeeps | src/pico-cmsis-rtos2/cmsis-rtos2-pool.c:134-195 | Every atomic step of put, get, allocate and free keeps the accounting |
| MessageQueue.RoomLeft | src/pico-cmsis-rtos2/cmsis-rtos2-semaphore.c:155-164 | A release between its test and its increment always has room, although the two are separate steps |
| QueueReset.ResetDiscards | src/pico-cmsis-rtos2/cmsis-rtos2-message-queue.c:304-325 | Undisturbed, a reset discards exactly as many messages as there were data tokens, the first ones first, and gives every block and token back to the pool |
| QueueReset.ResetEmpties | src/pico-cmsis-rtos2/cmsis-rtos2-message-queue.c:291-329 | After any run, in a queue nobody is using, a reset leaves no message |
| MemoryPool.Pool.constructor | src/pico-cmsis-rtos2/cmsis-rtos2-pool.c:37-115 | All blocks are chained, once each, the last one first |
| MemoryPool.Pool.Pop | src/pico-cmsis-rtos2/cmsis-rtos2-pool.c:147-156 | The head of the chain is handed out and the rest stays chained |
| MemoryPool.Pool.Push | src/pico-cmsis-rtos2/cmsis-rtos2-pool.c:180-190 | The block becomes the head of the chain, and no other block is written |
| EventFlags.NoLostWakeup | src/pico-cmsis-rtos2/cmsis-rtos2-eventflags.c:114-213 | Over every interleaving in which no deferred wake is refused: whoever is blocked waits for flags that are not set, unless a setter is before its wake or the wake is posted |
| EventFlags.StepKeeps | src/pico-cmsis-rtos2/cmsis-rtos2-eventflags.c:176-213 | Every step keeps that |
| EventFlags.RefusedWakeIsLost | src/pico-scheduler/scheduler.c:1394-1412 | The exact condition for losing a wakeup, in the state before the post: every slot of the core holds another wake, no other wake is on its way, and somebody sleeps whose flags are set |
| EventFlags.SleepsOn | src/pico-cmsis-rtos2/cmsis-rtos2-eventflags.c:114-174 | The price: that thread stays asleep on every run until somebody sets new flags or it gives up |
| EventFlags.LosesWakeup | src/pico-cmsis-rtos2/cmsis-rtos2-eventflags.c:114-213 | A run from every idle start that loses the wakeup |
| EventRequests.WaitAnswers | src/pico-cmsis-rtos2/cmsis-rtos2-eventflags.c:158-213 | On every run, refused wakes included, with the requests as a history and bit by bit: a wait takes flags only after it has seen all of those it asked for, or one of them, then clears exactly those unless it keeps them, and returns the flags as they were; a zero timeout never sleeps and fails at once; a wait blocks exactly if the flags are still those it has seen, and they did not satisfy it |
| EventRequests.SleeperAnswers | src/pico-cmsis-rtos2/cmsis-rtos2-eventflags.c:207-211 | A sleeper that gives up returns a timeout error and takes no flag |
| EventRequests.UndisturbedTake | src/pico-cmsis-rtos2/cmsis-rtos2-eventflags.c:176-190 | The value that a wait returns contains the flags it waited for, on every run on which nobody clears or takes them between its look and its take |
| EventRequests.TakenTwice | src/pico-cmsis-rtos2/cmsis-rtos2-eventflags.c:176-190 | The run, from every idle start with a flag set, on which two threads both return from waiting for it and the value of the second one does not contain it |
| Condition.WakesExactly | src/pico-threads/threads.c:160-172 | The wake of a signal readies the first sleeper and nobody else, and one whenever anybody sleeps; that of a broadcast readies everybody |
| Condition.DeadlinesExactly | src/pico-threads/threads.c:146-158 | The timed wait (and the timed lock, lines 276-294) reaches the kernel if and only if its deadline is this very tick, and then with a timeout of 0; a deadline that lies ahead is taken for one that has been missed |
| Condition.BroadcastReachesAll | src/pico-threads/threads.c:113-172 | Once the wake of a broadcast is done nobody who sampled the sequence before it is blocked, or will block unless 2^32 signals overtake him |
| Condition.SleepsExactly | src/pico-threads/threads.c:121-132 | A waiter sleeps if and only if the signals since its sample are a multiple of 2^32 |
| Condition.OvertakenSleeps | src/pico-threads/threads.c:113-172 | From every idle start, for every n: a run of n broadcasts between a thread's sample and its call, which the thread sleeps through if and only if n is a multiple of 2^32 |
| DeferredWake.WakesAreConserved | src/pico-scheduler/scheduler.c:904-911 | However handlers interrupt the walk: occupied slots = given - taken modulo 2^32 at every test, an early exit leaves every slot empty, and every accepted wake was performed, is in hand or sits in a slot |
| DeferredWake.RefusedExactly | src/pico-scheduler/scheduler.c:1394-1412 | A handler is refused if and only if every slot holds another wake; a repeated one is already waiting |
| Slots.PostAsks | src/pico-scheduler/scheduler.c:1386-1413 | A wake that is posted is found by the next switch, with its futex and its wake-all flag, exactly if it is not refused; what was asked for before still is |
| RtosTimers.ActiveTimers.Start | src/pico-cmsis-rtos2/cmsis-rtos2-timer.c:190-225 | A timer that is not running is linked by its target; 0 and forever are refused and change nothing |
| RtosTimers.ActiveTimers.Stop | src/pico-cmsis-rtos2/cmsis-rtos2-timer.c:227-251 | Exactly the timer is unlinked, and a stopped one is an error |
| RtosTimers.ActiveTimers.TickHook | src/pico-cmsis-rtos2/cmsis-rtos2-timer.c:45-80 | For every room of the dispatch queue: each due timer is posted once and re-armed if it is periodic, the others are untouched, and afterwards none is due, unless the queue was found full: then the refused timer is still linked and due at once. Only a timer whose next target wraps is posted again and again, and while there is one the hook goes on until the queue is full |
| ListRace.Alone | src/toolkit-support/include/pico/toolkit/linked-list.h:85-92 | The four assignments of one removal, one after the other, are the removal of `Rings` |
| ListRace.RemovalsCommuteExactly | src/pico-cmsis-rtos2/cmsis-rtos2-timer.c:45-80 | Two cores that remove two nodes at the same time, as the tick hook, which takes no lock, and a stop on another core do: whatever the interleaving of their assignments the list ends up as it should, if and only if the nodes are not neighbours |
| ListRace.WalkIsLost | src/pico-cmsis-rtos2/cmsis-rtos2-timer.c:227-251 | Popping the first timer while the second one is stopped can leave a list whose walk never comes back to the head |
| RtosTimers.RearmedIsLater | src/pico-cmsis-rtos2/cmsis-rtos2-timer.c:63-74 | A re-armed timer is later than now if and only if the tick count does not wrap before it |
| TicketLock.MutualExclusion | src/toolkit-support/include/pico/toolkit/spinlock.h:25-74 | With up to 65536 threads, over every run and wrap: one thread inside at most, served in ticket order, and next - owner counts the line |
| TicketLock.ExcludesExactly | src/toolkit-support/include/pico/toolkit/spinlock.h:25-74 | The lock excludes on all runs if and only if no more than 65536 threads use it |
| TicketLock.TooMany | src/toolkit-support/include/pico/toolkit/spinlock.h:43-52 | The run with one thread more: two are inside |
| TicketLock.TryLockOnlyWhenFree | src/toolkit-support/include/pico/toolkit/spinlock.h:43-52 | A thread that is not in line finds the word free exactly if nobody is in line, and its compare-and-swap succeeds only then |
| TicketLock.TicketsDistinct | src/toolkit-support/include/pico/toolkit/spinlock.h:25-32 | The tickets of a line are distinct if and only if it has no more than 65536 members |
| TicketLock.LooksFree | src/toolkit-support/include/pico/toolkit/spinlock.h:45-47 | The word looks free exactly when the line length is a multiple of 65536 |
| TicketLock.Halves | src/toolkit-support/include/pico/toolkit/spinlock.h:69-74 | The two increments: each half wraps without touching the other |
| PackedLock.MutualExclusion | src/pico-atomic/pico-atomic.c:48-88 | For each of the sixteen locks at most one core is inside, over every interleaving |
| PackedLock.Linearizable | src/pico-atomic/pico-atomic.c:90-365 | The objects always contain what the finished operations leave when done one after the other, each finds in that order what it has found, and its place in it lies between its start and its return; what the operations are is `AtomicOps.OperationIsAtomic` |
| AtomicOps.OperationIsAtomic | src/pico-atomic/pico-atomic.c:90-365 | Every operation in every run, in integers and for every width: between its start and its return there is exactly one moment at which its object goes up or down by the operand modulo the width, takes the operand, or takes the bits of both or of either, or, for a compare-exchange, takes the new value and succeeds if and only if it contained the expected one and otherwise stays as it was and is told; no other object changes; and the operation returns what was found, of which a 64-bit load returns the low 32 bits only |
| AtomicOps.CountsUp | src/pico-atomic/pico-atomic.c:90-348 | However n additions of one by both cores interleave with each other and with operations elsewhere, they leave the initial value plus n, modulo the width |
| AtomicOps.SameLockExactly | src/pico-atomic/pico-atomic.c:44-50 | Two objects share a lock if and only if their four-byte stripes are a multiple of sixteen apart |
| PackedLock.LocksAreApart | src/pico-atomic/pico-atomic.c:52-87 | Setting or clearing one bit disturbs no other lock |
| PackedLock.OnlyMineExactly | src/pico-atomic/pico-atomic.c:60-70 | The test of the register holds exactly if one's own bit is set and the other core's is not |
| RttRing.UpBuffer.AvailWriteSpace | src/pico-rtt/SEGGER_RTT.c:521-537 | Capacity is one less than the size |
| RttRing.UpBuffer.WriteNoCheck | src/pico-rtt/SEGGER_RTT.c:431-484 | Appends everything |
| RttRing.UpBuffer.Write | src/pico-rtt/SEGGER_RTT.c:1095-1144 | Skip mode appends all or nothing, trim mode as much as fits, blocking mode as the blocking writer, other modes nothing; what was taken and what is left is what was there and what was accepted |
| RttRing.UpBuffer.WriteSkip | src/pico-rtt/SEGGER_RTT.c:929-989 | Appends all or nothing |
| RttRing.UpBuffer.Read | src/pico-rtt/SEGGER_RTT.c:568-641 | Takes the oldest bytes, in spite of the unsigned underflow after a partial read |
| RttRing.UpBuffer.WriteBlocking | src/pico-rtt/SEGGER_RTT.c:369-411 | Whatever the host takes between two rounds: the bytes taken and the bytes left are the old content and the bytes written, in order; it stops early only in front of a full buffer that the host leaves alone, and without a host it writes what fits |
| RttRing.UpBuffer.WriteWithOverwrite | src/pico-rtt/SEGGER_RTT.c:828-899 | Keeps the last size - 1 bytes of old and new, for every write that needs one wrap at most |
| RttRing.UpBuffer.TerminalOut | src/pico-rtt/SEGGER_RTT.c:1965-2038 | In skip and trim mode it never waits and appends exactly switch, (prefix of) string and switch back, or nothing, with that return value |
| RttRing.UpBuffer.BytesInBuffer | src/pico-rtt/SEGGER_RTT.c:2074-2092 | Right if and only if the content does not wrap |
| RttRing.SkipWritersAgree | src/pico-rtt/SEGGER_RTT.c:929-1144 | The two differently coded skip writers reach the same bytes and offsets |
| RttRing.ReadParts | src/pico-rtt/SEGGER_RTT.c:585-640 | The two parts of a read are the oldest bytes of the queue, and the new offset drops exactly them |
| RttRing.NoCheckAppends | src/pico-rtt/SEGGER_RTT.c:431-484 | Both cases of the copy refine appending |
| RttRing.OverwriteKeepsLast | src/pico-rtt/SEGGER_RTT.c:828-899 | The last size - 1 bytes of everything, as long as one wrap is enough, in particular for up to size - 1 bytes |
| RttRing.OverwriteExactly | src/pico-rtt/SEGGER_RTT.c:866-898 | Only then: a longer write goes wrong for some bytes, since every further round forgets the last byte of the buffer |
| RttTerminals.TerminalShows | src/pico-rtt/SEGGER_RTT.c:1965-2038 | Round trip: a host that follows the terminal switches shows as many bytes of the string as the call says, on that terminal and nowhere else, none if it reports an error, and goes back to the active terminal |
| RttHost.HostSeesAPrefix | src/pico-rtt/SEGGER_RTT.c:369-411 | Against a host that reads at the same time, over every interleaving: host bytes, then buffer, then what is still to write is exactly what was accepted; the writer never changes an unread byte |

## Left out

- Futexes are neither created nor deleted on a run, and only the three flag combinations that the repository creates exist.
- `osMutexNew`, `osMutexDelete`, `osMutexRobustRelease`, names, attributes, allocation and markers of all objects; checks for interrupt context.
- `mtx_lock` and `mtx_unlock` (src/pico-threads/threads.c:229-325) run the same algorithm as the RTOS mutex and are covered by the same protocol; `mtx_trylock`, which tests recursion without masking the contention flag, is not part of this model. Of the C11 timed variants only the test for a missed deadline is (`Condition.DeadlinesExactly`).
- MutexRuns.SafeOnEveryRun: threads release only mutexes they hold; who terminates or is evicted holds none and has not just been handed one; no task is created at the address of a dead one that a mutex is still linked to; suspend and terminate of another task happen on a single core only. Only the caller is ever suspended with a timeout, as the public calls (src/pico-scheduler/scheduler.c:1284-1323) have it.
- MutexRuns.FailsExactly: a dead owner counts as a failed assertion. The code looks for a marker in the memory of the dead thread; while that memory has not been given a new use the marker may still be there, and the mutex is then linked to a thread that is no more.
- DeadOwners.FailsForDead: the waiter gives up because it is resumed; a timeout takes the same branches.
- A new owner may run below its base priority, and inheritance is not transitive: the code does not promise either, and nothing here claims it.
- Inheritance.MostUrgentInherits: the attained minimum is stated for base priorities up to 64, of which the repository uses 0 to 63.
- That nobody sleeps while a semaphore has tokens: a release wakes on the step from 0 to 1 only, so this is not promised. In the message queue an acquire may retry or give up at any time, which covers every wake-up order.
- EventFlags.NoLostWakeup: flags are modelled as the set of their bits; the forced exit of waiters on deletion is not modelled.
- Condition.BroadcastReachesAll: the mutex that a waiter gives up and takes again is not part of this step system; it is the mutex of the protocol above.
- RtosTimers.ActiveTimers.TickHook: how many timers the dispatch queue takes before it is full is a parameter; the dispatch thread that calls back is not modelled. The hook takes no lock, so its class methods assume that no start or stop runs on another core meanwhile; what two removals do to each other otherwise is in ListRace, for memory in which assignments take effect in program order.
- RtosTimers.ActiveTimers.Stop: the test whether the timer is linked is made before the lock is taken (src/pico-cmsis-rtos2/cmsis-rtos2-timer.c:241-246); the method makes both at once.
- RtosTimers.ActiveTimers.Start: for a timer that is not running, which the repository leaves to its callers; IntrusiveLists.InsertAgain shows that every other start breaks the list.
- RttRing.UpBuffer.WriteBlocking: what the host takes is a finite sequence of numbers, one for each round, and when it is used up the writer gives up instead of waiting for ever; a host that moves in the middle of a round is RttHost.HostSeesAPrefix. Buffer sizes are up to 2^31, and the down buffers, which mirror the up buffers, are not repeated.
- RttRing.UpBuffer.TerminalOut: the terminal numbers are 0 to 15; in blocking mode it is a sequence of the blocking writes above.
- `SEGGER_RTT_GetBytesInBuffer` is wrong for wrapped content; RttRing.UpBuffer.BytesInBuffer states exactly when it is right.
- PackedLock.Linearizable: the lock-free clear of a flag (`__atomic_clear_m0`) bypasses the lock and is not part of this model; a test-and-set is an exchange by one; an object is always accessed at one address; memory is sequentially consistent.
- SwitchRuns.CallsPreempt: about the core of the caller, whose switch the calls request; a task that is created or woken for another core only is noticed at the next switch of any core (`Dispatching.SwitchPicks`) or tick.
- SwitchRuns.PromptOnOneCore: on one core, since the calls request no switch of other cores. Unlocking the scheduler does not request one either, so a request that a switch has taken away meanwhile is lost until the next tick that has one.
- AcquireRuns.AcquireAnswers: the forced exit and the error returns for objects that are deleted meanwhile are not part of this model.
- Scheduler.SchedulerState.SwitchSvc: one pass of the loop up to the unlock of the idle hook; the next pass is another call with no current task. The stack test is a parameter, and the time slice only appears as a flag of the tick. Interrupt handlers that refill slots during the pass are in DeferredWake.
- Scheduler.SchedulerState.CreateSvc: for an address at which no live task is and to which no owned futex is linked; the nodes of a dead task are left alone until then.
- Scheduler.SchedulerState.InitFutex: for a futex that has not been initialised before.
- The scheduler class keeps the pointers of the nodes as maps, one for each kind of node, and the other fields of tasks and futexes as maps from addresses; that the list operations on node objects do to such maps what `Rings` says is IntrusiveLists.Link and IntrusiveLists.Cut.
- The mutex, semaphore, event flag, condition and lock functions are modelled as atomic steps rather than methods, since what matters about them is how their steps interleave.
- Double-ended queues, thread creation and joining, `call_once`, backtraces, fault handlers, standard library hooks, startup code and everything that talks to hardware registers.
