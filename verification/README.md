# Verified model of the JGL-Scheduler

JGL-Scheduler runs tasks on fibers over a pool of workers. It is put together from small lock-free protocols:
a work-stealing deque and an inbox per worker, wait groups on which fibers park, epochs for reclamation, an
ordered list with marked links, a slab allocator, a task graph with AND and OR gates, and the parts of a
concurrent queue and a semaphore that it brings along. This project models each of them in Dafny and proves what
it is there to guarantee.

`dafny verify dfyconfig.toml` checks the whole project.

## How the protocols are modelled

Code whose difficulty is concurrency is a step machine: a `State`, an `Action` per atomic access or locked
section, `Enabled` and `Apply`, any number of threads, indices unbounded. Theorems speak of every state some run
leads to (`Runs.Reachable`) or of every step from such a state (`Inv` or `Shaped` holds in all of them).

| file | what it models |
|---|---|
| `DequeProtocol.dfy`, `TaskDeque.dfy` | the work-stealing deque, as a machine and as the class with its fields and ring |
| `InboxProtocol.dfy`, `InboxLimits.dfy`, `TaskInbox.dfy` | the intrusive inbox, as a machine and as the class with its links; a run that shows its limit |
| `WorkerDrain.dfy` | a worker's way from its deques through stealing to its inboxes |
| `WaitProtocol.dfy`, `WaitProgress.dfy`, `WaitTiming.dfy`, `WaitRenewal.dfy`, `WaitLifetime.dfy` | wait groups, events, suspend, resume and park; that waits end, and not too soon; when a group may be used again, and when destroyed |
| `WorkerSleep.dfy`, `WorkerHands.dfy`, `WorkerSleepLimit.dfy` | pushers, the two inboxes, the flag, the mutex and the sleeping worker |
| `EpochProtocol.dfy`, `EpochProgress.dfy`, `EpochManager.dfy` | guards, retiring and reclaiming; what a reclamation gets done; the manager's own loops |
| `ListProtocol.dfy`, `ListProgress.dfy`, `ListLimits.dfy` | the ordered list; that its operations end; two runs that show its limits |
| `FreeListProtocol.dfy`, `FreeListAnswers.dfy`, `TicketProtocol.dfy` | the reference-counted free list and the dequeue tickets of the concurrent queue |
| `BlockRing.dfy`, `BlockIndex.dfy` | the block index of a producer |
| `SemaphoreProtocol.dfy` | the lightweight semaphore |
| `SlabLayout.dfy`, `TaskAllocator.dfy`, `SlabLimit.dfy` | the slab allocator; how little of it can be in use when it runs dry |
| `DependencyGraph.dfy`, `TaskDag.dfy`, `DagFiring.dfy` | building, checking and running a task graph |
| `ForkJoin.dfy`, `ParallelLoops.dfy` | the parallel loops, as a machine and as one thread's code |
| `Runs.dfy`, `Sums.dfy`, `Sequences.dfy`, `Congruence.dfy`, `Options.dfy` | runs, sums over threads, positions on a ring |

Code that is a loop over mutable state is a class or a method with that loop. `TaskDeque` and `TaskInbox` are both:
their methods are the source's code line by line; between two accesses to shared memory they call an Interfere
method whose contract allows any number of steps of the other threads, and a ghost field follows them through the
machine, so that what is proved of the machine holds of the code. Other threads also act within
the calls of the slab allocator and within a lookup in the block index, by Interfere methods that promise what the
others' sections keep.

## Where the code does less than one might think

Each of these is shown by a run, and stands beside the lemma that says when the code does what it should.

- A worker can fall asleep on a non-empty inbox, of either priority: a drain cut short at 64 tasks whose batch is all
  stolen leaves the rest unseen, with no notify to come (`SleepsOnWorkAfterFullBatch`). An inbox whose drain ended on a
  failed pop is never slept on, whatever became of the other one (`NoSleepOnVisibleWork`).
- A group that is incremented from zero while a completer has yet to clear the waiters lets that completer wake fibers
  that wait for the new count. Such an increment is safe if and only if no wake is owed (`IncrementIsSafeIffNoWakeOwed`);
  no increment from any other word than the bare waiter bit meets an owed wake (`WakeOwedShowsInWord`), and of all rules
  that go by the word alone exactly those that leave the bare bit alone are safe (`NoEarlyWakeIffNeverFromBareBit`, the
  run being `EarlyWakeFromBareBit`). A fiber that signals itself leaves the bit set; incrementing then is safe by
  itself, but the caller cannot tell it from the word. However a group is used, no wakeup is lost, no task is
  requeued twice and no event is released early (`NoLostWakeup`, `RequeuedOnceAfterSave`, `ParkAndReleaseAreSafe`).
- A group on the waiter's stack outlives every access to it if and only if it starts without a leftover waiter bit, or
  on a count of zero that its owner does not raise before the wait (`LifetimeIffNoStaleBit`).
- `HasCycle` answers true exactly for graphs with a cycle or with a pair added twice: the second `AddDependency` of a
  pair bumps the counter without adding an edge (`HasCycle`, `RepeatIsRejected`).
- Two removers of one key can both answer true (`TwoRemoversBothSucceed`): a remover takes the key out if and only if
  the node it marks is not marked yet (`TrueMarkRemovesIffUnmarked`). And since `remove` ignores its own unlinking,
  a node can be retired while still on the list (`RetiredWhileLinked`), exactly when `RetiredOffListIff` says.
- The inbox's `pop` may come back empty although tasks are waiting and no producer is between its exchange and its
  link (`PopMissesLinkedTasks`). It does so exactly if it comes back from the check of the head and every link is by
  then in place (`FailedPopExplainedIff`); at some moment of the call one was not (`PopFailsOnlyOnEmptyOrGap`).
- With frees of other threads half done, the slab allocator can run dry with one slot more per other thread unused
  than 2 * BATCH, and with not one slot in use (`RunsDryWithNothingLive`, for any number of threads from two on). It is
  refused below the bound for threads at rest exactly if more of them stand between their put and their splice than
  the other caches have room for slots (`BelowBoundIff`), and at either bound exactly if each of them holds all it can
  (`BoundsAttainedIff`); lower than that it never gets (`ExhaustionBound`).

## Model

| member | source | states |
|---|---|---|
| DequeProtocol.StepRefinesDeque | include/TaskDeque.h:45-140 | every access of owner and thieves is a whole push at the end, a pop from the end, a take from the front, or no change of the plain deque |
| DequeProtocol.ExactlyOnce | include/TaskDeque.h:45-140 | with one owner and any number of thieves, pushed tasks are those returned, still in [top, bottom) or in flight, each once |
| DequeProtocol.StepCarriesInFlight | include/TaskDeque.h:90-113 | a task the owner has secured is the one it returns, whatever the thieves do |
| DequeProtocol.ReachableHoldsInv | include/TaskDeque.h:45-140 | the invariant of in-flight thieves and half-done pops, top = bottom + 1 included, holds over every run |
| DequeProtocol.ClaimTakesFirst | include/TaskDeque.h:129-137 | a successful claim takes the task pushed at that absolute index, although slots are reused; a failed one changes nothing |
| DequeProtocol.SlotsDiffer | include/TaskDeque.h:55 | indices less than a lap apart never share a slot |
| DequeProtocol.PublishAppends | include/TaskDeque.h:71-77 | one store makes a whole batch visible behind what was there |
| DequeProtocol.ReloadTopTakesLast | include/TaskDeque.h:90-98 | reloading top takes the last task off, unless it may be contested |
| DequeProtocol.RaceForLastTakesLast | include/TaskDeque.h:99-112 | the race for the last task has one winner |
| DequeProtocol.EmptyPopMeansEmpty | include/TaskDeque.h:86-119 | a pop without a result found the deque empty and puts bottom back where it was |
| DequeProtocol.PushRefusedIffFull | include/TaskDeque.h:50-54 | a push is refused exactly when there is no room at the moment top is loaded |
| DequeProtocol.ThievesOnlyTake | include/TaskDeque.h:124-140 | runs of the thieves only shorten the deque from the front |
| DequeProtocol.BatchFitsAfterEmptyPop | src/Thread.cpp:353-490 | after an empty pop a batch within the capacity is accepted, whatever the thieves do |
| DequeProtocol.StealFailsOnlyIf | include/TaskDeque.h:124-140 | a thief that gets nothing saw the deque empty or the owner at its last task, or lost the exchange to somebody who moved top |
| DequeProtocol.OthersNeverRewind | include/TaskDeque.h:124-140 | runs of the owner and the other thieves never move top back, nor a thief, nor add to or take from what that thief has taken |
| DequeProtocol.TopMovesIff | include/TaskDeque.h:99-137 | top moves by one with each theft, which is put down to its thief, and each last task won by the owner, and only then |
| WorkerDrain.DrainNeverDrops | src/Thread.cpp:353-490 | whenever a worker has drained an inbox, its deque of that priority is empty, so the push it does not check never fails |
| WorkerDrain.DrainedTasksGoIn | src/Thread.cpp:460-490 | in every run each deque was given, as often, the tasks drained from its inbox and those its worker's tasks pushed, but for the batch on its way in; nothing is lost between inbox and deque |
| WorkerDrain.DrainIsLogged | src/Thread.cpp:460-490 | what a drain hands over, and only that, counts as drained |
| WorkerDrain.AsleepMeansEmpty | src/Thread.cpp:353-513 | a worker falls asleep only with both of its deques empty and both inboxes drained since it turned to them |
| WorkerDrain.ReachableHoldsInv | src/Thread.cpp:353-490 | the drain is reached only by a pop that ended empty on each own deque, over every run with thieves at work |
| TaskDeques.TaskDeque.constructor | include/TaskDeque.h:26-38 | an empty deque over a ring of a power of two |
| TaskDeques.TaskDeque.PushBottom | include/TaskDeque.h:45-59 | pushes the task, or refuses null, or refuses because there was no room; thieves interfering throughout |
| TaskDeques.TaskDeque.PushBottomBatch | include/TaskDeque.h:63-78 | pushes all items in order or none; none only without room |
| TaskDeques.TaskDeque.PopBottom | include/TaskDeque.h:82-120 | returns the task it took, or nothing, and then the deque was empty |
| TaskDeques.TaskDeque.Steal | include/TaskDeque.h:124-140 | what thief i has taken grows by exactly the task returned, the one its claim took from the front; it returns nothing only if the deque was seen empty, the owner was at its last task, or the owner or another thief moved top during the call |
| InboxProtocol.FirstInFirstOut | include/TaskMPSCQueue.h:16-77 | what was sent, in the order of the exchanges, is what was taken and then what waits; nothing lost, nothing twice |
| InboxProtocol.ReachableHoldsInv | include/TaskMPSCQueue.h:16-77 | shape of the broken chain, the stub and the order hold over every run |
| InboxProtocol.PoppedTaskIsOutside | include/TaskMPSCQueue.h:58-75 | a popped task is no longer in the queue, held by nobody, and not the head |
| InboxProtocol.PoppedTaskIsLeftAlone | include/TaskMPSCQueue.h:16-77 | until it is pushed again no producer and no stub writes a popped task |
| InboxProtocol.PopFailsOnlyOnEmptyOrGap | include/TaskMPSCQueue.h:51-76 | pop fails only on an empty queue or if a producer stood between exchange and link during the call |
| InboxProtocol.FailedPopExplainedIff | include/TaskMPSCQueue.h:51-76 | a pop that fails on the check of the head leaves tasks waiting, any other failed pop an empty queue or a missing link |
| InboxLimits.PopMissesLinkedTasks | include/TaskMPSCQueue.h:62-70 | a run in which pop fails with two tasks waiting and every link in place |
| InboxProtocol.ProducersOnlySend | include/TaskMPSCQueue.h:16-45 | runs of the producers leave all of the consumer's alone and only add to what was sent |
| InboxProtocol.OthersLeaveProducer | include/TaskMPSCQueue.h:16-77 | runs of the consumer and the other producers do not move a producer on, nor take back what was sent or taken |
| InboxProtocol.SwapKeepsShape | include/TaskMPSCQueue.h:41-45 | the exchange puts a finished chain behind the head in one stroke |
| TaskInboxes.TaskInbox.constructor | include/TaskMPSCQueue.h:32-38 | head and tail are the stub |
| TaskInboxes.TaskInbox.Pop | include/TaskMPSCQueue.h:47-77 | returns the oldest task not yet taken, or nothing under the condition above, producers interfering throughout |
| TaskInboxes.TaskInbox.PushBatch | include/TaskMPSCQueue.h:41-45 | the batch is sent as a whole and in order, everyone else interfering |
| TaskInboxes.TaskInbox.Push | include/TaskMPSCQueue.h:16-20 | the task is sent |
| WaitTiming.NoEarlyWake | src/TaskScheduler.cpp:440-455 | a fiber leaves WaitFor, or is signalled or requeued at all, only if at some moment of its wait every task counted in so far had completed, in every run that makes no increment from zero while a wake is owed |
| WaitTiming.RecordsAreTrue | src/TaskScheduler.cpp:434-438 | the count is the number of tasks counted in less those completed, in every run; a wait's record is set only at a moment at which the two are equal |
| WaitTiming.WakeOwedShowsInWord | src/TaskScheduler.cpp:671-675 | a wake is owed only while the word is the bare waiter bit, which a caller can see |
| WaitTiming.WakeAllRenews | src/Task.cpp:8-19 | in a timely run WakeAll leaves the word at plain zero with nothing owed, so the group may be used again at once |
| WaitTiming.StepKeepsTimed | src/Task.cpp:8-19 | at most one wake is owed, and whoever is on its list or resumed has seen all tasks completed; every timely step keeps this |
| WaitProtocol.NoLostWakeup | src/TaskScheduler.cpp:563-589 | with the count at zero and no completer at work nobody is parked, nor will be; in every run, however the group is reused |
| WaitProgress.RunsEnd | src/TaskScheduler.cpp:563-589 | without new waits and new tasks no run, Resume's retries and all, takes more steps than there is work left |
| WaitProgress.StuckIsDone | src/TaskScheduler.cpp:445-454 | a run that cannot go on has completed every task, and every fiber has returned from its wait |
| WaitProgress.StepTakesOff | src/Fiber.cpp:66-94 | every access of a waiter, a completer or Resume takes some of the work off |
| WaitProtocol.RequeuedOnceAfterSave | src/Fiber.cpp:66-94 | in every run a task is requeued only after its context is saved, and nobody is then left who could requeue it again |
| WaitProtocol.ParkAndReleaseAreSafe | src/Thread.cpp:283-298 | in every run the park step meets only the statuses it handles, and an event is released when no signaler can reach it |
| WaitProtocol.PrivateIsSettled | include/DirectEvent.h:18-21 | the one-shot exchange leaves no signaler behind for a fiber that runs |
| WaitProtocol.ClearWaitersKeepsInv | src/Task.cpp:8-19 | moving the waiters to one completer's list loses no wakeup owed, although another completer may owe one too |
| WaitProtocol.ReachableHoldsInv | src/TaskScheduler.cpp:563-589 | the invariant over waiters, completers, events, the pool and statuses holds over every run, from any count and bit |
| WaitRenewal.EarlyWakeFromBareBit | src/TaskScheduler.cpp:448-451 | from every start, a run with an early wake, under any rule on the word that allows the bare bit to be incremented |
| WaitRenewal.NoEarlyWakeIffNeverFromBareBit | src/TaskScheduler.cpp:440-455 | from every start, for every rule on the word: no run that increments by it wakes a fiber early if and only if it does not allow the bare bit |
| WaitRenewal.IncrementIsSafeIffNoWakeOwed | src/TaskScheduler.cpp:434-438 | at any moment of a timely run with a fiber still to wait: after an increment no timely run wakes a fiber early if and only if no wake is owed at that moment |
| WaitLifetime.LifetimeIffNoStaleBit | src/Thread.cpp:179-183 | no completer touches the group after its owner may resume, if and only if there is no stale bit at the start, or a count of zero that the owner does not raise |
| WaitLifetime.SafeWithoutStaleBit | src/TaskScheduler.cpp:445-454 | the safe half, on the self-signal path and the WakeAll path |
| WaitLifetime.StaleBitIsUnsafe | src/TaskScheduler.cpp:671-675 | the unsafe half, by a run |
| WorkerSleep.NoSleepOnVisibleWork | src/Thread.cpp:460-513 | a worker blocked with a task waiting in an inbox whose own drain ended on a failed pop has a notify to come, for each inbox by itself |
| WorkerSleep.FalsePredicateLeavesAMark | src/Thread.cpp:99-109 | between a false predicate and blocking no pusher passes the mutex; with a task waiting in a drained inbox one has yet to mark the flag |
| WorkerHands.PoppedIsHandedOver | src/Thread.cpp:460-490 | in every run all a worker has popped from its inboxes has been handed over, but for the drain in progress |
| WorkerHands.SleepsOnlyAfterBothDrains | src/Thread.cpp:460-513 | a worker goes to sleep only after draining each inbox since it cleared its flag, until a pop failed or the batch was full |
| WorkerSleep.ReachableHoldsInv | src/TaskScheduler.cpp:727-733 | push, mark and notify in this order keep the invariant over every run |
| WorkerSleepLimit.SleepsOnWorkAfterFullBatch | src/Thread.cpp:460-475 | for either inbox, a run in which the worker sleeps on a task waiting there after a full batch, the other one drained |
| EpochProtocol.NothingFreedUnderGuard | include/Epochs.h:92-121 | nothing is freed while a session older than its unlink is open, and nothing twice |
| EpochProtocol.WatchersAreOpenSessions | include/Epochs.h:159-172 | what "watching" means: the sessions open at the unlink and not closed since |
| EpochProtocol.RetiredIsNeverLost | include/Epochs.h:145-149 | until it is freed a retired pointer is on exactly one list, once, with its epoch |
| EpochProtocol.SweepFreesUnwatched | include/Epochs.h:109-112 | what the sweep frees nobody watches, though entry is a load and a store and the slots are scanned one by one |
| EpochProgress.ReclaimFreesExactly | include/Epochs.h:92-121 | a reclamation undisturbed frees exactly what was retired before the present epoch and before every open guard, drained or pending, and keeps the rest |
| EpochProgress.TickFreesAll | include/Epochs.h:92-121 | with no guard open, advancing the epoch and reclaiming frees all that has been retired |
| EpochProgress.GuardHoldsUpOnlyLater | include/Epochs.h:159-172 | an open guard publishes the epoch it was entered in, and holds up only what was retired since |
| EpochProtocol.ReachableHoldsInv | include/Epochs.h:92-172 | the invariant of slots, watchers, lists and scan bound holds over every run |
| EpochManagers.EpochManager.MinActiveEpoch | include/Epochs.h:127-143 | the least of the global epoch and the published ones |
| EpochManagers.EpochManager.Sweep | include/Epochs.h:107-117 | frees the entries before the epoch and compacts the rest in place and in order |
| EpochManagers.EpochManager.TryReclaim | include/Epochs.h:92-121 | everything older than the global epoch and every published one is freed, everything else kept, none lost; a second reclaimer does nothing |
| EpochManagers.SidesAreRight | include/Epochs.h:110-114 | each entry ends up on the right side of the line |
| EpochManagers.KeptAndExpiredSplit | include/Epochs.h:109-117 | kept and freed entries together are what was pending |
| ListProtocol.StepRefinesSet | include/LockFreeList.h:195-238 | the set of keys changes only at a successful insert and at the first mark of a node, by that key |
| ListProtocol.FalseAnswersAreRight | include/LockFreeList.h:195-223 | an add that answers false does so when the key is present, a remove after a moment of its search without it |
| ListProtocol.OperationEndsRight | include/LockFreeList.h:195-238 | when an add is over its key is in the set, by its own exchange unless it was there; when a remove is over its search saw a moment without the key, or it has marked a node with it |
| ListProtocol.OperationStays | include/LockFreeList.h:195-238 | until then it stays the operation on that key that it was begun as |
| ListProtocol.RecordsAreTrue | include/LockFreeList.h:220-229 | a moment without the key is recorded only when there is one, and the last step of a remove is reached only by its own mark |
| ListProgress.OperationEndsAlone | include/LockFreeList.h:195-238 | at any moment of any run, an operation whose thread runs alone ends: operations cannot block each other; an add has then put its key in |
| ListProgress.StepGetsCloser | include/LockFreeList.h:120-144 | every access of its own brings it closer to its end, and no exchange fails twice for what the others did before |
| ListProtocol.SingleRemoverRemoves | include/LockFreeList.h:225-235 | a lone remover's mark takes its key out |
| ListProtocol.TrueMarkRemovesIffUnmarked | include/LockFreeList.h:66-80 | of any number of removers, one whose attemptMark answers true has taken its key out if and only if the node was unmarked |
| ListProtocol.LinksAreInOrder | include/LockFreeList.h:120-144 | on the list each node links to the next greater key on the list |
| ListProtocol.MarkedIsFrozen | include/LockFreeList.h:66-97 | a marked node's link and mark stay; only marked nodes leave the list |
| ListProtocol.ListReachesAll | include/LockFreeList.h:120-144 | the links from the head lead to every node on the list |
| ListProtocol.WalkVisitsAllPresent | include/LockFreeList.h:239-258 | for_each visits every element present throughout, in key order, each once, even through unlinked nodes |
| ListProtocol.WalkVisitsOnlyPresent | include/LockFreeList.h:246-255 | and only elements present when it looked |
| ListProtocol.RetiredOffListIff | include/LockFreeList.h:229-235 | links from the head still lead to a retired node if and only if no search had unlinked it and the node once in front of it is gone or marked or something has come between |
| ListProtocol.UnlinkWorksIffInFront | include/LockFreeList.h:229 | the exchange that unlinks works if and only if pred is still unmarked on the list, with no key between |
| ListProtocol.UnlinkKeepsNodes | include/LockFreeList.h:132-136 | snipping a marked node drops nothing else |
| ListProtocol.LinkKeepsNodes | include/LockFreeList.h:205-211 | an insert whose exchange succeeds keeps keys strictly increasing |
| ListProtocol.ReachableHoldsInv | include/LockFreeList.h:66-238 | the invariant of nodes, searches and walks holds over every run, any number of adders and removers |
| ListLimits.TwoRemoversBothSucceed | include/LockFreeList.h:66-80 | a run in which two removes of one key both answer true |
| ListLimits.RetiredWhileLinked | include/LockFreeList.h:229-235 | a run in which a node is retired and still reachable from the head |
| FreeListProtocol.NeverHandedOutTwice | include/concurrentqueue.h:1300-1379 | a node is handed out as often as it was given back or once less, and is on the list at most once |
| FreeListProtocol.NothingLostAtRest | include/concurrentqueue.h:1300-1379 | at rest every node given back and not taken is reachable from the head |
| FreeListAnswers.NullOnlyIfEmptySeen | include/concurrentqueue.h:1316-1356 | try_get answers null only if the list was empty at some moment of the call, nodes put back on the way included |
| FreeListAnswers.GetAlone | include/concurrentqueue.h:1316-1338 | undisturbed it takes the first node of the list if there is one |
| FreeListProtocol.NextStableWhileHeld | include/concurrentqueue.h:1328-1331 | while a reference is held nobody writes the node's next, so the exchange of the head installs the true second node |
| FreeListProtocol.TakenNodeHasClearBit | include/concurrentqueue.h:1332-1334 | the assertion in try_get |
| FreeListProtocol.ReachableHoldsInv | include/concurrentqueue.h:1300-1379 | reference counts are holders plus list, over every run |
| TicketProtocol.ClaimsStayBelowTail | include/concurrentqueue.h:2381-2451 | indices claimed from head, now or by decisions already made, stay below tail |
| TicketProtocol.EachIndexClaimedOnce | include/concurrentqueue.h:2381-2451 | every index below head has been claimed by exactly one consumer, and no other index by any |
| TicketProtocol.CountersAgreeAtRest | include/concurrentqueue.h:1793-1890 | at rest optimistic count = head + overcommit |
| TicketProtocol.DequeueAtRest | include/concurrentqueue.h:2381-2451 | at rest a dequeue of up to max raises head by the lesser of max and tail - head, turning back only at zero, and leaves the counters in agreement |
| TicketProtocol.EnqueuedIsFound | include/concurrentqueue.h:2381-2451 | and so after elements have been added |
| TicketProtocol.TurnsBackIff | include/concurrentqueue.h:2383-2387 | at any time it turns back if and only if the optimistic count less the overcommit it read has reached the tail it read; every element there was is then taken or as good as taken |
| TicketProtocol.OvercommitBelowOwnTicket | include/concurrentqueue.h:1793-1890 | the assertion on the overcommit read before the draw |
| TicketProtocol.WinnersFit | include/concurrentqueue.h:2077-2169 | winning tickets never outnumber the elements |
| TicketProtocol.DecideCoversWinners | include/concurrentqueue.h:2603-2704 | deciding a batch of tickets keeps every winner covered |
| TicketProtocol.ReachableHoldsInv | include/concurrentqueue.h:2381-2451 | the ticket accounting holds over every run of single and bulk consumers |
| BlockRings.LookupFinds | include/concurrentqueue.h:2765-2781 | the position computed from the tail's key is that of the entry keyed by the block's base |
| BlockRings.StaleLookupFinds | include/concurrentqueue.h:2771-2780 | also through an outdated header, any tail of it, and a key stored there later |
| BlockRings.WriteKeepsRing | include/concurrentqueue.h:2728-2737 | reusing a free entry loses at most the oldest key, which is not live |
| BlockRings.BlockedIsFull | include/concurrentqueue.h:2731-2743 | an entry in use behind the tail means a full ring of exact keys |
| BlockRings.DoubleKeepsRing | include/concurrentqueue.h:2799-2818 | doubling keeps the keys contiguous from oldest to newest and leaves room behind the tail |
| BlockRings.TakeOutKeepsRing | include/concurrentqueue.h:2496-2501 | taking a block out and rewinding keeps the rest findable, ahead of the tail too |
| BlockRings.WriteKeepsPast | include/concurrentqueue.h:2734-2735 | a key written later is in the right class of every older header |
| BlockIndexes.BlockIndex.constructor | include/concurrentqueue.h:2254-2260 | an empty index |
| BlockIndexes.BlockIndex.NewBlockIndex | include/concurrentqueue.h:2783-2825 | a ring of twice the capacity that stands for the same map, or no memory and no change |
| BlockIndexes.BlockIndex.RotateToFront | include/concurrentqueue.h:2799-2813 | the copying loop goes once around, from the oldest entry on, and appends the new entries |
| BlockIndexes.BlockIndex.InsertEntry | include/concurrentqueue.h:2725-2750 | makes room for the next key, growing if and only if the ring has none, and refusing only then; entries in use keep their keys and blocks |
| BlockIndexes.BlockIndex.EntryFor | include/concurrentqueue.h:2758-2781 | looking up an element of a live block gives its entry and block |
| BlockIndexes.BlockIndex.StartBlock | include/concurrentqueue.h:2322-2372 | the map gains the next block or stays as it was; it gains it if and only if a block is to be had and there is room or memory |
| BlockIndexes.BlockIndex.StartBlocks | include/concurrentqueue.h:2473-2529 | all blocks are added or none |
| BlockIndexes.BlockIndex.Revert | include/concurrentqueue.h:2495-2501 | the undo loop, first block first while the tail goes back from the last, restores the map |
| BlockIndexes.BlockIndex.Release | include/concurrentqueue.h:2426-2436 | an emptied block leaves the map, in any order |
| BlockIndexes.BlockIndex.AnyHeaderFinds | include/concurrentqueue.h:2765-2781 | in whatever header and tail a consumer has loaded, it computes the position that has the key of its block |
| BlockIndexes.BlockIndex.FindBlock | include/concurrentqueue.h:2758-2781 | a consumer that loads header, tail and key one after the other finds the entry and block of its element, whatever the owner adds, reverts and doubles meanwhile |
| BlockIndexes.BlockIndex.LinkedIsReadable | include/concurrentqueue.h:2765-2781 | between the owner's methods, and within its revert, a live block can be found |
| BlockIndexes.BlockIndex.PendingIsReadable | include/concurrentqueue.h:2322-2372 | so it can between the store of a key and that of its block |
| BlockIndexes.BlockIndex.BetweenIsReadable | include/concurrentqueue.h:2728-2756 | and between the store of a key and that of the tail, and between the tail going back and the entry being cleared |
| BlockIndexes.DisturbancesAddUp | include/concurrentqueue.h:2725-2825 | steps of the owner one after the other mislead no consumer of a block that none of them takes out |
| SemaphoreProtocol.TokensAreConserved | include/lightweightsemaphore.h:290-430 | initial + signalled = count + acquired + slow waiters; slow waiters = tokens + unposted + max(0, -count); nothing over-acquired |
| SemaphoreProtocol.StepRefinesSemaphore | include/lightweightsemaphore.h:290-402 | step by step a counting semaphore; time-outs leave its value alone |
| SemaphoreProtocol.TryWaitFailsIff | include/lightweightsemaphore.h:350-389 | tryWait comes back with nothing if and only if its last look found no unit, and otherwise tries on; it takes no more than asked |
| SemaphoreProtocol.WaitEndsWithUnit | include/lightweightsemaphore.h:290-321 | a wait ends with a unit, or by a time-out that has undone its decrement; a look at a positive count is followed by an attempt |
| SemaphoreProtocol.NoTokenStranded | include/lightweightsemaphore.h:309-321 | with no slow waiter the kernel holds no token and the counter holds all |
| SemaphoreProtocol.TimedOutWaiterCanLeave | include/lightweightsemaphore.h:314-321 | the adjusting loop always has a way out, or a signaller about to give it one |
| SemaphoreProtocol.EveryWaiterIsReleased | include/lightweightsemaphore.h:421-430 | a counter at zero or above means a wake-up for every slow waiter |
| SlabLayout.DetachKeepsInv | include/TaskAllocator.h:117-128 | cutting a batch off the shared chain keeps every slot in exactly one place |
| SlabLayout.AttachKeepsInv | include/TaskAllocator.h:129-132 | so does attaching it to the cache, within its bound |
| SlabLayout.TakeKeepsInv | include/TaskAllocator.h:76-83 | so does handing a slot out, which was not live |
| SlabLayout.PutKeepsInv | include/TaskAllocator.h:86-94 | so does putting one back |
| SlabLayout.PeelKeepsInv | include/TaskAllocator.h:138-146 | so does peeling the excess, which brings the cache back within its bound |
| SlabLayout.SpliceKeepsInv | include/TaskAllocator.h:147-151 | so does splicing it onto the shared chain |
| SlabLayout.ExhaustionBound | include/TaskAllocator.h:72-75 | a thread that finds nothing leaves at most 2 * BATCH slots per other thread unused, one more where a free is half done |
| SlabLimit.RunsDryWithNothingLive | include/TaskAllocator.h:72-96 | for any number of threads from two on, calls after which a thread is refused with no slot in use: the bound is attained |
| SlabLimit.BelowBoundSomeoneIsHalfDone | include/TaskAllocator.h:86-96 | refused below the bound for threads at rest, some other thread has peeled and not spliced |
| SlabLimit.BelowBoundIff | include/TaskAllocator.h:72-96 | what is unused at a refusal is what the other threads hold: below the bound for threads at rest if and only if those half done outnumber the room in the other caches |
| SlabLimit.BoundsAttainedIff | include/TaskAllocator.h:72-96 | each bound is met if and only if every other thread holds all it can, half done or at rest |
| TaskAllocators.TaskAllocator.constructor | include/TaskAllocator.h:34-36 | all slots linked into the shared chain |
| TaskAllocators.TaskAllocator.Alloc | include/TaskAllocator.h:72-84 | hands out the top of the refilled cache, or null with nothing to refill from and the exhaustion bound, the other threads interfering; alone, refilled means by BATCH |
| TaskAllocators.TaskAllocator.Free | include/TaskAllocator.h:86-96 | the slot is back; an overflowing cache goes down to BATCH; liveCount follows; the other threads interfering before the splice |
| TaskAllocators.TaskAllocator.Refill | include/TaskAllocator.h:113-133 | moves up to BATCH slots by splicing, the other threads interfering between the locked and the local part |
| TaskAllocators.TaskAllocator.DetachBatch | include/TaskAllocator.h:117-128 | one store detaches the batch that the walk has found |
| TaskAllocators.TaskAllocator.WalkBatch | include/TaskAllocator.h:117-126 | the walk finds the last slot of the batch and the one behind it |
| TaskAllocators.TaskAllocator.PeelExcess | include/TaskAllocator.h:138-146 | the loop finds the last slot to go |
| TaskAllocators.TaskAllocator.SpliceBatch | include/TaskAllocator.h:147-151 | two writes join the batch and the shared chain |
| TaskAllocators.AllocatedWasFree | include/TaskAllocator.h:72-84 | a slot handed out was free; other threads' slots stay where they are |
| TaskAllocators.FreedIsBack | include/TaskAllocator.h:86-96 | a freed slot is on top of the cache or of the shared chain |
| TaskAllocators.JoinChains | include/TaskAllocator.h:129-151 | linking the last slot of one chain to the head of another joins them |
| TaskDags.TaskDag.CreateNode | src/TaskDAG.cpp:4-19 | a new node without dependencies |
| TaskDags.TaskDag.AddDependency | src/TaskDAG.cpp:92-96 | bumps the counter every time and adds the edge once |
| TaskDags.TaskDag.HasCycle | src/TaskDAG.cpp:38-60 | true if and only if there is a cycle or some pair was added twice; the counters stay |
| TaskDags.TaskDag.Submit | src/TaskDAG.cpp:62-90 | rejects exactly those graphs, freeing every node and task once; otherwise gives out exactly the nodes that wait for nothing; nothing is tracked any more |
| TaskDags.CarriedOncePerNode | src/TaskDAG.cpp:66-74 | a rejected graph's tasks are freed as often as there are nodes that carry them |
| TaskDags.RepeatsShow | src/TaskDAG.cpp:92-96 | a counter exceeds its edges exactly when a pair was repeated |
| TaskDags.RepeatIsRejected | src/TaskDAG.cpp:92-96 | a graph without a cycle that is rejected |
| TaskDags.Verdict | src/TaskDAG.cpp:52-59 | when nothing is ready any more, nodes are left over exactly if there is a cycle or a repeated pair |
| DependencyGraph.StuckIsCyclic | src/TaskDAG.cpp:39-41 | nodes that all wait for each other contain a cycle |
| DependencyGraph.OrderedIsAcyclic | src/TaskDAG.cpp:39-41 | a graph drained in order has none |
| DagFiring.FiredOnceWhenReady | src/TaskDAG.cpp:99-135 | a node fires at most once and only when its AND or OR condition over finished predecessors holds |
| DagFiring.QuietFiredIffReady | src/TaskDAG.cpp:99-135 | whenever no completion is running, fired is ready |
| DagFiring.AllFireWhenAcyclic | src/TaskDAG.cpp:79-135 | on a graph without cycles a run that cannot go on has fired and finished every node |
| DagFiring.RunsEnd | src/TaskDAG.cpp:129-134 | runs, gate recursion included, are no longer than the work there was |
| DagFiring.OneCompletionPerNode | src/TaskDAG.cpp:99-107 | no two calls are ever in the completion of one node |
| DagFiring.AcceptedGraphStarts | src/TaskDAG.cpp:79-89 | what Submit accepts starts with counters equal to in-degrees and the right roots |
| DagFiring.SubmitStarts | src/TaskDAG.cpp:62-90 | Submit as a whole: it accepts exactly the graphs without a cycle or a repeated pair, and then the machine starts on that graph, about to fire exactly the roots collected |
| DagFiring.ReachableHoldsInv | src/TaskDAG.cpp:99-135 | the invariant of counters, visits and pending fires holds over every run |
| ForkJoin.PiecesPartition | src/TaskScheduler.cpp:178-209 | open pieces, waiting tasks and finished leaves always partition the range; the group counts the tasks not yet counted down |
| ForkJoin.ZeroMeansDone | src/TaskScheduler.cpp:207-208 | a count of zero after the caller's own part means everything is done, and stays zero |
| ForkJoin.EachItemRunOnce | src/TaskScheduler.cpp:178-209 | after the wait exactly one of the calls of func made covers the item |
| ForkJoin.ReachableCallsMatch | src/TaskScheduler.cpp:178-209 | the calls made so far are those of the finished pieces, each once, over every run |
| ForkJoin.LeafSizes | src/TaskScheduler.cpp:191-205 | split leaves have between half the grain, rounded, and the grain |
| ForkJoin.RunsEnd | src/TaskScheduler.cpp:191-205 | no run takes more than eight steps an item |
| ForkJoin.StuckIsDone | src/TaskScheduler.cpp:207-208 | a run that cannot go on has done everything and counts zero |
| ParallelLoops.Splitter | src/TaskScheduler.cpp:191-205 | one thread's spine: leaf, tasks and inline pieces tile its range, sizes in bounds, the group bumped once a task |
| ParallelLoops.ParallelForFJ | src/TaskScheduler.cpp:178-209 | the pieces tile the range; a range within the grain is one call |
| ParallelLoops.ParallelFor | src/TaskScheduler.cpp:106-177 | on all three paths the pieces tile the range; the flat path's chunks are full but for the last |
| ParallelLoops.ChunksTile | src/TaskScheduler.cpp:130-141 | the chunks computed from the chunk number tile the range |

## Left out

- C++ memory orders and fences: every machine is sequentially consistent.
- Fixed widths: indices, epochs, keys of blocks and counters are unbounded, and `circular_less_than` is `<`; a mask by a
  power of two less one is a remainder.
- Weak compare-and-swap and retry loops are steps of the machines (a failed attempt goes back to the load); only the
  deque, whose code has no retry loop, and the inbox also exist as classes over shared memory.
- The context switch, fiber stacks, affinity, topology, the pool's start and stop, pausing, random victims and priorities.
- A worker without a free fiber (src/Thread.cpp:216-232): a fiber is taken to be there.
- Bare threads that wait by spinning, and groups on which both kinds wait (src/TaskScheduler.cpp:456-460).
- WaitTiming.NoEarlyWake: does not cover runs with an increment from zero while a wake is owed, because the code then wakes early (`IncrementIsSafeIffNoWakeOwed`).
- WaitLifetime.LifetimeIffNoStaleBit: speaks of one fiber that owns the group; during the wait the group is incremented only while its count is positive.
- An exhausted event pool: the source says its size rules that out.
- The lists' and nodes' memory: a list node is never reused while a thread may hold it, which is the epochs' business, and clients are taken to unlink before they retire, which `remove` does not guarantee.
- ListProtocol.SingleRemoverRemoves: assumes one remover at a time; `TrueMarkRemovesIffUnmarked` is about any number of them.
- The key UINT64_MAX in the list (it would find the tail sentinel), `contains`, `get`, and leaked nodes of failed inserts; `contains` and `get` start at the head sentinel and so take key 0 to be present.
- The retiring of graph nodes and the dispatch of nodes to queues: firing is the exchange of the submitted flag; nodes made with a priority are never dispatched by `Fire`.
- Guards nested on one epoch slot: a session is one guard, although the recursion through gates (src/TaskDAG.cpp:99-135) opens further guards on the slot of the first.
- Several allocators sharing the thread-local cache (include/TaskAllocator.h:28-31), the debug canary, and a step of Alloc or Free interrupted inside its thread-local part.
- Exceptions thrown by element constructors in the concurrent queue, explicit producers' block lists, block flags, tokens, the producer hash, and `MAX_SUBQUEUE_SIZE` but as the outcome `Full`.
- The kernel semaphore is a counter; its waits may end at any time without a token.
- `ParallelForNB`, `PushFork`, `PushImmediate`, `WaitAll`, SchedulerMutex, SchedulerSemaphore and SchedulerConditionVariable, thread caches and the fiber pool.
- A call of func is one step, logged when it ends; the order of items within a call and integer overflow of bounds are not modelled.
