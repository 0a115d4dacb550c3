# A verified model of the kernel's data structures and protocols

This project models, in Dafny, five parts of a RISC-V teaching kernel and proves what they
promise for every input, every run and every reachable state.

* **Hash table** (`ProbeTheory`, `HashProbe`, `HashTable`). Open addressing with perturbed
  probing, tombstones and resizing, on an array updated in place. It refines a plain map, and
  the `while (1)` of the lookup ends within 13 + size probes because `5 i + 1` has full period
  modulo a power of two.
* **Processes, semaphores and message queues** (`PriorityOrder`, `QueueHistory`, `LinkQueue`,
  `MessageRing`, `KernelState` … `Kernel`). The intrusive priority queue at pointer level; the
  scheduler, sleeping, semaphores, message queues, priorities and process ends as a state
  machine over atomic system calls; one invariant kept by every step of every run, and the
  theorems that follow from it. `SchedulerMoves`, `CallEffects`, `MessageEffects` and
  `SemaphoreEffects` say of each call what it does to processes, lists and messages, without
  its own terms; `MessageHistory` and `SleepRuns` carry that over whole runs. `Kernel` is the
  same machine as a class with mutable tables and the loops of the source; each method is
  proved equal to its step.
* **Memory** (`PageTables`, `FrameAllocator`, `AddressSpace`, `ProcessMemory`, `ProcessBuild`,
  `ProcessAllocator`, `ProcessTeardown`, `SharedState`, `SharedSteps`, `SharedPages`,
  `ProcessEnd`). The free list threaded through the frames, entry packing, the table builder
  and its teardown, reference-counted shared pages, and the life of processes that share them.
  The specification is the page walk of section 4.3.2 of the RISC-V privileged architecture
  with the Sv39 parameters of section 4.4.
* **Heap allocator** (`MallocBins`, `MallocHeap`, `MallocLists`, `MallocSteps`, `Malloc`). Bin
  arithmetic, boundary-tag coalescing, splitting, the unsorted list, bins and fastbins.
* **Dining philosophers** (`Philosophers`, `PhilosopherTheorems`, `PhilosopherTable`). The
  protocol of test 20 over the kernel's semaphores, for any number of philosophers from 2 to
  32769 (the largest number for which the 16-bit count of the mutex suffices).

Where a promise fails of the code, the code is kept as it is and the exact condition is proved.
`ExactSteps.StepExact` does so for all kernel calls at once: a call keeps the invariant if and
only if `KernelRuns.Allowed` holds, and `KernelWitnesses` has a run from start-up to a failure of
each kind (`sreset`, `wait_clock`, `chprio`, `kill`, `exit`, `waitpid`). The others are
`HashProbe.LookupEnds`, `SleepTheorems.WakeTimeZeroBlocks`, `FrameAllocator.ReleaseExact`,
`PageTables.EntryRoundTrip`, `ProcessAllocator.ProcessMemoryAllocator`,
`ProcessEnd.HolesFreedOnce`, and `MallocBins.BinScanExact` with `Malloc.StuckRun`.

How to read it: a `hide` statement at the head of a proof only keeps definitions out of the
solver's way. `K` in the kernel part is the whole kernel state; `Inv` is the invariant between
system calls and `Mid` the one at the entry of `scheduler()`. Fields named `call`, `release`,
`accepted` and `delivered` are history: no other field depends on them.

Where code and documentation disagree, the code is followed:

* `hash_set` answers -1 when the table cannot grow although the value has been stored.
* Processes woken from sleep, and producers released by a rendezvous, keep their old state field
  until they run.
* `get_frame` never hands out the last frame; `release_frame` accepts the address of the end of
  memory.
* The application image is copied into one frame more than it needs when its size is a multiple
  of the frame size, and the heap table cannot be added once the stack has 128 tables, so a
  process has at most 65024 pages of code and stack, not 65536.
* `remove_proc_queue` looks for a process in the middle of a waiter list with the wrong
  comparison and takes the first waiter for it.
* `make_children_orphans_and_kill_zombies` makes no orphans: living children keep a pointer to
  their parent, which may be freed before them. It frees ended children and leaves them in the
  list of their parent, and so does the end of a process whose parent has ended; only `waitpid`
  takes an entry out. Entries are told apart by a number in the order of creation (`born`),
  because pids are used again.
* `kill` writes the return value of a process it may just have freed; the word lies inside the
  freed chunk, and nothing reads it.
* The loop over the list of holes in `free_process_memory` does not advance the pointer it frees.
* `mALLOc` puts a chunk that is as small as the smallest of its bin behind it, because it
  compares a size with a size word that carries a flag.

To verify everything: `dafny verify dfyconfig.toml`.

## Model

| member | source | states |
|---|---|---|
| ProbeTheory.FullPeriod | src/lib/hash/hash.c:77-79 | once the perturbation is gone, `5 i + 1` modulo a power of two visits every slot before it repeats one |
| ProbeTheory.OrbitInjective | src/lib/hash/hash.c:77-79 | the first 2^k probes of that sequence are pairwise different |
| HashProbe.PerturbGone | src/lib/hash/hash.c:58-79 | a 64-bit perturbation shifted by 5 is 0 from probe 13 on |
| HashProbe.ProbeCovers | src/lib/hash/hash.c:54-81 | for every hash and every table size, each slot is probed within 13 + size probes |
| HashProbe.EmptyExists | src/lib/hash/hash.c:110-126 | a table that is not full has an EMPTY slot |
| HashProbe.LookupEnds | src/lib/hash/hash.c:54-81 | a lookup ends if and only if there is an EMPTY slot or the key is present |
| HashProbe.StoreKeeps | src/lib/hash/hash.c:199-211 | storing at the slot a lookup returned keeps the table invariant and updates the map at one key |
| HashProbe.EraseKeeps | src/lib/hash/hash.c:229-233 | turning an active slot into a tombstone keeps every other key reachable and removes one key from the map |
| HashTableModel.HashTable.Initialize | src/lib/hash/hash.c:29-47 | a new table of the given size: empty, all slots EMPTY; untouched when allocation fails |
| HashTableModel.HashTable.Lookup | src/lib/hash/hash.c:54-81 | whenever it ends at all, it ends within 13 + size probes; the slot is active exactly if the key is in the map, and then holds its value; otherwise it is where the key may be stored |
| HashTableModel.HashTable.Copy | src/lib/hash/hash.c:88-105 | re-inserting all active slots into a blank table gives the same map |
| HashTableModel.HashTable.Update | src/lib/hash/hash.c:110-135 | doubling, halving or keeping the size never changes the map and restores the load factor; -1 only without memory or when the size overflows |
| HashTableModel.HashTable.IsSet | src/lib/hash/hash.c:163-171 | membership in the map |
| HashTableModel.HashTable.Get | src/lib/hash/hash.c:174-185 | the value in the map, or the default |
| HashTableModel.HashTable.Set | src/lib/hash/hash.c:188-214 | the map is updated at the key even when the result is -1, in the last EMPTY slot if need be; an EMPTY slot is left unless the resize failed with one left; the load factor stays below 2/3 after success |
| HashTableModel.HashTable.Del | src/lib/hash/hash.c:217-236 | the key leaves the map; absent keys change nothing |
| HashTableModel.Do | src/lib/hash/hash.c:163-236 | one operation answers and changes the table as the operation on a plain map does |
| HashTableModel.Run | src/lib/hash/hash.c:54-236 | refinement: every sequence of set, delete, get and membership calls on a new table gets the answers a plain map gives |
| LinkQueue.Queue.Add | src/lib/include/queue.h:73-87 | the pointer ring stays doubly linked and its element sequence is the old one with the element inserted before the first priority that is not smaller |
| LinkQueue.Queue.Out | src/lib/include/queue.h:129-147 | the last element is unlinked, returned and no longer of concern to this queue; null exactly on an empty queue |
| LinkQueue.Queue.Del | src/lib/include/queue.h:155-163 | exactly this element leaves the sequence and the nodes of the queue; the other links stay mutual inverses |
| LinkQueue.Queue.Top | src/lib/include/queue.h:209-220 | the last element, or null |
| LinkQueue.Queue.Bottom | src/lib/include/queue.h:240-251 | the first element, or null |
| LinkQueue.Queue.IsEmpty | src/lib/include/queue.h:107-110 | true exactly for the empty sequence |
| LinkQueue.Queue.Reprioritise | src/kernel/process/process_api.c:95-113 | delete, change of priority and add, as `chprio` does it: the element moves to the place of its new priority |
| PriorityOrder.InsertAscending | src/lib/include/queue.h:79-86 | insertion keeps ascending order |
| QueueHistory.RunOrdered | src/lib/include/queue.h:73-163 | over every sequence of add, out and delete the queue stays ordered by priority, and equal priorities with the oldest last |
| QueueHistory.OutIsOldestOfHighest | src/lib/include/queue.h:73-147 | what out removes has the highest priority, and is the oldest of those that have it |
| QueueHistory.RunConserves | src/lib/include/queue.h:73-163 | elements in the queue, taken out and deleted together are exactly those added |
| MessageRing.PutAppends | src/kernel/msgqueue.c:256-263 | adding to the ring appends to the stored sequence |
| MessageRing.DropOldest | src/kernel/msgqueue.c:226-234 | the cell read is the oldest stored message, and the rest stays stored |
| MessageRing.RingBuffer.AddMessage | src/kernel/msgqueue.c:256-263 | the array version of the same |
| MessageRing.RingBuffer.PopOldest | src/kernel/msgqueue.c:226-249 | returns the first stored message and removes it |
| MessageRing.RingBuffer.Reset | src/kernel/msgqueue.c:161-162 | nothing is stored any more |
| KernelInvariant.DispatchKeeps | src/kernel/process/scheduler.c:36-234 | `scheduler()` re-establishes the invariant from any state a system call may leave: one list per process, one active process, idle runnable, semaphores and message queues consistent |
| KernelMoves.BlockKeeps | src/lib/include/queue.h:73-87 | the running process linking itself into a waiting list keeps the invariant |
| KernelMoves.ReleaseKeeps | src/lib/include/queue.h:73-163 | moving a waiting process to the ready list keeps the invariant |
| KernelMoves.UnblockKeeps | src/kernel/process/semaphore_api.c:82-106 | releasing the first waiter keeps the invariant of every other semaphore, queue and process |
| KernelRuns.StepKeeps | src/kernel/process/semaphore_api.c:159-366 | every allowed system call and interrupt keeps the invariant |
| ExactSteps.StepExact | src/kernel/process/process_api.c:83-763 | every system call and interrupt whose identifiers are fresh and arguments in range leads to a state with the invariant if and only if the runs allow it; otherwise the invariant is broken, an assertion fails, or a freed list head or process is used |
| ExactSteps.ExitExact | src/kernel/process/process_api.c:688-763 | `exit` keeps the invariant if and only if no process it frees has a child left and no ended child of the caller has a freed process in its list; in the latter case, and only then, the walk over the lists comes to a freed process |
| ExactSteps.KillExact | src/kernel/process/process_api.c:546-576 | `kill` keeps the invariant if and only if the victim is not in the middle of a waiter list, does not wait for a child, leaves no child behind and has no ended child with a freed process in its list; the assertion of `queue_del` fails exactly for a victim that waits for a child, and the walk comes to a freed process exactly if there is one |
| ExactSteps.AllCollected | src/kernel/process/process_api.c:465-544 | a process that has collected all its children by `waitpid` may end |
| ExactSteps.WaitChildExact | src/kernel/process/process_api.c:465-544 | `waitpid`, for one child or any, keeps the invariant if and only if the child it frees has no child left |
| ChildLists.SweepExact | src/kernel/process/process_api.c:688-719 | the recursive walk over the lists of children frees exactly the ended children of the process, or comes to a freed process, which is so if and only if one of them has it in its list |
| ProcessCalls.SpawnTree | src/kernel/process/process_api.c:279-298 | `start` appends to the list of the parent; entries left by freed processes do not mean the new one, though it may have their pid |
| ProcessTree.ReapKeeps | src/kernel/process/process_api.c:647-675 | `waitpid` takes the child out of the list and the table; that keeps the invariant if and only if it leaves no child behind |
| ProcessTree.EndTree | src/kernel/process/process_api.c:688-763 | ending a process leaves every parent pointer alive if and only if its ended children have no children and, unless a parent collects it, all its own have ended |
| ProcessTree.EndFamily | src/kernel/process/process_api.c:688-763 | and leaves the lists of all processes that have not ended free of freed entries, in any case |
| ProcessTree.EndProcessKeeps | src/kernel/process/process_api.c:727-763 | a safe end keeps the rest of the invariant, whether it leaves a zombie, a killed process or nothing |
| KernelRuns.RunInv | src/kernel/process/scheduler.c:36-234 | the invariant holds in every state of every run |
| KernelRuns.OneList | src/lib/include/queue.h:73-163 | over every run a process is in at most one list, at one place; the running process is in none and is the only active one; idle runs or is ready |
| SchedulerMoves.ScheduleMoves | src/kernel/process/scheduler.c:36-195 | where every process is after `scheduler()`, by where it was: ready or running, asleep, blocked, dead or freed |
| SchedulerMoves.ScheduleLists | src/kernel/process/scheduler.c:36-195 | the lists in which processes wait for an event stay |
| CallEffects.StartEffect | src/kernel/process/process_api.c:181-321 | the new process is ready or running at its priority and the last child of the caller; it is scheduled at once exactly if it is above the caller |
| CallEffects.EndOutcome | src/kernel/process/process_api.c:727-763 | who ends, is freed and is woken when a process ends: a parent in `waitpid` becomes ready whichever child ends |
| CallEffects.ExitEffect | src/kernel/process/process_api.c:167-180 | after `exit` the caller is a zombie if it has a living parent and dead otherwise, its ended children are gone, and a waiting parent is ready or running |
| CallEffects.KillEnds | src/kernel/process/process_api.c:546-576 | after `kill` of another process likewise, and it is in no list and waits for no semaphore |
| CallEffects.WaitAny | src/kernel/process/process_api.c:465-544 | `waitpid(-1)` collects a child if and only if one has ended, the first such in the list; it fails if and only if there is no child |
| CallEffects.WaitOne | src/kernel/process/process_api.c:465-544 | `waitpid(c)` fails if and only if no child has pid c, and collects that child if and only if it has ended |
| CallEffects.WaitChildEffect | src/kernel/process/process_api.c:465-544 | the child collected leaves table and list; a caller that waits is in no list and somebody else runs |
| CallEffects.ConsReadEffect | src/kernel/input-output/cons_read.c:94-104 | a reader without input waits among the readers, in order of priority |
| CallEffects.KeyPressEffect | src/kernel/input-output/keyboard.c:68-73 | the reader of highest priority leaves that list and is ready or running |
| SchedulerTheorems.RunningIsHighest | src/kernel/process/scheduler.c:112-190 | after every call of `scheduler()` no ready process has a higher priority than the running one |
| SchedulerTheorems.TicksRotate | src/kernel/process/scheduler.c:132-152 | n ticks rotate the group of top-priority processes n places |
| SchedulerTheorems.RoundRobin | src/kernel/process/scheduler.c:112-190 | processes sharing the top priority each run exactly once in as many ticks, then the first one runs again |
| SleepTheorems.WakesExactlyTheDue | src/kernel/process/scheduler.c:204-224 | each entry of the scheduler wakes exactly the sleepers whose wake time is before the clock |
| SleepTheorems.WokenInOrder | src/kernel/process/scheduler.c:216-224 | sleepers are moved in the order of their wake times |
| SleepTheorems.WakeTimeZeroBlocks | src/kernel/process/scheduler.c:204-219 | all due sleepers are woken if and only if none asked for time 0, which reads as an empty queue |
| SleepTheorems.WaitClockExact | src/kernel/process/timer_api.c:21-27 | `wait_clock` keeps the invariant if and only if clock plus delay is not 0 |
| CallEffects.WaitClockEffect | src/kernel/process/timer_api.c:21-27 | the caller of `wait_clock(d)` is in the sleep queue, due at clock plus d |
| SleepRuns.SleepsOn | src/kernel/process/timer_api.c:21-27 | over every run, a process that called `wait_clock(d)` at clock t and is not killed is asleep, due at t + d, in every state until the clock passes t + d |
| SleepRuns.WakesOnTime | src/kernel/process/scheduler.c:216-224 | and after the tick that takes the clock past t + d it is ready or running |
| SemaphoreTheorems.SemEffect | src/kernel/process/semaphore_api.c:159-366 | the exact effect of every semaphore call on counts and waiter lists |
| SemaphoreEffects.WaitCaller | src/kernel/process/semaphore_api.c:159-236 | `wait` blocks the caller exactly if the semaphore exists and its count is not positive and can be lowered; otherwise the caller goes on |
| SemaphoreEffects.SemCaller | src/kernel/process/semaphore_api.c:264-366 | the caller of any other semaphore call goes on |
| SemaphoreEffects.WaiterReleased | src/kernel/process/semaphore_api.c:82-106 | a waiter that leaves a semaphore is ready or running, and `wait` returns 0, -3 or -4 for signal, `sdelete` or `sreset` |
| SemaphoreTheorems.CountIsLedger | src/kernel/process/semaphore_api.c:159-366 | over every run a count is its last initial value plus signals minus waits plus killed waiters, and the waiters number max(0, -count) |
| SemaphoreTheorems.ScheduleLeaves | src/kernel/process/scheduler.c:112-190 | `scheduler()` touches no semaphore, no message queue and no process field but state and link |
| SemaphoreLaws.SignalNIsNSignals | src/kernel/process/semaphore_api.c:345-366 | `signaln` changes nothing, or changes counts and waiters as n signals do, releasing the same waiters in the same order |
| SemaphoreLaws.ResetExact | src/kernel/process/semaphore_api.c:310-324 | `sreset` keeps the invariant if and only if the low 16 bits of the count read as a non-negative number |
| ProcessTree.MiddleSearch | src/kernel/process/semaphore_api.c:53-72 | the search through the middle of a waiter list stops at the head and unlinks nothing; with its test turned round it would remove just the process |
| SemaphoreLaws.KillWaiterExact | src/kernel/process/semaphore_api.c:21-80 | killing a waiter keeps its semaphore consistent if and only if it is the first or last one; otherwise it stays in the list and the first waiter is marked ready and linked nowhere |
| SemaphoreLaws.MutualExclusion | src/kernel/process/semaphore_api.c:159-287 | a semaphore created with 1 and used as a lock has at most one holder, over every run |
| SemaphoreOrder.WaitersInOrder | src/kernel/process/semaphore_api.c:180-236 | over every run without `chprio` of a waiter, the waiters of every semaphore stand in descending priority, the one that came first in front among equals |
| SemaphoreOrder.SignalWakesFirst | src/kernel/process/semaphore_api.c:264-287 | so `signal` wakes the oldest waiter of the highest priority |
| PriorityLaws.ChPrioExact | src/kernel/process/process_api.c:83-121 | `chprio` keeps the invariant if and only if the state field is up to date, or the process is a woken sleeper whose new priority fits its place; it uses a deleted list head exactly for a producer whose queue is gone |
| CallEffects.ChPrioEffect | src/kernel/process/process_api.c:83-121 | after `chprio` the process has the new priority in every state and no other process has changed its own; a waiting process stays where it is, and nobody ready is above the one that runs |
| KernelWitnesses.ResetWitness | src/kernel/process/semaphore_api.c:310-324 | a run after which `sreset` to 40000 breaks the invariant |
| KernelWitnesses.SleepWitness | src/kernel/process/timer_api.c:21-27 | `wait_clock(0)` as the first call breaks it |
| KernelWitnesses.SleepsForever | src/kernel/process/scheduler.c:204-224 | and that process is never woken: at no later time does the scheduler change anything |
| KernelWitnesses.MiddleWaiterWitness | src/kernel/process/semaphore_api.c:53-72 | a run in which 3, 4 and 5 wait for a semaphore and killing 4 breaks the invariant |
| KernelWitnesses.WaitingParentWitness | src/kernel/process/process_api.c:123-140 | a run in which a child kills its waiting parent and the assertion of `queue_del` fails |
| KernelWitnesses.OrphanWitness | src/kernel/process/process_api.c:688-719 | a run in which a process without parent ends before its child |
| KernelWitnesses.GrandchildWitness | src/kernel/process/process_api.c:647-675 | a run in which `waitpid` frees a child that has a living child |
| KernelWitnesses.FreedChildWitness | src/kernel/process/process_api.c:688-719 | a run in which every process ends after its children, and the last end comes to a process that has been freed |
| KernelWitnesses.StaleWitness | src/kernel/process/process_api.c:83-121 | a run after which `chprio` blocks a ready process again |
| MessageHistory.FirstInFirstOut | src/kernel/msgqueue.c:65-143 | over every run, the messages received from a queue followed by those it stores are the messages sent to it since it was created or reset, in the order in which it accepted them; both lists are read off the events and states of the run |
| MessageHistory.LogsAreHistory | src/kernel/msgqueue.c:65-143 | the lists of messages accepted and delivered that the model keeps are those read off the run |
| MessageHistory.ProducerCarries | src/kernel/msgqueue.c:79-86 | over every run, a process waiting to send has in its message field what its last `psend` was called with |
| MessageTheorems.LogBalance | src/kernel/msgqueue.c:65-143 | over every run, consumers wait only at an empty ring, producers only at a full one, never both; delivered followed by stored is accepted |
| MessageEffects.SendToConsumer | src/kernel/msgqueue.c:72-78 | the waiting consumer of highest priority has the message and is ready or running; nothing is stored |
| MessageEffects.SendToRing | src/kernel/msgqueue.c:89-92 | with room and no consumer the message is stored behind all others, and the caller goes on |
| MessageEffects.SendWaits | src/kernel/msgqueue.c:79-86 | without room the caller waits with its message among the producers, in order of priority, and somebody else runs |
| MessageEffects.ReceiveFromProducer | src/kernel/msgqueue.c:103-135 | of the stored messages followed by that of the first producer, the first is received and the others are stored; the producer is ready or running |
| MessageEffects.ReceiveFromRing | src/kernel/msgqueue.c:136-141 | without producers the oldest stored message is received and the others stay |
| MessageEffects.ReceiveWaits | src/kernel/msgqueue.c:112-118 | with nothing to receive the caller waits among the consumers, in order of priority |
| MessageEffects.ResetQueueEffect | src/kernel/msgqueue.c:157-167 | after `preset` nothing is stored, nobody waits and `pcount` is 0; whoever waited is ready or running and fails |
| MessageEffects.DeleteQueueEffect | src/kernel/msgqueue.c:50-63 | after `pdelete` the queue is gone; whoever waited is ready or running and fails |
| MessageEffects.CreateQueueEffect | src/kernel/msgqueue.c:33-48 | `pcreate` makes an empty queue of the capacity asked for under the smallest unused identifier, or does nothing |
| MessageTheorems.DeliveredInOrder | src/kernel/msgqueue.c:65-143 | the i-th message delivered is the i-th accepted |
| MessageTheorems.RendezvousNeedsNoCapacity | src/kernel/msgqueue.c:103-111 | "empty with blocked producers" is reached only by queues of capacity 0 |
| MessageTheorems.CountIsBalance | src/kernel/msgqueue.c:145-155 | `pcount` is stored messages plus waiting sends minus waiting receives |
| MessageTheorems.ReceiveDelivers | src/kernel/msgqueue.c:96-143 | a receive that does not wait returns the next message in the order of acceptance, once |
| MessageTheorems.ResultMatchesRelease | src/kernel/msgqueue.c:72-142 | over every run a call returns the result that goes with what released it: 0/-2/-3/-4 for signal, refusal, sdelete, sreset; success only for a transferred message; a stale status is never read |
| WakeReasons.ReleaseIsExplained | src/kernel/msgqueue.c:65-203 | over every step, a wait ends only for a cause that the event of this step explains |
| KernelObject.Kernel.QueueAdd | src/lib/include/queue.h:73-87 | the walk over the list stops at the place the specification names |
| KernelObject.Kernel.AwakeSleeping | src/kernel/process/scheduler.c:216-224 | the loop moves exactly the sleepers that the specification wakes |
| KernelObject.Kernel.FreeDeadProcesses | src/kernel/process/scheduler.c:229-234 | all processes of the dead list leave the table |
| KernelObject.Kernel.Scheduler | src/kernel/process/scheduler.c:36-195 | the whole of `scheduler()` after start-up: wake, free, and the three cases of the switch |
| KernelObject.Kernel.TimerInterrupt | src/kernel/timer.c:80-100 | a tick from any state with the invariant keeps it |
| KernelObject.Kernel.SleepFor | src/kernel/process/timer_api.c:21-27 | `wait_clock` with negated wake time: the caller sleeps until clock plus delay; the invariant holds afterwards exactly if that is not 0 |
| KernelObject.Kernel.PSendCall | src/kernel/msgqueue.c:65-94 | `psend` in all four branches; afterwards the message is with the first consumer, behind all stored ones, or with the caller among the producers |
| KernelObject.Kernel.PReceiveCall | src/kernel/msgqueue.c:96-143 | `preceive` likewise, and writes the message it delivers at once |
| KernelObject.Kernel.FreeBlockedQueue | src/kernel/msgqueue.c:192-203 | the loop releases every blocked process with an error |
| KernelObject.Kernel.PResetCall | src/kernel/msgqueue.c:157-167 | `preset` |
| KernelObject.Kernel.PDeleteCall | src/kernel/msgqueue.c:50-63 | `pdelete` |
| KernelObject.Kernel.PCountCall | src/kernel/msgqueue.c:145-155 | `pcount` with its length loops |
| KernelObject.Kernel.PCreateCall | src/kernel/msgqueue.c:33-48 | `pcreate`: the first free identifier, or -1 |
| KernelObject.Kernel.UnblockProcessSem | src/kernel/process/semaphore_api.c:82-106 | the first waiter becomes ready with the code; 1 when nobody waits |
| KernelObject.Kernel.WaitCall | src/kernel/process/semaphore_api.c:159-236 | `wait`, with its insertion loop |
| KernelObject.Kernel.TryWaitCall | src/kernel/process/semaphore_api.c:326-343 | `try_wait`, which never blocks, keeps the invariant and answers -1, -3 or 0 |
| KernelObject.Kernel.SignalCall | src/kernel/process/semaphore_api.c:264-287 | `signal`, which skips its scheduling point while `parent_block` is set |
| KernelObject.Kernel.SignalNCall | src/kernel/process/semaphore_api.c:345-366 | `signaln`: the early return in its loop is unreachable, so `parent_block` is false again before any other process can run |
| KernelObject.Kernel.SResetCall | src/kernel/process/semaphore_api.c:310-324 | `sreset` |
| KernelObject.Kernel.SDeleteCall | src/kernel/process/semaphore_api.c:289-308 | `sdelete` |
| KernelObject.Kernel.ChPrioCall | src/kernel/process/process_api.c:83-121 | `chprio`, relinking by the state field, returns the old priority and leaves the new one; no result exactly if the list head is gone |
| KernelObject.Kernel.StartCall | src/kernel/process/process_api.c:181-321 | the process-table part of `start`, with the list of the parent |
| KernelObject.Kernel.SearchWaiters | src/kernel/process/semaphore_api.c:54-72 | the loop with `iter` and `iter_prev` and its test has the effect of the specified search |
| KernelObject.Kernel.LeaveSemaphore | src/kernel/process/semaphore_api.c:21-80 | `remove_proc_queue` for a kill: head, tail with its walk, and the search through the middle |
| KernelObject.Kernel.FreeEndedChildren | src/kernel/process/process_api.c:688-719 | the recursive loop over the lists of children has the effect of the specified walk |
| KernelObject.Kernel.EndCall | src/kernel/process/process_api.c:727-763 | the end of a process: zombie, killed or freed, its ended children freed by the walk, and a waiting parent woken; given up exactly if the walk comes to a freed process |
| KernelObject.Kernel.KillCall | src/kernel/process/process_api.c:546-576 | `kill` of any process; no result exactly if the assertion of `queue_del` fails or the walk comes to a freed process |
| KernelObject.Kernel.ExitCall | src/kernel/process/process_api.c:167-180 | `exit_process` of any process |
| KernelObject.Kernel.WaitPidCall | src/kernel/process/process_api.c:465-544 | `waitpid` with its search loops: the first ended child or the one asked for, -1 without such a child, and waiting otherwise |
| KernelObject.Kernel.KeyboardInterrupt | src/kernel/input-output/keyboard.c:68-73 | one blocked reader becomes ready, and the invariant is kept |
| PageTables.LinkedAddress | src/kernel/memory/pages.c:26-125 | an entry points to the address it was given, rounded to the page size and truncated to 56 bits |
| PageTables.EntryRoundTrip | src/kernel/process/process_memory.c:553-555 | `find_pte_adress` gives back the linked address if and only if it is page-aligned and below 2^56 |
| FrameAllocator.ChainUnique | src/kernel/memory/frame_dist.c:13-39 | the links in the frames determine the free list |
| FrameAllocator.FrameList.constructor | src/kernel/memory/frame_dist.c:15-29 | the initial list holds every frame below the end of memory, ascending |
| FrameAllocator.FrameList.GetFrame | src/kernel/memory/frame_dist.c:31-39 | the head of the list; null, and nothing taken, when one frame is left |
| FrameAllocator.ReleaseExact | src/kernel/memory/frame_dist.c:55-58 | the list a release leaves ends if and only if the frame was not free already; otherwise it runs in a circle |
| FrameAllocator.FrameList.ReleaseFrame | src/kernel/memory/frame_dist.c:42-58 | the frame becomes the head and its first word the link; out-of-range or unaligned addresses are ignored |
| FrameAllocator.FrameList.CreatePageTable | src/kernel/memory/pages.c:15-24 | a frame with 512 cleared entries, or null |
| ProcessMemory.OnlyLastFits | src/kernel/process/process_memory.c:212-237 | the search for a free entry can only stop at the last table of its kind |
| ProcessMemory.AddFrame | src/kernel/process/process_memory.c:188-259 | one more entry of the kind is reserved, in a new table exactly if the others are full; success exactly if there is room and a frame |
| ProcessMemory.AddChild | src/kernel/process/process_memory.c:100-146 | a new table at the next index of its kind; refused when any kind is at its limit |
| ProcessBuild.FillEntry | src/kernel/process/process_memory.c:332-365 | one page: a copy of the image, a cleared page or, where copying stops, the frame as found |
| ProcessBuild.FillRegion | src/kernel/process/process_memory.c:271-372 | the region is linked and filled with frames in order, image first; the index assertion never fails; success exactly if there are frames enough |
| ProcessAllocator.Reserve | src/kernel/process/process_memory.c:430-459 | one of the reservation loops: pages for the size, at least one; exact success condition |
| ProcessAllocator.ProcessMemoryAllocator | src/kernel/process/process_memory.c:463-546 | succeeds if and only if the size is allowed, code and stack need fewer than 128 tables and there are frames enough; the frames taken are the first of the free list, in this order; a complete space is built and no other frame changes |
| AddressSpace.WalkBuilt | src/kernel/process/process_memory.c:271-372 | the page walk translates every address of the user gigabyte of a built space to the intended page, with the intended rights, and faults on all others |
| AddressSpace.ImageInPlace | src/kernel/process/process_memory.c:339-365 | byte i of the application image is at 0x40000000 + i, executable |
| AddressSpace.DifferentPages | src/kernel/process/process_memory.c:271-372 | different mapped pages lie in different frames |
| ProcessTeardown.FreeFramesIndexed | src/kernel/process/process_memory.c:557-568 | each frame pointed to by the entries is released once; entries are only read from tables not yet released |
| ProcessTeardown.FreeProcessMemory | src/kernel/process/process_memory.c:641-659 | pages, level-0 tables, level-1, level-2 and scratch frame go to the free list once each, in this order |
| ProcessTeardown.FreeingRestores | src/kernel/process/process_memory.c:641-659 | the free frames afterwards are those before the process was built |
| ProcessTeardown.BuildAndFree | src/kernel/process/process_memory.c:463-659 | building and freeing a process restores the multiset of free frames and changes no other frame |
| SharedState.SharedTranslates | src/kernel/process/memory_api.c:102-168 | the address a process got for a shared page translates to that page, read-write |
| SharedState.HoleFaults | src/kernel/process/memory_api.c:265-277 | a released address faults although its entry is valid: without permissions it is no page at level 0 |
| SharedSteps.FillHoleOk | src/kernel/process/memory_api.c:128-138 | reusing a released place keeps live slots and holes disjoint and all entries right |
| SharedSteps.NewPlaceOk | src/kernel/process/process_memory.c:212-258 | so does a new place, with a new table linked if needed |
| SharedSteps.LeaveHoleOk | src/kernel/process/memory_api.c:209-277 | so does releasing one |
| SharedPages.UsageStep | src/kernel/process/memory_api.c:156-284 | the usage stays the number of processes that map the page |
| SharedPages.PageDropped | src/kernel/process/memory_api.c:284-298 | a page nobody maps can be freed: its frame is used nowhere else |
| SharedPages.BuiltSharer | src/kernel/process/process_memory.c:463-546 | a process just built satisfies the sharing invariant |
| SharedPages.SharedMemory.Link | src/kernel/process/memory_api.c:102-168 | `link_shared_page_to_process`: a hole first, then a new place |
| SharedPages.SharedMemory.ShmAcquire | src/kernel/process/memory_api.c:337-371 | null exactly if the page does not exist or is mapped; otherwise usage + 1 and its address |
| SharedPages.SharedMemory.ShmCreate | src/kernel/process/memory_api.c:374-415 | null exactly if the page exists; otherwise a page on a fresh frame with usage 1 |
| SharedPages.SharedMemory.ShmRelease | src/kernel/process/memory_api.c:172-309 | the place becomes the first hole; the frame is freed exactly with the last user |
| SharedPages.SharedMemory.ReleaseAllPages | src/kernel/process/process_memory.c:619-629 | at the end of a process every page loses one user, and those it used alone are freed |
| ProcessEnd.StartProcess | src/kernel/process/process_memory.c:463-546 | the memory side of `start` among other processes: the new process takes its frames from the free list, one use each, and all processes and shared pages stay consistent |
| ProcessEnd.EndProcess | src/kernel/process/process_memory.c:605-659 | a process ends after any use of shared pages: each of its frames, and each page it was the last to use, is in the free list exactly once; the others are as before; of the list of holes the first node is freed as often as there are places |
| ProcessEnd.FreeHoleNodes | src/kernel/process/process_memory.c:631-636 | the loop over the list of holes hands its first node to `free` each time |
| ProcessEnd.HolesFreedOnce | src/kernel/process/process_memory.c:631-636 | so every node is freed once if and only if there is at most one |
| ProcessEnd.SharerComplete | src/kernel/process/process_memory.c:605-659 | whatever it has shared, a process can be torn down as it was built |
| ProcessEnd.EndKeeps | src/kernel/process/process_memory.c:605-659 | the other processes and their shared pages do not notice the end |
| ProcessEnd.PrivateTranslates | src/kernel/process/process_memory.c:271-372 | whatever is shared meanwhile, every address below the shared part translates to the page of image, stack or heap meant for it, with its rights, and all others fault |
| MallocBins.LargebinIndexIsDefinition | src/lib/stdlib/malloc.c:2183-2217 | for every size from 256 to 2^32 - 1 the branch-free index is the highest bit and the two bits below it |
| MallocBins.FindHighIsHighBit | src/lib/stdlib/malloc.c:2199-2212 | the branch-free search finds the highest bit |
| MallocBins.BinIndexMono | src/lib/stdlib/malloc.c:2174-2220 | the index is monotone and below NBINS for all sizes below 2^32 |
| MallocBins.HigherBinFits | src/lib/stdlib/malloc.c:3640-3653 | a chunk in a strictly higher bin is larger than the request, for requests below 2^32 |
| MallocBins.BinScanExact | src/lib/stdlib/malloc.c:3640-3653 | for every request: all chunks in strictly higher bins are larger if and only if it is below 2^32 or its low 32 bits are at least 0xE00000 |
| MallocBins.LastBin | src/lib/stdlib/malloc.c:2183-2220 | the index of any 32-bit number is within the bins, and the last bin starts at 0xE00000 |
| Malloc.ScanStuck | src/lib/stdlib/malloc.c:3640-3653 | for every other request there is a heap in which the scan arrives at a smaller chunk |
| Malloc.StuckRun | src/lib/stdlib/malloc.c:3409-3855 | and from the initial heap, two requests, one `fREe` and the request itself lead there |
| MallocBins.RequestSizeFits | src/lib/stdlib/malloc.c:1986-2004 | aligned, at least the minimum, room for request and header, no waste beyond alignment, no wrap-around |
| MallocHeap.EveryByteInOneChunk | src/lib/stdlib/malloc.c:3481-3600 | a tiled arena: every byte belongs to exactly one chunk |
| MallocHeap.FreeChunksApart | src/lib/stdlib/malloc.c:3780-3834 | no two adjacent chunks are free |
| MallocHeap.Behind | src/lib/stdlib/malloc.c:3783-3788 | a clear in-use bit and the size word lead to the free chunk before |
| MallocHeap.SplitFreeOk | src/lib/stdlib/malloc.c:3499-3514 | splitting keeps tiling and boundary tags |
| MallocHeap.AbsorbOk | src/lib/stdlib/malloc.c:3783-3799 | so does coalescing |
| MallocSteps.FreeInOneBin | src/lib/stdlib/malloc.c:3533-3566 | a free chunk is in exactly one bin |
| MallocSteps.OthersInNoBin | src/lib/stdlib/malloc.c:3533-3566 | a used, fast or top chunk is in none |
| MallocSteps.UsersApart | src/lib/stdlib/malloc.c:3481-3720 | chunks in use never overlap |
| MallocSteps.SplitChunkOk | src/lib/stdlib/malloc.c:3589-3599 | overwriting the unsorted list with the remainder loses no chunk, because the list is empty or held just the chunk split |
| MallocSteps.BinnedOk | src/lib/stdlib/malloc.c:3533-3566 | moving an unsorted chunk to its bin keeps the lists exact, large bins sorted and the bin map right |
| Malloc.Allocator.Coalesce | src/lib/stdlib/malloc.c:3777-3834 | the chunk is merged with the neighbours that are free or the top, and with nothing else, and joins the top or the unsorted list; no chunk in use is concerned |
| Malloc.Allocator.Consolidate | src/lib/stdlib/malloc.c:3926-3987 | all fast chunks are consolidated; none is left |
| Malloc.Allocator.Release | src/lib/stdlib/malloc.c:3729-3855 | `fREe`: the chunk is no longer in use, and no other is concerned; a small chunk is the first of its fastbin and nothing else changes; any other is part of a free chunk or of the top; the fast chunks are merged exactly if the merged chunk is large |
| Malloc.FreeThenMalloc | src/lib/stdlib/malloc.c:3424-3430 | a small chunk that is freed is what the next request of its size gets, and the heap is as it was |
| Malloc.Allocator.FindPlace | src/lib/stdlib/malloc.c:3533-3566 | in a large bin the place is at the end for a chunk not larger than the last one, otherwise behind all larger chunks |
| Malloc.Allocator.SortUnsorted | src/lib/stdlib/malloc.c:3481-3567 | an exact fit or the last remainder is taken, or all unsorted chunks are binned, none into the bin of a small request, and the list is empty; the chunks themselves stay |
| Malloc.Allocator.TryLarge | src/lib/stdlib/malloc.c:3571-3600 | the smallest chunk of the bin that fits; none only if all are smaller |
| Malloc.Allocator.ScanBins | src/lib/stdlib/malloc.c:3611-3684 | the smallest chunk of all higher bins; none only if all are empty; a chunk smaller than the request only if the request is unsound |
| Malloc.SearchComplete | src/lib/stdlib/malloc.c:3571-3684 | after the search no free chunk is large enough |
| Malloc.Allocator.UseTop | src/lib/stdlib/malloc.c:3687-3717 | cut from the top chunk exactly if a top chunk remains |
| Malloc.Allocator.Search | src/lib/stdlib/malloc.c:3438-3718 | past the fastbins: the best fit among the free chunks, after merging the fast ones for a large request; the only exception is what is left of the last small request, if no chunk has just the size; the top only if no free chunk serves |
| Malloc.ConsecutiveRequests | src/lib/stdlib/malloc.c:3486-3510 | consecutive small requests lie next to each other: what is left of the chunk split for the first serves the second, unless there is a chunk of just its size |
| Malloc.FastKnown | src/lib/stdlib/malloc.c:3424-3430 | the fastbin of a request has a chunk if and only if some fast chunk has just its size |
| Malloc.Allocator.Allocate | src/lib/stdlib/malloc.c:3409-3718 | `mALLOc` of any request: a chunk that was not in use, large enough, with no room for another; a fast chunk of the size if there is one, then the best fit, then the top, and none only if none of these would have served; all chunks in use keep place and size, and no other comes into use; the assertion of the scan fails only for an unsound request |
| Philosophers.Neighbours | src/user/tests/test20/philosophe.c:60-97 | left, right and second right neighbour are the remainders the program computes |
| PhilosopherTheorems.StepKeeps | src/user/tests/test20/philosophe.c:57-125 | every step of every philosopher keeps the invariant |
| PhilosopherTheorems.RunInv | src/user/tests/test20/philosophe.c:57-125 | it holds in every state of every run |
| PhilosopherTheorems.MutexCount | src/user/tests/test20/philosophe.c:67-76 | the mutex never runs out of count: `xwait` blocks or passes |
| PhilosopherTheorems.ForkTakenByOne | src/user/tests/test20/philosophe.c:63-100 | a fork is marked taken exactly if one adjacent philosopher holds it, and never both |
| PhilosopherTheorems.NeighboursNeverEat | src/user/tests/test20/philosophe.c:44-55 | two neighbours are never shown eating together |
| PhilosopherTheorems.BlockedLacksFork | src/user/tests/test20/philosophe.c:69-97 | a blocked philosopher lacks a fork |
| PhilosopherTheorems.NoDeadlock | src/user/tests/test20/philosophe.c:103-125 | while somebody has not finished, somebody can move |
| PhilosopherTheorems.EverybodyEats | src/user/tests/test20/philosophe.c:113-118 | every run is finite, and when it cannot go on everybody has eaten exactly six times and forks and semaphores are as at the start |
| PhilosopherTable.SharedTable.Prendre | src/user/tests/test20/philosophe.c:63-78 | the array updates of `prendre_fourchettes` are those of the step |
| PhilosopherTable.SharedTable.PoserLeft | src/user/tests/test20/philosophe.c:85-90 | the first conditional of `poser_fourchettes` |
| PhilosopherTable.SharedTable.PoserRight | src/user/tests/test20/philosophe.c:92-97 | the second one |
| PhilosopherTable.WaitIsKernelWait | src/kernel/process/semaphore_api.c:180-236 | the `wait` the philosophers use is the kernel one |
| PhilosopherTable.SignalIsKernelSignal | src/kernel/process/semaphore_api.c:264-287 | and so is `signal` |

## Left out

- Context switches, trap entry, CSR access, boot, drivers and the console's line editing: a switch is a change of the current pid, and a console read or key press is its effect on the blocked reader.
- Argument checks and name copying of `start`, the limit on the number of processes, and pid generation: the fresh pid is a parameter.
- Blocking calls of the idle process: it makes none in the source, and the calls that could block require another caller.
- The waiting loops of `waitpid` are one step repeated each time the caller runs; its result pointer is not modelled.
- The heap nodes of waiter lists, page lists and table lists: these lists are sequences, and their allocation succeeds. The leaks of the failure paths, and of the node of a hole that is used again, are not modelled.
- `scount`, `getprio`, `info_msgqueues` and other functions that only report.
- Zero-filling: the frame on which copying of the image stops keeps what it held.
- KernelRuns.StepKeeps: runs exclude the calls that break the invariant, and only those (`ExactSteps.StepExact`); what the kernel does after such a call is not modelled.
- KernelObject.Kernel.SleepFor: wake times are integers; the 64-bit wrap-around of the clock is not modelled.
- HashTableModel.HashTable.Copy: the loop index is an unbounded integer, not a 32-bit `int`.
- HashTableModel.Run: at most 2^60 operations, so that the table size does not overflow; allocation succeeds, and keys are compared by value with a hash function of the key.
- ProcessEnd.EndProcess: what the heap does with a hole node that is freed again is not modelled; `Malloc.Allocator.Release` asks for a chunk in use.
- ProcessAllocator.ProcessMemoryAllocator: after a failure only that frames already taken are lost is modelled, as in the source; no statement is made about them.
- FrameAllocator.FrameList.ReleaseFrame: a frame that is free already is excluded; `FrameAllocator.ReleaseExact` says that exactly then the list no longer ends.
- SharedPages.SharedMemory.ShmCreate: a frame and a place for the page must be there; the source goes on with address 0 when `get_frame` fails.
- SharedPages.SharedMemory.ShmAcquire: a place for the page must be there; on failure the source leaves a list node without a place behind.
- SharedPages.SharedMemory.Link: only the successful case is modelled.
- ProcessEnd.StartProcess: only the successful case, with the frames it needs; `ProcessAllocator.ProcessMemoryAllocator` says exactly when that is.
- Malloc.Allocator.Allocate: the arena is smaller than 4 GB and all there is; `sYSMALLOc`, trimming, `realloc`, `memalign` and memory mapping are not modelled, and where the assertion of the bin scan fails the model stops.
- SemaphoreOrder.WaitersInOrder: `chprio` of a waiter changes its priority and not its place, so runs with it are excluded.
- Malloc.Allocator.ScanBins: the bin map is a sequence of flags examined one by one, not words skipped as a whole.
- The message-queue variant of the philosophers' semaphores, and the output of their state.
- PhilosopherTheorems.RunInv: a step runs from one semaphore operation to the next; the shared arrays are only touched inside the critical section, whose exclusion is proved.
