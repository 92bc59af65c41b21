# disastrOS: the kernel as a state machine

disastrOS is a toy multitasking kernel written in C: processes with parents and children, a
round-robin scheduler driven by a timer tick, sleep timers, blocking bounded queues, resources
with descriptors, and slab allocators underneath. This project models the kernel in
`coda-bloccante-implementata/` as one state machine whose steps are the system calls of the
running process and the timer tick, and proves what holds over every run of it.

How the modules fit together:

- `KernelState` (state.dfy) is the data: process control blocks by block number, the lists of
  ready, waiting and zombie processes, timers, queues, resources, descriptors, and a pool for
  each kind of block. `chans` is a history: for each queue the calls accepted since its
  creation, as one could write them down from the calls and their return values alone.
- `Syscalls` (syscalls.dfy) says what each step does to that state, and with `Safe` when a step
  neither dereferences a null pointer nor loops for ever; the latter is said of the turns of the
  loop in exit, the only loop that can go on for ever. `Run` and `Reachable` are about runs
  from boot in which every step is safe; a tick is always safe.
- `Kernels.Kernel` (kernel.dfy) is the kernel as it is written: an object whose fields are the
  C globals, updated in place, with the loops of the original. Every method is proved to take
  exactly the step that `Syscalls` specifies, and to enter a process in a list only when it is in
  no other list; `LinkedLists.ProcessLists` shows over three linked lists that such an item has
  no links, so that List_insert accepts it. `PoolAllocators.PoolAllocator` and
  `LinkedLists.ListHead` are the two data structures underneath, over an array and over linked
  nodes. `Registries` relates the list of queues, searched by id, to the map used in the
  specification.
- `Invariants` states what holds between any two steps; `Frames`, `Links`, `Scheduling`,
  `Blocking`, `Waking`, `Buffers`, `Family`, `Files`, `Channels`, `Bystanders`, `Preservation`
  and `Steps` prove that every safe step keeps it.
- `Outcomes` gives the words in which the outcome of a call is described, field by field, from the
  states before and after it, and `QueueCalls`, `QueueLife`, `ResourceCalls`, `ProcessCalls` and
  `WaitOutcome` say in these words what every call and the tick do, in every case: what is
  returned, stored, handed out, given back, blocked, woken and dispatched, and that nothing else
  changes.
- `Fifo`, `WakeUps`, `Sleeping`, `TimerOrder`, `WakeOrder`, `ZombieOrder`, `Fairness`, `Idling`,
  `Dispatching`, `FamilyTree`, `ExitLoop`, `ExitValues`, `Stranding`, `Strangers`, `Counting`,
  `Faults`, `Descriptors`, `Numbering`, `Orphans` and `Insertions` prove the results from the
  invariant, by induction over runs where they are about runs. `StrandedInit`, `FaultRuns` and
  `Surprises` are runs from boot that go wrong. `Theorems` states the results for every reachable
  state.

Where the code does not do what its text or its users might expect, the code is followed:

- A process that blocks in wait is not given a result when it is woken, and the child is not
  reaped (`disastrOS_exit.c:24-32`, `Theorems.BlockedWaitGetsNothing`); it has to call wait again.
  Only the branch of wait that reaps at once returns a pid and an exit value.
- The comment at `disastrOS_wait.c:62` expects wait to leave the processor idle when nobody is
  ready. The line above it detaches the head of the ready list without looking whether there is
  one: the call faults (`FaultRuns.WaitCanFault`; `Theorems.SafeExactly` says exactly when).
- Init can wait for ever for a zombie of its own: a zombie whose parent exits becomes a child of
  init without waking it. `Theorems.StrandsExactly` says exactly which steps do this,
  `Theorems.StrandedRunExactly` which runs, and `StrandedInit.InitCanHangForever` gives a run of
  six calls. For every other process no wake-up is lost (`FamilyTree.NoWakeUpIsLost`).
- Init exiting with children never leaves the loop at `disastrOS_exit.c:12-18`: each turn moves
  the head of its list to the end (`Theorems.ExitLoopEndsExactly`, `FaultRuns.InitExitCanHang`).
- spawn tests the result of `PCB_alloc` for null, but `PCB_alloc` has dereferenced it by then:
  with a full process table the call faults instead of returning its error code
  (`FaultRuns.SpawnFaultsWhenFull`).
- Exit closes nothing. A descriptor left open by a process that is then reaped stays allocated
  for ever and its resource can never be destroyed. `Theorems.OrphansExactly` says exactly which
  steps do this, `Theorems.OrphanRunExactly` which runs, `Theorems.OrphansLastForever` what
  follows, and `Surprises.LeftOpenForEver` gives a run of five calls.
- `PCB_alloc` does not reset `last_fd`: a process that reuses a block goes on numbering its
  descriptors where the previous owner stopped. `Numbering.NewProcessNumbers` says where that is
  and exactly when a new process starts from 0; `Surprises.NumbersGoOn` is a run.
- sleep and wait dispatch the next process without marking it as running. `Theorems.RunsReadyExactly`
  and `Theorems.RunsReadyAfterRun` say exactly when the running process has status Ready;
  `Surprises.RunningCanBeReady` is a run.
- wait does not look whether the pid it is given is that of a child: except for init, which can
  still inherit the process, waiting for any other pid is waiting for ever
  (`Theorems.WaitForStrangerHangs`).
- The descriptor pools are sized for `MAX_NUM_DESCRIPTORS` but initialised with
  `MAX_NUM_PROCESSES` blocks (`disastrOS_descriptor.c:22-36`); the model has the latter number.

## Model

| member | source | states |
|---|---|---|
| Theorems.NthGetReceivesNthPut | coda-bloccante-implementata/disastrOS_bqueue.c:70-181 | from any reachable state, over any run in which the queue exists, the n-th accepted get is answered with the value of the n-th accepted put: some step advances the count of answered gets from n to n + 1, stores that value where that get asked for it, and ends that caller's call with 0, whoever blocked, was handed a value or refilled the buffer |
| Fifo.QueueHoldsTheRest | coda-bloccante-implementata/disastrOS_bqueue.c:70-181 | in every reachable state the accepted puts are the values delivered, then the buffered items, then the values of the blocked putters, in order; the accepted gets are those answered, then the blocked getters |
| Theorems.HistoryIsAppended | coda-bloccante-implementata/disastrOS_bqueue.c:70-181 | a step appends at most one call to a queue's history, and when it answers one more get it writes that value and nothing else to user memory |
| Fifo.OtherQueuesUntouched | coda-bloccante-implementata/disastrOS_bqueue.c:22-181 | a call on one queue leaves every other queue exactly as it was |
| Steps.PutOutcome | coda-bloccante-implementata/disastrOS_bqueue.c:70-117 | whichever branch put takes, the queue again matches its history with the value appended if the call is accepted, and unchanged if not |
| Steps.GetOutcome | coda-bloccante-implementata/disastrOS_bqueue.c:120-181 | the same for get and its request, including the branch that refills the buffer |
| Theorems.RefillLosesNothing | coda-bloccante-implementata/disastrOS_bqueue.c:130-154 | a get that finds a putter waiting never fails to complete its put: the value goes into the very block just given back, at the end of the buffer, the item pool ends as it began, and the putter is ready with result 0 |
| Theorems.EmptyBufferHasNoPutters | coda-bloccante-implementata/disastrOS_bqueue.c:156-166 | waiting getters mean an empty buffer and no putters, waiting putters mean a full buffer, so the branch of get for an empty buffer with a putter is never taken |
| Theorems.PutExactly | coda-bloccante-implementata/disastrOS_bqueue.c:70-117 | a put of a missing queue only returns DSOS_ERESOURCENOFD; with getters waiting the first one is given the value and made ready, both calls ending with 0; with room in the buffer the value becomes its last, in a block that was free, or, with no block left, the call only returns its error; with a full buffer the caller waits as the last putter and the head of the ready list runs; nothing else changes, and exactly the accepted puts enter the history |
| Theorems.GetExactly | coda-bloccante-implementata/disastrOS_bqueue.c:120-181 | a get from a missing queue only returns its error; from an empty buffer the caller waits as the last getter; otherwise the first value is stored where asked, its block given back, and, if a putter waits, the first one's value goes to the end of the buffer and its call ends with 0; nothing else changes, and exactly the accepted gets enter the history |
| Theorems.CreateExactly | coda-bloccante-implementata/disastrOS_bqueue.c:22-48 | create returns 0 if and only if the capacity is positive, the id free and fewer than 128 queues exist; there is then an empty queue with the id and the capacity asked for, in a block that was free, with an empty history; otherwise the call only returns its error, the three told apart in the order of the source |
| Theorems.DeleteExactly | coda-bloccante-implementata/disastrOS_bqueue.c:50-67 | delete succeeds exactly when the queue exists and nobody waits on it; it then frees the queue and the items in it and no other block, and changes nothing else; otherwise it only returns its error |
| Buffers.GiveItemsFrees | coda-bloccante-implementata/bqueue.c:60-72 | the loop of BQ_free returns exactly the blocks of the queue's items |
| Theorems.StorageIsConserved | coda-bloccante-implementata/bqueue.c:47-95 | item blocks in use are the items buffered in all registered queues, queue blocks in use are the registered queues |
| Theorems.LinksAreConserved | coda-bloccante-implementata/disastrOS_pcb.c:65-75 | PCBPtr blocks in use are the processes minus one plus the entries of all getter and putter lists, in which nobody is entered twice |
| Theorems.FreshBlocksAreUnlisted | coda-bloccante-implementata/linked_list.c:21-23 | in every reachable state a free block of a pool is the block of no item in any list of its kind, so List_insert never refuses what comes fresh from a pool |
| Theorems.ItemBlocksDiffer | coda-bloccante-implementata/disastrOS_bqueue.c:130-147 | no two buffered items share a block, so neither is the block refused that get takes out and fills again |
| Theorems.MovedLinkIsNew | coda-bloccante-implementata/disastrOS_exit.c:12-18 | at every turn of the loop the link that is moved is not yet in the list of init |
| Counting.LinksRunOutExactly | coda-bloccante-implementata/disastrOS_pcb.c:65-75 | the PCBPtr pool is empty if and only if those two together make 1024 |
| Theorems.TimersNeverRunOut | coda-bloccante-implementata/disastrOS_timer.c:23-32 | while a process runs a timer can be allocated, by pigeonhole over the sleeping processes |
| Theorems.SafeExactly | coda-bloccante-implementata/disastrOS_pcb.c:41-71 | a call neither dereferences null nor runs through a loop without end if and only if a condition on the state before it holds: room in the process table and in the PCBPtr pool for the calls that need it, somebody ready for a wait that blocks, init not exiting with children (which is derived from what the turns of the loop do), room for a created resource |
| Theorems.ExitLoopEndsExactly | coda-bloccante-implementata/disastrOS_exit.c:12-18 | for a caller with any number of children, some number of turns of the loop leaves none if and only if the caller is not init or had none; other callers need as many turns as they have children; for init n turns rotate its list by n places and change nothing else, so that after as many turns as it has children the state is the one the loop started in |
| Theorems.HalfLoadNeverFaults | coda-bloccante-implementata/disastrOS_bqueue.c:103-107 | with at most 512 processes put, get, spawn and fork never fault |
| FaultRuns.WaitCanFault | coda-bloccante-implementata/disastrOS_wait.c:56-62 | a run of three steps after which wait faults |
| FaultRuns.InitExitCanHang | coda-bloccante-implementata/disastrOS_exit.c:12-18 | after init has spawned one child and exits, every number of turns of the loop leads back to the state in which it was entered, with the child still in the list |
| FaultRuns.SpawnFaultsWhenFull | coda-bloccante-implementata/disastrOS_spawn.c:12-19 | 1023 spawns from boot succeed, the next one faults |
| Steps.StepKeeps | coda-bloccante-implementata/disastrOS.c:147-181 | every safe step keeps the whole invariant: scheduling lists, family tree, reasons to wait, timers, queues, storage, history, resources and descriptors |
| Steps.ReachableInv | coda-bloccante-implementata/disastrOS.c:183-302 | the invariant holds at boot and in every reachable state |
| Theorems.WaitingIsPartitioned | coda-bloccante-implementata/disastrOS_bqueue.c:103-107 | a waiting process has exactly one thing to wait for, named by its last call: its only timer, its only entry among the getters or the putters of one queue, or a wait; no other process has any of these |
| Theorems.WakesExactly | coda-bloccante-implementata/disastrOS_bqueue.c:11-18 | a step ends the wait of a process if and only if it is the event that process waits for: its timer expiring, a put on its queue with it first in line, a get completing its put, or the exit of a child it asked for |
| Theorems.OneReason | coda-bloccante-implementata/disastrOS_exit.c:23-32 | each of these events only wakes processes blocked in the call that waits for it |
| Theorems.TickWakesAllDue | coda-bloccante-implementata/disastrOS.c:66-78 | looking only at the head of the timer list wakes every timer that is due and no other, in the order of the list |
| Theorems.TimersAreStablySorted | coda-bloccante-implementata/disastrOS_timer.c:44-78 | after any run from boot the timer list is the one list that is sorted by wake time and keeps, for each tick, the timers set and not expired in the order in which they were set |
| Theorems.LaterSleeperWakesLater | coda-bloccante-implementata/disastrOS.c:63-78 | a process that goes to sleep until no earlier than another sleeper stays behind it over any run: the tick that ends the earlier sleep wakes that process alone, or both with the later one behind it in the ready list |
| TimerOrder.InsertIsStable | coda-bloccante-implementata/disastrOS_timer.c:44-61 | a new timer goes behind those for its tick and disturbs no other tick |
| Theorems.SleepNeverFails | coda-bloccante-implementata/disastrOS_sleep.c:7-33 | sleep never takes its error branches and puts the caller to sleep until now plus n |
| Theorems.SleepExactly | coda-bloccante-implementata/disastrOS_sleep.c:7-33 | the caller waits, with a timer behind all for the same or an earlier tick and before all for later ones, in a block that was free, and the head of the ready list runs; nothing else changes |
| Theorems.TickExactly | coda-bloccante-implementata/disastrOS.c:57-86 | which sleepers a tick makes ready and in what order, who runs then, where who ran before goes, and every status; nothing else changes in any process |
| Theorems.PreemptExactly | coda-bloccante-implementata/disastrOS_schedule.c:8-26 | with nobody ready a preempt only comes back; otherwise the head of the ready list runs and the caller is ready behind all others; nothing else changes |
| Theorems.SleepsExactly | coda-bloccante-implementata/disastrOS.c:63-78 | in any run a sleep of n ticks at time t lasts while the time is below max(t + n, t + 1), and the tick that reaches that time makes the sleeper ready or running |
| Theorems.NobodyStarves | coda-bloccante-implementata/disastrOS_schedule.c:8-26 | a process with k others before it in the ready list has the processor within k + 1 ticks, whatever safe calls come in between |
| Fairness.NeverIdleWhileReady | coda-bloccante-implementata/disastrOS.c:80-87 | the processor is idle only when nobody is ready |
| Theorems.IdleRecoversExactly | coda-bloccante-implementata/disastrOS.c:63-87 | from a state with nobody running somebody runs again if and only if a timer is set, and then at the tick that makes it max(now + 1, first wake-up time), before which only the time changes |
| FamilyTree.OnePlaceEach | coda-bloccante-implementata/disastrOS_schedule.c:8-26 | every allocated process is in exactly one of running, ready, waiting and zombie, exactly once, and its status says which; a free block is nowhere |
| FamilyTree.OneChildLink | coda-bloccante-implementata/disastrOS_spawn.c:22-28 | every process but init has exactly one entry in exactly one children list, that of its parent |
| Theorems.AllDescendFromInit | coda-bloccante-implementata/disastrOS_exit.c:12-18 | all ancestors of a live process are live and older, and as many steps up as its pid lead to init |
| Theorems.InitAdopts | coda-bloccante-implementata/disastrOS_exit.c:12-18 | the loop appends the children of the exiting process to those of init, in order, points them at init, and moves no other process |
| Theorems.SpawnExactly | coda-bloccante-implementata/disastrOS_spawn.c:12-43 | fork and spawn make a process that is ready behind all others, with the next pid, the caller as parent and no children or descriptors, and the last child of the caller, which is given its pid; the rest of the block keeps what it held, and nothing else changes |
| Theorems.ExitExactly | coda-bloccante-implementata/disastrOS_exit.c:7-35 | the caller becomes the last zombie with its exit value; its children become the last of init and of no other process; its parent, if it waits for it, is ready behind all others; the head of the ready list runs; nothing else changes in any process |
| FamilyTree.NoWakeUpIsLost | coda-bloccante-implementata/disastrOS_wait.c:42-58 | a process other than init that is blocked in wait has no zombie child it asked for |
| Theorems.WaitForStrangerHangs | coda-bloccante-implementata/disastrOS_wait.c:36-58 | a process other than init that has children, and waits for a pid that none of them has, stays blocked in every continuation |
| Theorems.StrandsExactly | coda-bloccante-implementata/disastrOS_exit.c:12-32 | a call or tick leaves init waiting for a zombie it already has, where that was not so before, if and only if it is an exit while init waits, by a process that leaves init a zombie it asked for and is not itself the child init is woken for |
| Theorems.StrandedRunExactly | coda-bloccante-implementata/disastrOS_exit.c:12-32 | in a run from boot init is stranded at some point if and only if the run has such an exit |
| StrandedInit.InitCanHangForever | coda-bloccante-implementata/disastrOS_exit.c:12-32 | after six given calls init stays blocked in every continuation, with the zombie it waits for among its children |
| Theorems.BlockedWaitGetsNothing | coda-bloccante-implementata/disastrOS_exit.c:23-32 | a parent that an exit wakes from its wait gets no result and no value stored, and the process that exited stays a zombie |
| Theorems.WaitDeliversExactly | coda-bloccante-implementata/disastrOS_wait.c:30-63 | a wait stores a value, returns a pid and reaps if and only if the caller has a zombie child it asked for when it calls, and then for the first such zombie in the list, which leaves the list and the children, its block and its link given back; otherwise a caller without children only gets its error, and any other waits while the head of the ready list runs; nothing else changes |
| Theorems.FirstToExitIsFirstReaped | coda-bloccante-implementata/disastrOS_wait.c:41-48 | in any run after the exit of a process, no wait that asks for an older zombie reaps that process while both are zombies |
| Surprises.BlockedWaitGetsNothing | coda-bloccante-implementata/disastrOS_exit.c:23-32 | after three given calls the parent that had blocked in wait runs again without a result, and its child is still a zombie |
| Theorems.RunsReadyExactly | coda-bloccante-implementata/disastrOS_wait.c:56-63 | after a step the running process has status Ready if and only if the step was a sleep or a wait that blocked, with somebody ready to take over, or it left the processor with a process that had status Ready before |
| Theorems.RunsReadyAfterRun | coda-bloccante-implementata/disastrOS_sleep.c:24-32 | after a run from boot the running process has status Ready if and only if it was last dispatched by a sleep or a wait that blocked |
| Surprises.RunningCanBeReady | coda-bloccante-implementata/disastrOS_wait.c:61-62 | two given calls reach such a state |
| Numbering.StepNumbers | coda-bloccante-implementata/disastrOS_open_resource.c:45-60 | the next descriptor number of every block grows by one in a step that is an open by its process which meets the guards of open, and changes in no other step |
| Numbering.NewProcessNumbers | coda-bloccante-implementata/disastrOS_pcb.c:41-59 | after any run from boot a spawn or fork gives a process with nothing open whose next number is how many opens succeeded while its block had the processor; so it starts from 0 if and only if no earlier process in its block opened anything |
| Surprises.NumbersGoOn | coda-bloccante-implementata/disastrOS_pcb.c:41-59 | after six given calls a new process that has opened nothing starts from 1 |
| Theorems.ExitValueReachesWait | coda-bloccante-implementata/disastrOS_wait.c:10-54 | after any run in which the process that exited stays a zombie, the wait that reaps it stores the value given to exit, returns its pid, and frees it |
| ExitValues.ZombieKeepsResult | coda-bloccante-implementata/disastrOS_exit.c:8-21 | nothing changes the pid or the exit value of a zombie |
| Theorems.OpensExactly | coda-bloccante-implementata/disastrOS_open_resource.c:10-61 | an open without DSOS_CREATE never faults, succeeds exactly when the resource exists with that type, DSOS_EXCL does not forbid it and a descriptor is left; the caller then has one more descriptor, last in its list and numbered as returned, with its entry last in that of the resource, both in blocks that were free; nothing else changes, and a refused call only returns the error due |
| Theorems.CreatesExactly | coda-bloccante-implementata/disastrOS_open_resource.c:10-61 | an open with DSOS_CREATE is refused exactly when the id is taken, and then only returns its error; otherwise the resource is registered behind the others, in a block that was free, with the one new descriptor if one is left and with none and an error if not; nothing else changes |
| ResourceCalls.ModeBits | coda-bloccante-implementata/disastrOS_constants.h:52-55 | whatever the other bits, the tests for DSOS_CREATE and DSOS_EXCL are those of the masks 1 and 4 |
| Theorems.CloseExactly | coda-bloccante-implementata/disastrOS_close_resource.c:10-33 | close returns 0 if and only if the caller has a descriptor with this number, whenever it was opened; that descriptor and its entry then leave their lists and their blocks are given back; nothing else changes, and a refused close only returns its error |
| Theorems.DestroyExactly | coda-bloccante-implementata/disastrOS_destroy_resource.c:9-29 | destroy returns 0 if and only if a resource with the id is registered and no descriptor in use refers to it; it is then in no list, nothing is registered under the id, and its block is given back; nothing else changes, and a refused destroy only returns the error due |
| Theorems.CloseUndoesOpen | coda-bloccante-implementata/disastrOS_close_resource.c:10-33 | opening an existing resource and closing the number returned restores all lists and both pools; only the caller's saved call and its next number differ |
| Descriptors.DescriptorsAreSound | coda-bloccante-implementata/disastrOS_descriptor.c:53-62 | in every reachable state the numbers of a live process are distinct and below its next one, and each descriptor has exactly one entry, in the list of its resource, which is registered and alone under its id |
| Descriptors.EntriesAndDescriptorsMatch | coda-bloccante-implementata/disastrOS_open_resource.c:45-56 | descriptors in use, those of reaped processes included, and entries in the lists of registered resources correspond one to one |
| Descriptors.SecondAllocationSucceeds | coda-bloccante-implementata/disastrOS_open_resource.c:45-56 | a descriptor pointer can be allocated whenever a descriptor can: the two pools move together |
| Theorems.OrphansExactly | coda-bloccante-implementata/disastrOS_wait.c:10-28 | a step leaves an allocated descriptor in no live process's list, where that was not so before, if and only if it is a wait that reaps the process which has the descriptor open |
| Theorems.OrphanRunExactly | coda-bloccante-implementata/disastrOS_wait.c:10-28 | a run from boot ends with such a descriptor if and only if it reaped a process with a descriptor open |
| Surprises.LeftOpenForEver | coda-bloccante-implementata/disastrOS_exit.c:8-36 | after five given calls block 0 holds such a descriptor, and in every continuation it stays and destroying its resource is refused |
| Theorems.OrphansLastForever | coda-bloccante-implementata/disastrOS_destroy_resource.c:9-29 | over any run such a descriptor stays allocated, its resource stays registered under its id, and every later destroy of that resource is refused |
| Kernels.Kernel.constructor | coda-bloccante-implementata/disastrOS.c:183-302 | the started kernel stands for the boot state, in which the invariant holds |
| Kernels.Kernel.DisastrOsSyscall | coda-bloccante-implementata/disastrOS.c:130-145 | saving the call in the caller's PCB, nobody else's, and running its handler takes the kernel from one state of the machine to the next, and keeps the invariant |
| Kernels.Kernel.DisastrOsTrap | coda-bloccante-implementata/disastrOS.c:147-181 | the handler dispatched to takes the step of the saved call |
| Kernels.Kernel.TimerInterrupt | coda-bloccante-implementata/disastrOS.c:57-87 | the timer interrupt takes the tick step, and keeps the invariant |
| Kernels.Kernel.WakeExpired | coda-bloccante-implementata/disastrOS.c:66-78 | the wake loop ends with no expired timer at the head, having woken what the specification wakes, and keeps the invariant at each turn |
| Kernels.Kernel.InternalSchedule | coda-bloccante-implementata/disastrOS_schedule.c:8-26 | the running process goes behind all ready ones and the head of the list takes over; with nobody ready nothing changes |
| Kernels.Kernel.WakeReadyProcess | coda-bloccante-implementata/disastrOS_bqueue.c:11-18 | moves a process from the waiting to the ready list, which it enters while it is in no other list |
| Kernels.Kernel.BlockRunning | coda-bloccante-implementata/disastrOS_bqueue.c:103-116 | the running process enters the waiting list, while it is in no other, and the head of the ready list takes over, or nobody |
| Kernels.Kernel.BqById | coda-bloccante-implementata/bqueue.c:87-95 | the scan finds the queue registered under an id, and nothing exactly when there is none |
| Kernels.Kernel.BqCreate | coda-bloccante-implementata/disastrOS_bqueue.c:22-48 | registers an empty queue, or answers a capacity that is not positive, an id in use or an empty pool with its error |
| Kernels.Kernel.BqFree | coda-bloccante-implementata/bqueue.c:60-72 | returns the items one by one and then the queue |
| Kernels.Kernel.BqDelete | coda-bloccante-implementata/disastrOS_bqueue.c:50-67 | the in-place delete takes the specified step, including both refusals |
| Kernels.Kernel.BqPut | coda-bloccante-implementata/disastrOS_bqueue.c:70-117 | the in-place put takes the specified step in each branch: no queue, hand-off, buffer, no item block, blocking |
| Kernels.Kernel.BqGet | coda-bloccante-implementata/disastrOS_bqueue.c:120-181 | the in-place get takes the specified step in each branch: no queue, buffer with and without refill, hand-off, blocking |
| Kernels.Kernel.TimerListAdd | coda-bloccante-implementata/disastrOS_timer.c:44-61 | the cursor scan puts the timer where the stable sort has it, or fails exactly when no block is free |
| Kernels.Kernel.Sleep | coda-bloccante-implementata/disastrOS_sleep.c:7-33 | the in-place sleep takes the specified step |
| Kernels.Kernel.PcbAlloc | coda-bloccante-implementata/disastrOS_pcb.c:41-59 | a new process gets the next pid and fresh fields; the others, such as the next descriptor number, keep what the block held |
| Kernels.Kernel.InternalSpawn | coda-bloccante-implementata/disastrOS_spawn.c:12-34 | the bookkeeping of spawn, which is also that of fork: the child enters its parent's list and, being in no list, the ready list |
| Kernels.Kernel.PcbPtrByPid | coda-bloccante-implementata/disastrOS_pcb.c:88-97 | the scan finds the first link to a process with this pid |
| Kernels.Kernel.ReapChild | coda-bloccante-implementata/disastrOS_wait.c:10-28 | unlinks the child from both lists, delivers its exit value, frees it and returns its pid |
| Kernels.Kernel.FindAwaited | coda-bloccante-implementata/disastrOS_wait.c:41-47 | the scan finds the first zombie child that matches |
| Kernels.Kernel.InternalWait | coda-bloccante-implementata/disastrOS_wait.c:30-63 | the in-place wait takes the specified step: no child, reap at once, block |
| Kernels.Kernel.Reparent | coda-bloccante-implementata/disastrOS_exit.c:12-18 | the loop ends for every caller that may exit, with all children handed over one by one |
| Kernels.Kernel.WakeAwaitingParent | coda-bloccante-implementata/disastrOS_exit.c:23-32 | wakes the parent exactly when it is blocked in a wait this exit satisfies |
| Kernels.Kernel.InternalExit | coda-bloccante-implementata/disastrOS_exit.c:8-36 | the in-place exit takes the specified step |
| Kernels.Kernel.ResourceListById | coda-bloccante-implementata/disastrOS_resource.c:41-50 | the scan finds the first resource with this id |
| Kernels.Kernel.DescriptorListByFd | coda-bloccante-implementata/disastrOS_descriptor.c:53-62 | the scan finds the first descriptor with this number |
| Kernels.Kernel.InternalOpenResource | coda-bloccante-implementata/disastrOS_open_resource.c:10-61 | the in-place open takes the specified step, with each of its errors |
| Kernels.Kernel.InternalCloseResource | coda-bloccante-implementata/disastrOS_close_resource.c:10-33 | the in-place close takes the specified step |
| Kernels.Kernel.InternalDestroyResource | coda-bloccante-implementata/disastrOS_destroy_resource.c:9-29 | the in-place destroy takes the specified step, with both refusals |
| Syscalls.FindZombie | coda-bloccante-implementata/disastrOS_wait.c:41-47 | the zombie found is the first in the list that is a child of the caller and matches; none is found only if there is none |
| Syscalls.FindLink | coda-bloccante-implementata/disastrOS_pcb.c:88-97 | the link found leads to the pid; none is found only if there is none |
| Syscalls.TimerPos | coda-bloccante-implementata/disastrOS_timer.c:46-55 | the position behind every timer that expires no later, before one that expires later |
| Syscalls.ResourceById | coda-bloccante-implementata/disastrOS_resource.c:41-50 | the resource found is listed under the id; none is found only if there is none |
| Syscalls.DescriptorByFd | coda-bloccante-implementata/disastrOS_descriptor.c:53-62 | the descriptor found has the number; none is found only if there is none |
| Registries.RegisteredUpdate | coda-bloccante-implementata/bqueue.c:87-95 | changing a queue in place changes what a search for its id finds, and nothing else |
| Registries.RegisteredRemove | coda-bloccante-implementata/disastrOS_bqueue.c:64-65 | taking a queue out of the list removes its id, and no other, from what searches find |
| PoolAllocators.PoolAllocator.Init | coda-bloccante-implementata/pool_allocator.c:19-47 | refuses a buffer that is too small and changes nothing; otherwise all blocks are free, in index order |
| PoolAllocators.PoolAllocator.GetBlock | coda-bloccante-implementata/pool_allocator.c:49-65 | hands out the address of the head of the free list, or nothing exactly when no block is free |
| PoolAllocators.PoolAllocator.ReleaseBlock | coda-bloccante-implementata/pool_allocator.c:67-91 | every offset is classified: not a multiple of the item size, outside the buffer, a block not in use, or a block in use, which becomes the head of the free list; on an error nothing changes |
| PoolAllocators.PoolAllocator.GetThenRelease | coda-bloccante-implementata/pool_allocator.c:49-91 | releasing the address just handed out restores every cell of the free list, its head and its size |
| PoolAllocators.PoolAllocator.AbsWf | coda-bloccante-implementata/pool_allocator.c:19-91 | the free list has no cycle, and free and used blocks together are all blocks |
| PoolAllocators.ListDeterminesChain | coda-bloccante-implementata/pool_allocator.c:39-45 | the array alone determines which blocks are free and in which order |
| PoolAllocators.ChainDeterminesList | coda-bloccante-implementata/pool_allocator.c:80-83 | and is determined by them: a pool restored block by block is restored cell by cell |
| PoolAllocators.AlignedOffset | coda-bloccante-implementata/pool_allocator.c:72-76 | the truncating remainder and quotient recognise exactly the multiples of the item size, negative ones too |
| PoolAllocators.BlocksAreDisjoint | coda-bloccante-implementata/pool_allocator.c:62-64 | different blocks share no byte, and all lie in the buffer |
| PoolAllocators.EraseCommutes | coda-bloccante-implementata/pool_allocator.c:49-91 | the pools of the kernel state, which note what a block is used for, take and give back as the array does |
| Pools.Pool.GiveUndoesTake | coda-bloccante-implementata/pool_allocator.c:49-91 | giving back the block just taken restores the pool with its order |
| LinkedLists.ListHead.Find | coda-bloccante-implementata/linked_list.c:10-19 | finds an item exactly when it is in the list |
| LinkedLists.ListHead.Insert | coda-bloccante-implementata/linked_list.c:21-54 | inserts behind `prev`, or refuses an item that is linked and changes nothing; the only item of this very list is not refused but linked to itself |
| LinkedLists.ListHead.PushBack | coda-bloccante-implementata/linked_list.c:88-90 | appends an item that is not linked, and refuses one that is |
| LinkedLists.ProcessLists.Append | coda-bloccante-implementata/linked_list.c:21-54 | over the three lists that share the link of a process: a process in none of them is not linked, so it is never refused, and the lists stay disjoint |
| LinkedLists.ProcessLists.Allocate | coda-bloccante-implementata/disastrOS_pcb.c:42-44 | clearing the links of a block that is in none of the three lists leaves the lists as they were |
| LinkedLists.ProcessLists.TakeOut | coda-bloccante-implementata/linked_list.c:56-79 | a process taken out of one of them is in none and not linked |
| LinkedLists.ListHead.Detach | coda-bloccante-implementata/linked_list.c:56-79 | removes the item, keeps the order of the others, and leaves the item unlinked |
| LinkedLists.DetachUndoesInsert | coda-bloccante-implementata/linked_list.c:21-79 | taking an item out undoes putting it in, wherever it was put |

## Left out

- Context switches, stacks, signals, the interval timer, `setcontext` and its relatives, and the idle return path of the interrupt: each system call and each tick is one atomic step.
- Shutdown, the dump call, printing, log files and the test programs. With a log file open, the log line after a call that leaves the processor idle reads a null pointer (`disastrOS.c:170-175`); that line is not modelled.
- The table of system calls: numbers out of range, numbers without a handler, and the eight argument slots, of which calls use at most three.
- Overflow of `disastrOS_time`, `last_pid` and `last_fd`, and the truncation of 64-bit arguments to int: integers are unbounded.
- Raw memory: a block is its index, a pointer handed to a call is an integer address in `mem`, where address 0 is null. Addresses that do not belong to the caller, or that alias the kernel's data, are not modelled.
- `Kernel` keeps its lists as sequences and its pools as `Pool` values. That the linked nodes and the array implement those is proved for `ListHead` and `PoolAllocator` on their own; one heap with all of them in it is not built.
- The signal fields of a process and `PCB_byPID`, which no handler uses.
- `internal_preempt`, `List_popFront`, `List_pushFront` and `PoolAllocator_strerror`: one-line wrappers.
- The part of spawn and fork that prepares an execution context. What is left is the same for both, and modelled once.
- A result for a process that blocked in wait, a wake-up of init for the zombies it inherits, an exclusive open that lasts: the code provides none of them.
- PoolAllocators.PoolAllocator.Init: asks for a positive item size and a positive number of items, which the original takes for granted.
