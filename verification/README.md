# Verified model of the Jrinx kernel

Jrinx is a small RISC-V kernel in the style of ARINC 653. This project models its hardest parts in Dafny and proves
what they are for: safety over every run, refinement of a simple description, conservation, and round trips. Each
module stands for one component; algorithms that change memory step by step are methods over arrays, fields and maps,
each proved against a function on values, and the laws are lemmas about those functions and the machines they form.

## What is modelled

* **Buddy allocator** (`BuddySpec`, `BuddyRuns`, `Kalloc`; arithmetic in `Alignment`). A pool is a list of blocks that
  tiles 512 KiB. kalloc drops its lock between claiming a block and splitting it, so claims, splits and frees of
  different callers interleave. `Kalloc.Pool` keeps the block headers, links included, in the words of the pool.
* **ARINC 653 blocking machine** (`TimerQueue`, `Election`, `KernelSpec`, `KernelInv`, `KernelSteps`, `KernelCalls`,
  `KernelTimer`, `KernelFifo`, `KernelRuns`, `KernelSearch`, `KernelHart`). One scheduling hart. A step is the code of a
  call between two scheduling points, a continuation behind a give-up, one turn of a search for the next process, the
  end of a give-up, a dispatch, or a timer interrupt; interrupts come between any two steps. A search that an interrupt
  abandons stays with the process on whose stack it lies, and goes on when that process is dispatched. The history of
  completed transfers is part of the state. `KernelHart.Hart` is the same machine as a class with the loops and
  updates of the kernel. Over its runs are proved: what each step does to every process, list and timer
  (`KernelServices`, `KernelServing`, `KernelTicks`); who executes, and whom nobody may overtake (`KernelPriority`,
  `KernelOvertaken`, `KernelTurns`, `KernelStale`); when each sleep ends (`KernelTimes`, `KernelDeadlines`,
  `KernelRounds`); who is served at an object, who may use it, and whether anybody waits in vain (`KernelArrival`,
  `KernelAccess`, `KernelWakeups`, `KernelDeadlock`); and what becomes of processes, priorities, modes and timer contexts
  (`KernelLives`, `KernelLeaks`, `KernelLost`).
* **Message rings** (`Ring`, `KernelBytes`). The byte ring with 64-bit offsets in which buffers and queuing channels
  keep messages of varying length, refined to a FIFO queue, and to the rings of the blocking machine over every run.
* **Sv39 page tables over counted frames** (`PageTree`, `PageFrames`, `FrameLists`, `Directories`, `Mappings`, `Vmm`).
  The directory built at boot, with the identity mapping of all RAM, and those of the partitions, which begin as its
  copies, are trees of tables in memory that share tables; each refines a flat map. Over all of them, the references of
  a frame minus the counted pages that name it, minus one for a table, never change; pages mapped at boot are not
  counted, and behind a shared root entry one directory counts.
* **Cyclic partition schedule** (`Arithmetic`, `Schedule`, `Scheduler`; composed with the blocking machine in
  `KernelSchedule`).
* **Spinlocks with nested interrupt masking** (`Spinlock`), one memory access or CSR instruction a step, any number of
  harts and locks.
* **ASID generations** (`Bitset`, `Asid`), **trap contexts** (`Contexts`), **devicetree parser** (`Devicetree`),
  **hash map over intrusive lists** (`HashMap`), **configuration printer and parsers** (`BootConf`, `ChannelPorts`).
  `Common` holds optional values and lists without repetition.

## Hypotheses

They are facts about the code that it does not enforce itself.

* STOP does not hit a process that stands on a wait list: the code leaves it there (kern/traps/syscalls.c:297). Both
  this and the next hypothesis are exact: a step keeps the invariant if and only if it meets them
  (`KernelTimer.StepGood`).
* Every dispatch fits: the process that the search of sched_proc found is on no wait list, has no timer, no other
  process is RUNNING, and it still belongs to the current partition or only goes on with a search. sched_proc enables
  interrupts around its search (kern/multitask/sched.c:137-139), so the code does not ensure it. It holds in every run
  in which no timer interrupt during such a search finds an activation or an event of the current partition due
  (`KernelSearch.CalmFits`), and a run in which it fails is given (`KernelStale.TwoRunning`). A run that meets both
  hypotheses is called fitting; one without such interrupts and such STOPs is called calm.
  `KernelRuns.RunFaithful`, `MessagesExact` and `ReadsLastDisplayed` need neither.
* No timer interrupt comes before the first dispatch: with no process current the trap handler would follow a null
  pointer (kern/traps/traps.c:59-60).
* The steps of a call are atomic with respect to interrupts, which kern/traps/syscalls.c:228-247 does not ensure for
  SUSPEND, and so is the look at one list element in a search.
* Clock readings are arbitrary integers; only the theorems of `KernelDeadlines` and `KernelRounds` that say so need them
  in order. The partition and the activation an interrupt brings are arbitrary, but in `KernelSchedule`, where the
  schedule feeds them.
* Objects, processes, ports and the process list of each partition are part of the initial configuration.
* Page tables: pt_map and pt_unmap are used on counted pages, not on those mapped at boot; the caller owns the frame it
  maps, and a directory is not mapped as a page.
* Trap contexts: a process is dispatched on one hart at a time, a trap finds a current process, and a process is reset
  only while it is not current.
* Schedule: periods and durations are positive, offsets are not negative, and the products in the fold of lcm fit the
  machine word. That at most one activation is due per interrupt is shown to be necessary.
* ASIDs: none is freed while a partition of the current generation has it.

## What the code does not do

* kalloc serves every request of at most 2^64 - 40 bytes as intended; above that the padding wraps around
  (`BuddySpec.PaddedNeedExact`).
* pt_walk that cannot get its second table releases the first but leaves it linked (`Vmm.Vmm.PtWalk`).
* pt_map of a page to the frame it is mapped to already, by that frame's only reference, leaves the frame both mapped
  and on the free list (`Vmm.Vmm.PtMap`).
* pa2frame on a page that lies only partly in its memory range yields no descriptor of that range
  (`PageFrames.AddrRoundTrip`).
* sched_proc does not always run the best ready process, nor only one: a search that was interrupted and is resumed
  sets RUNNING what it had found before, even beside another RUNNING process (`KernelStale.TwoRunning`). A dispatch
  keeps the kernel sound if and only if what it found still fits (`KernelCalls.DispatchExactly`).
* A transfer wakes one process, the longest waiting or the one of highest priority, whether the transfer helps it or
  not. With two waiting, the other then waits for what is there already (`KernelWakeups.JustifiedThroughout` says
  exactly when), and two senders and a receiver can wait for ever on a channel that is full (`KernelDeadlock.Deadlock`).
  With one sender and one receiver this cannot happen (`KernelWakeups.NoLostWakeup`).
* A send or receive through a queuing port, or a clear of a full one, wakes a process but does not give up, as one
  through a buffer does. The caller may then execute on while the process it woke is READY with a higher priority
  (`KernelOvertaken.PortOvertakes`), in a calm run in no other way (`KernelPriority.HighestExactly`).
* The timer context of a bounded wait is freed behind the wait. If its process is stopped there, and started again, the
  context is lost for good (`KernelLeaks.ContextsExactly` says exactly when, with a run in `KernelLost.ContextLost`).
* STOP leaves a blocked process on its wait list, from which a later wake-up readies it (`KernelCalls.StopLeavesListed`).
* Two activations due in one interrupt cause one partition switch, and the cursor falls behind for good
  (`Schedule.PhaseExactly`, `Schedule.PhaseIffPunctual`).
* The first module of the schedule runs from launch, not from its offset (`Scheduler.LaunchInPhase`).
* The channel parser cuts a port list in place and then skips only its first name. A list of several ports is read
  correctly as the last item of the last channel; elsewhere it makes the parser fail, as long as no further port is
  named like a key (`BootConf.ParseStumbles`), and with such names it is read correctly only by the coincidence that
  `ChannelPorts.OneChannelExactly` describes for one channel. An empty list is read back as one port without a name
  (`BootConf.PortsRoundTrip`).
* SET_PARTITION_MODE with a number that is no mode returns INVALID_PARAM, but has made it the mode of the partition
  (`KernelHart.Hart.SetPartitionMode`).
* The receive loop of queuing ports declares its deadline anew in every round (kern/traps/syscalls.c:592), so a
  bounded receive can outlast its timeout exactly when a round reads the clock later than the call began
  (`KernelRounds.OutlastsOverRuns`, with a run in `KernelDeadlines.OutlastsTimeout`).

## Model

| member | source | states |
|---|---|---|
| BuddySpec.BuddyIsHeader | kern/mm/kalloc.c:29-39 | In a tiled pool the address get_buddy computes is always the header of another block of the list, no larger than the asking one; if the sizes agree it is the list neighbour on the computed side. |
| BuddySpec.PaddedNeedExact | kern/mm/kalloc.c:66-74 | In 64-bit arithmetic the padded need covers request and header if and only if the request is at most 2^64 - 40; above that it wraps below the smallest block. |
| BuddySpec.SplitKeeps | kern/mm/kalloc.c:90-102 | Halving down keeps the tiling and the absence of equal free buddies, leaves a block that still covers the need and is less than twice as large, and keeps every other block. |
| BuddySpec.StuckHasNoBuddy | kern/mm/kalloc.c:112-113 | When the guard of the merge loop fails, no block of the list is the free buddy of the freed block. |
| BuddySpec.MergeAllKeeps | kern/mm/kalloc.c:111-124 | The merge loop ends in a tiled list without any pair of equal free buddies below 32 KiB, with all used blocks as before. |
| BuddyRuns.ClaimKeeps | kern/mm/kalloc.c:75-88 | The claim step keeps the whole invariant, with the block claimed but not yet split. |
| BuddyRuns.SplitStepKeeps | kern/mm/kalloc.c:89-103 | The later split step of any caller keeps it, whatever happened in between, and grants exactly the front part of the claimed block. |
| BuddyRuns.ReleaseKeeps | kern/mm/kalloc.c:106-126 | Freeing any live block keeps the invariant and the claims of others, and removes exactly that block from the live ones. |
| BuddyRuns.ReachableInv | kern/mm/kalloc.c:41-126 | Over every interleaving of claims, splits and frees: the list tiles the 512 KiB pool in address order with powers of two of at least 64 at aligned offsets, claims stay valid, and no two free buddies of equal size below 32 KiB coexist. |
| BuddyRuns.LiveDisjoint | kern/mm/kalloc.c:66-126 | Two live blocks of a reachable heap never overlap. |
| BuddyRuns.RefusedExactly | kern/mm/kalloc.c:72-87 | kalloc returns NULL exactly when the padded need exceeds 32 KiB or no free block is large enough. |
| BuddyRuns.AllReleased | kern/mm/kalloc.c:106-126 | When everything is freed, every block is free and at least 32 KiB. |
| BuddyRuns.UsedPlusFree | kern/mm/kalloc.c:52-64 | Used plus free bytes equal the pool in every reachable heap. |
| Kalloc.Pool.constructor | kern/mm/kalloc.c:41-50 | The words of the pool hold the header of one free block of pool size. |
| Kalloc.Pool.GetUsed | kern/mm/kalloc.c:52-64 | Walking the links in memory sums the sizes of exactly the used blocks. |
| Kalloc.Pool.FindFit | kern/mm/kalloc.c:76-87 | Walking the links finds the header of the first free block that fits, or none. |
| Kalloc.Pool.Claim | kern/mm/kalloc.c:75-88 | Rewriting one state word is the claim step of the model: it tags the first free block of at least the padded need, and nothing exactly if the request is refused; no payload word changes. |
| Kalloc.Pool.Split | kern/mm/kalloc.c:89-103 | The loop that writes headers and links inside the pool performs the split step, and no payload word of any other block changes, live, claimed by another caller, or free. |
| Kalloc.HalveStored | kern/mm/kalloc.c:91-101 | The five header writes of one halving leave exactly the headers and mutual links of the halved list. |
| Kalloc.MergeStored | kern/mm/kalloc.c:113-121 | The header writes of one merge leave exactly the headers and mutual links of the merged list. |
| Kalloc.Pool.GetBuddy | kern/mm/kalloc.c:29-39 | The address arithmetic yields NULL for a maximal block, and otherwise the header of the buddy in the list. |
| Kalloc.Pool.MergeUp | kern/mm/kalloc.c:111-124 | The merge loop over memory performs the merges of the model and writes no payload of a used block. |
| Kalloc.Pool.Free | kern/mm/kalloc.c:106-126 | kfree performs the release step; a block that is already free is refused and nothing changes. |
| TimerQueue.QueueSorted | kern/traps/timer.c:43-59 | A well-formed queue is in order of due time and holds no event twice. |
| TimerQueue.InsertOk | kern/traps/timer.c:43-59 | Insertion under a fresh identity keeps the queue well-formed. |
| TimerQueue.InsertIsStable | kern/traps/timer.c:50-58 | A new event stands behind all events due no later and before all others. |
| TimerQueue.RemoveOk | kern/traps/timer.c:85-94 | Unlinking an event keeps the queue well-formed. |
| TimerQueue.Queue.Enqueue | kern/traps/timer.c:49-59 | The insertion loop inserts at exactly that place. |
| TimerQueue.Queue.Unlink | kern/traps/timer.c:86-93 | The unlinking loop removes exactly the event asked for, and nothing if it is not queued. |
| Election.BestIsFirstMaximal | kern/multitask/sched.c:117-125 | Normal election picks the first process in list order among those of maximal priority that may run, and none only if none may run. |
| Election.ElectBest | kern/multitask/sched.c:117-125 | The election loop finds the first position of maximal priority among the candidates that may run, and none if and only if none may. |
| Election.ElectRoundRobin | kern/multitask/sched.c:99-115 | The two round-robin loops find, of the candidates that may run at the priority of the current one or a higher one, the one that comes first behind it going round the list, the current one last; none if and only if there is none. |
| Election.RoundRobinExactly | kern/multitask/sched.c:99-115 | The round-robin choice is that position, in whatever way the ready processes of higher, equal and lower priority are mixed. |
| Election.RoundRobinAdvances | kern/multitask/sched.c:99-115 | With all ready processes at or below the current priority, round robin moves to the next ready peer in cyclic list order. |
| Election.RoundRobinVisitsEachOnce | kern/multitask/sched.c:99-115 | n consecutive round-robin elections over n fixed ready peers visit each of them exactly once. |
| KernelInv.Freed | kern/traps/timer.c:85-119 | time_event_free finds the event of the process in the queue, and afterwards no queued event refers to the process. |
| KernelInv.DetachWaiter | kern/traps/syscalls.c:543-548 | Taking a blocked process off its list and freeing its timer leaves it on no list and without a timer, and every other process, list and event consistent. |
| KernelInv.AllocArms | kern/traps/timer.c:43-83 | time_event_alloc queues an event that points back to its process and makes the process point at it; all other events stay. |
| KernelSteps.WakeKeeps | kern/traps/syscalls.c:543-549 | Waking a listed process keeps the invariant: its timer is freed if and only if it has one. |
| KernelSteps.WakeAllFrame | kern/traps/syscalls.c:874-881 | The wake-up loop readies exactly the processes on the list, empties the list and touches no other process. |
| KernelSteps.CompleteGood | kern/traps/syscalls.c:541-552 | Completing a transfer, with the wake-up behind it, keeps the invariant; the running process is on no list of the object, so it is never the one woken, and stays RUNNING. |
| KernelSteps.BlockGood | kern/traps/syscalls.c:714-735 | A round of a blocking loop keeps the invariant whether it times out, or lists the caller with or without a timer. |
| KernelSteps.ResumeGood | kern/traps/syscalls.c:735-742 | Going on behind a give-up keeps the invariant; the timer context freed there exists, belongs to the running process, and no queued event refers to it. |
| KernelCalls.SyscallExactly | kern/traps/syscalls.c:80-935 | Every modelled service keeps the invariant if and only if it is not the STOP of a process of the partition that stands on a wait list. |
| KernelCalls.StopGood | kern/traps/syscalls.c:286-305 | Any other STOP keeps the invariant, and a process of the partition ends DORMANT, without a timer, without an event that targets it, and on no wait list. |
| KernelCalls.StopLeavesListed | kern/traps/syscalls.c:286-305 | STOP of a process that stands on a wait list leaves it there, DORMANT, which is against the invariant; the next wake-up makes it READY though nobody started it. |
| KernelCalls.StopExactly | kern/traps/syscalls.c:286-305 | So STOP keeps the invariant if and only if it hits no such process. |
| KernelCalls.ReleasedGood | kern/traps/syscalls.c:115-120 | Starting normal mode changes exactly the processes on the list of the partition that were started before, and of each nothing but its state, to READY. |
| KernelCalls.GiveUpGood | kern/multitask/sched.c:166-180 | The end of a give-up keeps the invariant: a process that found itself goes on RUNNING, otherwise nobody is RUNNING until the next dispatch. |
| KernelCalls.ScanGood | kern/multitask/sched.c:96-130 | One turn of a search loop, with interrupts possible before and behind it, keeps the invariant. |
| KernelCalls.DispatchExactly | kern/multitask/sched.c:132-143 | A dispatch keeps the invariant if and only if the process found is on no wait list, has no timer, nobody else is RUNNING, and it belongs to the current partition unless all it does is go on with a search; nobody RUNNING afterwards was unfit to run if and only if, besides, the process found is READY, or is the one RUNNING. |
| KernelTimer.FireKeeps | kern/traps/timer.c:125-170 | Firing the first event keeps the invariant; if it is no activation, the process it targets was WAITING and is READY afterwards, without a timer and on no wait list, and no other process changes its state. |
| KernelTimer.FireDueComplete | kern/traps/timer.c:121-174 | After the loop the queue holds exactly the events that are not due yet. |
| KernelTimer.TickGood | kern/traps/timer.c:121-185 | A timer interrupt at any time keeps the invariant. |
| KernelTimer.StepGood | kern/traps/syscalls.c:80-935 | Every step of the machine (call, continuation, turn of a search, end of a give-up, dispatch, interrupt) keeps the invariant if and only if it is neither a dispatch of a process that does not fit nor the STOP of a listed process. |
| KernelRuns.RunSound | kern/traps/syscalls.c:80-935 | Every kernel reached from boot by a fitting run (no dispatch of a process that does not fit, no STOP of a listed process) satisfies the invariant, holds what its history replays to, and has the objects and process lists it was configured with. |
| KernelRuns.RunFaithful | kern/traps/syscalls.c:500-946 | Objects equal the replay of a legal history in every run, whatever its dispatches find and its STOPs hit. |
| KernelRuns.WaitListsExact | kern/traps/syscalls.c:500-935 | In a fitting run, a process stands on the wait list of an object if and only if it is WAITING for a reason of that kind, blocked on that object; it then stands on just one list, once. |
| KernelRuns.TimersExact | kern/traps/timer.c:43-185 | In a fitting run, a process has a timer if and only if it waits for a reason with a timeout; that timer is queued exactly once, is due at the deadline its process compares the clock with (if it does), points back to the process, fits its reason, and its context is not freed and names the object it is listed on. |
| KernelRuns.EventsOwned | kern/traps/timer.c:43-185 | In a fitting run, the queue is sorted, and every event but a partition activation belongs to a waiting process that points at it. |
| KernelRuns.OneRunning | kern/multitask/sched.c:132-143 | In a fitting run, at most one process is RUNNING, and it is the current one, of the current partition; while no give-up is under way the current process is RUNNING. |
| KernelRuns.ElectsFirstMaximal | kern/multitask/sched.c:117-125 | A search by priority finds, of the processes of the partition that are ready or running, the first in list order of maximal priority, and nobody if and only if there is none. |
| KernelRuns.ElectsNextInTurn | kern/multitask/sched.c:99-115 | A round-robin search finds, of those at the priority of the current process or a higher one, the next behind it going round the list, itself last, and nobody if and only if there is none. |
| KernelSearch.SweepElects | kern/multitask/sched.c:96-130 | A search that nothing interrupts ends with the process the election is defined to choose, by priority or round robin. |
| KernelSearch.SearchedByScans | kern/multitask/sched.c:96-130 | That search is a run of single turns of the loops. |
| KernelSearch.CalmFits | kern/multitask/sched.c:132-143 | If no timer interrupt during a search of sched_proc finds an activation or an event of the current partition due, every dispatch of the run fits, and all run theorems hold unless a STOP hits a listed process. |
| KernelStale.TwoRunning | kern/multitask/sched.c:137-142 | Without that condition they fail: in a run from boot, two processes are RUNNING after a dispatch, because an interrupted search went on with what it had found before. |
| KernelTicks.TickExactly | kern/traps/timer.c:121-185 | After an interrupt at which an activation or an event of a process of the current partition is due, nobody is RUNNING, a fresh search by priority is under way, and the search it overtook lies on the stack of the current process; otherwise mode, stacks and the RUNNING process are as before. Exactly the processes with an event due become READY. |
| KernelTicks.GiveUpIs | kern/multitask/sched.c:166-180 | A give-up that finds its own process again leaves it RUNNING; any other hands over to sched_proc by the same rule, with the process READY if it was RUNNING. |
| KernelTicks.DispatchIs | kern/multitask/sched.c:132-143 | A dispatch makes exactly the process found RUNNING and current, and takes exactly the top of its stack. |
| KernelPriority.HighestExactly | kern/multitask/sched.c:96-143 | In every calm run, no process executes below one of its partition that is READY with a higher priority, throughout the run, if and only if no step wakes such a one by a transfer through a queuing port, or by clearing a full one. |
| KernelPriority.StepRanked | kern/multitask/sched.c:96-180 | One step: it keeps the executing process, and what a search has found so far, highest, or it is such a wake-up, and then the executing process is below a READY one. |
| KernelPriority.RunsHighestNext | kern/traps/timer.c:176-184 | In every calm run, the first dispatch behind an interrupt with an activation or an event of the partition due makes a process RUNNING that no READY process of the partition exceeds in priority: a fired process of higher priority than the one interrupted runs then, or one at least as high. |
| KernelPriority.ThroughGiving | kern/traps/syscalls.c:695-757 | Behind a transfer the current process gives up if and only if somebody waited and the object is a buffer. |
| KernelPriority.TurnsStay | kern/multitask/sched.c:96-130 | No turn of a search changes its rule, by priority or round robin. |
| KernelOvertaken.PortOvertakes | kern/traps/syscalls.c:553-563 | A run from boot after which a process executes user code while one of its partition with a higher priority, which its send through a queuing port has woken, is READY. |
| KernelRuns.MessagesExact | kern/traps/syscalls.c:500-818 | In every run each ring is within its capacity, and the messages sent to it with NO_ERROR, in order, are those that left it followed by those it holds; those received, in order, are those that left it and were not cleared. |
| KernelRuns.ReadsLastDisplayed | kern/traps/syscalls.c:860-946 | In every run each blackboard read returned the message displayed last, with no clear and no other display in between. |
| KernelServing.StepServes | kern/comm/buffer.c:119-141 | Whenever a message goes through a ring, or a full one is cleared, exactly one of those waiting becomes READY, if anybody waits: under FIFO the first of the list, under PRIORITY the first in list order of those of maximal current priority; it leaves the list without a timer, the others keep their order. |
| KernelServing.CompleteServes | kern/traps/syscalls.c:741-756 | So does a completed send or receive, which appends its entry to the history, and behind which its process gives up if and only if somebody waited at a buffer. |
| KernelServing.ClearServes | kern/chan/queuing.c:195-217 | Clearing a full port serves one waiting process in the same way; clearing one that is not full touches no process. |
| KernelServing.DisplayServes | kern/traps/syscalls.c:860-884 | A display readies everybody waiting at the board, leaves its list empty and the message shown, and gives up. |
| KernelServing.AttemptEnds | kern/traps/syscalls.c:500-818 | A transfer tried at any step takes place if and only if nothing obstructs it; if something does, it returns NOT_AVAILABLE if and only if it is a first attempt with timeout 0, TIMED_OUT if and only if its deadline has come, and otherwise its process is WAITING as the last on the list, with a timer exactly if the wait is bounded. |
| KernelServing.LoopTimesOut | kern/traps/syscalls.c:735-742 | A process that goes on behind its wait when the time of its timer has come returns TIMED_OUT, whatever the object holds, and nothing else happens. |
| KernelArrival.StepEvolves | kern/chan/queuing.c:187-217 | Every step leaves those who wait at an object in their order, and whoever joins the list joins it last. |
| KernelArrival.FirstComeFirstServed | kern/chan/queuing.c:195-204 | Over every fitting run: a process that came to a ring later than another, both waiting, is not taken by a transfer through a FIFO identifier while the other waits. |
| KernelAccess.SendTriedExactly | kern/traps/syscalls.c:500-516 | A send is tried if and only if the partition of the caller holds the identifier, a port as its source, and the message is neither empty nor too long. |
| KernelAccess.ReceiveTriedExactly | kern/traps/syscalls.c:568-574 | A receive is tried if and only if the partition of the caller holds the identifier, a port as its destination. |
| KernelAccess.ReadTriedExactly | kern/traps/syscalls.c:886-895 | A read is tried if and only if the partition of the caller holds the blackboard. |
| KernelAccess.UntriedChangesNothing | kern/traps/syscalls.c:500-516 | A transfer that is not tried changes nothing. |
| KernelAccess.OnlyOwnObjects | kern/traps/syscalls.c:500-946 | Partitions are kept apart: over every fitting run, whatever is sent, received, displayed, read or cleared, the partition current then holds an identifier of the kind and direction for it. |
| KernelAccess.OnlyOwnContents | kern/traps/syscalls.c:500-946 | No step changes what an object holds in any other way. |
| KernelServices.SetModeExactly | kern/traps/syscalls.c:80-125 | SET_PARTITION_MODE changes nothing from NORMAL to NORMAL or from COLD_START to WARM_START; otherwise the mode is stored, and for NORMAL exactly the processes on the list of the partition that wait for PREVIOUS_STARTED are READY, the caller is DORMANT and giving up, and every other process is unchanged. |
| KernelLives.NobodyLeftBehind | kern/traps/syscalls.c:111-117 | Over every fitting run, in a partition in NORMAL mode no process on its list waits for PREVIOUS_STARTED. |
| KernelLives.DormantExactly | kern/traps/syscalls.c:278-369 | In every calm run a process is DORMANT if and only if it has ended since it was started last: by STOP_SELF, a STOP that found it alive, or as the caller of SET_PARTITION_MODE(NORMAL). |
| KernelLives.PriorityExactly | kern/traps/syscalls.c:186-198 | Over every fitting run a process has the priority it was given last, by a SET_PRIORITY that found it alive, or by its start, which restores its base priority; the base priority never changes. |
| KernelLives.SuspensionReturns | kern/traps/syscalls.c:206-219 | Over every fitting run SUSPEND_SELF returns TIMED_OUT if and only if its process goes on at the clock reading of the call plus the timeout, or later. |
| KernelTimes.AlarmExactly | kern/traps/syscalls.c:408-426 | Over every fitting run a process sleeps in TIMED_WAIT, in SUSPEND_SELF with a timeout, or before a delayed aperiodic start if and only if the call that set its alarm is not followed by an interrupt at its time or later, nor by a STOP or RESUME of it; its one event is due at the clock reading of that call plus its delay. |
| KernelTimes.WakesInTime | kern/traps/timer.c:121-174 | An interrupt leaves such a process asleep, unchanged, if and only if it comes before that time; otherwise the process is READY without a timer behind it. |
| KernelLeaks.StepOwned | kern/traps/syscalls.c:533-548 | Every timer context is named by the bounded wait of its process, which frees it; a step keeps this if and only if it is not the START of a process that was stopped inside a bounded wait. |
| KernelLeaks.ContextsExactly | kern/traps/syscalls.c:312-369 | So over every fitting run no timer context is lost if and only if no such process was started. |
| KernelLost.ContextLost | kern/traps/syscalls.c:286-369 | A run from boot after which there is a timer context, though every process is in user code. |
| KernelDeadlines.FiredTimesOut | kern/traps/syscalls.c:735-742 | In a fitting run with readings of the clock in order, a process whose timeout an interrupt fired returns TIMED_OUT at its next continuation. |
| KernelDeadlines.WaitDue | kern/traps/syscalls.c:500-818 | In every fitting run, the timer of a bounded wait is due at the deadline computed when the call began, or, for a receive from a queuing port, at the one its last round set. |
| KernelDeadlines.OutlastsExactly | kern/traps/syscalls.c:585-600 | One round: it arms a timer later than the first deadline if and only if it is a receive from a queuing port and its last clock reading is past the one the first deadline was computed from. |
| KernelRounds.RoundFound | kern/traps/syscalls.c:500-818 | In every fitting run a process inside a loop is in the call it made last, whose first reading and timeout give its first deadline; its timer is due then, or for a receive from a queuing port a timeout after the last reading of its last round. |
| KernelRounds.WaitsOnExactly | kern/traps/timer.c:121-185 | A timer interrupt leaves a process in its bounded wait if and only if its timer is due later. |
| KernelRounds.OutlastsOverRuns | kern/traps/syscalls.c:585-600 | In every fitting run with readings in order, a process blocked with a timeout can be waiting at or past its first deadline if and only if it receives from a queuing port and some round of that call read the clock later than its beginning. |
| KernelDeadlines.WaitsPastDeadline | kern/traps/timer.c:121-174 | A process still waiting after an interrupt at or past its first deadline is such a receiver, with a later timer. |
| KernelDeadlines.OutlastsTimeout | kern/traps/syscalls.c:585-600 | A run from boot in which a receive with timeout 5 is still blocked after the interrupt at its deadline. |
| KernelFifo.StepMoves | kern/traps/syscalls.c:500-946 | Every step transfers nothing, or exactly one message through exactly one object; TIMED_OUT and NOT_AVAILABLE transfer nothing. |
| KernelFifo.StepFaithful | kern/traps/syscalls.c:500-946 | Every step keeps objects equal to the replay of the history, and the history one that a bounded FIFO queue, or a register, allows. |
| KernelFifo.SentAreGoneOrHeld | lib/circbuf.c:13-43 | In any history a bounded FIFO queue allows, sent equals gone followed by held, and received equals gone minus cleared, in order. |
| KernelTurns.TurnAdvances | kern/traps/syscalls.c:408-415 | TIMED_WAIT(0), with a search that is not interrupted, hands the processor to the next ready peer of the partition in cyclic order. |
| KernelTurns.YieldingIsFair | kern/multitask/sched.c:96-130 | Among n ready processes at the top priority, each is current exactly once in n consecutive yields. |
| KernelWakeups.StepEffect | kern/traps/syscalls.c:500-818 | A step puts one message into a ring or takes one out and wakes exactly one of those waiting; or its process, obstructed, joins the list; or it empties the ring while it is not full; or it leaves the ring aside. |
| KernelWakeups.JustifiedExactly | kern/traps/syscalls.c:541-552 | If everybody waiting at a ring is obstructed (a sender by a full ring, a receiver by an empty one), a step keeps that if and only if it does not transfer, or clear the full ring, past two waiting processes. |
| KernelWakeups.JustifiedThroughout | kern/traps/syscalls.c:500-818 | So over every fitting run, with any number of senders and receivers, every wait is justified throughout if and only if no step transfers past two waiting processes. |
| KernelDeadlock.Deadlock | kern/traps/syscalls.c:500-650 | A run from boot, without timeouts, interrupts or STOP, after which in every continuation two senders and a receiver wait on a queuing channel, the receiver although the channel is full. |
| KernelDeadlock.DeadForEver | kern/multitask/sched.c:96-130 | When every process waits for a transfer without a timer queued, no run leads out. |
| KernelWakeups.StepPair | kern/traps/syscalls.c:500-818 | With one sender and one receiver on a ring of non-zero capacity, every step from a sound kernel keeps every wait justified, because there are never two. |
| KernelWakeups.NoLostWakeup | kern/traps/syscalls.c:500-818 | In every fitting run with one sender and one receiver, timeouts and CLEAR_QUEUING_PORT included, a blocked sender finds the ring full, a blocked receiver finds it empty, and the two are never blocked together. |
| KernelHart.Hart.TimeEventAlloc | kern/traps/timer.c:43-83 | The method performs event allocation as the model defines it. |
| KernelHart.Hart.TimeEventFree | kern/traps/timer.c:85-119 | The method performs event freeing as the model defines it. |
| KernelHart.Hart.WakeUpWaiting | kern/comm/buffer.c:119-141 | The head of the list, or with priority discipline the first in list order of those of maximal current priority; none if and only if nobody waits. |
| KernelHart.Hart.WakeUpAll | kern/traps/syscalls.c:874-881 | The wake-up loop of DISPLAY_BLACKBOARD performs the model's wake-up of all. |
| KernelHart.Hart.BlockOn | kern/traps/syscalls.c:714-734 | A blocking round: new state and reason, list entry, timer context and timer as in the model. |
| KernelHart.Hart.SendMessage | kern/traps/syscalls.c:695-757 | A send performs the model's step and returns INVALID_PARAM for an identifier the partition does not hold, the codes for a wrong length or direction in the order of the code, and then NOT_AVAILABLE, TIMED_OUT or NO_ERROR exactly as its guards say, or nothing if the caller sleeps. |
| KernelHart.Hart.ReceiveMessage | kern/traps/syscalls.c:759-818 | A receive performs the model's step and returns exactly the code its guards say, or nothing if the caller sleeps. |
| KernelHart.Hart.Retried | kern/traps/syscalls.c:735-744 | Behind the give-up the model's step: TIMED_OUT exactly when the wait is bounded and the time its timer was set to has come; otherwise another round. |
| KernelHart.Hart.ClearQueuingPort | kern/traps/syscalls.c:651-672 | Clearing wakes one process if the ring is full, empties the ring, and returns the code of the port check. |
| KernelHart.Hart.DisplayBlackboard | kern/traps/syscalls.c:860-884 | A display performs the model's step, and returns NO_ERROR exactly for a board of the partition and a length between one and the maximum, otherwise INVALID_PARAM. |
| KernelHart.Hart.ReadBlackboard | kern/traps/syscalls.c:886-935 | A read performs the model's step and returns exactly the code its guards say, or nothing if the caller sleeps. |
| KernelHart.Hart.ClearBlackboard | kern/traps/syscalls.c:937-946 | A clear performs the model's step, and returns INVALID_PARAM exactly without a board of the partition. |
| KernelHart.Hart.SuspendSelf | kern/traps/syscalls.c:200-226 | The model's step up to the give-up; INVALID_MODE exactly for a periodic caller; with a timeout the caller is WAITING, its event is due at the clock plus the timeout, and that is the time it will compare the clock with. |
| KernelHart.Hart.SuspendProcess | kern/traps/syscalls.c:228-247 | A suspend performs the model's step and returns exactly the code of the first guard that fails; on success the process is WAITING, suspended, otherwise nothing changes. |
| KernelHart.Hart.ResumeProcess | kern/traps/syscalls.c:249-276 | A resume performs the model's step and returns exactly the code of its guards; on success the process is READY without a timer, otherwise nothing changes. |
| KernelHart.Hart.StopProcess | kern/traps/syscalls.c:286-305 | A stop performs the model's step and returns exactly the code of its guards; on success the process is DORMANT without a timer, otherwise nothing changes. |
| KernelHart.Hart.DelayedStart | kern/traps/syscalls.c:312-369 | A start performs the model's step and returns exactly the code of its guards; on success the process has its base priority and is READY, or WAITING, for a delayed start in normal mode with its event at the clock plus the delay; otherwise nothing changes. |
| KernelHart.Hart.TimedWait | kern/traps/syscalls.c:408-426 | A timed wait performs the model's step; INVALID_PARAM exactly for an infinite delay; unless the delay is zero the caller is WAITING, and its event is due at the clock plus the delay. |
| KernelHart.Hart.SetPriority | kern/traps/syscalls.c:186-198 | The model's step, with the code of the first guard that fails; on success exactly the priority is new, otherwise nothing changes. |
| KernelHart.Hart.SetPartitionMode | kern/traps/syscalls.c:80-125 | The mode change, with its loop over the process list, returns exactly the code of its guards. With NORMAL and NO_ERROR exactly the processes on the list that wait for PREVIOUS_STARTED are READY, the caller is DORMANT and giving up, and no other process changes; NO_ACTION and INVALID_MODE change nothing, and INVALID_PARAM comes only after the invalid mode was stored. |
| KernelHart.Hart.constructor | kern/multitask/sched.c:132-143 | The configured system is put through its first dispatch, with no process current before. |
| KernelHart.Hart.SuspendEnds | kern/traps/syscalls.c:206-219 | Behind the give-up of SUSPEND_SELF the model's step, and TIMED_OUT exactly when the deadline has come. |
| KernelHart.Hart.Scan | kern/multitask/sched.c:96-130 | One turn of the election loops is one step of the model. |
| KernelHart.Hart.Dispatch | kern/multitask/sched.c:137-142 | The end of sched_proc, with proc_run taking up the top of the stack of the process found: its own execution, or a search of its that was interrupted. |
| KernelHart.Hart.GiveUp | kern/multitask/sched.c:166-180 | The end of sched_proc_give_up performs the model's step. |
| KernelHart.Hart.ElectNextProc | kern/multitask/sched.c:96-130 | The loops of sched_elect_next_proc, uninterrupted, return the process the election chooses. |
| KernelHart.Hart.FireAllDue | kern/traps/timer.c:121-174 | The loop over due events fires all of them, and reports whether an activation, or an event of the current partition, was among them. |
| KernelHart.Hart.TimeEventAction | kern/traps/timer.c:121-185 | The timer interrupt performs the step of the model, and from a sound kernel has the effect on every process, the search and the stacks that `KernelTicks.TickExactly` states. |
| Ring.ValueOfBytes | include/types.h:124-127 | The length word in front of a message is read back as it was written. |
| Ring.AdvanceSlot | lib/circbuf.c:27-43 | Advancing an offset by an element modulo the ring size is advancing its slot, cyclically, without 64-bit wrap. |
| Ring.AdvanceFirst | lib/circbuf.c:9-17 | From the initial tail, minus the element size modulo 2^64, the first advance wraps to offset 0. |
| Ring.Reserved | kern/comm/buffer.c:93-100 | Storing length and bytes in the reserved slot makes the message readable there and keeps all queued messages. |
| Ring.CircBuf.constructor | lib/circbuf.c:4-11 | A fresh ring is empty, for every capacity, zero included. |
| Ring.CircBuf.EnqueueStart | lib/circbuf.c:27-30 | The reserved offset is that of the slot behind the last message; the ring still holds what it held. |
| Ring.CircBuf.IsFull | lib/circbuf.c:19-21 | The counter says whether as many messages are queued as the ring can hold. |
| Ring.CircBuf.IsEmpty | lib/circbuf.c:23-25 | The counter says whether nothing is queued. |
| Ring.CircBuf.EnqueueEnd | lib/circbuf.c:32-34 | Counting the element appends the message stored in the reserved slot. |
| Ring.CircBuf.Send | kern/chan/queuing.c:165-174 | Sending appends exactly the message to the queue the bytes stand for. |
| Ring.CircBuf.Receive | kern/chan/queuing.c:176-185 | Receiving returns and removes exactly the oldest message. |
| Ring.CircBuf.Reset | lib/circbuf.c:13-17 | A reset ring holds nothing and works on as a fresh one. |
| KernelBytes.Replay | lib/circbuf.c:4-55 | Performing the transfers of any legal history on a byte ring leaves the queue that history stands for, and gives out the messages received in it. |
| KernelBytes.ReplayRun | kern/traps/syscalls.c:500-818 | So over every run of the kernel machine the byte ring holds the messages of the object of the model, and has given out those received. |
| PageTree.WriteAt | kern/mm/vmm.c:66-100 | Writing one entry of a table tree, a leaf or a pointer to a new table, keeps the tree shape, changes the lookup of exactly the addresses behind that entry, and changes the uses of a frame by exactly the old and the new entry. |
| PageTree.TableUsed | kern/mm/vmm.c:72-97 | Every table but the root is named by some entry. |
| PageTree.SamePageNumber | include/kern/mm/vmm.h:22-36 | Two 39-bit addresses select the same entries exactly when their page numbers agree. |
| PageTree.HardwareAgrees | kern/mm/vmm.c:66-111 | The Sv39 walk (section 4.4 of the RISC-V privileged architecture v1.12) translates an address exactly when the entry pt_lookup reaches is usable as a leaf, and then to that entry's frame. |
| PageFrames.AddrRoundTrip | kern/mm/pmm.c:94-112 | frame2pa inverts pa2frame on a page-aligned address if and only if the page lies wholly inside its memory range. |
| PageFrames.DescRoundTrip | kern/mm/pmm.c:94-112 | pa2frame inverts frame2pa on every frame descriptor. |
| PageFrames.Lookup.AddrToDesc | kern/mm/pmm.c:39-52 | The search over the memory ranges computes the descriptor, or fails outside them. |
| PageFrames.Lookup.DescToAddr | kern/mm/pmm.c:54-63 | The search over the descriptor arrays computes the address, or fails outside them. |
| FrameLists.AllocExact | kern/mm/pmm.c:114-131 | Allocation keeps the free lists exact: without repetition they hold the frames without references that no caller holds. |
| FrameLists.IncExact | kern/mm/pmm.c:161-166 | A new reference keeps them exact if and only if the frame was referenced or held before. |
| FrameLists.DecExact | kern/mm/pmm.c:144-159 | Dropping a reference, and appending the frame to the list of its bank when it was the last, keeps them exact. |
| FrameLists.Pmm.constructor | kern/mm/pmm.c:65-92 | After initialisation the lists are exact, and exactly the frames in use at boot have one reference. |
| FrameLists.Pmm.Alloc | kern/mm/pmm.c:114-131 | Allocation fails exactly when nothing is free, and otherwise hands out the first free frame of the first bank that has one, which is without references. |
| FrameLists.Pmm.RefDec | kern/mm/pmm.c:144-159 | Fails exactly on a frame without references; otherwise one reference less, and when none is left the frame goes last on the list of its bank. |
| Mappings.AttachKeeps | kern/mm/vmm.c:75-78 | Linking a new zeroed table below one directory maps nothing in any, keeps them trees that share tables, and keeps the balance of every frame: references minus counted pages minus one for a table. |
| Mappings.LeafWrites | kern/mm/vmm.c:121-140 | Writing a leaf keeps the tables of the tree, and changes its flat map at exactly this page and the uses of exactly the two frames concerned. |
| Mappings.UnmapKeeps | kern/mm/vmm.c:113-125 | A counted page always has a reference to drop, and clearing it keeps all balances and what every directory maps elsewhere; the directories that share the root entry lose exactly this page too. |
| Mappings.MapKeeps | kern/mm/vmm.c:135-140 | Setting a leaf of a counted page, with one reference more, keeps all balances, and all directories that share the root entry gain exactly this page. |
| Mappings.LeafCounts | kern/mm/vmm.c:121-140 | The count of a frame over all directories changes by exactly the old and the new leaf. |
| Mappings.CopyKeeps | kern/multitask/partition.c:133-139 | The copy of the kernel's directory maps what that maps, shares its tables, and changes no balance. |
| Mappings.SyncKeeps | kern/multitask/partition.c:336-342 | Copying a root entry makes the directory map behind it what the kernel's maps, and changes no balance and no other directory. |
| Directories.ForestKept | kern/mm/vmm.c:66-141 | A write below a root entry of one directory keeps all of them trees that share tables, and changes exactly those that share that root entry. |
| Directories.CopyForest | kern/multitask/partition.c:133-139 | With a copy of the kernel's directory the directories are still trees that share tables, over the same tables, of which none was written. |
| Directories.SyncForest | kern/multitask/partition.c:333-344 | Copying a root entry that a directory lacks keeps the trees and the set of tables. |
| Vmm.Dangling | kern/mm/vmm.c:87-92 | A linked table without a reference breaks the count. |
| Vmm.HardwareSeesMap | kern/mm/vmm.c:127-141 | After a mapping the hardware translates that page to the new frame if it is readable, or executable and not writable, and faults otherwise, below the directory and every one that shares its root entry; it translates every other page, and every page below any other directory, as before. |
| Vmm.BootCounted | kern/mm/pmm.c:82-91 | The state pmm_init leaves is sound, the identity mapping of all RAM included: every table has its reference, and the pages mapped at boot are not counted. |
| Vmm.BootOwned | kern/mm/vmm.c:183-216 | The pages counted from then on are exactly those boot has not mapped. |
| Vmm.CopyOwned | kern/multitask/partition.c:133-139 | In a new directory the counted pages are those the kernel's directory counts and all behind root entries the kernel does not use. |
| Vmm.Boot.PtMap | kern/mm/vmm.c:127-141 | A mapping at boot, where references are not counted, sets exactly this page and keeps all tables among the pages palloc has handed out. |
| Vmm.Vmm.constructor | kern/mm/vmm.c:207-215 | From any state boot can build and the references pmm_init gives, the directories are fit. |
| Vmm.Vmm.PtLookup | kern/mm/vmm.c:102-111 | The walk over memory returns the valid entry of the flat map, or none. |
| Vmm.Vmm.PtWalk | kern/mm/vmm.c:66-100 | On success the directories are fit and have grown without mapping anything; on failure they are still fit if and only if the first table was there already or nothing could be allocated at all. |
| Vmm.Vmm.PtUnmap | kern/mm/vmm.c:113-125 | Unmapping a counted page removes exactly this page from the directory and those that share its root entry, drops one reference of its frame, keeps all balances, and changes only tables below the root. |
| Vmm.Vmm.PtMap | kern/mm/vmm.c:127-141 | A success sets exactly this page in the directory and those that share its root entry, keeps all balances, changes only tables and free frames, and leaves the directories fit if and only if it did not remap the page to a frame whose only reference is that page; a failure leaves them fit if and only if the first table was there or nothing was free. |
| Vmm.Vmm.NewDirectory | kern/multitask/partition.c:133-139 | It fails exactly when nothing is free; otherwise one more directory maps what the kernel's maps, no balance and no other directory changes, and the directories are fit. |
| Vmm.Vmm.SyncDirectory | kern/multitask/partition.c:336-342 | Behind every root entry it lacked the directory maps what the kernel's maps; it maps the rest, and the others map everything, as before. |
| Vmm.Vmm.SyncAll | kern/multitask/partition.c:333-344 | The same for all partitions, and the directories stay fit. |
| Arithmetic.ComputeGcd | lib/arithmetic.c:3-9 | The loop computes the greatest common divisor. |
| Arithmetic.GcdDivides | lib/arithmetic.c:3-9 | It divides both arguments. |
| Arithmetic.Bezout | lib/arithmetic.c:3-9 | It is an integer combination of both, so every common divisor divides it. |
| Arithmetic.LcmLeast | lib/arithmetic.c:11-13 | lcm divides every common multiple. |
| Arithmetic.LcmAllIsLeast | kern/multitask/sched.c:66-70 | The fold over the partitions is a multiple of every period and divides every common multiple of them. |
| Schedule.ActivationsInsert | kern/traps/timer.c:49-59 | Among all events of the queue, inserting an activation inserts its time into the sorted list of activation times. |
| Schedule.ActivationsDue | kern/traps/timer.c:121-174 | The activations an interrupt consumes are the due prefix of the activation times. |
| Schedule.OneDueKeepsPhase | kern/multitask/sched.c:145-164 | In phase, an interrupt with one due activation makes the module of that activation current, and the schedule stays in phase. |
| Schedule.PhaseExactly | kern/traps/timer.c:176-181 | The cursor ends on the module of the last consumed activation if and only if the interrupt consumed just one. |
| Schedule.PhaseForever | kern/multitask/sched.c:145-164 | Over every run with at most one due activation an interrupt, activations fire in cyclic order at launch + offset + k * major frame, each makes its own module current, and the next n of them are queued. |
| Schedule.PhaseIffPunctual | kern/multitask/sched.c:145-164 | After any run of interrupts the schedule is in phase if and only if no interrupt ever found two activations due: otherwise it never is in phase again, for lack of an activation. |
| Schedule.CycledCounts | kern/multitask/sched.c:145-164 | The j-th activation of the cycle is that of module j mod n in frame j div n. |
| KernelSchedule.StepKeepsActs | kern/traps/syscalls.c:80-935 | No step of the kernel machine but an interrupt changes the partition or the queued activations, whatever it does to other events. |
| KernelSchedule.RunCouples | kern/multitask/sched.c:145-164 | Over every fitting run whose interrupts are fed by the schedule, the kernel holds the activations of the schedule and runs its partition. |
| KernelSchedule.PartitionsCycle | kern/multitask/sched.c:145-164 | In such a run from a schedule in phase with at most one activation due an interrupt, the current partition is that of module j mod n after j activations, the process that executes belongs to it, and the next n activations of the cycle are queued. |
| KernelSchedule.CycleExactly | kern/multitask/sched.c:145-164 | It is so if and only if no interrupt of the run found two activations due. |
| KernelSchedule.LaunchCouples | kern/multitask/sched.c:77-93 | The system behind the launch and the first switch is coupled to its schedule, in phase. |
| Scheduler.ChainedOrdered | kern/multitask/sched.c:42-48 | The pairwise checks at adding and the check at launch together order all modules within the major frame. |
| Scheduler.LaunchInPhase | kern/multitask/sched.c:77-93 | Launch and the first switch put the schedule in phase; the first module runs at once, which is the time of its first activation, launch plus offset, if and only if its offset is zero. |
| Scheduler.Scheduler.ModuleAdd | kern/multitask/sched.c:32-56 | A module is refused exactly when it begins before the last one ends. |
| Scheduler.Scheduler.MajorFrame | kern/multitask/sched.c:66-70 | The loop computes the least common multiple of all periods, under the overflow bound. |
| Scheduler.Scheduler.Launch | kern/multitask/sched.c:62-94 | Launch fails exactly without partitions or with a module outside the major frame; otherwise one activation is queued for every module but the first. |
| Scheduler.Scheduler.SwitchPartition | kern/multitask/sched.c:145-163 | The switch performs the model's transition; without modules the first partition runs. |
| Spinlock.StepKeeps | kern/lock/lock.c:21-56 | Every instruction of every hart keeps the invariant. |
| Spinlock.MutualExclusion | kern/lock/spinlock.c:8-21 | At most one hart has a lock; it is marked locked exactly while some hart has it; the recorded owner is exactly the hart between its claim and its disowning. |
| Spinlock.MaskedWhileHolding | kern/traps/traps.c:85-93 | A hart that has any lock runs with interrupts off. |
| Spinlock.ChecksExact | kern/lock/lock.c:21-42 | lk_acquire refuses exactly a hart that already holds the lock, lk_release exactly one that does not, however other harts interleave with the unlocked reads. |
| Spinlock.PopRestores | kern/traps/traps.c:76-93 | The outermost pop restores the interrupt state seen at the outermost push; an inner pop leaves interrupts off. |
| Bitset.IsolateLowest | include/bitset.h:19 | i & -i keeps exactly the lowest set bit. |
| Bitset.Ffs64Finds | include/bitset.h:6-30 | ffs64 returns one more than the index of the lowest set bit. |
| Bitset.Ffs64None | include/bitset.h:6-30 | ffs64 returns zero if no bit is set. |
| Asid.ClearAt | include/bitmap.h:25-32 | The first word that is not full, and its first clear bit, give the least clear index of the bitmap. |
| Asid.Bitmap.FindFirstZero | include/bitmap.h:25-32 | The search returns the least clear index, or an index past the bitmap when it is full, whatever word follows it in memory. |
| Asid.Hart.Alloc | kern/mm/asid.c:56-68 | Allocation fails exactly when all identifiers up to the maximum are in use, and otherwise takes the least free one. |
| Asid.Hart.Free | kern/mm/asid.c:70-80 | Freeing refuses an identifier out of range or not in use, and otherwise clears exactly its bit. |
| Asid.Hart.AllocAnew | kern/multitask/process.c:171-173 | Behind asid_inc_generation the allocation cannot fail: it clears the bitmap but for the identifier 0 that it takes. |
| Asid.Hart.Refresh | kern/multitask/process.c:170-175 | A partition of the current generation changes nothing; an older one gets the least free identifier, or, exactly if all are taken, the first of a new generation; then it is of the current generation, and all partitions of that hold pairwise distinct identifiers in range, each marked in use. |
| Contexts.StepKeeps | kern/traps/traps.c:18-148 | Creations, traps, returns, give-ups, preemptions, dispatches and resets on any number of harts, traps and preemptions of a search included, keep the 512 contexts partitioned among the free list, the harts and the process stacks. |
| Contexts.ReturnsToHead | kern/traps/traps.c:118-123 | The context a returning handler unlinks, of a call, of an interrupt of a process or of an interrupt of a search, is always the head of the stack of the current process. |
| Contexts.ResetKeeps | kern/multitask/process.c:90-116 | The reset of a process that is not current never lacks a context, and leaves it with one fresh context. |
| Contexts.CreateKeeps | kern/multitask/process.c:118-153 | A new process gets its context whenever the pool is not empty. |
| Contexts.RunInv | kern/traps/traps.c:18-148 | The invariant holds after every run from initialisation. |
| Contexts.LinkedOnce | kern/traps/traps.c:18-148 | In every run each of the 512 contexts is linked, and nowhere twice: in the pool, at one hart, or in the stack of one process, once. |
| Contexts.RunReturns | kern/traps/traps.c:102-148 | In every run a returning handler finds its context at the head, and a process that is not current has a context to be dispatched with and one to be reset with. |
| Contexts.Traps.constructor | kern/traps/traps.c:38-48 | After initialisation every hart has its own context, all others are free, and there is no process. |
| Contexts.Traps.PrepareNestedTrap | kern/traps/traps.c:57-64 | The method performs the trap step, while a process executes and while its hart searches. |
| Contexts.Traps.ReturnFromTrap | kern/traps/traps.c:118-124 | The method performs the return step: the head of the stack becomes the hart's context. |
| Contexts.Traps.GiveUpProcessor | kern/multitask/sched.c:166-180 | Giving up saves the process in one more context at the head of its stack. |
| Contexts.Traps.LeaveHandler | kern/multitask/sched.c:132-143 | A handler that leaves for sched_proc changes no list: what it interrupted stays on the stack, to be taken up by a dispatch. |
| Contexts.Traps.ProcRun | kern/multitask/process.c:159-164 | The method performs the dispatch step. |
| Contexts.Traps.ProcReset | kern/multitask/process.c:90-116 | The freeing loop and the new context; it panics exactly when nothing is free behind the loop. |
| Contexts.Traps.Restart | kern/multitask/process.c:90-116 | It never panics for a process that is not current. |
| Contexts.Traps.ProcAlloc | kern/multitask/process.c:118-153 | The reset of a new process, whose list is empty, performs the creation step, and panics exactly when the pool is empty. |
| Devicetree.NodeParsed | kern/drivers/devicetree.c:28-110 | Wherever in a structure block the encoding of a tree stands (section 5.4 of the Devicetree Specification), with NOPs anywhere between tokens, parsing yields the same names, child order and properties and ends just behind the matching END_NODE. |
| Devicetree.LoadsEncoded | kern/drivers/devicetree.c:112-136 | A block that begins with the encoding of a tree is loaded as that tree. |
| Devicetree.PropMapExact | kern/drivers/devicetree.c:61-88 | With distinct property names every property keeps its value and there are no others. |
| Devicetree.Load | kern/drivers/devicetree.c:28-110 | The cursor loops and the recursion compute the parse, errors included. |
| Devicetree.LoadProps | kern/drivers/devicetree.c:61-88 | The property loop computes the property map. |
| Devicetree.LoadChildren | kern/drivers/devicetree.c:90-110 | The child loop computes the children and the position behind the node. |
| Devicetree.Iterate | kern/drivers/devicetree.c:167-188 | The traversal calls back exactly the matching nodes, in preorder, up to the first error, and reports whether there was one. |
| Devicetree.InDocumentOrder | kern/drivers/devicetree.c:167-188 | That preorder meets every node of the tree exactly once, each before those that come later in the document. |
| HashMap.UnlinkChain | include/list.h:102-107 | Unlinking a node anywhere in a bucket through its prev slot leaves the chain of the other nodes, each prev still naming the slot that holds its node. |
| HashMap.InsertChain | include/list.h:93-100 | Inserting at the head leaves a chain with the node in front. |
| HashMap.UnlinkOk | lib/hashmap.c:17-22 | Unlinking a node takes exactly its key out of the map and leaves all buckets well-formed. |
| HashMap.InsertOk | lib/hashmap.c:23-24 | Inserting a node with a new key adds exactly that key, in the bucket of its code. |
| HashMap.TraverseNext | lib/hashmap.c:17-22 | A traversal that follows next from a node it just unlinked still meets exactly the remaining nodes of the bucket. |
| HashMap.Table.Put | lib/hashmap.c:11-24 | Put binds the key to the node and changes no other key; h_num stays the number of keys. |
| HashMap.Table.Remove | lib/hashmap.c:26-36 | Remove takes out exactly the key. |
| HashMap.Table.Get | lib/hashmap.c:38-48 | Get returns the node of the key, or none exactly when the key is absent. |
| BootConf.AtoiDecimal | lib/string.c:97-111 | atoi reads back a printed number if and only if it fits an int. |
| BootConf.PortsRoundTrip | kern/lib/bootargs.c:278-293 | Splitting a joined port list at & gives the list back if and only if it is not empty. |
| BootConf.ParseEncoded | scripts/python/sysconf.py:21-53 | The kernel rebuilds every printed configuration, whatever the order of items: same records, same value for every key, ports included; in the channel section a list of several ports has to be the last item of the last record. |
| BootConf.ParseStumbles | kern/lib/bootargs.c:278-309 | That condition is exact as long as no further port is named like a key: elsewhere in the section a list of several ports makes the parser fail, because it goes on at the second port. (With such names it can succeed: see the next two rows.) |
| ChannelPorts.OneChannelExactly | kern/lib/bootargs.c:278-309 | A channel section of one record is rebuilt, whatever its ports are called, if and only if there is one port, or the list is the last item, or the ports but the first pass for the items behind it: in either order, or for all but the one that the parser then reads where it stands. |
| ChannelPorts.PortsPass | kern/lib/bootargs.c:278-309 | With ports named type and queuing a section is rebuilt whose list of ports comes first. |
| BootConf.ParseOthers | kern/lib/bootargs.c:57-245 | The partition, scheduler and queuing-port sections are rebuilt without that condition. |
| BootConf.AsMapExact | kern/lib/bootargs.c:71-104 | The rebuilt record has exactly the printed keys and values. |
| BootConf.Cut | kern/lib/bootargs.c:58-72 | The loop over the characters overwrites the separators and counts the records. |
| BootConf.ParseSection | kern/lib/bootargs.c:57-119 | The loops over the character array compute the parse of the text. |

## Left out

- Unimplemented services (semaphores, events, mutexes, sampling ports, periodic wait, preemption lock) and getters: stubs and field reads.
- Creation of objects and processes, and the identifiers they get: part of the initial configuration of the blocking machine.
- The kernel machine on several harts: it runs on one scheduling hart; locks, trap contexts and ASIDs are modelled for any number of harts or for each of them.
- FAULTED: no code sets the state; the services test it as the kernel does.
- KernelHart.Hart: wait lists and the event queue are sequences; the links of their intrusive lists are modelled in `HashMap` alone.
- Vmm.Vmm.PtUnmap, Vmm.Vmm.PtMap: pages mapped at boot are excluded; no caller of the kernel unmaps one, and the reference count of such a frame does not include the mapping.
- KernelBytes: the byte rings run beside the blocking machine, from its history, and not inside `KernelHart.Hart`.
- Freeing a directory: no code does it.
- Page-table entries are records of their bit fields; the packing of the fields into a word and TLB flushes are not modelled.
- FrameLists.Pmm: a frame is named by its page number; that descriptors and pages correspond one to one is proved in `PageFrames`.
- Schedule: event identities and other events matter only through the sorted queue; wrap-around of the clock is not modelled.
- Spinlock: memory ordering; every access is atomic and seen at once, as the fences demand.
- Asid.Hart: the generation counter is unbounded, that of the kernel wraps after 2^64 generations.
- Contexts: the saved registers; only where a context is linked.
- Devicetree.Load: reads past the data are errors; the kernel does not check for them. Header, reservation entries and dt_match_strlist are not modelled.
- HashMap.Table: the hash functions; any code function will do.
- BootConf.ParseSection: reads past the last token are errors; the kernel reads on in foreign memory. Splitting the boot arguments at spaces and the creation of what the records describe are not modelled.
- UART, PLIC, RTC, SBI, CSR access, ELF loading, logging, formatted output, boot sequence, user programs, test runner: hardware effects or input and output.
- Partition memory quota: it is decremented without a check for kernel stacks, so there is no conservation law to prove.
