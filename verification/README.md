# PandOSsh, verified

A Dafny model of the PandOSsh kernel and proofs about it, in the kernel's three layers.

**Phase 1: lists, PCBs, semaphore list.** `Lists`, `Processes` and `Asl` are the pointer code:
circular doubly linked rings of `ListHead` objects that are relinked in place, the free list, the
process queues and the lists of children threaded through the PCB table, and the table of
semaphore descriptors with its two lists. `Queues` holds the functions on sequences that the
pointer code is proved to compute, `AslView` the map from semaphore addresses to FIFO queues that
the semaphore list means.

**Phase 2: the Nucleus.** Every handler of the Nucleus ends by loading a processor state, passing
up, waiting, halting or panicking, so one exception is one atomic step. `Nucleus` and `NucleusRun`
give the globals as a value `State` and the exception handler as a function `Step` on it;
`Termination` gives `terminateProcess` and `FreeOrder` its order. The invariant (`NucleusInvariant.Inv`) says that every PCB
is in exactly one place, that live processes form one tree, that counters and tables agree with
the queues, and that semaphore values agree with queue lengths. `NucleusHistory` proves it of boot
and of every run. What the kernel promises is proved from it: `Control` and `Calls` say where the
processor goes after each exception and with which registers, `Resumption` and `Heritage` what that
means over runs, `Wakeups`, `Devices` and `Priority` who becomes ready and in which order, `CpuTime`
and `Charging` who is charged for which time, `Verdict` when the machine waits, halts or panics, and
`Slack` what device semaphores count. `NucleusWitness` gives the runs from boot in which what fails
does fail. `Kernel` is the handlers as they run, a class whose methods update arrays
and fields in place, each proved to make exactly the step of the model; `Marking` bridges the one
place where the code's intermediate states differ from the model's, the marking and detaching
inside the recursion of `terminateProcess`.

**Phase 3: the Support Level's virtual memory.** `Vm` is a machine in which up to eight U-procs
are program counters that move through the pager and through termination, one uninterruptible
action at a time, in any interleaving, with flash devices that move blocks whenever they like
while busy and report READY or an error. `VmInvariant` keeps mutual exclusion, frame exclusivity
and TLB coherence through every action, errors included. `Paging` gives what each page holds, and
proves which actions change it: as long as operations end READY, virtual memory refines flat
memory, and after an error every page does but those that a stale swap pool entry names.
`PagerService` proves that a page fault is served, whoever else is at the swap pool, unless a flash
operation fails, and that a trap ends the U-proc. `PagingHistory`, `Residency` and `WaitChain` prove
what else holds over whole runs, errors included, and `VmWitness` gives the runs from `test` in
which what fails does fail. `SupportCode` is the routines of the pager and of termination as they run in place, `SoloRuns` proves that what they compute is a
run of the machine, and `EntryHi` is the bit arithmetic of page table entries. `Decimal` is the user
library's integer conversion.

Conventions: `Id` is an index into the PCB table (or the descriptor table); a semaphore is
`Word(addr)` outside the kernel or `Dev(i)`, an element of `devSems`; a `Clock` holds the
successive readings of STCK in one handler. `dafny verify dfyconfig.toml` checks everything.

Facts about the code that the theorems record:

- Terminating a process that waits for a device or the clock leaves the semaphore value alone. For
  ordinary semaphores the queue length is exactly `max(0, -value)` (`NucleusInvariant.Sems`). For
  `devSems` value and queue drift apart by one for every waiter terminated and together by one for
  every completion nobody waits for (`Slack.StepExcess`): a level semaphore stays level through an
  exception iff none of its waiters is terminated (`Slack.StepLevel`), and some run from boot loses
  the level (`NucleusWitness.LevelLost`).
- The terminal transmitter wakes its process at the tail of the ready queue. That is the one step
  at which the queue can lose its priority order, and it does exactly when the woken process
  outranks the tail (`Priority.StepSorted`); some run from boot loses the order
  (`NucleusWitness.OrderLost`).
- A pager that gives up after an eviction, for a failed write or a failed read, leaves a swap pool
  entry that names a page it no longer holds. A page that no such entry names keeps its content and
  its residency through every error. A page that one names is lost when the stale frame is chosen
  again and holds something else, or at once when the write fails before the block has moved and
  the block holds something else; in no other case (`Paging.StepExact`, `PagingHistory.RunExact`,
  `PagingHistory.ErrorsContained`). Loaded again, it is evicted before sixteen choices have passed
  (`Residency.ResidentExact`). `VmWitness.StoreLost` is a run from `test` in which one failed write
  leads to both, and a store is lost without any further error. Exclusivity survives all of it
  (`PagingHistory.AlwaysExclusive`).
- Launching an ASID over TLB entries left behind by its last U-proc is safe exactly when none of
  them is valid (`PagingHistory.LaunchExact`, `PagingHistory.LaunchRefines`). Termination does not
  clear the TLB, so a run can get there with a valid one, and the U-proc launched then would read
  what the last one wrote (`VmWitness.StaleRelaunch`); the machine launches only where none is left.
- The TLB-refill handler has no range check; it stays inside the page table for the pages of the
  logical address space and for one page more, which it takes for the stack (`EntryHi.RefillInRange`).
- `u_itoa` is right for every 32-bit value but the least, for which it writes only the sign.
- New descriptors are appended to the semaphore list, which is therefore not sorted by address,
  whatever the documentation says.

## Model

| member | source | states |
|---|---|---|
| Lists.RingUnique | headers/listx.h:231 | the links of a list determine its contents and their order |
| Lists.InsertBefore | headers/listx.h:104-109 | linking a node in front of position k gives the ring with the node at position k, both directions |
| Lists.AddTail | headers/listx.h:131-133 | list_add_tail appends to the ring |
| Lists.Delete | headers/listx.h:143-159 | list_del takes position k out of the ring and leaves the node a ring of its own |
| Lists.IsEmpty | headers/listx.h:180-182 | the test on the head's successor is emptiness of the ring |
| Processes.ProcessTable.InitPcbs | phase1/pcb.c:8-17 | the free list holds all 20 PCBs in table order, none with a pid |
| Processes.ProcessTable.FreePcb | phase1/pcb.c:20-22 | the PCB goes to the end of the free list |
| Processes.ProcessTable.AllocPcb | phase1/pcb.c:25-43 | the first free PCB leaves the list cleared and with the next pid; nothing happens when none is free |
| Processes.ProcessTable.InsertProcQ | phase1/pcb.c:56-67 | the ring becomes the priority insertion of its contents, behind every process of the same priority |
| Processes.ProcessTable.HeadProcQ | phase1/pcb.c:70-73 | returns the first process of the queue, none for an empty one |
| Processes.ProcessTable.RemoveProcQ | phase1/pcb.c:76-82 | the first process leaves the ring and is returned, alone in its own ring |
| Processes.ProcessTable.OutProcQ | phase1/pcb.c:85-97 | the process leaves the ring from any position, and is found iff it is there |
| Processes.ProcessTable.InsertChild | phase1/pcb.c:104-107 | the child becomes the parent's last child and points to it |
| Processes.ProcessTable.RemoveChild | phase1/pcb.c:110-118 | the first child leaves the list of children and loses its parent |
| Processes.ProcessTable.OutChild | phase1/pcb.c:121-127 | the process leaves its siblings from any position, and nothing happens without a parent |
| Queues.InsertSorted | phase1/pcb.c:56-67 | insertion into a sorted queue is stable: sorted, members kept in order, newcomer behind its equals |
| Queues.AppendSorted | phase2/interrupts.c:178 | appending keeps a queue sorted iff it was sorted and its tail does not rank below the newcomer |
| Queues.WithoutSorted | phase1/pcb.c:85-97 | removal of any set of members keeps the order of the rest |
| AslView.KeysInUse | phase1/asl.c:30-31 | as many semaphore addresses are in use as descriptors are active; the free list is empty iff 20 are |
| AslView.InsertKnownEffect | phase1/asl.c:21-28 | for an address in use the map's queue grows at its tail |
| AslView.InsertNewEffect | phase1/asl.c:29-40 | for a new address the map gains a queue of one, and descriptors stay partitioned |
| AslView.LeaveEffect | phase1/asl.c:49-58 | leaving a queue is removal from the map's queue, and the address goes with its last process |
| AslView.InsertIsNucleus | phase1/asl.c:19-41 | what insertBlocked does to the map is what the Nucleus model assumes of it |
| Asl.ActiveSemaphoreList.InitAsl | phase1/asl.c:8-16 | all 20 descriptors are free and the map is empty |
| Asl.ActiveSemaphoreList.Find | phase1/asl.c:22-23 | the walk over the active list finds the descriptor of an address iff it has one |
| Asl.ActiveSemaphoreList.InsertBlocked | phase1/asl.c:19-41 | the linked list refines insertion into the map; it fails iff the address is null or new with all descriptors in use |
| Asl.ActiveSemaphoreList.RemoveBlocked | phase1/asl.c:44-64 | the head of the address's queue leaves the map's queue and is returned, none if there is no queue |
| Asl.ActiveSemaphoreList.OutBlocked | phase1/asl.c:67-97 | the process leaves the queue its semaphore address names from any position, and is found iff it is there |
| Asl.ActiveSemaphoreList.HeadBlocked | phase1/asl.c:100-112 | returns the head of the address's queue without removing it |
| NucleusInvariant.PickInv | phase2/scheduler.c:42-71 | choosing what runs keeps every PCB in one place and all counters right |
| NucleusInvariant.SchedulerInv | phase2/scheduler.c:22-72 | the scheduler keeps the invariant and leaves no yielded process |
| NucleusInvariant.DescriptorAvailable | phase2/exceptions.c:125 | while one PCB is unblocked at most 19 descriptors are in use, so the ignored result of insertBlocked is never failure |
| BlockAndWake.ParkInv | phase2/exceptions.c:106-127 | blocking the current process keeps the invariant, for devices, the clock and ordinary semaphores |
| BlockAndWake.DeliverInv | phase2/interrupts.c:165-223 | completing a device operation keeps the invariant, whether or not the waiter was terminated |
| BlockAndWake.WakeSleepersInv | phase2/interrupts.c:114-120 | draining the clock queue keeps the invariant |
| BlockAndWake.VerhogenInv | phase2/exceptions.c:378-403 | VERHOGEN keeps the invariant |
| Lifecycle.SlotAvailable | phase2/exceptions.c:130-138 | when a PCB is free the active table has a free slot, so activeProcs_add never panics |
| Lifecycle.CreatedInv | phase2/exceptions.c:295-330 | creation keeps the invariant: placement, tree, unique pids, counters |
| Lifecycle.KillLeafInv | phase2/exceptions.c:165-213 | terminating a process without children keeps the invariant |
| Termination.TerminateTree | phase2/exceptions.c:157-218 | the recursion ends, keeps the invariant, frees at least the process named and no older one |
| Termination.TerminateExact | phase2/exceptions.c:157-218 | exactly the subtree is freed; other PCBs, their links and all queue orders stay; counts drop and ordinary semaphores rise by what was removed |
| FreeOrder.TerminateOrder | phase2/exceptions.c:164-213 | the PCBs join the free list in postorder: the first child's descendants, that child, then the next child's, the process last |
| Termination.SubtreeSplits | phase2/exceptions.c:166-168 | the subtree is the first child's subtree and, disjointly, what is under the process afterwards |
| NucleusRun.FindLive | phase2/exceptions.c:149-155 | the process found by pid is live and has that pid |
| NucleusRun.PassUpOrDieInv | phase2/exceptions.c:484-498 | passing up or dying keeps the invariant |
| NucleusRun.SemOfCommandRange | phase2/exceptions.c:405-431 | every device register address decodes to a device semaphore, never to the clock |
| NucleusRun.CreateInv | phase2/exceptions.c:295-330 | CREATEPROCESS keeps the invariant, with and without a free PCB |
| NucleusRun.SyscallInv | phase2/exceptions.c:276-482 | every system call keeps the invariant |
| NucleusRun.InterruptInv | phase2/interrupts.c:65-237 | every interrupt keeps the invariant |
| NucleusRun.StepInv | phase2/exceptions.c:228-274 | every exception keeps the invariant: one place per PCB, one tree, agreeing counters, tables and semaphores |
| NucleusHistory.BootInv | phase2/initial.c:46-90 | boot establishes the invariant and dispatches the first process |
| NucleusHistory.RunInv | phase2/exceptions.c:228-274 | the invariant, the exact verdict and honest processor time hold in every state of every run |
| NucleusHistory.RunSorted | phase2/scheduler.c:42-48 | in runs without an overtaking transmitter interrupt the ready queue stays sorted |
| NucleusHistory.OneRoot | phase2/exceptions.c:295-330 | every live process descends from the boot process |
| NucleusHistory.EmptyIffRootGone | phase2/exceptions.c:157-218 | the system is empty iff the boot process has been terminated |
| Verdict.StepSettled | phase2/scheduler.c:42-71 | after every exception what the processor does is the scheduler's exact verdict |
| Verdict.VerdictExact | phase2/scheduler.c:53-71 | HALT iff none is live; WAIT iff nothing can run and one waits for a device or the clock; PANIC iff all live ones are blocked on ordinary semaphores |
| Verdict.DeadlockForever | phase2/scheduler.c:69-71 | no sequence of interrupts ever wakes a process of a deadlocked system |
| Verdict.WaitCanWake | phase2/scheduler.c:59-67 | WAIT is never a deadlock: some interrupt makes a process run |
| Verdict.CompletionDelivers | phase2/interrupts.c:135-224 | for every device semaphore there is an interrupt whose handler serves it |
| CpuTime.TotalBound | phase2/exceptions.c:84-91 | all charges together fit between boot and the last clock reading |
| CpuTime.StepTime | phase2/exceptions.c:84-112 | charges cover disjoint intervals, and a process's time is the sum of its own |
| CpuTime.RunningCharged | phase2/exceptions.c:228-232 | the time from a dispatch to the next exception is charged to the process that ran |
| Wakeups.FindExact | phase2/exceptions.c:149-155 | the search by pid finds the one live process with it, if there is one |
| Wakeups.StepOutcome | phase2/interrupts.c:109-224 | a process dies iff it is in the terminated subtree; otherwise its PCB changes only by the wake-up its semaphore is owed, with the right status |
| Devices.DecodeInverts | phase2/exceptions.c:405-431 | DOIO on a sub-device's command register blocks on that sub-device's semaphore |
| Devices.AckMatchesCommand | phase2/interrupts.c:151-212 | the handler acknowledges the sub-device whose command register decodes to the semaphore it serves |
| Devices.StepFifo | phase1/asl.c:19-97 | every exception keeps every semaphore queue first in, first out |
| Priority.DispatchBest | phase2/scheduler.c:42-48 | on a sorted queue dispatch picks the oldest process of the highest priority |
| Priority.YieldYields | phase2/scheduler.c:28-40 | YIELD runs the head iff it ranks at least as high, and queues the yielder behind its equals |
| Priority.StepSorted | phase2/interrupts.c:178 | the ready queue stays sorted through an exception iff no transmitter wake-up overtakes the tail |
| Slack.StepSems | phase2/exceptions.c:405-449 | a device semaphore falls by a wait for it, rises by a completion while it is negative, is zero after the clock tick, and no termination touches it |
| Slack.StepExcess | phase2/exceptions.c:187-203 | value and queue drift apart by the waiters terminated, together by one for a completion nobody waits for, and to zero at the clock tick |
| Slack.StepLevel | phase2/exceptions.c:187-203 | where the value counts the waiters it still does after an exception iff every waiter is still live |
| Slack.RunExcess | phase2/exceptions.c:187-203 | over a run the drift is the waiters terminated less the completions unclaimed |
| Slack.BootLevel | phase2/interrupts.c:165-223 | from boot on a device semaphore counts its waiters iff as many completions went unclaimed as waiters were terminated |
| NucleusWitness.OrderLost | phase2/interrupts.c:178 | a run from boot to a sorted ready queue and a transmitter interrupt that leaves it unsorted |
| NucleusWitness.LevelLost | phase2/exceptions.c:187-203 | a run from boot that terminates a waiting sender: no waiter, and a value of -1 |
| Control.TrapExact | phase2/exceptions.c:220-274 | by the codes: memory and TLB exceptions of a process with a support structure go to its page fault handler, all else to its general handler, a call past the ecall, a privileged one from user mode as a privileged instruction; nothing else changes |
| Control.DeathExact | phase2/exceptions.c:484-498 | without a support structure the subtree dies and the first of the ready processes left runs |
| Control.TimerExact | phase2/interrupts.c:86-105 | the time slice ends: the state is saved with interrupts enabled, and the process runs on unless the head ranks at least as high, which then runs with the process ready behind all its betters and equals |
| Control.InterruptResumes | phase2/interrupts.c:226-231 | every other interrupt resumes the running process exactly where it was |
| Control.InterruptArrivals | phase2/interrupts.c:109-231 | the ready queue gets exactly those the interrupt wakes, in their places; a waiting processor runs the head |
| Control.StepDispatch | phase2/scheduler.c:42-48 | whoever runs and did not before is loaded with the state in its PCB |
| Control.YieldExact | phase2/exceptions.c:466-477 | YIELD saves the state past the call and gives way like the end of a time slice |
| Control.KillExact | phase2/exceptions.c:332-355 | TERMPROCESS: the caller goes on behind the call iff it does not descend from a victim; else it dies and the first ready process left runs |
| Control.SupportExact | phase2/exceptions.c:451-455 | GETSUPPORTPTR returns the caller's support structure and changes nothing |
| Resumption.RunAway | phase2/scheduler.c:42-48 | over runs, a process away from the processor gets it back with the registers it left with, changed by its one wake-up alone |
| Resumption.WaitReturns | phase2/exceptions.c:405-449 | DOIO and CLOCKWAIT, from trap to return: behind the call, with the status an interrupt of the run acknowledged for that sub-device, or 0 |
| Resumption.PasserenReturns | phase2/exceptions.c:357-376 | a P that blocks returns behind the call with the registers unchanged |
| Resumption.SliceReturns | phase2/interrupts.c:86-105 | after a time slice or YIELD the process goes on exactly where it stopped |
| Resumption.RoundRobin | phase2/interrupts.c:86-105 | among equals the process at position n runs after n + 1 timer interrupts |
| Heritage.StepNoBirth | phase2/exceptions.c:276-498 | no exception but a granted CREATEPROCESS makes a process, and nobody's pid, parent, priority or support structure ever changes |
| Heritage.RunHeritage | phase2/exceptions.c:295-330 | every process of a run has pid, priority and support structure from the CREATEPROCESS that made it |
| Heritage.SupportWhence | phase2/exceptions.c:451-455 | from boot on GETSUPPORTPTR returns what the caller's creator passed, and 0 to the first process |
| Charging.StepCharges | phase2/exceptions.c:84-112 | each exception charges the interrupted process up to exactly one clock reading, and the next process from its dispatch on |
| Calls.GetTimeExact | phase2/exceptions.c:433-438 | GETTIME returns the sum of all charges the caller ever received, and changes nothing else |
| Calls.CreateExact | phase2/exceptions.c:295-330 | a PCB is granted iff one is free; the child is new, the caller's youngest, as specified, with a pid never used before, which the caller gets; parent and child enter the ready queue in this order and its head runs |
| Calls.PasserenExact | phase2/exceptions.c:357-376 | P lowers the value; the caller goes on iff it was positive and otherwise waits at the tail, with its state past the call, and the head of the ready queue runs |
| Calls.VerhogenExact | phase2/exceptions.c:378-403 | V raises the value, the caller goes on, and exactly the oldest waiter, if any, enters the ready queue by priority |
| Calls.ProcessIdExact | phase2/exceptions.c:457-464 | GETPROCESSID returns the caller's pid or that of its live parent, 0 for the first process |
| Calls.WaitExact | phase2/exceptions.c:405-449 | DOIO and CLOCKWAIT lower the right semaphore, count the caller as soft-blocked once, queue it at the tail with its state past the call, and run the head of the ready queue |
| Calls.TickExact | phase2/interrupts.c:109-122 | the tick wakes every sleeper with result 0 and leaves an empty queue and a zero semaphore |
| Marking.VeilDetach | phase1/pcb.c:110-118 | detaching the first child under the marks of the calls under way |
| Marking.VeilLeaf | phase2/exceptions.c:164-213 | marking first and removing then is removing |
| Marking.AfterCall | phase2/exceptions.c:165-168 | after the recursive call the child is gone and the loop goes on with the rest of the subtree |
| KernelCode.Kernel.UpdateCPUTime | phase2/exceptions.c:84-91 | the running process is charged up to now |
| KernelCode.Kernel.InsertReady | phase1/pcb.c:56-67 | the walk over the ready queue computes the priority insertion |
| KernelCode.Kernel.Schedule | phase2/scheduler.c:22-72 | yield handling, dispatch and verdict, as in the model |
| KernelCode.Kernel.BlockCurrentProcess | phase2/exceptions.c:106-128 | charge, block, count and schedule, as in the model |
| KernelCode.Kernel.HighestPriorityDevice | phase2/interrupts.c:58-63 | returns the least pending device, none if nothing is pending |
| KernelCode.Kernel.Complete | phase2/interrupts.c:165-223 | the semaphore rises and its head, if any, wakes with the status |
| KernelCode.Kernel.ClockTick | phase2/interrupts.c:114-122 | the loop drains the clock queue and resets the semaphore |
| KernelCode.Kernel.HandleInterrupt | phase2/interrupts.c:65-237 | the interrupt handler makes the model's step |
| KernelCode.Kernel.AddActive | phase2/exceptions.c:130-138 | the process enters the first free slot, and fails iff there is none |
| KernelCode.Kernel.RemoveActive | phase2/exceptions.c:140-147 | the process's slot is cleared |
| KernelCode.Kernel.FindProcessByPid | phase2/exceptions.c:149-155 | the loop computes the first slot with the pid |
| KernelCode.Kernel.Reap | phase2/exceptions.c:170-213 | a marked process leaves tree, table, semaphore queue and ready queue, and is freed |
| KernelCode.Kernel.TerminateProcess | phase2/exceptions.c:157-218 | marking, looping over the children and recursing gives exactly the model's termination; a marked process is left alone |
| KernelCode.Kernel.CreateProcess | phase2/exceptions.c:295-330 | CREATEPROCESS as in the model |
| KernelCode.Kernel.DoPasseren | phase2/exceptions.c:357-376 | PASSEREN as in the model |
| KernelCode.Kernel.DoVerhogen | phase2/exceptions.c:378-403 | VERHOGEN as in the model |
| KernelCode.Kernel.DoDeviceIo | phase2/exceptions.c:405-431 | DOIO as in the model |
| KernelCode.Kernel.WaitForClock | phase2/exceptions.c:440-449 | CLOCKWAIT as in the model, counted once |
| KernelCode.Kernel.DoGetProcessId | phase2/exceptions.c:457-464 | GETPROCESSID as in the model |
| KernelCode.Kernel.DoYield | phase2/exceptions.c:466-477 | YIELD as in the model |
| KernelCode.Kernel.PassUp | phase2/exceptions.c:484-498 | pass up to the support structure, or terminate and schedule |
| KernelCode.Kernel.DoTerminate | phase2/exceptions.c:332-355 | TERMPROCESS on oneself or on a pid, as in the model |
| KernelCode.Kernel.Syscall | phase2/exceptions.c:276-482 | the dispatch of the ten calls, the privilege check and the positive numbers |
| KernelCode.Kernel.HandleException | phase2/exceptions.c:228-274 | the kernel makes exactly the model's step and keeps the invariant |
| KernelCode.Kernel.constructor | phase2/initial.c:46-90 | `main` builds the boot state, schedules, and the invariant holds |
| EntryHi.EntryRoundTrip | phase3/vmSupport.c:80-91 | decoding a filled-in page table entry gives its page and its ASID back, in the pager and in the refill handler |
| EntryHi.EntryInjective | phase3/vmSupport.c:80-91 | no two pages of any U-procs share an EntryHI |
| EntryHi.PagerAndRefillAgree | phase2/exceptions.c:50-66 | for every address inside the logical space refill index and pager index agree and name the same virtual page |
| EntryHi.RefillInRange | phase2/exceptions.c:55-62 | the refill handler stays inside the page table for exactly these addresses |
| EntryHi.LoRoundTrip | phase3/vmSupport.c:44-70 | a published entry reads back valid with its frame; cleared, invalid with frame and dirty bit kept |
| VmInvariant.EnterMutex | phase3/vmSupport.c:131 | P on the swap pool keeps the value equal to minus the number of waiters and at most one process inside |
| VmInvariant.ExitMutex | phase3/vmSupport.c:182 | V hands the swap pool to the first waiter, if there is one, which goes on with the page it faulted on |
| VmInvariant.FlashStepFlash | phase3/vmSupport.c:104-111 | the P of flashOperation always finds the device's mutex free |
| VmInvariant.EvictMemory | phase3/vmSupport.c:147-153 | eviction invalidates exactly the page the chosen frame's entry names, and keeps exclusivity and coherence |
| VmInvariant.ClaimMemory | phase3/vmSupport.c:174-176 | claiming a frame in transit keeps exclusivity: nobody maps it |
| VmInvariant.MapMemory | phase3/vmSupport.c:179 | publication keeps exclusivity and coherence |
| VmInvariant.FreeMemory | phase3/sysSupport.c:16-20 | giving frames back keeps exclusivity for everyone else |
| VmInvariant.LaunchMemory | phase3/initProc.c:28-61 | a launch that finds no valid TLB entry of its ASID keeps exclusivity and coherence |
| VmInvariant.FaultInv | phase3/vmSupport.c:117-131 | a TLB-invalid fault implies that the page table entry is invalid at pager entry |
| VmInvariant.StepInv | phase3/vmSupport.c:117-184 | every action of every U-proc, device and launch keeps the invariant, errors included |
| VmInvariant.StartInv | phase3/initProc.c:65-76 | the start of `test` establishes the invariant |
| PagerService.StepServes | phase3/vmSupport.c:131-182 | through every event of whatever process a pager stays with the page it was called for until it has published it or a flash operation of its own has failed |
| PagerService.FaultServed | phase3/vmSupport.c:117-184 | over any interleaving a page fault ends with the U-proc running and the page present, or, iff a flash operation of its pager failed, on its way to its end |
| PagerService.BadFaultServed | phase3/vmSupport.c:133-139 | an access outside the logical space ends the U-proc |
| PagerService.AccessExact | phase2/exceptions.c:50-68 | with a TLB entry an access reaches the frame the page table names, or faults iff the page is absent; without one exactly the refill comes first and the access then does the same |
| PagerService.TrapEnds | phase3/sysSupport.c:13-32 | a trapped U-proc never runs again before it is launched anew, and once gone owns no frame |
| Paging.EvictContent | phase3/vmSupport.c:147-153 | from eviction on the page holds what the frame in transit holds, which is what it held unless the entry was stale; no other page changes |
| Paging.WriteContent | phase3/vmSupport.c:156 | the write changes no page: what the frame held the block holds |
| Paging.ReadContent | phase3/vmSupport.c:165 | reading into the frame changes no page |
| Paging.MapContent | phase3/vmSupport.c:179 | publication moves the page from its block to its frame and changes none |
| Paging.LaunchContent | phase3/initProc.c:28-61 | a launched U-proc sees its flash image, and no other page changes |
| Paging.ErrorContent | phase3/vmSupport.c:156-171 | a failed operation changes no page but the one whose write had not moved the block, and leaves a stale entry iff the frame was in use |
| Paging.StepExact | phase3/vmSupport.c:117-184 | every action, errors included, keeps a page, up to stores and launches, iff it is not the choice of a stale frame that holds something else nor the failure of an unmoved write that matters |
| Paging.TaintExact | phase3/vmSupport.c:156-171 | a page comes to be named by a stale entry by a flash error over its frame and by nothing else |
| Paging.StepRefines | phase3/vmSupport.c:117-184 | every READY action keeps virtual memory equal to flat memory, and a load returns what flat memory holds |
| Paging.StartRefines | phase3/initProc.c:65-76 | at the start virtual memory is the flash image |
| Paging.RunRefines | phase3/vmSupport.c:117-184 | paging is invisible over every READY run of any interleaving |
| PagingHistory.AlwaysExclusive | phase3/vmSupport.c:130-182 | in every run, errors or not: mutual exclusion, one page per frame, swap entries that name their pages, no mapped frame in transit, coherent TLB, for terminating U-procs until their frame is given back |
| PagingHistory.RunExact | phase3/vmSupport.c:145-171 | over every run, errors included, a page equals flat memory in every state, and so do its loads, iff no event of the run loses it |
| PagingHistory.ErrorsContained | phase3/vmSupport.c:156-171 | from `test` on, whatever fails: a page for which no failed operation leaves an entry behind equals flat memory all along |
| PagingHistory.LaunchExact | phase3/initProc.c:28-61 | launching a dead ASID keeps the invariant iff the TLB holds no valid entry of it |
| PagingHistory.LaunchRefines | phase3/vmSupport.c:80-91 | the launch keeps virtual memory equal to flat memory with the new image in it iff the TLB holds no valid entry of the ASID |
| Residency.PteKept | phase3/vmSupport.c:146-153 | in every run, errors included, a present page leaves its frame at an action iff this evicts a frame whose entry names the page |
| Residency.LoadedResident | phase3/vmSupport.c:142-143 | a published page is resident, loaded by the last frame choice |
| Residency.SoleUntainted | phase3/vmSupport.c:156-171 | a present page is named by its own swap pool entry alone iff no error has left another |
| Residency.RunResident | phase3/vmSupport.c:142-163 | over every run, errors included, a page loaded by choice k that no other swap entry names stays until choice k + 16, whatever U-procs terminate meanwhile |
| Residency.ResidentExact | phase3/vmSupport.c:142-171 | a page just loaded by choice k is still in its frame fifteen choices later, no eviction being due, iff no other swap entry named it when it was loaded |
| VmWitness.StoreLost | phase3/vmSupport.c:145-171 | a run from `test` with one failed write after which, without errors, a page loaded by choice 18 is evicted by choice 32 and a store to it is lost |
| VmWitness.StaleRelaunch | phase3/sysSupport.c:13-32 | a run from `test` without errors that ends with a valid TLB entry of a dead ASID, through which a U-proc launched now would read what the last one stored |
| WaitChain.StepChain | phase3/sysSupport.c:13-32 | the two semaphores of the wait chain say exactly who is still waited for |
| WaitChain.ShellPasses | phase3/sysSupport.c:96-103 | the shell passes its P only when the child it launched owns no frame |
| WaitChain.ShellExact | phase3/sysSupport.c:96-103 | the shell leaves EXECUTE exactly when its child has ended |
| WaitChain.InstantiatorExact | phase3/initProc.c:78-82 | the Instantiator waits exactly until the shell has ended |
| WaitChain.InstantiatorPasses | phase3/initProc.c:78-82 | the Instantiator passes its P only when all 16 swap pool entries are free |
| WaitChain.AtMostTwo | phase3/sysSupport.c:96-103 | in every disciplined run at most the shell and one child are launched |
| SupportCode.SupportLevel.InitSwapStructs | phase3/vmSupport.c:73-78 | the loop frees every entry and resets semaphore and frame counter |
| SupportCode.SupportLevel.InitUprocPageTable | phase3/vmSupport.c:80-91 | the loop names all 32 pages, the stack page last, none present |
| SupportCode.SupportLevel.MarkPageNotValid | phase3/vmSupport.c:49-54 | page table and TLB change together |
| SupportCode.SupportLevel.MarkPagePresent | phase3/vmSupport.c:62-70 | the entry becomes valid and is the only one in the TLB |
| SupportCode.SupportLevel.FlashOperation | phase3/vmSupport.c:98-113 | P, transfer, V: the block moves iff the outcome is READY, and the mutex is as before |
| SupportCode.SupportLevel.Pager | phase3/vmSupport.c:117-184 | the whole pager, with every error exit, computes the effect that SoloRuns shows to be a run of the machine |
| SupportCode.SupportLevel.FreeFrames | phase3/sysSupport.c:16-20 | the loop frees exactly the entries of the U-proc |
| SoloRuns.FlashRuns | phase3/vmSupport.c:98-113 | flashOperation from end to end is a run of the machine |
| SoloRuns.PagerRuns | phase3/vmSupport.c:117-184 | a pager that finds the swap pool to itself is a run of the machine |
| SoloRuns.PagerKeepsPages | phase3/vmSupport.c:117-184 | a READY pager changes no page of any active U-proc and leaves the page faulted on present |
| SoloRuns.FreeingRuns | phase3/sysSupport.c:16-20 | the loop of supTerminate is a run of the machine |
| Decimal.TextRoundTrip | testers/h/libuser.h:25-35 | reading the text back gives the number iff it is not the least 32-bit integer |
| Decimal.Itoa | testers/h/libuser.h:25-35 | the two loops write exactly that text and the final zero |

## Left out

- Registers, timers and interrupt masks: STCK, LDST, LDCXT, setTIMER and setSTATUS are a monotone clock and the ends of steps; the parts of a processor state that no property names are one opaque field.
- Device registers: status words are inputs of an interrupt, and the ACK is stated as the register it goes to, not as a write.
- P and V on addresses that are null or inside `devSems`, and writes to a semaphore other than by P, V and termination.
- DOIO on addresses outside the device register area.
- Pids and clock readings that overflow: both are unbounded integers.
- Uninitialised memory: PCBs start with empty lists, where `initPcbs` leaves the lists of children to `allocPcb`.
- Kernel: works on sequences and table indices for the queues; that the linked lists compute the same is proved operation by operation in Processes and Asl, not for all queues of a running kernel at once.
- The saved program counter of calls passed up: the Nucleus has already advanced it, and the Support Level's syscall handler advances it again; user code is not part of the model.
- SYS4 and SYS5: the character loops of writeTerminal and readTerminal; their accesses to user memory are loads and stores of a running U-proc.
- launchUproc as several actions: the machine launches in one, which no other process can observe halfway, since the new U-proc has not run.
- The TERMPROCESS at the end of supTerminate: in the machine a U-proc is gone after its last V; what the Nucleus then does is `Termination`.
- SupportCode.SupportLevel.Pager: states a pager that finds `swapPoolSem` at 1 and is not interrupted by another; interleavings are the machine's.
- Device failures other than an outcome that is not READY; a failed transfer leaves frame and block as they were.
- klog.c, debug output, the test programs, the shell's line editing and the build files.
