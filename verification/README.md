# Gummy, verified

Gummy is a small kernel for 32-bit x86: a round-robin scheduler over intrusive queues,
message passing between processes, two-level page tables over a bitmap of page frames, a
first-fit kernel heap, an initial ram disk and a bounded formatter. This project models
those parts in Dafny and proves what they are for. `dafny verify dfyconfig.toml` checks it.

## How it is built

**Scheduler, mailboxes, process life.** `Sched` is a state machine whose steps are the timer,
yield, sleep, exit, thread and process creation, send, the two halves of receive, a user fault
and a reaper pass. The code lets a thread stay current while its state already says that it
sleeps or waits, and while it is linked in the ready queue, because the scheduler returns early
in three places. `SchedInvariant` holds the strengthening that is nevertheless inductive: the
first thread of the idle process always runs, is queued whenever it is not current, and is then
queued ahead of the current thread. `ProcessForest`, `SleepQueue`, `Mailboxes` and `SchedRuns`
carry the other invariants through every step and read safety results off whole runs. `Effects` says
of every step, without the functions that make it, which parts of the state it may change and how;
`Deliveries` follows the mail of whole runs from the send calls to the receivers.
`SchedWaiting` and `WokenReceivers` are about progress; `LostWakeup` is a run that shows why the
hypothesis of the latter is needed; `Reaper` says what one pass leaves behind.

**The same code on the heap.** `Queues` is the queue code on linked nodes with owner pointers,
all queues at once; `ProcessList` is the list of process blocks by prev and next pointers.
`Kernel` is the scheduling code as a class over both; each method proves that it makes exactly the
step of that name in `Sched`. `RingBuffers`, `Messages` and `MailSlots` take a mailbox down to
bytes in slots, and `Mailroom` puts such a mailbox under every process of the kernel. Its `Perform`
makes any step the state machine allows, with the preconditions of the methods it calls met in every
reachable state, and its `Run` makes any run from boot: what is proved of runs holds of the code.

**Memory.** `Bitmaps` and `Pmm` are the frame allocator over bytes. `PageTables` breaks the
virtual memory manager into ten small steps on page tables as values, each proved to do what it
says to every translation of every address space and to keep one owner per frame; `PageRuns`
lifts that to page numbers and runs of pages; `Vmm` is the code, a class whose methods are
sequences of those steps. `Blocks` is the heap as a sequence of blocks, `Headers` the linked
headers that stand for it, `Heap` the code, which gets its pages from `Vmm`. `Transaction` is the
memory that processes and threads are made of; `System` is the creation of both, on the scheduler
and on memory at once.

**Printing and parsing.** `Numbers` and `Printf` prove the formatter against a pure rendering;
`Directives` says what a format means, and that the rendering of what is written is what it means.
`Initrd` and `InitrdReader` prove that the image writer and the reader undo each other.

## Where the code falls short of its purpose

- heap.c:107 subtracts in unsigned 32-bit arithmetic. When the chosen block exceeds the request by
  1 to 15 bytes the difference wraps and the block is split all the same. `SplitIsSafeExactly`
  gives the exact condition, `FreshHeapCanBreak` a first request that meets it, and
  `EverythingIsRecovered` a discipline under which it never happens: sizes that are multiples of
  16. The kernel itself does not follow that discipline, because its process block takes 1636 bytes.
  `SafeCreation` is the guard that process creation needs instead, request by request;
  `FirstProcessIsSafe` shows it met by a first process of up to 90000 bytes.
- heap.c:131 and 148 round in 32-bit arithmetic, so sizes within 16 bytes of 2^32, and only those,
  are rounded to less than they need (`RoundingIsExact`).
- A receive whose yield pops a thread of a dying process goes on in the receiver itself, which
  stays among the waiters (sched.c:76 with ipc.c:64-79). Along a run no thread is ever left
  waiting without a receive behind it if and only if every such yield switches away
  (`WatchedExactly`), and `SwitchesExactly` reads off the ready queue whether one does.
  `NoLostWakeup` holds on those runs; `WakeupLost` is another one, which ends with a message
  buffered, a thread waiting and nobody woken for it.
- A page table of the kernel half that is created after the first clone is seen through one
  directory only: vmm.c:78-92 writes the loaded directory and no other. The halves stay alike if and
  only if there is one directory (`LateTablesSplitTheHalf`). In the same way the flags that vmm.c:94
  adds to an entry of the kernel half are added in one directory (`LateRightsSplitTheHalf`).
- pmm_alloc_page answers 0 for "no frame", so with frame 0 free it fails whatever else is free
  (`Pmm.AllocPage`); pmm_init prevents that. In the same way vmm_alloc_pages_region reports a run
  at address 0 as a failure although it is mapped (`Vmm.AllocPagesRegion`).
- The rollback of vmm_alloc_pages_region unmaps without releasing, so the frames it had taken are
  lost, and mapping over a mapped page loses the frame that was there. Both are tracked as leaked,
  and nothing else leaks.
- A zero-padded negative number comes out one character short, its sign being deducted twice
  (`ZeroPaddingFillsExactly`). put_number has a buffer of 66 characters, which is enough if and only
  if the padding does not go beyond 65 (`ScratchIsEnough`).

## Model

| member | source | states |
|---|---|---|
| `SchedRuns.NoThreadIsLost` | kernel/src/sched.c:61-81 | in every reachable state each running or ready thread of a normal process is current or in the ready queue, through all early returns |
| `SchedRuns.StoppedThreadsAreFindable` | kernel/src/thread.c:28-77 | in every reachable state a thread of a normal process sleeps, waits or is a zombie if and only if it is in that queue |
| `SchedRuns.LinkedOnce` | lib/src/queue.c:19-37 | in every reachable state no thread is linked twice, in one queue or in two |
| `SchedRuns.MailIsConserved` | kernel/src/ipc.c:31-83 | in every reachable state what a mailbox delivered, followed by what it holds, is what it accepted, in order, with at most sixteen pending |
| `SchedRuns.SendToWaiterNeverRefused` | kernel/src/ipc.c:20-51 | in every reachable state a valid send to a live user process that has a waiter is accepted |
| `SchedRuns.SleepersWakeOnTime` | kernel/src/sched.c:84-98 | in every reachable state a sleeper is woken by the next timer pass exactly when its wake tick is that tick |
| `SchedRuns.StepKeepsInv` | kernel/src/sched.c:30-98 | every step any thread can take keeps the joint invariant of queues, processes, sleepers and mail |
| `Effects.StepEffects` | kernel/src/sched.c:30-98 | in every reachable state each step changes only what it may: clock, pids, dying flags, mailboxes, exit codes, wake ticks and thread states, each by its own rule; new threads and processes are as specified |
| `Effects.SleepGuard` | kernel/src/arch/i686/syscall.c:138-142 | a sleep of ms is taken if and only if it is a tick at least and does not pass the counter, and then w ticks with 10 w <= ms < 10 (w + 1) |
| `Effects.SendGuard` | kernel/src/ipc.c:20-38 | a send succeeds if and only if it carries 1 to 64 bytes to a live user process with fewer than sixteen messages pending |
| `Effects.SlotIsLowest` | kernel/src/thread.c:124-138 | the slot of a new thread is the lowest free one of eight |
| `Deliveries.MailIsDelivered` | kernel/src/ipc.c:20-86 | on every run from boot a mailbox has accepted exactly what the successful sends to it carried, in order, under the senders' pids; its receivers have taken a beginning of that, once each |
| `SchedInvariant.ScheduleKeepsCore` | kernel/src/sched.c:61-81 | schedule keeps threads findable and idle ahead of the current thread |
| `SchedInvariant.DestroyKeepsCore` | kernel/src/process.c:79-120 | destroying a process keeps every other thread findable |
| `SchedInvariant.MarkDyingKeepsCore` | kernel/src/process.c:123-139 | a fault keeps the threads of other processes findable |
| `SchedInvariant.SendKeepsCore` | kernel/src/ipc.c:20-51 | a send, waking or not, keeps every thread findable |
| `SchedInvariant.MarkBlockedKeepsCore` | kernel/src/ipc.c:64-73 | blocking in a receive keeps every thread findable |
| `SchedWaiting.BoundedWaiting` | kernel/src/sched.c:68-80 | a thread of a normal process with k threads ahead of it runs within k + 1 calls of schedule |
| `SchedWaiting.StepNearer` | lib/src/queue.c:19-55 | no step puts a waiting thread further back, and a call of schedule brings it strictly nearer |
| `WokenReceivers.NoLostWakeup` | kernel/src/ipc.c:37-79 | on runs whose receiving yields switch away, messages buffered beside a waiter are each owed to a woken receiver |
| `WokenReceivers.StepKeepsAttentive` | kernel/src/ipc.c:37-79 | every step of such a run keeps that promise |
| `WokenReceivers.SwitchesExactly` | kernel/src/sched.c:68-80 | a receiving yield switches away if and only if the thread at the front belongs to a normal process |
| `WokenReceivers.StrayExactly` | kernel/src/ipc.c:64-79 | a receiver whose yield does not switch away runs on as a waiter, and after its pop it waits with no receive behind it; otherwise every promise is kept |
| `WokenReceivers.WatchedExactly` | kernel/src/ipc.c:64-79 | on a run from boot every waiter has a receive behind it, and none is running, if and only if every receiving yield switches away |
| `LostWakeup.WakeupLost` | kernel/src/sched.c:76-78 | a concrete run that loses a wakeup because one such yield does not switch away |
| `SleepQueue.TickPassSplits` | kernel/src/sched.c:84-95 | the timer pass moves the expired sleepers, in order, behind the ready queue, keeps the others in order, and touches no other queue |
| `SleepQueue.WokenExactlyOnTime` | kernel/src/thread.c:234-248 | without overdue sleepers a sleeper is woken on exactly its tick |
| `SleepQueue.SleepersPreventWrap` | kernel/src/sched.c:85 | the tick counter cannot wrap while somebody sleeps |
| `Mailboxes.SendToWaiterSucceeds` | kernel/src/ipc.c:37-50 | with room kept for its waiters, a mailbox with a waiter takes every valid message |
| `Mailboxes.MarkBlockedKeepsMail` | kernel/src/ipc.c:64-73 | buffered messages and waiters together never exceed the eight threads of a process |
| `ProcessForest.NewProcessAllOrNothing` | kernel/src/arch/i686/syscall.c:68-121 | for every outcome of the allocations, process creation either changes nothing but the pid counter, or adds one process with one ready thread |
| `ProcessForest.CreateThenDestroy` | kernel/src/process.c:47-120 | destroying a process that never ran undoes its creation in every queue, list and parent link |
| `ProcessForest.DestroyKeepsStructure` | kernel/src/process.c:79-120 | the list stays ordered with idle last, parents stay live, listed and older |
| `ProcessForest.CreateKeepsStructure` | kernel/src/process.c:47-76 | the same for creation |
| `ProcessForest.NextPidIsFresh` | kernel/src/process.c:66 | no process, thread, queue or parent link carries the next pid |
| `Reaper.WalkUp` | kernel/src/process.c:67 | the walk from any process through its parents ends at idle |
| `Reaper.ReaperPass` | kernel/src/kmain.c:39-50 | one pass removes exactly the dying processes with their threads and mailbox queues, and nothing else changes but parents |
| `Reaper.NothingDyingIsLeft` | kernel/src/kmain.c:39-50 | after it nothing is dying and every linked thread belongs to a normal process |
| `Reaper.ReaperAdopts` | kernel/src/process.c:90-97 | after it each survivor hangs under its nearest surviving ancestor |
| `ProcessList.HeadInserts` | kernel/src/process.c:70-73 | the pointer writes of an insertion put the block at the head of the list, with mutual links |
| `ProcessList.Unhooks` | kernel/src/process.c:108-115 | the pointer writes of a removal take the block out at the head, in the middle or at the tail, and leave mutual links |
| `ProcessList.SavedNext` | kernel/src/kmain.c:41-46 | the successor saved before a process is destroyed heads what is left to visit |
| `Queues.QueueRemove` | lib/src/queue.c:66-84 | over all queues at once, the node leaves the queue that owns it and no other queue changes; an unowned node changes nothing |
| `Queues.QueuePush` | lib/src/queue.c:19-37 | the node leaves whichever queue owns it and joins the end of this one; null arguments change nothing |
| `Queues.QueuePop` | lib/src/queue.c:40-55 | the front node is returned and unlinked, although its own links go stale |
| `Queues.QueueEmpty` | lib/src/queue.c:58-63 | true exactly for the empty sequence, or no queue |
| `Queues.QueueSize` | lib/src/queue.c:87-89 | the size field is the length of the sequence |
| `Queues.QueueGet` | lib/src/queue.c:87-99 | the node at that index, or null behind the end |
| `Queues.RemoveAndPush` | kernel/src/thread.c:34-35 | removing and then pushing is one push |
| `Queues.SaysUnlinked` | lib/src/queue.c:66-84 | the pointer writes of a removal take one thread out of one chain and keep owner pointers exact |
| `Queues.SaysPushed` | lib/src/queue.c:25-36 | the pointer writes of a push append to one chain and keep owner pointers exact |
| `Queues.SaysPopped` | lib/src/queue.c:44-53 | the pointer writes of a pop behead one chain although the popped node keeps stale links |
| `Queues.SaysRewired` | lib/src/queue.c:19-84 | rewiring one chain leaves every other chain and every owner as they were |
| `Kernel.Kernel.constructor` | kernel/src/sched.c:108-145 | sched_init makes the initial state |
| `Kernel.Kernel.MoveTo` | kernel/src/thread.c:28-77 | the common code of sched_ready, sched_zombie and sched_sleep makes the Move step |
| `Kernel.Kernel.SchedReady` | kernel/src/thread.c:28-38 | makes a thread ready at the end of the ready queue |
| `Kernel.Kernel.SwitchContext` | kernel/src/sched.c:30-57 | the new thread becomes current and running, nothing else changes |
| `Kernel.Kernel.Schedule` | kernel/src/sched.c:61-81 | makes exactly the Schedule step, through each early return |
| `Kernel.Kernel.WakeSleepers` | kernel/src/sched.c:88-95 | the walk that removes while it iterates wakes exactly what the specification wakes |
| `Kernel.Kernel.TimerHandler` | kernel/src/sched.c:84-98 | one tick, the walk, then schedule |
| `Kernel.Kernel.ExitCurrentThread` | kernel/src/thread.c:213-231 | makes the Exit step; refused inside idle |
| `Kernel.Kernel.ThreadSleep` | kernel/src/arch/i686/syscall.c:138-142 | makes the FallAsleep step; no sleep for idle or for a tick that is not ahead |
| `Kernel.Kernel.GetProcess` | kernel/src/process.c:25-33 | finds a pid if and only if it is listed |
| `Kernel.Kernel.ListProcess` | kernel/src/process.c:71-74 | the linked list gains the block at its head |
| `Kernel.Kernel.UnlistProcess` | kernel/src/process.c:108-115 | the linked list loses exactly that block |
| `Kernel.Kernel.WakeFirstWaiter` | kernel/src/ipc.c:40-48 | the first waiter, if any, becomes ready |
| `Kernel.Kernel.Block` | kernel/src/ipc.c:64-72 | the caller joins the waiters of its own mailbox |
| `Kernel.Kernel.StartThread` | kernel/src/thread.c:141-197 | makes the NewThread step in the free slot |
| `Kernel.Kernel.CreateThread` | kernel/src/arch/i686/syscall.c:144-154 | makes the NewThread step and reports whether it did |
| `Kernel.Kernel.FindSlot` | kernel/src/thread.c:131-140 | finds the first free slot |
| `Kernel.Kernel.CreateProcessBlock` | kernel/src/process.c:61-76 | makes the CreateProcess step, on the linked list |
| `Kernel.Kernel.DestroyCurrentProcess` | kernel/src/process.c:123-139 | unlinks all threads of the process, marks it dying, yields |
| `Kernel.Kernel.DestroyProcess` | kernel/src/process.c:79-120 | makes the DestroyProcess step, on the linked list; refused for the process that is loaded |
| `Kernel.Kernel.ReparentEach` | kernel/src/process.c:90-98 | a walk along the next pointers; every child of the process gets its grandparent, nobody else changes |
| `Kernel.Kernel.UnlinkThreads` | kernel/src/process.c:130-132 | takes each of the eight slots out of its queue |
| `Kernel.SlotsAreDropped` | kernel/src/process.c:130-132 | slot by slot that removes every thread of the process |
| `Kernel.Kernel.ReaperPass` | kernel/src/kmain.c:41-46 | the walk along the next pointers, which destroys while it goes, makes exactly the reaper pass of the specification |
| `Kernel.Kernel.NewProcess` | kernel/src/arch/i686/syscall.c:68-121 | for every outcome of the allocations, creation with its rollbacks makes the NewProcess step and returns its pid |
| `Kernel.Kernel.PerformPostless` | kernel/src/sched.c:30-98 | any step that touches no mailbox, made by its code in every reachable state |
| `RingBuffers.RingBuffer.Push` | lib/src/ring_buffer.c:25-34 | refused exactly when full, else the element joins the end; through wrapped byte offsets |
| `RingBuffers.RingBuffer.Pop` | lib/src/ring_buffer.c:38-44 | refused exactly when empty, else the oldest element leaves |
| `RingBuffers.RingBuffer.Peek` | lib/src/ring_buffer.c:48-55 | the oldest element, which stays |
| `RingBuffers.PushedElements` | lib/src/ring_buffer.c:30-32 | writing one slot appends one element and disturbs no other |
| `RingBuffers.PoppedElements` | lib/src/ring_buffer.c:41-42 | advancing the head drops exactly the oldest element |
| `Messages.DeliversWhatWasSent` | kernel/src/ipc.c:76-83 | whatever the stack held, the receiver gets the sender and the first min(size, sent size) bytes |
| `MailSlots.MailSlots.Deposit` | kernel/src/ipc.c:31-38 | refused exactly with sixteen pending, else the message joins the pending ones |
| `MailSlots.MailSlots.Withdraw` | kernel/src/ipc.c:76-85 | the oldest message leaves, with its sender and as much of its data as fits |
| `Mailroom.PushMail` | kernel/src/ipc.c:31-38 | the bytes of one mailbox take the message, or refuse it when full; all mailboxes say what the process values say |
| `Mailroom.PopMail` | kernel/src/ipc.c:76-83 | the oldest message leaves the bytes, with its sender and its data as far as they fit |
| `Mailroom.SendIs` | kernel/src/ipc.c:20-51 | a send is refused for one of the five reasons and changes nothing, or one mailbox gains the caller's pid, type and data |
| `Mailroom.Mailroom.IpcSend` | kernel/src/ipc.c:20-51 | on bytes: makes the Send step, whatever the stack held; what is accepted is what the caller gave, under the caller's pid, and a refused call changes nothing |
| `Mailroom.Mailroom.IpcReceive` | kernel/src/ipc.c:56-79 | on bytes: makes the Receive step up to its yield, or hands out the oldest message at once; refuses null outputs and bad sizes |
| `Mailroom.Mailroom.IpcResume` | kernel/src/ipc.c:76-86 | on bytes: makes the Resume step behind the yield and hands out what fits of the message |
| `Mailroom.Mailroom.CreateProcess` | kernel/src/process.c:65-69 | makes the NewProcess step, with an empty mailbox of sixteen slots for the new process |
| `Mailroom.Mailroom.Reap` | kernel/src/kmain.c:41-46 | makes the reaper pass; the mailboxes of the surviving processes say what they said |
| `Mailroom.Mailroom.Perform` | kernel/src/sched.c:30-98 | any step that is enabled in a reachable state is made by the code for it, and the invariant of the runs holds again |
| `Mailroom.Mailroom.Follow` | kernel/src/sched.c:30-98 | any legal run from such a state |
| `Mailroom.Run` | kernel/src/sched.c:108-145 | every legal run of the state machine from boot is a run of the kernel, bytes included |
| `Bitmaps.SetBit` | include/bitmap.h:6-10 | sets that bit and no other |
| `Bitmaps.ClearBit` | include/bitmap.h:20-24 | clears that bit and no other |
| `Bitmaps.BitIsShifted` | include/bitmap.h:6-24 | bit i is bit i % 8, counted from the lowest, of byte i / 8 |
| `Bitmaps.FindFreeBit` | include/bitmap.h:27-50 | the lowest clear bit, or 0 when there is none |
| `Pmm.Pmm.constructor` | kernel/src/arch/i686/pmm.c:55-114 | a frame is free if and only if all its 4096 bytes lie inside a usable region, it is none of the first sixteen, and it has no byte of the kernel image or its bitmap |
| `Pmm.HeldInside` | kernel/src/arch/i686/pmm.c:84-89 | the frames released for a region are those that lie inside it |
| `Pmm.Pmm.AllocPage` | kernel/src/arch/i686/pmm.c:25-41 | the lowest free frame; fails if and only if none is free or frame 0 is |
| `Pmm.Pmm.FreePage` | kernel/src/arch/i686/pmm.c:44-52 | exactly that frame is free again |
| `PageTables.PutRebinds` | kernel/src/arch/i686/vmm.c:96-99 | writing one entry changes one translation, in every address space that shares it, and no other |
| `PageTables.HungKeepsSound` | kernel/src/arch/i686/vmm.c:78-92 | creating and zeroing a page table changes no translation |
| `PageTables.LateTablesSplitTheHalf` | kernel/src/arch/i686/vmm.c:78-92 | a new table of the kernel half leaves the halves of all directories alike if and only if there is one directory |
| `PageTables.LateRightsSplitTheHalf` | kernel/src/arch/i686/vmm.c:94 | flags added to an entry of the kernel half leave the halves alike if and only if there is one directory or the entry had them |
| `PageTables.WithExactly` | kernel/src/arch/i686/vmm.c:82-98 | the flags of an entry are those given, those added, and no others |
| `PageTables.GrantsExactly` | kernel/src/arch/i686/vmm.c:78-94 | a directory entry keeps the flags it had and gains those of the mapping and the present bit, no others |
| `PageTables.ReboundGrants` | kernel/src/arch/i686/vmm.c:94-99 | in the private half no directory entry takes away what a page table entry below it gives |
| `PageRuns.PagesAreAddresses` | kernel/src/arch/i686/vmm.c:24-36 | the indices, the kernel half and the boot window in terms of addresses |
| `PageTables.PrunedKeepsSound` | kernel/src/arch/i686/vmm.c:123-129 | releasing a table without present entries changes no translation |
| `PageTables.TintedKeepsSound` | kernel/src/arch/i686/vmm.c:94 | adding flags to a directory entry changes no translation |
| `PageTables.RewrittenKeepsSound` | kernel/src/arch/i686/vmm.c:96-99 | mapping keeps one owner per frame; over a page already mapped it loses the frame that was there |
| `PageTables.UnboundKeepsSound` | kernel/src/arch/i686/vmm.c:112 | unmapping keeps one owner per frame |
| `PageTables.ClonedKeepsSound` | kernel/src/arch/i686/vmm.c:241-248 | a clone shares the kernel half and has an empty private half; other spaces do not change |
| `PageTables.DroppedKeepsSound` | kernel/src/process.c:105-106 | giving up a directory leaves the other address spaces alone |
| `PageTables.NoFrameMappedTwice` | kernel/src/arch/i686/vmm.c:76-229 | no frame is mapped at two places, and none that holds a page table is mapped at all |
| `Vmm.Vmm.constructor` | kernel/src/arch/i686/vmm.c:397-408 | the state at the end of vmm_init is sound |
| `Vmm.Vmm.Map` | kernel/src/arch/i686/vmm.c:76-103 | one translation is replaced, by the frame with exactly the given flags and the present bit; the directory entry keeps its flags and gains the given ones; all other translations stay; on failure nothing changed and no frame is free |
| `Vmm.Vmm.Unmap` | kernel/src/arch/i686/vmm.c:107-132 | one translation is removed, all others stay; a private table is released exactly when its last page went |
| `Vmm.Vmm.FindRun` | kernel/src/arch/i686/vmm.c:148-167 | the lowest run of n unmapped pages, or none if there is none |
| `Vmm.Vmm.MapRun` | kernel/src/arch/i686/vmm.c:169-194 | the run leads to n distinct fresh frames, or every translation is as before and only frames that were just taken are leaked |
| `Vmm.Vmm.Rollback` | kernel/src/arch/i686/vmm.c:176-188 | every translation is as before; exactly the frames mapped so far are leaked |
| `Vmm.Vmm.AllocPagesRegion` | kernel/src/arch/i686/vmm.c:137-195 | the lowest free run of the region is mapped to fresh frames and nothing else changes; a failure leaves all translations, and means that no run or too few frames were free |
| `Vmm.AllocatedInside` | kernel/src/arch/i686/vmm.c:142-168 | the pages lie inside the region that was asked for, unless aligning its start wraps |
| `Vmm.Vmm.AllocPagesRegionIn` | kernel/src/arch/i686/vmm.c:332-351 | the same in another address space: the lowest free run mapped to fresh frames, or all translations kept, exactly the frames taken lost, and no run or too few frames as the reason |
| `Vmm.Vmm.FreePages` | kernel/src/arch/i686/vmm.c:207-229 | pages are unmapped and exactly their frames released, up to the first page that is not mapped |
| `Vmm.Vmm.FreePagesIn` | kernel/src/arch/i686/vmm.c:377-394 | the same in another address space: mapped pages are unmapped and exactly their frames released, up to the first that is not mapped |
| `Vmm.Vmm.Clone` | kernel/src/arch/i686/vmm.c:232-253 | a new directory with the shared half only, and no trace of its temporary mapping |
| `Vmm.Vmm.Destroy` | kernel/src/arch/i686/vmm.c:299-327 | exactly the leaves and tables of that private half are released; refused for the loaded directory |
| `Vmm.Vmm.ReleaseSpace` | kernel/src/process.c:103-106 | exactly the directory and what its address space owned are released; other spaces do not change |
| `Blocks.ServeKeepsGeometry` | kernel/src/heap.c:103-124 | serving a request keeps the blocks back to back, merged and aligned |
| `Blocks.ServeAddsOne` | kernel/src/heap.c:134-140 | it adds one live payload, large enough, and changes no other |
| `Blocks.GrowKeepsGeometry` | kernel/src/heap.c:60-74 | an expansion adds one live payload at the end |
| `Blocks.AllocAddsOne` | kernel/src/heap.c:127-156 | heap_alloc is insertion into the map of live payloads, or changes nothing |
| `Blocks.AllocIsExact` | kernel/src/heap.c:103-156 | the first free block that is large enough is used, and of it less than 48 bytes more than the size in words, the rest staying free; else less than a page more in new pages; else nothing, for the stated reasons |
| `Blocks.FreeRemovesOne` | kernel/src/heap.c:159-173 | heap_free is deletion from that map, for every address |
| `Blocks.MergeAtMerges` | kernel/src/heap.c:79-99 | merging around a freed block leaves no two free neighbours and no live payload changed |
| `Blocks.PayloadsApart` | kernel/src/heap.c:112-123 | payloads and headers do not overlap |
| `Blocks.SixteensAreSafe` | kernel/src/heap.c:104-109 | with sizes that are multiples of sixteen no request meets the wrap |
| `Blocks.EverythingIsRecovered` | kernel/src/heap.c:127-173 | after any run of such requests, freeing what is live, in any order, leaves one block that covers the heap |
| `Blocks.NothingLiveOneBlock` | kernel/src/heap.c:79-99 | a heap with nothing live is one free block |
| `Blocks.RoundingIsExact` | kernel/src/heap.c:131-148 | the two roundings ask for enough, or for nothing, if and only if the size is not within a header of 2^32 |
| `Headers.SplitIsSafeExactly` | kernel/src/heap.c:103-124 | splitting keeps the list tiling the heap if and only if the block does not exceed the request by 1 to 15 bytes |
| `Headers.WrappedSplitBreaks` | kernel/src/heap.c:107-109 | otherwise the list runs past the end of memory |
| `Headers.FreshHeapCanBreak` | kernel/src/heap.c:39-43 | the first request of a fresh heap can do that |
| `Headers.SplitBig` | kernel/src/heap.c:111-123 | the header writes of a split stand for the split sequence |
| `Headers.AbsorbRepresents` | kernel/src/heap.c:84-98 | the header writes of a merge stand for the joined sequence |
| `Headers.ExtendRepresents` | kernel/src/heap.c:65-69 | the header writes of an expansion stand for the longer sequence |
| `Heap.Heap.constructor` | kernel/src/heap.c:22-44 | one free block of 24 pages at 0xE0000000, writable and closed to user mode, or no heap when the pages cannot be had |
| `Heap.Heap.Split` | kernel/src/heap.c:103-124 | makes the split of the sequence |
| `Heap.Heap.MergeFreeBlocks` | kernel/src/heap.c:79-99 | makes the merge of the sequence; a null or used block is left alone |
| `Heap.Heap.Expand` | kernel/src/heap.c:48-75 | a new block directly behind the last one, with every new frame accounted for; failure means the limit, a page in the way, or too few frames |
| `Heap.Heap.Alloc` | kernel/src/heap.c:127-156 | first fit, or an expansion that fits exactly, as the specification says, and no more of a block than that; no frame changes its owner but those of the new heap pages and those a failed expansion lost |
| `Heap.Heap.Free` | kernel/src/heap.c:159-173 | frees and merges as the specification says, for every address |
| `Transaction.SixteensInTurn` | kernel/src/heap.c:104-109 | requests for multiples of sixteen are safe one after the other |
| `Transaction.FirstProcessIsSafe` | kernel/src/heap.c:39-43 | on the initial heap the three requests of a process with up to 90000 bytes of code are safe, the 1636 bytes of its block included |
| `Transaction.Take` | kernel/src/heap.c:127-156 | one live block more and no other frame, directory or private half touched; a failure has a reason in the state it met |
| `Transaction.Reserve` | kernel/src/arch/i686/syscall.c:72-85 | a copy of the code, a process block and an empty address space, or none of them and the request that was refused |
| `Transaction.CreateSpace` | kernel/src/process.c:47-63 | a process block and an empty address space, or neither and the request that was refused |
| `Transaction.CreateStacks` | kernel/src/thread.c:143-157 | in a new process: a kernel stack and the pages of a user stack, or neither and the request that was refused |
| `Transaction.AddStacks` | kernel/src/thread.c:143-157 | the same in the loaded process, for any slot; all mapped pages stay as they are |
| `Transaction.StacksApart` | kernel/src/thread.c:147-148 | the user stacks of two slots have an unmapped page between them and lie above the code, in the private half |
| `Transaction.UserPagesAreAccessible` | kernel/src/arch/i686/syscall.c:89-91 | pages mapped for user mode can be read and written there, as far as both levels of entries decide |
| `Transaction.DestroySpace` | kernel/src/process.c:103-117 | exactly what the address space and the block took is given back; what a rollback lost stays lost |
| `System.Outcome` | kernel/src/arch/i686/syscall.c:68-121 | only when all four allocations succeed is there a process more |
| `System.GivenUp` | kernel/src/process.c:79-120 | a new process that is destroyed leaves nothing but the pid counter |
| `System.Abandon` | kernel/src/arch/i686/syscall.c:92-94 | the end of either rollback: process, address space, block and copy are gone, in the scheduler and in memory |
| `System.NewProcess` | kernel/src/arch/i686/syscall.c:68-121 | all or nothing in the scheduler and in memory: one process more with exactly its block, kernel stack, code pages and user stack, the pages open to user mode for reading and writing; or live blocks, directories and private halves as before, every new frame a heap page or lost by a rollback, and a request that was refused for want of memory |
| `System.NewThread` | kernel/src/arch/i686/syscall.c:144-154 | the same for a thread of the current process, in its free slot |
| `Numbers.DigitsEvaluate` | lib/src/string.c:74-79 | the digits evaluate back to the number |
| `Numbers.AtMost64Digits` | lib/src/string.c:53-60 | a 64-bit number has at most 64 digits |
| `Numbers.NumberLength` | lib/src/string.c:81-86 | the text is as long as sign and digits, or as the padding asks |
| `Numbers.NumberDenotes` | lib/src/string.c:88-102 | sign, padding and digits together denote the number |
| `Numbers.NumberSpelled` | lib/src/string.c:61-107 | the text is a sign if need be, zeros that fill it up, and the shortest spelling in digits of that base and case |
| `Numbers.ScratchIsEnough` | lib/src/string.c:53-60 | 66 characters are enough for every 64-bit number if and only if it is not padded beyond 65 |
| `Numbers.Itoa` | lib/src/string.c:61-107 | writes that text and a terminator where there is room for them; nothing for a base outside 2 to 16 |
| `Printf.WidthIsDecimal` | lib/src/vsnprintf.c:71-82 | the width is the decimal number written, capped at 2^32 - 1 |
| `Printf.SignedPieceDenotes` | lib/src/vsnprintf.c:151-186 | a signed conversion prints the number it was given |
| `Printf.UnsignedPieceDenotes` | lib/src/vsnprintf.c:188-223 | an unsigned conversion prints the number it was given, in its base; zero padding fills the width exactly |
| `Printf.PointerPieceDenotes` | lib/src/vsnprintf.c:139-149 | a pointer comes out as 0x and its value, with the prefix counted towards the width |
| `Directives.SignedIs` | lib/src/vsnprintf.c:151-182 | the signed number printed is in range for 8, 16, 32 or 64 bits and congruent to the argument words |
| `Directives.UnsignedIs` | lib/src/vsnprintf.c:188-212 | likewise the unsigned one |
| `Directives.SpecReads` | lib/src/vsnprintf.c:57-106 | a conversion that was written reads back: flag, width, size and letter |
| `Directives.PiecePrints` | lib/src/vsnprintf.c:116-247 | what each conversion prints, and how many argument words it takes |
| `Directives.FormatsMeanWhatTheySay` | lib/src/vsnprintf.c:45-256 | the rendering of a format written for any list of directives is, piece by piece, what they mean; an unfinished conversion at the end prints nothing |
| `Printf.ZeroPaddingFillsExactly` | lib/src/vsnprintf.c:234-239 | zero padding fills the width if and only if the number is not a shorter negative one |
| `Printf.Formatter.PutChar` | lib/src/vsnprintf.c:17-25 | keeps what fits of the text so far, and counts all of it |
| `Printf.Formatter.PutNumber` | lib/src/vsnprintf.c:35-43 | appends the number text |
| `Printf.Vsnprintf` | lib/src/vsnprintf.c:45-256 | returns the full length whatever the buffer, which gets the longest prefix that fits and a terminator |
| `Initrd.WriteImage` | initrd/make-initrd:86-138 | the three loops write the image, byte for byte |
| `InitrdReader.EntryRoundTrip` | lib/src/initrd.c:29-43 | walking to record i of a written image gives back its type, permissions, name, offset and size |
| `InitrdReader.HeaderLayout` | initrd/make-initrd:105-112 | the header of an image, word by word, lowest byte first |
| `InitrdReader.RecordLayout` | initrd/make-initrd:117-130 | where each record lies and what its words and its name are |
| `InitrdReader.ContentLayout` | initrd/make-initrd:132-138 | the content of each file lies behind the records and the contents before it |
| `InitrdReader.DataRoundTrip` | lib/src/initrd.c:70-79 | the data pointer of a file leads to its bytes |
| `InitrdReader.NamedExactly` | lib/src/initrd.c:58-63 | a record answers to a name if and only if it is its own |
| `InitrdReader.FindEntry` | lib/src/initrd.c:46-67 | the first record with that name, whatever memory holds; none for a null or empty name |
| `InitrdReader.Lookup` | lib/src/initrd.c:9-79 | in a written image with distinct names each name finds its own record, with the length and the bytes of its content; an absent one finds nothing |
| `InitrdReader.GetEntry` | lib/src/initrd.c:29-43 | record n by walking, or none when n is too large or the magic is wrong |
| `InitrdReader.GoodExactly` | lib/src/initrd.c:22-26 | memory is taken for an image if and only if its first word is the magic number |
| `InitrdReader.WalkExactly` | lib/src/initrd.c:36-40 | each step of the walk goes 20 bytes and a name further, in 32-bit arithmetic |
| `InitrdReader.RegionsTile` | initrd/make-initrd:94-102 | the recorded offsets tile the image: the first file starts at the data offset, each ends where the next starts, the last ends with the image |

## Left out

- `Kernel.Kernel.DestroyProcess`: thread slots of a destroyed process vanish with it, so the FREE state and num_threads are not modelled.
- `Kernel.Kernel.CreateThread`: whether both stacks can be had is a parameter; `System.NewThread` is where memory decides it.
- `Kernel.Kernel.NewProcess`: whether each allocation succeeds is a parameter; `System.NewProcess` is where memory decides it.
- `System.NewProcess`: only for requests that do not meet the wraps at heap.c:107 and heap.c:131, in the sense of `SafeCreation`; the copying of the code and the contents of the blocks are not modelled.
- `System.NewThread`: only for a kernel stack request that does not meet the wrap at heap.c:107; the directory of the current process is the loaded one, and the initial register frame is not modelled.
- `Mailroom.Mailroom.CreateProcess`: a mailbox is an object of its own, not bytes inside the heap block of its process; whether allocations succeed is a parameter here.
- `Mailroom.Mailroom.Perform`: what the kernel stack of the thread held before a message was built on it, and the size its receive was called with, are parameters.
- `WokenReceivers.NoLostWakeup`: only for runs in which receiving yields switch away, because it is false otherwise.
- `SchedRuns.StepKeepsInv`: kernel steps and the reaper pass are atomic; idle's first thread neither receives nor faults; a zombie that is still current takes timer steps only; pids do not wrap.
- `Vmm.Vmm.constructor`: all page tables of the shared half are assumed to be in place from the start, while bootloader/stage2/src/32bit.asm:32-33 makes only the first; `LateTablesSplitTheHalf` says when one that is made later is still shared.
- `Vmm.Vmm.Map`: addresses from 0xFFC00000 on (the self-mapping), the boot window of the first MiB and the TLB are not modelled; page tables are reached by frame number instead of through the recursive mapping.
- `Vmm.Vmm.Unmap`: the same addresses are left out.
- `Vmm.Vmm.Clone`: the new directory is filled after its temporary mapping is gone, not through it; the entries it copies are not touched in between.
- `Vmm.Vmm.FreePages`: only for pages outside the boot window and below the self-mapping.
- `Heap.Heap.Split`: blocks that exceed the request by 1 to 15 bytes are excluded by precondition; `WrappedSplitBreaks` says what happens to them.
- `Heap.Heap.Alloc`: sizes within 16 bytes of 2^32, and requests that meet the wrap at heap.c:107, are excluded by precondition.
- `Headers.WrappedSplitBreaks`: headers are records keyed by address; that the new header overlaps the next one in memory is not modelled.
- `Pmm.Pmm.constructor`: the bitmap is an array of its own instead of the memory behind the kernel image; at least two bytes of it are assumed.
- `Printf.Formatter.PutNumber`: zero paddings beyond 65 characters, which overrun its buffer (`ScratchIsEnough`), are excluded by precondition.
- `Printf.Vsnprintf`: zero-padded widths that come to such a padding, and texts of 2^31 characters or more are excluded by precondition.
- `InitrdReader.FindEntry`: memcmp is modelled as equality of bytes, its sign is not used.
- `Initrd.WriteImage`: starts from the collected entries; directory walking, file reading and arguments of make-initrd are not modelled.
- Registers, stacks and interrupt frames: a context switch is a change of current thread, process and state.
- Serial and screen output, PIC, PIT, GDT, IDT, TSS, the boot loader and its FAT code.
- sched_blocked, blocked_queue and heap_print: without a caller, or reporting only.
