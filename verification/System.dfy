/**
  Process creation as it runs, on the scheduler and on memory at once. What the state machine
  takes as a parameter, how far each allocation gets, is here what the heap and the frame
  allocator answer.
*/
module System {
  import opened Common
  import opened Sched
  import opened SchedInvariant
  import opened ProcessForest
  import opened SchedRuns
  import opened Transaction
  import B = Blocks
  import H = Heap
  import K = Kernel

  /** What a new process owns: its directory, its process block, its kernel stack. */
  datatype Resources = Resources(dir: nat, process: nat, stack0: nat)

  const NOTHING: Resources := Resources(0, 0, 0)

  /** What happens to the scheduler when the process that has just been created is given up. */
  lemma GivenUp(s: State)
    requires Inv(s)
    ensures var r := CreateProcess(s);
      && s.nextPid in r.procs && r.current == s.current && s.current.pid != s.nextPid
      && SlotsOk(r) && K.OwnWaiters(r.queues, s.nextPid) && (forall c :: c in r.list <==> c in r.procs)
      && DestroyProcess(r, s.nextPid) == s.(nextPid := s.nextPid + 1)
  {
    hide Inv, Core, Structure, WellFormed, CreateProcess, DestroyProcess, K.OwnWaiters, SlotsOk;
    InvParts(s);
    K.InvServes(s);
    K.NascentIsFree(s);
    CreateThenDestroy(s);
    CreatedIsThere(s);
  }

  lemma CreatedIsThere(s: State)
    requires WellFormed(s)
    ensures s.nextPid in CreateProcess(s).procs && s.nextPid < CreateProcess(s).nextPid
  {
  }

  /** The outcome of the allocations decides between one process more and none. */
  lemma Outcome(s: State, entry: u32, n: u32, mem: Memory)
    requires Inv(s)
    ensures entry == 0 || n == 0 || !mem.data || !mem.directory ==> Sched.NewProcess(s, entry, n, mem) == (s, 0)
    ensures entry != 0 && n != 0 && mem.data && mem.directory && !(mem.region && mem.stacks) ==>
      Sched.NewProcess(s, entry, n, mem) == (s.(nextPid := s.nextPid + 1), 0)
    ensures entry != 0 && n != 0 && mem == Memory(true, true, true, true) ==>
      Sched.NewProcess(s, entry, n, mem) == (Born(s), s.nextPid)
      && Sched.NewThread(CreateProcess(s), s.nextPid, CODE_START, true) == (Born(s), true)
  {
    hide Sched.NewThread, DestroyProcess, Inv, Core, Structure, WellFormed, CreateProcess, Born;
    InvParts(s);
    K.InvServes(s);
    NewProcessAllOrNothing(s, entry, n, mem);
    GivenUp(s);
    FirstThread(s);
  }

  lemma FirstThread(s: State)
    requires WellFormed(s) && Structure(s)
    ensures s.nextPid in CreateProcess(s).procs
    ensures Sched.NewThread(CreateProcess(s), s.nextPid, CODE_START, true) == (Born(s), true)
    ensures Sched.NewThread(CreateProcess(s), s.nextPid, CODE_START, false) == (CreateProcess(s), false)
  {
    hide Structure, FreeSlot, Place;
    FirstSlotIsFree(s);
  }

  /** The last two calls of either rollback: the copy of the code goes back to the heap, and
      sched_destroy_process gives up the process with its address space and its block. */
  method Abandon(kernel: K.Kernel, heap: H.Heap, p: Pid, data: nat, process: nat, dir: nat, ghost n: nat,
                 ghost processSize: nat, ghost s: Snapshot, ghost live: map<nat, nat>)
    requires kernel.Valid() && p in kernel.procs && SlotsOk(kernel.Abs()) && K.OwnWaiters(kernel.queues, p)
    requires forall c :: c in kernel.list <==> c in kernel.procs
    requires heap.Valid() && Settled(s) && Since(s, Snap(heap), live, {dir}, true)
    requires TwoMore(B.Live(s.blocks), live, data, n, process, processSize)
    modifies kernel, heap, heap.vmm, heap.vmm.pmm.bitmap
    modifies kernel.w.nodeSet`prev, kernel.w.nodeSet`next, kernel.w.nodeSet`q
    modifies kernel.w.queueSet`first, kernel.w.queueSet`last, kernel.w.queueSet`size
    ensures kernel.Valid() && kernel.Abs() == DestroyProcess(old(kernel.Abs()), p)
    ensures heap.Valid() && Since(s, Snap(heap), B.Live(s.blocks), {}, true)
  {
    hide K.Kernel.Valid, H.Heap.Valid, Since, TwoMore, Settled, B.Live, DestroyProcess, SlotsOk, K.OwnWaiters,
      WellFormed;
    ghost var m := Snap(heap);
    SinceLive(s, m, live, {dir}, true);
    Give(heap, data);
    SinceThen(s, m, Snap(heap), live, live - {data}, {dir}, true, false);
    BothGoBack(B.Live(s.blocks), live, data, n, process, processSize);
    kernel.DestroyProcess(p);
    DestroySpace(heap, dir, process, s, live - {data}, true);
  }

  /** Nothing came of it: the pid counter is all that may have changed in the scheduler; in memory
      live blocks and directories are what they were, and every newly owned frame is a page of the
      heap or was lost by a rollback. */
  ghost predicate NothingGained(s: State, r: State, before: Snapshot, after: Snapshot) {
    && (r == s || r == s.(nextPid := s.nextPid + 1))
    && Since(before, after, B.Live(before.blocks), {}, true)
  }

  /** One process with one ready thread has been added, with its block, its kernel stack, and an
      address space that has `pages` code pages, the user stack, and nothing else; from user mode it
      can read and write both, at 0x400000 and below 0xBFFFF000. */
  ghost predicate ProcessGained(s: State, r: State, before: Snapshot, after: Snapshot, res: Resources, processSize: nat,
                                pages: nat) {
    && WellFormed(s) && r == Born(s)
    && Since(before, after, B.Live(after.blocks), {res.dir}, false)
    && TwoMore(B.Live(before.blocks), B.Live(after.blocks), res.process, processSize, res.stack0, 4096)
    && Populated(after.mem, res.dir, pages, USER_STACK_PAGES)
    && Open(after.mem, res.dir, 0x400, pages) && Open(after.mem, res.dir, 0xB_FFEF, 16)
  }

  lemma ProcessIsOpen(heap: H.Heap, dir: nat, pages: nat)
    requires heap.Valid() && Populated(heap.vmm.Mem(), dir, pages, USER_STACK_PAGES) && CODE_PAGE + pages < STACK_PAGE
    ensures Open(heap.vmm.Mem(), dir, 0x400, pages) && Open(heap.vmm.Mem(), dir, 0xB_FFEF, 16)
  {
    HeapIsSettled(heap);
    PopulatedIsOpen(heap.vmm.Mem(), dir, pages);
  }

  /** The step of the state machine, whose free parameter is what memory had to offer. */
  ghost predicate IsNewProcess(s: State, entry: u32, n: u32, mem: Memory, r: State, pid: Pid) {
    WellFormed(s) && Sched.NewProcess(s, entry, n, mem) == (r, pid)
  }

  lemma RefusedHere(s: Snapshot, m: Snapshot, live: map<nat, nat>, a: nat, n: nat, b: nat, k: nat, dir: nat,
                    why: Refusal, bits: nat)
    requires Since(s, m, live, {dir}, false) && TwoMore(B.Live(s.blocks), live, a, n, b, k)
    requires why.at == m && Refused(why, bits)
    ensures RefusedUpon(s, why, bits)
  {
    hide Since, Refused, B.Live, Upon;
    SinceUpon(s, m, live, {dir}, false);
  }

  lemma RefusedLater(s: Snapshot, m: Snapshot, live: map<nat, nat>, a: nat, n: nat, b: nat, k: nat, dir: nat,
                     why: Refusal, bits: nat)
    requires Since(s, m, live, {dir}, false) && TwoMore(B.Live(s.blocks), live, a, n, b, k)
    requires RefusedUpon(m, why, bits)
    ensures RefusedUpon(s, why, bits)
  {
    hide Since, Refused, B.Live, Upon;
    SinceUpon(s, m, live, {dir}, false);
    UponTwice(s, m, why.at);
  }

  /** Everything the scheduler's part of the creation needs to know. */
  lemma Prepared(s: State, entry: u32, n: u32)
    requires Inv(s) && entry != 0 && n != 0
    ensures var r, p := CreateProcess(s), s.nextPid;
      && Waiters(p) !in s.queues && p !in s.procs && p !in s.list && p != 0
      && p in r.procs && p < r.nextPid && SlotsOk(r) && K.OwnWaiters(r.queues, p)
      && (forall c :: c in r.list <==> c in r.procs)
      && DestroyProcess(r, p) == s.(nextPid := p + 1)
      && Sched.NewThread(r, p, CODE_START, true) == (Born(s), true)
      && Sched.NewThread(r, p, CODE_START, false) == (r, false)
      && IsNewProcess(s, entry, n, Memory(true, true, false, false), s.(nextPid := p + 1), 0)
      && IsNewProcess(s, entry, n, Memory(true, true, true, false), s.(nextPid := p + 1), 0)
      && IsNewProcess(s, entry, n, Memory(true, true, true, true), Born(s), p)
  {
    hide Inv, Core, Structure, CreateProcess, DestroyProcess, Sched.NewThread, Sched.NewProcess, Born, SlotsOk,
      K.OwnWaiters, WellFormed;
    InvParts(s);
    K.InvServes(s);
    GivenUp(s);
    K.NascentIsFree(s);
    FirstThread(s);
    CreatedIsThere(s);
    Outcome(s, entry, n, Memory(true, true, false, false));
    Outcome(s, entry, n, Memory(true, true, true, false));
    Outcome(s, entry, n, Memory(true, true, true, true));
  }

  /** The copy of the code goes back to the heap; what the process owns stays. */
  method ReturnCopy(heap: H.Heap, data: nat, ghost process: nat, ghost stack0: nat, ghost dir: nat, ghost pages: nat,
                    ghost n: nat, ghost processSize: nat, ghost s: Snapshot, ghost live: map<nat, nat>)
    requires heap.Valid() && Since(s, Snap(heap), B.Live(heap.blocks), {dir}, false)
    requires TwoMore(B.Live(s.blocks), live, data, n, process, processSize)
    requires OneMore(live, B.Live(heap.blocks), stack0, KERNEL_STACK_SIZE)
    requires Populated(heap.vmm.Mem(), dir, pages, USER_STACK_PAGES)
    modifies heap
    ensures heap.Valid() && Since(s, Snap(heap), B.Live(heap.blocks), {dir}, false)
    ensures TwoMore(B.Live(s.blocks), B.Live(heap.blocks), process, processSize, stack0, KERNEL_STACK_SIZE)
    ensures Populated(heap.vmm.Mem(), dir, pages, USER_STACK_PAGES)
  {
    hide H.Heap.Valid, Since, TwoMore, OneMore, Populated, B.Live;
    ghost var m := Snap(heap);
    Give(heap, data);
    ghost var r, after := Snap(heap), B.Live(m.blocks) - {data};
    SinceLive(m, r, after, {}, false);
    SincePopulated(m, r, after, dir, pages, USER_STACK_PAGES);
    FirstGoesBack(B.Live(s.blocks), live, B.Live(m.blocks), data, n, process, processSize, stack0, KERNEL_STACK_SIZE);
    SinceThen(s, m, r, B.Live(m.blocks), after, {dir}, false, false);
  }

  /** sys_nprocess_impl from the first thread on. */
  method Populate(kernel: K.Kernel, heap: H.Heap, ghost s0: State, entry: u32, n: u32, p: Pid, data: nat, process: nat,
                  dir: nat, ghost processSize: nat, ghost s: Snapshot, ghost live: map<nat, nat>)
    returns (pid: Pid, res: Resources, ghost mem: Memory, ghost why: Refusal)
    requires kernel.Valid() && Inv(s0) && entry != 0 && n != 0
    requires WellFormed(s0) && kernel.Abs() == CreateProcess(s0) && p == s0.nextPid
    requires heap.Valid() && Settled(s) && Since(s, Snap(heap), live, {dir}, false)
    requires Populated(heap.vmm.Mem(), dir, (n + PAGE_SIZE - 1) / PAGE_SIZE, 0)
    requires TwoMore(B.Live(s.blocks), live, data, n, process, processSize)
    requires B.SafeRequest(heap.blocks, B.AlignUp4(KERNEL_STACK_SIZE))
    requires CODE_PAGE + (n + PAGE_SIZE - 1) / PAGE_SIZE < STACK_PAGE
    modifies kernel, heap, heap.vmm, heap.vmm.pmm.bitmap
    modifies kernel.w.nodeSet`prev, kernel.w.nodeSet`next, kernel.w.nodeSet`q
    modifies kernel.w.queueSet`first, kernel.w.queueSet`last, kernel.w.queueSet`size
    ensures kernel.Valid() && heap.Valid()
    ensures IsNewProcess(s0, entry, n, mem, kernel.Abs(), pid)
    ensures pid == 0 ==> NothingGained(s0, kernel.Abs(), s, Snap(heap))
    ensures pid != 0 ==> ProcessGained(s0, kernel.Abs(), s, Snap(heap), res, processSize,
                                       (n + PAGE_SIZE - 1) / PAGE_SIZE)
    ensures pid == 0 ==> RefusedUpon(s, why, heap.vmm.pmm.bits)
  {
    hide K.Kernel.Valid, H.Heap.Valid, Since, TwoMore, OneMore, Settled, Populated, B.Live, B.SafeRequest, B.AlignUp4,
      Inv, Core, Structure, WellFormed, CreateProcess, DestroyProcess, Sched.NewThread, Sched.NewProcess, Born,
      SlotsOk, K.OwnWaiters, RefusedUpon, Open;
    ghost var c := Snap(heap);
    Prepared(s0, entry, n);
    var pages, stack0 := (n + PAGE_SIZE - 1) / PAGE_SIZE, 0;
    stack0, why := CreateStacks(heap, dir, pages, s, live);
    var ok := kernel.CreateThread(p, CODE_START, stack0 != 0);
    if !ok {
      RefusedLater(s, c, live, data, n, process, processSize, dir, why, heap.vmm.pmm.bits);
      UnmapCode(heap, dir, pages, s, live);
      Abandon(kernel, heap, p, data, process, dir, n, processSize, s, live);
      return 0, NOTHING, Memory(true, true, true, false), why;
    }
    ReturnCopy(heap, data, process, stack0, dir, pages, n, processSize, s, live);
    ProcessIsOpen(heap, dir, pages);
    return p, Resources(dir, process, stack0), Memory(true, true, true, true), why;
  }

  /** sys_nprocess_impl from the process block on. */
  method Furnish(kernel: K.Kernel, heap: H.Heap, entry: u32, n: u32, data: nat, process: nat, dir: nat,
                 ghost processSize: nat, ghost s: Snapshot, ghost live: map<nat, nat>)
    returns (pid: Pid, res: Resources, ghost mem: Memory, ghost why: Refusal)
    requires kernel.Valid() && Inv(kernel.Abs()) && entry != 0 && n != 0
    requires heap.Valid() && Settled(s) && Since(s, Snap(heap), live, {dir}, false) &&
      Populated(heap.vmm.Mem(), dir, 0, 0)
    requires TwoMore(B.Live(s.blocks), live, data, n, process, processSize)
    requires B.SafeRequest(heap.blocks, B.AlignUp4(KERNEL_STACK_SIZE))
    requires CODE_PAGE + (n + PAGE_SIZE - 1) / PAGE_SIZE < STACK_PAGE
    modifies kernel, heap, heap.vmm, heap.vmm.pmm.bitmap
    modifies kernel.w.nodeSet`prev, kernel.w.nodeSet`next, kernel.w.nodeSet`q
    modifies kernel.w.queueSet`first, kernel.w.queueSet`last, kernel.w.queueSet`size
    ensures kernel.Valid() && heap.Valid()
    ensures IsNewProcess(old(kernel.Abs()), entry, n, mem, kernel.Abs(), pid)
    ensures pid == 0 ==> NothingGained(old(kernel.Abs()), kernel.Abs(), s, Snap(heap))
    ensures pid != 0 ==> ProcessGained(old(kernel.Abs()), kernel.Abs(), s, Snap(heap), res, processSize,
                                       (n + PAGE_SIZE - 1) / PAGE_SIZE)
    ensures pid == 0 ==> RefusedUpon(s, why, heap.vmm.pmm.bits)
  {
    hide K.Kernel.Valid, H.Heap.Valid, Since, TwoMore, OneMore, Settled, Populated, B.Live, B.SafeRequest, B.AlignUp4,
      Inv, Core, Structure, WellFormed, CreateProcess, DestroyProcess, Sched.NewThread, Sched.NewProcess, Born,
      SlotsOk, K.OwnWaiters, RefusedUpon;
    ghost var s0, m := kernel.Abs(), Snap(heap);
    Prepared(s0, entry, n);
    pid := kernel.CreateProcessBlock();
    var mapped;
    mapped, why := MapCode(heap, dir, (n + PAGE_SIZE - 1) / PAGE_SIZE, s, live);
    if mapped {
      pid, res, mem, why := Populate(kernel, heap, s0, entry, n, pid, data, process, dir, processSize, s, live);
    } else {
      RefusedHere(s, m, live, data, n, process, processSize, dir, why, heap.vmm.pmm.bits);
      Abandon(kernel, heap, pid, data, process, dir, n, processSize, s, live);
      return 0, NOTHING, Memory(true, true, false, false), why;
    }
  }

  /** sys_nprocess_impl: all or nothing, in the scheduler and in memory. Other address spaces keep
      their private halves throughout. */
  method NewProcess(kernel: K.Kernel, heap: H.Heap, entry: u32, n: u32, processSize: nat)
    returns (pid: Pid, res: Resources, ghost mem: Memory, ghost why: Refusal)
    requires kernel.Valid() && Inv(kernel.Abs())
    requires heap.Valid() && SafeCreation(heap.blocks, n, processSize)
    modifies kernel, heap, heap.vmm, heap.vmm.pmm.bitmap
    modifies kernel.w.nodeSet`prev, kernel.w.nodeSet`next, kernel.w.nodeSet`q
    modifies kernel.w.queueSet`first, kernel.w.queueSet`last, kernel.w.queueSet`size
    ensures kernel.Valid() && heap.Valid()
    ensures IsNewProcess(old(kernel.Abs()), entry, n, mem, kernel.Abs(), pid)
    ensures pid == 0 ==> NothingGained(old(kernel.Abs()), kernel.Abs(), old(Snap(heap)), Snap(heap))
    ensures pid != 0 ==> ProcessGained(old(kernel.Abs()), kernel.Abs(), old(Snap(heap)), Snap(heap), res, processSize,
                                       (n + PAGE_SIZE - 1) / PAGE_SIZE)
    ensures pid == 0 && entry != 0 && n != 0 ==> RefusedUpon(old(Snap(heap)), why, heap.vmm.pmm.bits)
  {
    hide K.Kernel.Valid, H.Heap.Valid, Since, TwoMore, OneMore, Settled, Populated, SafeCreation, B.Live, B.SafeRequest,
      B.AlignUp4, Inv, Core, Structure, WellFormed, CreateProcess, DestroyProcess, Sched.NewThread, Sched.NewProcess,
      Born, SlotsOk, K.OwnWaiters, RefusedUpon;
    ghost var s0, s := kernel.Abs(), Snap(heap);
    InvParts(s0);
    K.InvServes(s0);
    HeapIsSettled(heap);
    mem := Memory(false, false, false, false);
    Outcome(s0, entry, n, mem);
    if entry == 0 || n == 0 {
      Lossier(s, s, B.Live(s.blocks), {});
      return 0, NOTHING, mem, CloneRefused(s);
    }
    var data, process, dir;
    data, process, dir, why := Reserve(heap, n, processSize);
    if dir == 0 {
      return 0, NOTHING, mem, why;
    }
    ghost var live := B.Live(heap.blocks);
    pid, res, mem, why := Furnish(kernel, heap, entry, n, data, process, dir, processSize, s, live);
  }

  // ----- one more thread

  /** One thread more in the free slot of the current process, ready, with both its stacks; it can
      read and write the one for user mode. */
  ghost predicate ThreadGained(s: State, entry: u32, r: State, before: Snapshot, after: Snapshot, stack0: nat) {
    && WellFormed(s) && s.current.pid in s.procs && Sched.NewThread(s, s.current.pid, entry, true) == (r, true)
    && FreeSlot(s, s.current.pid, 0).Some?
    && var slot := FreeSlot(s, s.current.pid, 0).value;
    && StacksGained(before, after, before.cr3, slot, s.current.pid != IDLE, stack0)
    && (s.current.pid != IDLE ==> Open(after.mem, before.cr3, 0xB_FFEF - 17 * slot, 16))
  }

  lemma StackIsOpen(before: Snapshot, heap: H.Heap, slot: nat, stack0: nat)
    requires heap.Valid() && slot < THREADS_PER_PROCESS
    requires StacksGained(before, Snap(heap), before.cr3, slot, true, stack0)
    ensures Open(heap.vmm.Mem(), before.cr3, 0xB_FFEF - 17 * slot, 16)
  {
    hide StackPage, OneMore, B.Live;
    HeapIsSettled(heap);
    StackPageIs(slot);
    StackPageFits(slot);
    FilledIsOpen(before.mem, heap.vmm.Mem(), before.cr3, StackPage(slot), USER_STACK_PAGES);
  }

  /** Nothing came of it: no stack is left, and what a rollback lost is all that was taken. */
  ghost predicate NoThreadGained(s: State, entry: u32, r: State, before: Snapshot, after: Snapshot) {
    && r == s && WellFormed(s) && s.current.pid in s.procs
    && Sched.NewThread(s, s.current.pid, entry, false) == (s, false)
    && Since(before, after, B.Live(before.blocks), {}, true)
  }

  /** The current process has a slot for a thread that starts at `entry`. */
  ghost predicate Startable(s: State, entry: u32) {
    entry != 0 && FreeSlot(s, s.current.pid, 0).Some?
  }

  /** sys_nthread_impl once a slot has been found. */
  method FillSlot(kernel: K.Kernel, heap: H.Heap, entry: u32, slot: nat) returns (stack0: nat, ghost why: Refusal)
    requires kernel.Valid() && kernel.currentThread.pid in kernel.procs && kernel.currentThread.pid < kernel.nextPid
    requires WellFormed(kernel.Abs()) && entry != 0
    requires FreeSlot(kernel.Abs(), kernel.currentThread.pid, 0) == Some(slot)
    requires heap.Valid() && B.SafeRequest(heap.blocks, B.AlignUp4(KERNEL_STACK_SIZE))
    modifies kernel, heap, heap.vmm, heap.vmm.pmm.bitmap
    modifies kernel.w.nodeSet`prev, kernel.w.nodeSet`next, kernel.w.nodeSet`q
    modifies kernel.w.queueSet`first, kernel.w.queueSet`last, kernel.w.queueSet`size
    ensures kernel.Valid() && heap.Valid()
    ensures stack0 == 0 ==> kernel.Abs() == old(kernel.Abs())
    ensures stack0 == 0 ==> Since(old(Snap(heap)), Snap(heap), B.Live(old(heap.blocks)), {}, true)
    ensures stack0 == 0 ==> RefusedUpon(old(Snap(heap)), why, heap.vmm.pmm.bits)
    ensures stack0 != 0 ==> ThreadGained(old(kernel.Abs()), entry, kernel.Abs(), old(Snap(heap)), Snap(heap), stack0)
  {
    hide K.Kernel.Valid, H.Heap.Valid, Since, B.Live, B.SafeRequest, B.AlignUp4, WellFormed, Sched.NewThread, FreeSlot,
      StacksGained, RefusedUpon, Open;
    ghost var before := Snap(heap);
    stack0, why := AddStacks(heap, slot, kernel.currentThread.pid != IDLE);
    if stack0 != 0 {
      if kernel.currentThread.pid != IDLE {
        StackIsOpen(before, heap, slot, stack0);
      }
      kernel.StartThread(kernel.currentThread.pid, entry, slot);
    }
  }

  /** sys_nthread_impl: all or nothing, in the scheduler and in memory. The current process is the
      one that is loaded. */
  method NewThread(kernel: K.Kernel, heap: H.Heap, entry: u32) returns (stack0: nat, ghost why: Refusal)
    requires kernel.Valid() && Inv(kernel.Abs())
    requires heap.Valid() && B.SafeRequest(heap.blocks, B.AlignUp4(KERNEL_STACK_SIZE))
    modifies kernel, heap, heap.vmm, heap.vmm.pmm.bitmap
    modifies kernel.w.nodeSet`prev, kernel.w.nodeSet`next, kernel.w.nodeSet`q
    modifies kernel.w.queueSet`first, kernel.w.queueSet`last, kernel.w.queueSet`size
    ensures kernel.Valid() && heap.Valid()
    ensures stack0 == 0 ==> NoThreadGained(old(kernel.Abs()), entry, kernel.Abs(), old(Snap(heap)), Snap(heap))
    ensures stack0 != 0 ==> ThreadGained(old(kernel.Abs()), entry, kernel.Abs(), old(Snap(heap)), Snap(heap), stack0)
    ensures stack0 == 0 && Startable(old(kernel.Abs()), entry) ==>
      RefusedUpon(old(Snap(heap)), why, heap.vmm.pmm.bits)
  {
    hide K.Kernel.Valid, H.Heap.Valid, Since, Settled, B.Live, B.SafeRequest, B.AlignUp4, Inv, WellFormed,
      Sched.NewThread, FreeSlot, ThreadGained, RefusedUpon;
    ghost var s := kernel.Abs();
    InvParts(s);
    K.InvServes(s);
    HeapIsSettled(heap);
    Lossier(Snap(heap), Snap(heap), B.Live(heap.blocks), {});
    ThreadFails(s, entry);
    why := CloneRefused(Snap(heap));
    if entry == 0 {
      return 0, why;
    }
    var slot := kernel.FindSlot(kernel.currentThread.pid);
    if slot.None? {
      return 0, why;
    }
    stack0, why := FillSlot(kernel, heap, entry, slot.value);
  }

  lemma ThreadFails(s: State, entry: u32)
    requires WellFormed(s) && s.current.pid in s.procs
    ensures Sched.NewThread(s, s.current.pid, entry, false) == (s, false)
  {
  }
}
