/**
  The kernel with its mail. Messages are bytes in the slots of a ring buffer, one for each process;
  `Posted` ties those bytes to the message sequences of the state machine. The class is the kernel
  of module Kernel with ipc_send and ipc_receive as they run on the bytes, and with a method for any
  step at all.
*/
module Mailroom {
  import opened Common
  import opened Sched
  import opened SchedInvariant
  import opened ProcessForest
  import opened SchedRuns
  import opened RingBuffers
  import opened Messages
  import opened MailSlots
  import K = Kernel

  /** The mailbox is made of objects from these sets. */
  ghost predicate Boxed(b: MailSlots, boxes: set<MailSlots>, rings: set<RingBuffer>, bufs: set<array<byte>>) {
    b in boxes && b.ring in rings && b.ring.buf in bufs
  }

  ghost predicate Apart(a: MailSlots, b: MailSlots) {
    a != b && a.ring != b.ring && a.ring.buf != b.ring.buf
  }

  /** The bytes of the mailbox are the messages of the process value. */
  ghost predicate Mirrors(b: MailSlots, proc: Process)
    reads b, b.ring, b.ring.buf
  {
    && b.Valid() && b.ring.capacity == proc.capacity
    && b.pending == proc.ring && b.accepted == proc.accepted && b.delivered == proc.delivered
  }

  lemma MirrorParts(b: MailSlots, proc: Process)
    requires Mirrors(b, proc)
    ensures b.Valid() && b.ring.capacity == proc.capacity
    ensures b.pending == proc.ring && b.accepted == proc.accepted && b.delivered == proc.delivered
  {
  }

  lemma MirrorWhole(b: MailSlots, proc: Process)
    requires b.Valid() && b.ring.capacity == proc.capacity
    requires b.pending == proc.ring && b.accepted == proc.accepted && b.delivered == proc.delivered
    ensures Mirrors(b, proc)
  {
  }

  ghost predicate Separate(mail: map<Pid, MailSlots>) {
    forall p, q :: p in mail && q in mail && p != q ==> Apart(mail[p], mail[q])
  }

  ghost predicate Posted(mail: map<Pid, MailSlots>, procs: map<Pid, Process>, boxes: set<MailSlots>,
                         rings: set<RingBuffer>, bufs: set<array<byte>>)
    reads boxes, rings, bufs
  {
    && mail.Keys == procs.Keys && Separate(mail)
    && forall p :: p in mail ==> Boxed(mail[p], boxes, rings, bufs) && Mirrors(mail[p], procs[p])
  }

  lemma BoxOf(mail: map<Pid, MailSlots>, procs: map<Pid, Process>, boxes: set<MailSlots>, rings: set<RingBuffer>,
              bufs: set<array<byte>>, p: Pid)
    requires Posted(mail, procs, boxes, rings, bufs) && p in procs
    ensures p in mail && Boxed(mail[p], boxes, rings, bufs) && Mirrors(mail[p], procs[p])
  {
  }

  /** Process values that differ in state and parent only. */
  ghost predicate SameMail(procs: map<Pid, Process>, after: map<Pid, Process>) {
    after.Keys == procs.Keys
    && forall p :: p in procs ==> after[p].(dying := procs[p].dying, dad := procs[p].dad) == procs[p]
  }

  lemma PostKept(mail: map<Pid, MailSlots>, procs: map<Pid, Process>, after: map<Pid, Process>, boxes: set<MailSlots>,
                 rings: set<RingBuffer>, bufs: set<array<byte>>)
    requires Posted(mail, procs, boxes, rings, bufs) && SameMail(procs, after)
    ensures Posted(mail, after, boxes, rings, bufs)
  {
    forall p | p in mail ensures Mirrors(mail[p], after[p]) {
      assert Mirrors(mail[p], procs[p]) && procs[p] == after[p].(dying := procs[p].dying, dad := procs[p].dad);
    }
  }

  /** A new mailbox joins. */
  lemma PostJoins(mail: map<Pid, MailSlots>, procs: map<Pid, Process>, boxes: set<MailSlots>, rings: set<RingBuffer>,
                  bufs: set<array<byte>>, p: Pid, b: MailSlots, proc: Process)
    requires Posted(mail, procs, boxes, rings, bufs) && Mirrors(b, proc) && p !in procs
    requires b !in boxes && b.ring !in rings && b.ring.buf !in bufs
    ensures Posted(mail[p := b], procs[p := proc],
                   boxes + {b}, rings + {b.ring}, bufs + {b.ring.buf})
  {
    var now := mail[p := b];
    forall q | q in now ensures Boxed(now[q], boxes + {b}, rings + {b.ring}, bufs + {b.ring.buf}) &&
      Mirrors(now[q], procs[p := proc][q]) {
      if q != p {
        assert Boxed(mail[q], boxes, rings, bufs) && Mirrors(mail[q], procs[q]);
      }
    }
  }

  /** ring_buffer_push of ipc_send on the mailbox of `p`. */
  method PushMail(mail: map<Pid, MailSlots>, ghost procs: map<Pid, Process>, ghost boxes: set<MailSlots>,
                  ghost rings: set<RingBuffer>, ghost bufs: set<array<byte>>, p: Pid, m: Message,
                  stack: seq<byte>)
    returns (refused: bool, ghost proc: Process)
    requires Posted(mail, procs, boxes, rings, bufs) && p in procs && p in mail && Sendable(m) && |stack| == MESSAGE_MAX
    modifies boxes, rings, bufs
    ensures refused <==> |procs[p].ring| >= procs[p].capacity
    ensures refused ==> proc == procs[p]
    ensures !refused ==> proc == procs[p].(ring := procs[p].ring + [m], accepted := procs[p].accepted + [m])
    ensures Posted(mail, procs[p := proc], boxes, rings, bufs)
  {
    hide Mirrors, MailSlots.Valid;
    BoxOf(mail, procs, boxes, rings, bufs, p);
    OthersApart(mail, procs, boxes, rings, bufs, p);
    var b := mail[p];
    MirrorParts(b, procs[p]);
    refused := b.Deposit(m, stack);
    proc := procs[p].(ring := b.pending, accepted := b.accepted);
    MirrorWhole(b, proc);
  }

  lemma OthersApart(mail: map<Pid, MailSlots>, procs: map<Pid, Process>, boxes: set<MailSlots>, rings: set<RingBuffer>,
                    bufs: set<array<byte>>, p: Pid)
    requires Posted(mail, procs, boxes, rings, bufs) && p in mail
    ensures forall q :: q in mail && q != p ==> Boxed(mail[q], boxes, rings, bufs) && Apart(mail[p], mail[q])
  {
  }

  /** What ipc_receive hands to its caller. */
  datatype Received = Received(sender: Pid, data: seq<byte>)

  /** ring_buffer_pop of ipc_receive on the mailbox of `p`, and the copying out of at most `size` bytes. */
  method PopMail(mail: map<Pid, MailSlots>, ghost procs: map<Pid, Process>, ghost boxes: set<MailSlots>,
                 ghost rings: set<RingBuffer>, ghost bufs: set<array<byte>>, p: Pid, size: nat)
    returns (got: Option<Received>, ghost proc: Process)
    requires Posted(mail, procs, boxes, rings, bufs) && p in procs && p in mail && 0 < size <= MESSAGE_MAX
    modifies boxes, rings
    ensures got.None? <==> procs[p].ring == []
    ensures got.None? ==> proc == procs[p]
    ensures got.Some? ==>
      && proc == procs[p].(ring := procs[p].ring[1..], delivered := procs[p].delivered + [procs[p].ring[0]])
      && var m := procs[p].ring[0]; got.value == Received(m.sender, m.data[..Min(size, |m.data|)])
    ensures Posted(mail, procs[p := proc], boxes, rings, bufs)
  {
    hide Mirrors, MailSlots.Valid;
    BoxOf(mail, procs, boxes, rings, bufs, p);
    OthersApart(mail, procs, boxes, rings, bufs, p);
    var b := mail[p];
    MirrorParts(b, procs[p]);
    var refused, sender, data := b.Withdraw(size);
    got := if refused then None else Some(Received(sender, data));
    proc := procs[p].(ring := b.pending, delivered := b.delivered);
    MirrorWhole(b, proc);
  }

  // ----- steps that leave the mailboxes alone

  lemma ScheduleKeepsPids(s: State)
    requires WellFormed(s)
    ensures Schedule(s).nextPid == s.nextPid
  {
    hide Push;
  }

  lemma PostlessKeeps(s: State, a: Action)
    requires WellFormed(s) && K.Postless(a) && s.current.pid in s.procs
    ensures SameMail(s.procs, Step(s, a).procs)
  {
    hide Schedule, TickPass, FallAsleep, Exit, NewThread, MarkDying, WellFormed;
    match a
    case Timer => TickPassKeepsProcs(s);
    case Yield =>
    case Sleep(ms) => FallAsleepKeepsProcs(s, ms);
    case ExitThread(status) => ExitKeepsProcs(s, status);
    case NThread(entry, memOk) => NewThreadKeepsProcs(s, s.current.pid, entry, memOk);
    case Fault => MarkDyingKeepsMailboxes(s);
    case _ =>
  }

  lemma TickPassKeepsProcs(s: State)
    requires WellFormed(s)
    ensures TickPass(s).procs == s.procs && TickPass(s).nextPid == s.nextPid
  {
    WakeAllKeepsProcs(Advance(s), s.queues[SleepQ]);
  }

  lemma FallAsleepKeepsProcs(s: State, ms: u32)
    requires WellFormed(s)
    ensures FallAsleep(s, ms).procs == s.procs && FallAsleep(s, ms).nextPid == s.nextPid
  {
    hide Schedule, Push;
    ScheduleKeepsPids(MarkAsleep(s, WakeTick(s, ms)));
  }

  lemma ExitKeepsProcs(s: State, status: int)
    requires WellFormed(s)
    ensures Exit(s, status).procs == s.procs && Exit(s, status).nextPid == s.nextPid
  {
    hide Schedule, Push;
    ScheduleKeepsPids(MarkZombie(s, status));
  }

  lemma NewThreadKeepsProcs(s: State, p: Pid, entry: u32, memOk: bool)
    requires WellFormed(s) && p in s.procs
    ensures NewThread(s, p, entry, memOk).0.procs == s.procs
  {
    hide FreeSlot, Push;
  }

  lemma MarkDyingKeepsMailboxes(s: State)
    requires WellFormed(s)
    ensures SameMail(s.procs, MarkDying(s).procs) && MarkDying(s).nextPid == s.nextPid
  {
    hide DropThreads;
  }

  lemma {:induction false} WakeAllKeepsProcs(s: State, rest: seq<Tid>)
    requires WellFormed(s) && forall t :: t in rest ==> t in s.threads
    ensures WakeAll(s, rest).procs == s.procs && WakeAll(s, rest).nextPid == s.nextPid
    decreases |rest|
  {
    hide Push;
    if rest != [] {
      WakeAllKeepsProcs(if s.ticks >= s.threads[rest[0]].wake then Move(s, rest[0], ReadyQ, Ready) else s, rest[1..]);
    }
  }

  /** Every process of `procs` was there in `was`, with the same mailbox. */
  ghost predicate FewerBoxes(was: map<Pid, Process>, procs: map<Pid, Process>) {
    forall p :: p in procs ==> p in was && procs[p].(dad := was[p].dad) == was[p]
  }

  lemma FewerTwice(was: map<Pid, Process>, mid: map<Pid, Process>, procs: map<Pid, Process>)
    requires FewerBoxes(was, mid) && FewerBoxes(mid, procs)
    ensures FewerBoxes(was, procs)
  {
    forall p | p in procs ensures procs[p].(dad := was[p].dad) == was[p] {
      assert procs[p].(dad := mid[p].dad) == mid[p] && mid[p].(dad := was[p].dad) == was[p];
    }
  }

  lemma DestroyKeepsMailboxes(s: State, p: Pid)
    requires WellFormed(s) && p in s.procs
    ensures FewerBoxes(s.procs, DestroyProcess(s, p).procs)
  {
    hide ThreadsExcept, QueuesAfter, WellFormed;
  }

  lemma {:induction false} ReapKeepsMailboxes(s: State, rest: seq<Pid>)
    requires WellFormed(s)
    ensures FewerBoxes(s.procs, ReapFrom(s, rest).procs)
    decreases |rest|
  {
    hide DestroyProcess, WellFormed;
    if rest != [] {
      if rest[0] in s.procs && s.procs[rest[0]].dying {
        var s1 := DestroyProcess(s, rest[0]);
        DestroyKeepsMailboxes(s, rest[0]);
        ReapKeepsMailboxes(s1, rest[1..]);
        FewerTwice(s.procs, s1.procs, ReapFrom(s1, rest[1..]).procs);
      } else {
        ReapKeepsMailboxes(s, rest[1..]);
      }
    }
  }

  lemma {:induction false} ReapKeepsPids(s: State, rest: seq<Pid>)
    requires WellFormed(s)
    ensures ReapFrom(s, rest).nextPid == s.nextPid
    decreases |rest|
  {
    hide ThreadsExcept, QueuesAfter;
    if rest != [] {
      ReapKeepsPids(if rest[0] in s.procs && s.procs[rest[0]].dying then DestroyProcess(s, rest[0]) else s, rest[1..]);
    }
  }

  lemma ReceiveKeepsPids(s: State, size: nat)
    requires WellFormed(s)
    ensures Receive(s, size).nextPid == s.nextPid
  {
    hide Schedule, Push;
    ScheduleKeepsPids(MarkBlocked(s));
  }

  lemma OthersKeepPids(s: State, a: Action)
    requires WellFormed(s) && s.current.pid in s.procs && (a.NThread? || a.SendTo? || a.ResumeReceive?)
    ensures Step(s, a).nextPid == s.nextPid
  {
    hide Push, FreeSlot;
  }

  /** Pids stay 32 bits wide. */
  lemma PidsFit(s: State, a: Action)
    requires Inv(s) && Enabled(s, a) && s.nextPid < WORD
    ensures Step(s, a).nextPid < WORD
  {
    hide Inv, Core, Structure, WellFormed, Schedule, TickPass, FallAsleep, Exit, NewThread, NewProcess, Send, Receive,
      Resume, MarkDying, ReapFrom, Born;
    InvParts(s);
    K.InvServes(s);
    match a
    case Timer => TickPassKeepsProcs(s); ScheduleKeepsPids(TickPass(s));
    case Yield => ScheduleKeepsPids(s);
    case Sleep(ms) => FallAsleepKeepsProcs(s, ms);
    case ExitThread(status) => ExitKeepsProcs(s, status);
    case NProcess(code, n, mem) =>
      NewProcessAllOrNothing(s, code, n, mem);
      BornPid(s);
    case ReceiveUpTo(size) => ReceiveKeepsPids(s, size);
    case Fault => ScheduleKeepsPids(MarkDying(s)); MarkDyingKeepsMailboxes(s);
    case Reap => ReapKeepsPids(s, s.list);
    case _ => OthersKeepPids(s, a);
  }

  lemma BornPid(s: State)
    requires WellFormed(s)
    ensures Born(s).nextPid == s.nextPid + 1
  {
  }

  // ----- the kernel

  /** What a receiver is handed: the sender, and the first bytes of the message, as many as fit. */
  ghost predicate Delivers(got: Option<Received>, m: Option<Message>, size: nat) {
    got == match m
           case None => None
           case Some(m) => Some(Received(m.sender, m.data[..Min(size, |m.data|)]))
  }

  /** The oldest message in the mailbox of the caller. */
  ghost function Oldest(s: State): (m: Option<Message>) {
    if s.current.pid in s.procs && s.procs[s.current.pid].ring != [] then Some(s.procs[s.current.pid].ring[0]) else None
  }

  /** When a send is accepted, and what it then does: one mailbox gains what the caller gave, under the
      pid of the caller. */
  ghost predicate Accepted(s: State, dest: Pid, data: Option<seq<byte>>) {
    && data.Some? && 0 < |data.value| <= 64
    && dest in s.procs && !s.procs[dest].dying && |s.procs[dest].ring| < s.procs[dest].capacity
  }

  ghost predicate SendSays(s: State, dest: Pid, kind: u32, data: Option<seq<byte>>, r: State, failed: bool) {
    && (failed <==> !Accepted(s, dest, data)) && (failed ==> r == s)
    && (!failed ==>
          var proc, m := s.procs[dest], Message(s.current.pid, kind, data.value);
          r.procs == s.procs[dest := proc.(ring := proc.ring + [m], accepted := proc.accepted + [m])])
  }

  lemma SendIs(s: State, dest: Pid, kind: u32, data: Option<seq<byte>>)
    requires WellFormed(s)
    ensures SendSays(s, dest, kind, data, Send(s, dest, kind, data).0, !Send(s, dest, kind, data).1)
  {
    hide Push;
  }

  /** What the kernel stack of the current thread holds: the buffer a message is built in, and the
      size a receive was called with. */
  datatype Locals = Locals(stack: seq<byte>, size: nat) {
    predicate Ok() {
      |stack| == MESSAGE_MAX && 0 < size <= MESSAGE_MAX
    }
  }

  /** A process with an empty mailbox of sixteen slots is added. */
  ghost predicate Joins(was: map<Pid, Process>, procs: map<Pid, Process>, pid: Pid) {
    && pid !in was && pid in procs && procs == was[pid := procs[pid]]
    && procs[pid].capacity == MAILBOX_SLOTS && procs[pid].ring == procs[pid].accepted == procs[pid].delivered == []
  }

  class Mailroom {
    const kernel: K.Kernel
    var mail: map<Pid, MailSlots>
    /** All objects mailboxes are made of. */
    ghost var boxes: set<MailSlots>
    ghost var rings: set<RingBuffer>
    ghost var bufs: set<array<byte>>

    ghost predicate Valid()
      reads this, kernel, kernel.w.nodeSet, kernel.w.queueSet, boxes, rings, bufs
    {
      kernel.Valid() && Posted(mail, kernel.procs, boxes, rings, bufs)
    }

    /** The boot state: the mailbox of the idle process has no slots. */
    constructor ()
      ensures Valid() && kernel.Abs() == INITIAL && fresh(kernel)
      ensures fresh(kernel.w.nodeSet) && fresh(kernel.w.queueSet) && fresh(boxes) && fresh(rings) && fresh(bufs)
    {
      hide K.Kernel.Valid, Posted;
      var k := new K.Kernel();
      var b := new MailSlots(0);
      kernel := k;
      mail := map[IDLE := b];
      boxes, rings, bufs := {b}, {b.ring}, {b.ring.buf};
      new;
      OnlyBox(b, k.procs, IDLE);
    }

    lemma Handles()
      requires Valid()
      ensures kernel.Valid() && K.Sane(kernel.Abs()) && kernel.currentThread.pid in kernel.procs
    {
      hide K.Kernel.Valid, WellFormed;
      kernel.Handles();
    }

    /** ring_buffer_push of ipc_send and what it does to the process value. */
    method Push(dest: Pid, m: Message, stack: seq<byte>) returns (refused: bool)
      requires Valid() && dest in kernel.procs && Sendable(m) && |stack| == MESSAGE_MAX
      modifies kernel`procs, boxes, rings, bufs
      ensures Valid() && dest in kernel.procs
      ensures refused <==> |old(kernel.procs)[dest].ring| >= old(kernel.procs)[dest].capacity
      ensures kernel.Abs() == if refused then old(kernel.Abs()) else Deliver(old(kernel.Abs()), dest, m)
    {
      hide K.Kernel.Valid, Posted, WellFormed;
      ghost var procs := kernel.procs;
      ghost var proc;
      BoxOf(mail, procs, boxes, rings, bufs, dest);
      Handles();
      kernel.OwnsReadyQueue();
      refused, proc := PushMail(mail, procs, boxes, rings, bufs, dest, m, stack);
      if refused {
        assert procs[dest := procs[dest]] == procs;
      } else {
        kernel.DeliverTo(dest, m);
      }
    }

    /** ring_buffer_pop of ipc_receive and what it does to the process value. */
    method Pop(size: nat) returns (got: Option<Received>)
      requires Valid() && 0 < size <= MESSAGE_MAX
      modifies kernel`procs, boxes, rings
      ensures Valid()
      ensures WellFormed(old(kernel.Abs())) && kernel.Abs() == PopMessage(old(kernel.Abs())).0
      ensures Delivers(got, Oldest(old(kernel.Abs())), size)
    {
      hide K.Kernel.Valid, Posted, WellFormed;
      ghost var procs := kernel.procs;
      ghost var proc;
      Handles();
      kernel.OwnsReadyQueue();
      var p := kernel.currentThread.pid;
      BoxOf(mail, procs, boxes, rings, bufs, p);
      got, proc := PopMail(mail, procs, boxes, rings, bufs, p, size);
      var m := kernel.TakeMessage();
      assert kernel.procs == procs[p := proc];
    }

    /** The waking half of ipc_send. */
    method Wake(dest: Pid)
      requires Valid() && dest in kernel.procs
      modifies kernel`threads, kernel`queues
      modifies kernel.w.nodeSet`prev, kernel.w.nodeSet`next, kernel.w.nodeSet`q
      modifies kernel.w.queueSet`first, kernel.w.queueSet`last, kernel.w.queueSet`size
      ensures Valid() && WellFormed(old(kernel.Abs())) && kernel.Abs() == WakeWaiter(old(kernel.Abs()), dest)
    {
      hide K.Kernel.Valid, Posted, WellFormed, WakeWaiter;
      Handles();
      kernel.Mailbox(dest);
      kernel.WakeFirstWaiter(dest);
    }

    /** ring_buffer_empty on the caller's mailbox. */
    method NoMail() returns (empty: bool)
      requires Valid()
      ensures kernel.currentThread.pid in kernel.procs
      ensures empty <==> kernel.procs[kernel.currentThread.pid].ring == []
    {
      hide K.Kernel.Valid, Posted, WellFormed;
      Handles();
      var p := kernel.currentThread.pid;
      BoxOf(mail, kernel.procs, boxes, rings, bufs, p);
      MirrorParts(mail[p], kernel.procs[p]);
      empty := mail[p].Empty();
    }

    /** The blocking of ipc_receive and its yield. */
    method BlockCaller()
      requires Valid()
      modifies kernel`currentThread, kernel`threads, kernel`queues, kernel`receiving
      modifies kernel.w.nodeSet`prev, kernel.w.nodeSet`next, kernel.w.nodeSet`q
      modifies kernel.w.queueSet`first, kernel.w.queueSet`last, kernel.w.queueSet`size
      ensures Valid() && WellFormed(old(kernel.Abs())) && kernel.Abs() == BlockAndYield(old(kernel.Abs()))
    {
      hide K.Kernel.Valid, Posted, WellFormed, MarkBlocked, Schedule;
      Handles();
      kernel.Block();
      kernel.Schedule();
    }

    /** ipc_send; `stack` is what the local message held before it was filled in. */
    method IpcSend(pid: Pid, kind: u32, data: Option<seq<byte>>, stack: seq<byte>) returns (failed: bool)
      requires Valid() && (forall p :: p in kernel.list <==> p in kernel.procs)
      requires kernel.currentThread.pid < WORD && |stack| == MESSAGE_MAX
      modifies kernel`threads, kernel`queues, kernel`procs, boxes, rings, bufs
      modifies kernel.w.nodeSet`prev, kernel.w.nodeSet`next, kernel.w.nodeSet`q
      modifies kernel.w.queueSet`first, kernel.w.queueSet`last, kernel.w.queueSet`size
      ensures Valid() && WellFormed(old(kernel.Abs()))
      ensures Send(old(kernel.Abs()), pid, kind, data) == (kernel.Abs(), !failed)
      ensures SendSays(old(kernel.Abs()), pid, kind, data, kernel.Abs(), failed)
    {
      hide Valid, K.Kernel.Valid, WellFormed, Deliver, WakeWaiter, SendSays;
      Handles();
      SendIs(kernel.Abs(), pid, kind, data);
      if data.None? || |data.value| == 0 || |data.value| > MESSAGE_MAX {
        return true;
      }
      var found := kernel.GetProcess(pid);
      if !found {
        return true;
      }
      if kernel.procs[pid].dying {
        return true;
      }
      failed := Push(pid, Message(kernel.currentThread.pid, kind, data.value), stack);
      if failed {
        return true;
      }
      Wake(pid);
    }

    /** ipc_receive up to its yield; null output pointers are refused like a bad size. */
    method IpcReceive(nullOut: bool, size: nat) returns (got: Option<Received>)
      requires Valid()
      modifies kernel`currentThread, kernel`threads, kernel`queues, kernel`procs, kernel`receiving, boxes, rings
      modifies kernel.w.nodeSet`prev, kernel.w.nodeSet`next, kernel.w.nodeSet`q
      modifies kernel.w.queueSet`first, kernel.w.queueSet`last, kernel.w.queueSet`size
      ensures Valid() && WellFormed(old(kernel.Abs()))
      ensures kernel.Abs() == if nullOut then old(kernel.Abs()) else Receive(old(kernel.Abs()), size)
      ensures if nullOut || size == 0 || size > MESSAGE_MAX then got.None?
              else Delivers(got, Oldest(old(kernel.Abs())), size)
    {
      hide Valid, K.Kernel.Valid, WellFormed, BlockAndYield, PopMessage, Delivers, Oldest;
      Handles();
      if nullOut || size == 0 || size > MESSAGE_MAX {
        return None;
      }
      EmptyPop(kernel.Abs(), size);
      var empty := NoMail();
      if empty {
        BlockCaller();
        return None;
      }
      got := Pop(size);
    }

    /** Bookkeeping: the current thread's receive is over. */
    ghost method NoteReceived()
      requires Valid()
      modifies kernel`receiving
      ensures Valid()
      ensures kernel.Abs() == old(kernel.Abs()).(receiving := old(kernel.receiving) - {kernel.currentThread})
    {
      hide K.Kernel.Valid, Posted;
      kernel.NoteReceived();
    }

    /** ipc_receive from the return of its yield on. */
    method IpcResume(size: nat) returns (got: Option<Received>)
      requires Valid() && 0 < size <= MESSAGE_MAX
      modifies kernel`procs, kernel`receiving, boxes, rings
      ensures Valid() && WellFormed(old(kernel.Abs())) && kernel.Abs() == Resume(old(kernel.Abs()))
      ensures Delivers(got, Oldest(old(kernel.Abs())), size)
    {
      hide Valid, K.Kernel.Valid, WellFormed, PopMessage, Delivers, Oldest;
      Handles();
      PoppingKeepsReceiving(kernel.Abs());
      got := Pop(size);
      NoteReceived();
    }

    /** A step of the kernel that touches no mailbox. */
    method PerformPostless(a: Action)
      requires Valid() && Inv(kernel.Abs()) && Enabled(kernel.Abs(), a) && K.Postless(a)
      modifies kernel
      modifies kernel.w.nodeSet`prev, kernel.w.nodeSet`next, kernel.w.nodeSet`q
      modifies kernel.w.queueSet`first, kernel.w.queueSet`last, kernel.w.queueSet`size
      ensures Valid() && WellFormed(old(kernel.Abs())) && kernel.Abs() == Step(old(kernel.Abs()), a)
      ensures fresh(kernel.w.nodeSet - old(kernel.w.nodeSet)) && fresh(kernel.w.queueSet - old(kernel.w.queueSet))
    {
      hide K.Kernel.Valid, Posted, WellFormed, Inv, Step, Enabled, K.Postless, SameMail;
      ghost var s := kernel.Abs();
      InvParts(s);
      PostlessKeeps(s, a);
      kernel.PerformPostless(a);
      PostKept(mail, s.procs, kernel.procs, boxes, rings, bufs);
    }

    /** sys_nprocess; a process that comes of it has an empty mailbox of sixteen slots. */
    method CreateProcess(entry: u32, n: u32, mem: Memory) returns (pid: Pid)
      requires Valid() && Inv(kernel.Abs())
      modifies this, kernel
      modifies kernel.w.nodeSet`prev, kernel.w.nodeSet`next, kernel.w.nodeSet`q
      modifies kernel.w.queueSet`first, kernel.w.queueSet`last, kernel.w.queueSet`size
      ensures Valid() && WellFormed(old(kernel.Abs()))
      ensures NewProcess(old(kernel.Abs()), entry, n, mem) == (kernel.Abs(), pid)
      ensures fresh(kernel.w.nodeSet - old(kernel.w.nodeSet)) && fresh(kernel.w.queueSet - old(kernel.w.queueSet))
      ensures fresh(boxes - old(boxes)) && fresh(rings - old(rings)) && fresh(bufs - old(bufs))
    {
      hide K.Kernel.Valid, Posted, WellFormed, Inv, NewProcess, Joins;
      ghost var procs := kernel.procs;
      pid := CreateProcessBlock(entry, n, mem);
      if pid != 0 {
        JoinBox(pid, procs);
      }
    }

    /** The kernel's part of it, in which no mailbox is touched. */
    method CreateProcessBlock(entry: u32, n: u32, mem: Memory) returns (pid: Pid)
      requires Valid() && Inv(kernel.Abs())
      modifies kernel
      modifies kernel.w.nodeSet`prev, kernel.w.nodeSet`next, kernel.w.nodeSet`q
      modifies kernel.w.queueSet`first, kernel.w.queueSet`last, kernel.w.queueSet`size
      ensures kernel.Valid() && WellFormed(old(kernel.Abs()))
      ensures NewProcess(old(kernel.Abs()), entry, n, mem) == (kernel.Abs(), pid)
      ensures Posted(mail, old(kernel.procs), boxes, rings, bufs)
      ensures if pid == 0 then kernel.procs == old(kernel.procs) else Joins(old(kernel.procs), kernel.procs, pid)
      ensures fresh(kernel.w.nodeSet - old(kernel.w.nodeSet)) && fresh(kernel.w.queueSet - old(kernel.w.queueSet))
    {
      hide K.Kernel.Valid, Posted, WellFormed, Inv, Core, Structure, NewProcess, Joins;
      InvBasis(kernel.Abs());
      CreationMail(kernel.Abs(), entry, n, mem);
      pid := kernel.NewProcess(entry, n, mem);
    }

    /** ring_buffer_init for the mailbox of a new process. */
    method JoinBox(pid: Pid, ghost procs: map<Pid, Process>)
      requires kernel.Valid() && Posted(mail, procs, boxes, rings, bufs) && Joins(procs, kernel.procs, pid)
      modifies this`mail, this`boxes, this`rings, this`bufs
      ensures Valid() && kernel.Abs() == old(kernel.Abs())
      ensures fresh(boxes - old(boxes)) && fresh(rings - old(rings)) && fresh(bufs - old(bufs))
    {
      hide K.Kernel.Valid, Posted, WellFormed, MailSlots.Valid;
      kernel.OwnsReadyQueue();
      var b := new MailSlots(MAILBOX_SLOTS);
      AddBox(pid, b, procs);
    }

    /** The mailbox becomes that of the process. */
    method AddBox(pid: Pid, b: MailSlots, ghost procs: map<Pid, Process>)
      requires kernel.Valid() && Posted(mail, procs, boxes, rings, bufs) && Joins(procs, kernel.procs, pid)
      requires b.Valid() && b.ring.capacity == MAILBOX_SLOTS && b.pending == b.accepted == b.delivered == []
      requires b !in boxes && b.ring !in rings && b.ring.buf !in bufs
      modifies this`mail, this`boxes, this`rings, this`bufs
      ensures Valid() && kernel.Abs() == old(kernel.Abs())
      ensures boxes == old(boxes) + {b} && rings == old(rings) + {b.ring} && bufs == old(bufs) + {b.ring.buf}
    {
      hide K.Kernel.Valid, Posted, WellFormed, MailSlots.Valid;
      kernel.OwnsReadyQueue();
      MirrorWhole(b, kernel.procs[pid]);
      PostJoins(mail, procs, boxes, rings, bufs, pid, b, kernel.procs[pid]);
      mail := mail[pid := b];
      boxes, rings, bufs := boxes + {b}, rings + {b.ring}, bufs + {b.ring.buf};
    }

    /** One pass of the reaper; the mailboxes of the processes it destroys go with their blocks. */
    method Reap()
      requires Valid() && Inv(kernel.Abs()) && kernel.currentThread.pid == IDLE
      modifies this`mail, kernel
      modifies kernel.w.nodeSet`prev, kernel.w.nodeSet`next, kernel.w.nodeSet`q
      modifies kernel.w.queueSet`first, kernel.w.queueSet`last, kernel.w.queueSet`size
      ensures Valid() && WellFormed(old(kernel.Abs())) && kernel.Abs() == ReapFrom(old(kernel.Abs()), old(kernel.list))
      ensures kernel.w.nodeSet == old(kernel.w.nodeSet) && kernel.w.queueSet == old(kernel.w.queueSet)
    {
      hide K.Kernel.Valid, Posted, WellFormed, Inv, Core, Structure, ReapFrom;
      ghost var s := kernel.Abs();
      InvBasis(s);
      ReapKeepsMailboxes(s, s.list);
      kernel.ReaperPass();
      PostReaped(mail, s.procs, kernel.procs, boxes, rings, bufs);
      mail := map p | p in mail && p in kernel.procs :: mail[p];
    }

    /** The steps that send or receive. */
    method PerformMail(a: Action, locals: Locals)
      requires Valid() && Inv(kernel.Abs()) && Enabled(kernel.Abs(), a) && kernel.nextPid < WORD && locals.Ok()
      requires a.SendTo? || a.ReceiveUpTo? || a.ResumeReceive?
      modifies kernel`currentThread, kernel`threads, kernel`queues, kernel`procs, kernel`receiving, boxes, rings, bufs
      modifies kernel.w.nodeSet`prev, kernel.w.nodeSet`next, kernel.w.nodeSet`q
      modifies kernel.w.queueSet`first, kernel.w.queueSet`last, kernel.w.queueSet`size
      ensures Valid() && WellFormed(old(kernel.Abs())) && kernel.Abs() == Step(old(kernel.Abs()), a)
    {
      hide Valid, K.Kernel.Valid, WellFormed, Inv, Receive, Resume, Send, PopMessage, Delivers;
      ListsServe(kernel.Abs());
      match a {
        case SendTo(dest, kind, data) =>
          var failed := IpcSend(dest, kind, data, locals.stack);
        case ReceiveUpTo(size) =>
          var got := IpcReceive(false, size);
        case ResumeReceive =>
          var got := IpcResume(locals.size);
      }
    }

    /** The steps that add and remove processes. */
    method PerformLife(a: Action)
      requires Valid() && Inv(kernel.Abs()) && Enabled(kernel.Abs(), a) && (a.NProcess? || a.Reap?)
      modifies this, kernel
      modifies kernel.w.nodeSet`prev, kernel.w.nodeSet`next, kernel.w.nodeSet`q
      modifies kernel.w.queueSet`first, kernel.w.queueSet`last, kernel.w.queueSet`size
      ensures Valid() && WellFormed(old(kernel.Abs())) && kernel.Abs() == Step(old(kernel.Abs()), a)
      ensures fresh(kernel.w.nodeSet - old(kernel.w.nodeSet)) && fresh(kernel.w.queueSet - old(kernel.w.queueSet))
      ensures fresh(boxes - old(boxes)) && fresh(rings - old(rings)) && fresh(bufs - old(bufs))
    {
      hide Valid, K.Kernel.Valid, WellFormed, Inv, NewProcess, ReapFrom;
      match a {
        case NProcess(code, n, mem) =>
          var pid := CreateProcess(code, n, mem);
        case Reap => Reap();
      }
    }

    /** Any step the current thread can take, made by the code for it. `locals` is what its kernel
        stack holds. */
    method Perform(a: Action, locals: Locals)
      requires Valid() && Inv(kernel.Abs()) && Enabled(kernel.Abs(), a) && kernel.nextPid < WORD && locals.Ok()
      modifies this, kernel, boxes, rings, bufs
      modifies kernel.w.nodeSet`prev, kernel.w.nodeSet`next, kernel.w.nodeSet`q
      modifies kernel.w.queueSet`first, kernel.w.queueSet`last, kernel.w.queueSet`size
      ensures Valid() && WellFormed(old(kernel.Abs())) && kernel.Abs() == Step(old(kernel.Abs()), a)
      ensures Inv(kernel.Abs()) && kernel.nextPid < WORD
      ensures fresh(kernel.w.nodeSet - old(kernel.w.nodeSet)) && fresh(kernel.w.queueSet - old(kernel.w.queueSet))
      ensures fresh(boxes - old(boxes)) && fresh(rings - old(rings)) && fresh(bufs - old(bufs))
    {
      hide Valid, K.Kernel.Valid, WellFormed, Inv, Step, Enabled;
      StepKeepsInv(kernel.Abs(), a);
      PidsFit(kernel.Abs(), a);
      if K.Postless(a) {
        PerformPostless(a);
      } else if a.NProcess? || a.Reap? {
        PerformLife(a);
      } else {
        PerformMail(a, locals);
      }
    }

    /** A run of steps, each of them one that the thread then current can take. */
    method Follow(actions: seq<Action>, locals: Locals)
      requires Valid() && Inv(kernel.Abs()) && Legal(kernel.Abs(), actions) && kernel.nextPid < WORD && locals.Ok()
      modifies this, kernel, boxes, rings, bufs
      modifies kernel.w.nodeSet`prev, kernel.w.nodeSet`next, kernel.w.nodeSet`q
      modifies kernel.w.queueSet`first, kernel.w.queueSet`last, kernel.w.queueSet`size
      ensures Valid() && kernel.Abs() == After(old(kernel.Abs()), actions)
    {
      hide Valid, Inv, Step, Enabled, Legal, After, WellFormed;
      ghost var s := kernel.Abs();
      NoSteps(s);
      assert actions[..0] == [];
      var i := 0;
      while i < |actions|
        invariant 0 <= i <= |actions| && Legal(s, actions[..i]) && kernel.nextPid < WORD
        invariant fresh(kernel.w.nodeSet - old(kernel.w.nodeSet)) && fresh(kernel.w.queueSet - old(kernel.w.queueSet))
        invariant fresh(boxes - old(boxes)) && fresh(rings - old(rings)) && fresh(bufs - old(bufs))
        invariant Valid() && Inv(kernel.Abs()) && kernel.Abs() == After(s, actions[..i])
      {
        NextStep(s, actions, i);
        Perform(actions[i], locals);
        i := i + 1;
      }
      assert actions[..i] == actions;
    }
  }

  lemma ListsServe(s: State)
    requires Inv(s)
    ensures WellFormed(s) && s.current.pid in s.procs && s.current.pid < s.nextPid
    ensures forall p :: p in s.list <==> p in s.procs
  {
    K.InvServes(s);
  }

  /** Every run of the state machine from boot is a run of the kernel. */
  method Run(actions: seq<Action>, locals: Locals) returns (room: Mailroom)
    requires Legal(INITIAL, actions) && locals.Ok()
    ensures room.Valid() && room.kernel.Abs() == After(INITIAL, actions)
  {
    hide Mailroom.Valid, Inv, Legal, After;
    room := new Mailroom();
    InitialInv();
    room.Follow(actions, locals);
  }

  /** What creation does to the process values. */
  lemma CreationMail(s: State, entry: u32, n: u32, mem: Memory)
    requires Inv(s)
    ensures WellFormed(s)
    ensures var (r, pid) := NewProcess(s, entry, n, mem);
      if pid == 0 then r.procs == s.procs
      else Joins(s.procs, r.procs, pid)
  {
    hide NewProcess, Core, Structure, Inv, Push;
    InvBasis(s);
    NewProcessAllOrNothing(s, entry, n, mem);
    NextPidIsFresh(s);
    IdleIsListed(s);
  }

  lemma IdleIsListed(s: State)
    requires Core(s) && Structure(s)
    ensures s.nextPid != 0
  {
    assert IDLE in s.procs;
  }

  /** Mailboxes of processes that are gone leave; the others say what they said. */
  lemma PostReaped(mail: map<Pid, MailSlots>, procs: map<Pid, Process>, after: map<Pid, Process>, boxes: set<MailSlots>,
                   rings: set<RingBuffer>, bufs: set<array<byte>>)
    requires Posted(mail, procs, boxes, rings, bufs)
    requires FewerBoxes(procs, after)
    ensures Posted(map p | p in mail && p in after :: mail[p], after, boxes, rings, bufs)
  {
    forall p | p in after ensures p in mail && Mirrors(mail[p], after[p]) {
      assert Mirrors(mail[p], procs[p]) && procs[p] == after[p].(dad := procs[p].dad);
    }
  }

  lemma EmptyPop(s: State, size: nat)
    requires K.Sane(s) && s.current.pid in s.procs
    ensures s.procs[s.current.pid].ring == [] ==> Delivers(None, Oldest(s), size)
  {
  }

  lemma PoppingKeepsReceiving(s: State)
    requires WellFormed(s)
    ensures PopMessage(s).0.receiving == s.receiving && PopMessage(s).0.current == s.current
  {
  }

  lemma OnlyBox(b: MailSlots, procs: map<Pid, Process>, p: Pid)
    requires b.Valid() && b.ring.capacity == 0 && b.pending == b.accepted == b.delivered == []
    requires procs == map[p := Process(false, None, 0, [], [], [])]
    ensures Posted(map[p := b], procs, {b}, {b.ring}, {b.ring.buf})
  {
    MirrorWhole(b, procs[p]);
  }
}
