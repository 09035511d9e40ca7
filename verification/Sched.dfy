/**
  The scheduler, the mailboxes and the life of processes as a state machine.

  A thread is named by the process that holds it and its slot there (the C code
  uses the address of that slot); a process is named by its pid. Every linked
  queue of the kernel is an entry of `queues`, from front to back; `list` is the
  global process list from `first_process` on.
*/
module Sched {
  import opened Common
  import opened Seqs

  type Pid = nat

  datatype Tid = Tid(pid: Pid, slot: nat)

  datatype ThreadState = Running | Ready | Blocked | Zombie | Sleeping

  datatype Thread = Thread(state: ThreadState, wake: u32, exitCode: int)

  datatype QId = ReadyQ | SleepQ | ZombieQ | Waiters(pid: Pid)

  datatype Message = Message(sender: Pid, kind: u32, data: seq<byte>)

  /** `accepted` and `delivered` are history: every message ever pushed and popped. */
  datatype Process = Process(
    dying: bool, dad: Option<Pid>, capacity: nat, ring: seq<Message>,
    accepted: seq<Message>, delivered: seq<Message>)

  /** `receiving` holds the threads stopped inside a receive, after its yield and before its pop. */
  datatype State = State(
    current: Tid,
    threads: map<Tid, Thread>,
    queues: map<QId, seq<Tid>>,
    procs: map<Pid, Process>,
    list: seq<Pid>,
    nextPid: Pid,
    ticks: u32,
    receiving: set<Tid>)

  const IDLE: Pid := 0
  const IDLE0: Tid := Tid(0, 0)
  const THREADS_PER_PROCESS: nat := 8
  const MAILBOX_SLOTS: nat := 16
  const MESSAGE_MAX: nat := 64
  const MS_PER_TICK: nat := 10
  const FRESH: Thread := Thread(Running, 0, 0)

  /** What the code needs in order not to follow a dangling pointer. */
  ghost predicate WellFormed(s: State) {
    && s.current in s.threads
    && ReadyQ in s.queues && SleepQ in s.queues && ZombieQ in s.queues
    && (forall q, t :: q in s.queues && t in s.queues[q] ==> t in s.threads)
    && (forall t :: t in s.threads ==> t.pid in s.procs)
    && (forall p :: p in s.procs ==> Waiters(p) in s.queues)
  }

  // ----- the state right after sched_init

  const INITIAL: State := State(
    IDLE0,
    map[IDLE0 := FRESH],
    map[ReadyQ := [], SleepQ := [], ZombieQ := [], Waiters(IDLE) := []],
    map[IDLE := Process(false, None, 0, [], [], [])],
    [IDLE], 1, 0, {})

  // ----- queues

  function Detach(queues: map<QId, seq<Tid>>, t: Tid): (r: map<QId, seq<Tid>>) {
    map q | q in queues :: Without(queues[q], t)
  }

  /** queue_push: the node first leaves whichever queue owns it. */
  function Push(queues: map<QId, seq<Tid>>, q: QId, t: Tid): (r: map<QId, seq<Tid>>)
    requires q in queues
    ensures r.Keys == queues.Keys
    ensures forall k, u :: k in queues ==> (u in r[k] <==> if u == t then k == q else u in queues[k])
  {
    Detach(queues, t)[q := Without(queues[q], t) + [t]]
  }

  /** Thread `t`, which may be new, gets the record `th` and joins the end of `q`. */
  function Place(s: State, t: Tid, q: QId, th: Thread): (r: State)
    requires WellFormed(s) && t.pid in s.procs && q in s.queues
    ensures WellFormed(r)
  {
    s.(queues := Push(s.queues, q, t), threads := s.threads[t := th])
  }

  /** The common shape of sched_ready, sched_zombie and sched_sleep. */
  function Move(s: State, t: Tid, q: QId, st: ThreadState): (r: State)
    requires WellFormed(s) && t in s.threads && q in s.queues
    ensures WellFormed(r)
  {
    Place(s, t, q, s.threads[t].(state := st))
  }

  // ----- the scheduler proper

  function Requeue(s: State): (r: State)
    requires WellFormed(s)
    ensures WellFormed(r)
    ensures r.procs == s.procs
    ensures s.queues[ReadyQ] != [] ==> r.queues[ReadyQ] != []
  {
    if s.threads[s.current].state.Running?
    then s.(queues := Push(s.queues, ReadyQ, s.current))
    else s
  }

  function PopReady(s: State): (r: State)
    requires WellFormed(s) && s.queues[ReadyQ] != []
    ensures WellFormed(r)
  {
    s.(queues := s.queues[ReadyQ := s.queues[ReadyQ][1..]])
  }

  /** switch_context, as far as the state goes. */
  function SwitchTo(s: State, t: Tid): (r: State)
    requires WellFormed(s) && t in s.threads
    ensures WellFormed(r) && r.procs == s.procs && r.queues == s.queues
  {
    s.(current := t, threads := s.threads[t := s.threads[t].(state := Running)])
  }

  /** The front of the ready queue leaves it; it becomes current unless it already
      is (an early return) or its process is dying (another early return). */
  function Dispatch(s: State): (r: State)
    requires WellFormed(s) && s.queues[ReadyQ] != []
    ensures WellFormed(r)
    ensures r.procs == s.procs
  {
    var n := s.queues[ReadyQ][0];
    var popped := PopReady(s);
    if n == s.current || s.procs[n.pid].dying then popped
    else SwitchTo(popped, n)
  }

  /** The scheduler; its first early return is the empty ready queue. */
  function Schedule(s: State): (r: State)
    requires WellFormed(s)
    ensures WellFormed(r)
    ensures r.procs == s.procs
  {
    if s.queues[ReadyQ] == [] then s else Dispatch(Requeue(s))
  }

  // ----- timer

  /** The walk over the sleep queue, on the remaining part of the list it started with. */
  function WakeAll(s: State, rest: seq<Tid>): (r: State)
    requires WellFormed(s) && forall t :: t in rest ==> t in s.threads
    ensures WellFormed(r)
    decreases |rest|
  {
    if rest == [] then s
    else if s.ticks >= s.threads[rest[0]].wake then WakeAll(Move(s, rest[0], ReadyQ, Ready), rest[1..])
    else WakeAll(s, rest[1..])
  }

  function Advance(s: State): (r: State)
    requires WellFormed(s)
    ensures WellFormed(r)
  {
    s.(ticks := (s.ticks + 1) % WORD)
  }

  function TickPass(s: State): (r: State)
    requires WellFormed(s)
    ensures WellFormed(r)
  {
    WakeAll(Advance(s), s.queues[SleepQ])
  }

  // ----- threads

  function FreeSlot(s: State, p: Pid, from: nat): (r: Option<nat>)
    requires from <= THREADS_PER_PROCESS
    ensures r.Some? ==> from <= r.value < THREADS_PER_PROCESS && Tid(p, r.value) !in s.threads
    decreases THREADS_PER_PROCESS - from
  {
    if from == THREADS_PER_PROCESS then None
    else if Tid(p, from) !in s.threads then Some(from)
    else FreeSlot(s, p, from + 1)
  }

  /** sched_create_thread followed by sched_ready; `memOk` says whether both stacks could be had. */
  function NewThread(s: State, p: Pid, entry: u32, memOk: bool): (r: (State, bool))
    requires WellFormed(s) && p in s.procs
    ensures WellFormed(r.0)
  {
    var slot := FreeSlot(s, p, 0);
    if entry == 0 || slot.None? || !memOk then (s, false)
    else
      (Place(s, Tid(p, slot.value), ReadyQ, FRESH.(state := Ready)), true)
  }

  function MarkZombie(s: State, status: int): (r: State)
    requires WellFormed(s)
    ensures WellFormed(r)
  {
    Place(s, s.current, ZombieQ, s.threads[s.current].(state := Zombie, exitCode := status))
  }

  function WakeTick(s: State, ms: u32): (wake: u32) {
    (s.ticks + ms / MS_PER_TICK) % WORD
  }

  predicate FallsAsleep(s: State, ms: u32) {
    WakeTick(s, ms) > s.ticks && s.current != IDLE0
  }

  function MarkAsleep(s: State, wake: u32): (r: State)
    requires WellFormed(s)
    ensures WellFormed(r)
  {
    Place(s, s.current, SleepQ, s.threads[s.current].(state := Sleeping, wake := wake))
  }

  /** sys_sleep; the idle thread never sleeps, and neither does a call whose wake tick is not ahead. */
  function FallAsleep(s: State, ms: u32): (r: State)
    requires WellFormed(s)
    ensures WellFormed(r)
  {
    if FallsAsleep(s, ms) then Schedule(MarkAsleep(s, WakeTick(s, ms))) else s
  }

  /** sys_exit, refused inside the idle process. */
  function Exit(s: State, status: int): (r: State)
    requires WellFormed(s)
    ensures WellFormed(r)
  {
    if s.current.pid == IDLE then s else Schedule(MarkZombie(s, status))
  }

  // ----- processes

  function CreateProcess(s: State): (r: State)
    requires WellFormed(s)
    ensures WellFormed(r)
  {
    var p := s.nextPid;
    s.(procs := s.procs[p := Process(false, Some(s.current.pid), MAILBOX_SLOTS, [], [], [])],
       queues := s.queues[Waiters(p) := []],
       list := [p] + s.list,
       nextPid := p + 1)
  }

  function Reparent(procs: map<Pid, Process>, p: Pid): (r: map<Pid, Process>)
    requires p in procs
  {
    map c | c in procs ::
      if procs[c].dad == Some(p) then procs[c].(dad := procs[p].dad) else procs[c]
  }

  function NotOf(p: Pid): (keep: Tid -> bool) {
    (t: Tid) => t.pid != p
  }

  function DropThreads(queues: map<QId, seq<Tid>>, p: Pid): (r: map<QId, seq<Tid>>)
    ensures r.Keys == queues.Keys
    ensures forall k, u :: k in queues ==> (u in r[k] <==> u in queues[k] && u.pid != p)
    ensures forall k :: k in r ==> |r[k]| <= |queues[k]|
  {
    map q | q in queues :: Filter(queues[q], NotOf(p))
  }

  /** The queues once process `p` is gone: its threads unlinked, its mailbox queue released. */
  function QueuesAfter(queues: map<QId, seq<Tid>>, p: Pid): (r: map<QId, seq<Tid>>)
    ensures r.Keys == queues.Keys - {Waiters(p)}
    ensures forall k, u :: k in r ==> (u in r[k] <==> u in queues[k] && u.pid != p)
    ensures forall k :: k in r ==> |r[k]| <= |queues[k]|
  {
    DropThreads(queues, p) - {Waiters(p)}
  }

  function DropProcess(procs: map<Pid, Process>, p: Pid): (r: map<Pid, Process>)
    requires p in procs
    ensures r.Keys == procs.Keys - {p}
    ensures forall c :: c in r ==> r[c] == if procs[c].dad == Some(p) then procs[c].(dad := procs[p].dad) else procs[c]
  {
    Reparent(procs, p) - {p}
  }

  function ThreadsExcept(threads: map<Tid, Thread>, p: Pid): (r: map<Tid, Thread>)
    ensures forall t :: t in r <==> t in threads && t.pid != p
    ensures forall t :: t in r ==> r[t] == threads[t]
  {
    map t | t in threads && t.pid != p :: threads[t]
  }

  /** Process `p`, its threads and its queue are gone from `r`; the rest is as in `s`. */
  ghost predicate Dropped(s: State, r: State, p: Pid) {
    && r.current == s.current
    && r.queues.Keys == s.queues.Keys - {Waiters(p)}
    && (forall k, u :: k in r.queues && u in r.queues[k] ==> u in s.queues[k])
    && (forall k, u :: k in r.queues && u in s.queues[k] && u.pid != p ==> u in r.queues[k])
    && (forall k, u :: k in r.queues && u in r.queues[k] ==> u.pid != p)
    && (forall u :: u in r.threads <==> u in s.threads && u.pid != p)
    && (forall u :: u in r.threads ==> r.threads[u] == s.threads[u])
    && r.procs.Keys == s.procs.Keys - {p}
    && (forall c :: c in r.procs ==> r.procs[c].dying == s.procs[c].dying)
  }

  lemma DroppedIsWellFormed(s: State, r: State, p: Pid)
    requires WellFormed(s) && Dropped(s, r, p) && s.current.pid != p
    ensures WellFormed(r)
  {
  }

  /** sched_destroy_process; it refuses the process whose page directory is loaded. */
  function DestroyProcess(s: State, p: Pid): (r: State)
    requires WellFormed(s) && p in s.procs
    ensures WellFormed(r)
    ensures s.current.pid != p ==> Dropped(s, r, p)
  {
    if s.current.pid == p then s
    else
      var receiving := set t | t in s.receiving && t.pid != p;
      var r := State(s.current, ThreadsExcept(s.threads, p), QueuesAfter(s.queues, p), DropProcess(s.procs, p),
                     Without(s.list, p), s.nextPid, s.ticks, receiving);
      DroppedIsWellFormed(s, r, p);
      r
  }

  /** The dying half of sched_destroy_current_process. */
  function MarkDying(s: State): (r: State)
    requires WellFormed(s)
    ensures WellFormed(r)
  {
    var p := s.current.pid;
    s.(queues := DropThreads(s.queues, p), procs := s.procs[p := s.procs[p].(dying := true)])
  }

  /** The reaper's walk, on the remaining part of the list it started with. */
  function ReapFrom(s: State, rest: seq<Pid>): (r: State)
    requires WellFormed(s)
    ensures WellFormed(r)
    decreases |rest|
  {
    if rest == [] then s
    else if rest[0] in s.procs && s.procs[rest[0]].dying then ReapFrom(DestroyProcess(s, rest[0]), rest[1..])
    else ReapFrom(s, rest[1..])
  }

  /** How far each fallible allocation of sys_nprocess gets. */
  datatype Memory = Memory(data: bool, directory: bool, region: bool, stacks: bool)

  /** sys_nprocess: the new state and the pid handed to the caller (0 on failure). */
  function NewProcess(s: State, entry: u32, n: u32, mem: Memory): (r: (State, Pid))
    requires WellFormed(s)
    ensures WellFormed(r.0)
  {
    if entry == 0 || n == 0 || !mem.data || !mem.directory then (s, 0)
    else
      var p := s.nextPid;
      var s1 := CreateProcess(s);
      if !mem.region then (DestroyProcess(s1, p), 0)
      else
        var (s2, ok) := NewThread(s1, p, 0x400000, mem.stacks);
        if !ok then (DestroyProcess(s2, p), 0) else (s2, p)
  }

  // ----- messages

  function Deliver(s: State, dest: Pid, m: Message): (r: State)
    requires WellFormed(s) && dest in s.procs
    ensures WellFormed(r)
  {
    var p := s.procs[dest];
    s.(procs := s.procs[dest := p.(ring := p.ring + [m], accepted := p.accepted + [m])])
  }

  /** queue_pop on the waiters, then sched_ready. */
  function WakeWaiter(s: State, dest: Pid): (r: State)
    requires WellFormed(s) && dest in s.procs
    ensures WellFormed(r)
  {
    var w := s.queues[Waiters(dest)];
    if w == [] then s
    else Move(s.(queues := s.queues[Waiters(dest) := w[1..]]), w[0], ReadyQ, Ready)
  }

  predicate Accepts(s: State, dest: Pid) {
    dest in s.procs && !s.procs[dest].dying && |s.procs[dest].ring| < s.procs[dest].capacity
  }

  predicate ValidPayload(data: Option<seq<byte>>) {
    data.Some? && 0 < |data.value| <= MESSAGE_MAX
  }

  /** ipc_send: the new state and whether the call succeeded. A null buffer is `None`. */
  function Send(s: State, dest: Pid, kind: u32, data: Option<seq<byte>>): (r: (State, bool))
    requires WellFormed(s)
    ensures WellFormed(r.0)
  {
    if !ValidPayload(data) || !Accepts(s, dest) then (s, false)
    else (WakeWaiter(Deliver(s, dest, Message(s.current.pid, kind, data.value)), dest), true)
  }

  /** ring_buffer_pop on the caller's own mailbox. */
  function PopMessage(s: State): (r: (State, Option<Message>))
    requires WellFormed(s)
    ensures WellFormed(r.0)
  {
    var p := s.procs[s.current.pid];
    if p.ring == [] then (s, None)
    else (s.(procs := s.procs[s.current.pid := p.(ring := p.ring[1..], delivered := p.delivered + [p.ring[0]])]),
          Some(p.ring[0]))
  }

  function MarkBlocked(s: State): (r: State)
    requires WellFormed(s)
    ensures WellFormed(r)
  {
    Move(s, s.current, Waiters(s.current.pid), Blocked).(receiving := s.receiving + {s.current})
  }

  function BlockAndYield(s: State): (r: State)
    requires WellFormed(s)
    ensures WellFormed(r)
  {
    Schedule(MarkBlocked(s))
  }

  /** ipc_receive up to its yield, or up to the end when a message is already there. */
  function Receive(s: State, size: nat): (r: State)
    requires WellFormed(s)
    ensures WellFormed(r)
  {
    if size == 0 || size > MESSAGE_MAX then s
    else if s.procs[s.current.pid].ring == [] then BlockAndYield(s)
    else PopMessage(s).0
  }

  /** ipc_receive from the return of its yield on. */
  function Resume(s: State): (r: State)
    requires WellFormed(s)
    ensures WellFormed(r)
  {
    PopMessage(s).0.(receiving := s.receiving - {s.current})
  }

  // ----- the step alphabet

  datatype Action =
    | Timer
    | Yield
    | Sleep(ms: u32)
    | ExitThread(status: int)
    | NThread(entry: u32, memOk: bool)
    | NProcess(code: u32, n: u32, mem: Memory)
    | SendTo(dest: Pid, kind: u32, data: Option<seq<byte>>)
    | ReceiveUpTo(size: nat)
    | ResumeReceive
    | Fault
    | Reap

  /** Which steps the current thread can take. */
  predicate Enabled(s: State, a: Action)
    requires s.current in s.threads
  {
    && (s.threads[s.current].state.Zombie? ==> a.Timer?)
    && (s.current in s.receiving <==> a.ResumeReceive?)
    && (a.ReceiveUpTo? ==> s.current != IDLE0)
    && (a.Fault? ==> s.current.pid != IDLE)
    && (a.Reap? ==> s.current.pid == IDLE)
    && (a.NProcess? ==> s.nextPid < WORD - 1)
  }

  function Step(s: State, a: Action): (r: State)
    requires WellFormed(s)
    ensures WellFormed(r)
  {
    match a
    case Timer => Schedule(TickPass(s))
    case Yield => Schedule(s)
    case Sleep(ms) => FallAsleep(s, ms)
    case ExitThread(status) => Exit(s, status)
    case NThread(entry, memOk) => NewThread(s, s.current.pid, entry, memOk).0
    case NProcess(code, n, mem) => NewProcess(s, code, n, mem).0
    case SendTo(dest, kind, data) => Send(s, dest, kind, data).0
    case ReceiveUpTo(size) => Receive(s, size)
    case ResumeReceive => Resume(s)
    case Fault => Schedule(MarkDying(s))
    case Reap => ReapFrom(s, s.list)
  }
}
