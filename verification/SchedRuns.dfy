/**
  Whole runs of the kernel, from the state sched_init leaves. The invariant holds
  after every step of every run; the main safety results are read off it.
*/
module SchedRuns {
  import opened Common
  import opened Seqs
  import opened Sched
  import opened SchedInvariant
  import opened ProcessForest
  import opened SleepQueue
  import opened Mailboxes

  ghost predicate Inv(s: State) {
    Core(s) && Structure(s) && NoOversleep(s) && Mail(s)
  }

  lemma InitialInv()
    ensures Inv(INITIAL)
  {
  }

  lemma InvBasis(s: State)
    requires Inv(s)
    ensures WellFormed(s) && Core(s) && Structure(s)
  {
  }

  // ----- sleepers

  /** Every queued sleeper keeps its wake tick and none is added. */
  ghost predicate NoNewSleeper(s: State, r: State)
    requires WellFormed(s) && WellFormed(r)
  {
    r.ticks == s.ticks &&
    forall t :: t in r.queues[SleepQ] ==> t in s.queues[SleepQ] && r.threads[t].wake == s.threads[t].wake
  }

  lemma NoNewSleeperKeeps(s: State, r: State)
    requires WellFormed(s) && WellFormed(r) && NoOversleep(s) && NoNewSleeper(s, r)
    ensures NoOversleep(r)
  {
  }

  lemma DispatchNoNewSleeper(s: State)
    requires WellFormed(s) && s.queues[ReadyQ] != []
    ensures NoNewSleeper(s, Dispatch(s))
  {
  }

  lemma ScheduleNoNewSleeper(s: State)
    requires WellFormed(s)
    ensures NoNewSleeper(s, Schedule(s))
  {
    if s.queues[ReadyQ] != [] {
      assert NoNewSleeper(s, Requeue(s));
      DispatchNoNewSleeper(Requeue(s));
    }
  }

  lemma MarkAsleepKeepsNoOversleep(s: State, wake: u32)
    requires WellFormed(s) && NoOversleep(s) && s.ticks < wake
    ensures NoOversleep(MarkAsleep(s, wake))
  {
  }

  lemma {:induction false} ReapNoNewSleeper(s: State, rest: seq<Pid>)
    requires WellFormed(s)
    ensures NoNewSleeper(s, ReapFrom(s, rest))
    decreases |rest|
  {
    if rest != [] {
      if rest[0] in s.procs && s.procs[rest[0]].dying {
        ReapNoNewSleeper(DestroyProcess(s, rest[0]), rest[1..]);
      } else {
        ReapNoNewSleeper(s, rest[1..]);
      }
    }
  }

  lemma SendNoNewSleeper(s: State, dest: Pid, kind: u32, data: Option<seq<byte>>)
    requires WellFormed(s)
    ensures NoNewSleeper(s, Send(s, dest, kind, data).0)
  {
  }

  lemma MarkBlockedNoNewSleeper(s: State)
    requires WellFormed(s)
    ensures NoNewSleeper(s, MarkBlocked(s)) && SameProcesses(s, MarkBlocked(s))
  {
  }

  lemma MarkDyingNoNewSleeper(s: State)
    requires WellFormed(s)
    ensures NoNewSleeper(s, MarkDying(s)) && SameProcesses(s, MarkDying(s))
  {
  }

  lemma PopNoNewSleeper(s: State, receiving: set<Tid>)
    requires WellFormed(s) && receiving <= s.receiving
    ensures var r := PopMessage(s).0.(receiving := receiving);
      WellFormed(r) && NoNewSleeper(s, r) && SameProcesses(s, r)
  {
  }

  // ----- one step

  lemma InvParts(s: State)
    requires Inv(s)
    ensures Core(s) && WellFormed(s) && s.current in s.threads && s.current.pid in s.procs
    ensures s.current.slot < THREADS_PER_PROCESS
  {
  }

  lemma Reassemble(s: State, r: State)
    requires Inv(s) && Core(r) && SameProcesses(s, r) && NoNewSleeper(s, r) && Mail(r)
    ensures Inv(r)
  {
    SameProcessesKeepsStructure(s, r);
    NoNewSleeperKeeps(s, r);
  }

  /** All of Inv survives a call of schedule. */
  lemma ScheduleKeepsInv(s: State)
    requires Inv(s)
    ensures Inv(Schedule(s))
  {
    ScheduleKeepsCore(s);
    ScheduleSameProcesses(s);
    SameProcessesKeepsStructure(s, Schedule(s));
    ScheduleNoNewSleeper(s);
    NoNewSleeperKeeps(s, Schedule(s));
    ScheduleShrinks(s);
    MailShrinksKeepsMail(s, Schedule(s));
  }

  lemma TickPassKeepsInv(s: State)
    requires Inv(s)
    ensures Inv(TickPass(s))
  {
    var q := s.queues[SleepQ];
    TickPassKeepsCore(s);
    WakeAllSameProcesses(Advance(s), q);
    SameProcessesKeepsStructure(Advance(s), TickPass(s));
    TickPassKeepsNoOversleep(s);
    WakeAllShrinks(Advance(s), q);
    MailShrinksKeepsMail(Advance(s), TickPass(s));
  }

  lemma MarkAsleepKeepsInv(s: State, wake: u32)
    requires Inv(s) && s.ticks < wake && s.current != IDLE0
    ensures Inv(MarkAsleep(s, wake))
  {
    var th := s.threads[s.current].(state := Sleeping, wake := wake);
    PlaceKeepsCore(s, s.current, SleepQ, th);
    SameProcessesKeepsStructure(s, MarkAsleep(s, wake));
    MarkAsleepKeepsNoOversleep(s, wake);
    PlaceShrinks(s, s.current, SleepQ, th);
    MailShrinksKeepsMail(s, MarkAsleep(s, wake));
  }

  lemma PlaceKeepsInv(s: State, t: Tid, q: QId, th: Thread)
    requires Inv(s) && t.pid in s.procs && t != IDLE0 && t.slot < THREADS_PER_PROCESS
    requires q == QueueOf(t, th.state) && (q == ReadyQ || q == ZombieQ)
    ensures Inv(Place(s, t, q, th))
  {
    PlaceKeepsCore(s, t, q, th);
    SameProcessesKeepsStructure(s, Place(s, t, q, th));
    assert NoNewSleeper(s, Place(s, t, q, th));
    NoNewSleeperKeeps(s, Place(s, t, q, th));
    PlaceShrinks(s, t, q, th);
    MailShrinksKeepsMail(s, Place(s, t, q, th));
  }

  lemma NewThreadKeepsInv(s: State, p: Pid, entry: u32, memOk: bool)
    requires Inv(s) && p in s.procs
    ensures Inv(NewThread(s, p, entry, memOk).0)
  {
    var slot := FreeSlot(s, p, 0);
    if entry != 0 && slot.Some? && memOk {
      assert Tid(p, slot.value) != IDLE0;
      PlaceKeepsInv(s, Tid(p, slot.value), ReadyQ, FRESH.(state := Ready));
    }
  }

  lemma BornKeepsNoOversleep(s: State)
    requires WellFormed(s) && NoOversleep(s) && Structure(s)
    ensures NoOversleep(Born(s))
  {
    NextPidIsFresh(s);
    assert NoNewSleeper(s, Born(s));
  }

  lemma BornKeepsInv(s: State)
    requires Inv(s)
    ensures Inv(Born(s))
  {
    BornKeepsCore(s);
    CreateKeepsStructure(s);
    SameProcessesKeepsStructure(CreateProcess(s), Born(s));
    BornKeepsNoOversleep(s);
    BornKeepsMail(s);
  }

  lemma CountingKeepsStructure(s: State)
    requires Structure(s)
    ensures Structure(s.(nextPid := s.nextPid + 1))
  {
  }

  lemma CountingKeepsMail(s: State, nextPid: Pid)
    requires WellFormed(s) && Mail(s) && NoOversleep(s)
    ensures Mail(s.(nextPid := nextPid)) && NoOversleep(s.(nextPid := nextPid))
  {
  }

  lemma CountingKeepsInv(s: State)
    requires Inv(s)
    ensures Inv(s.(nextPid := s.nextPid + 1))
  {
    CountingKeepsCore(s, s.nextPid + 1);
    CountingKeepsStructure(s);
    CountingKeepsMail(s, s.nextPid + 1);
  }

  lemma NewProcessKeepsInv(s: State, entry: u32, n: u32, mem: Memory)
    requires Inv(s)
    ensures Inv(NewProcess(s, entry, n, mem).0)
  {
    NewProcessAllOrNothing(s, entry, n, mem);
    BornKeepsInv(s);
    CountingKeepsInv(s);
  }

  lemma SendKeepsInv(s: State, dest: Pid, kind: u32, data: Option<seq<byte>>)
    requires Inv(s)
    ensures Inv(Send(s, dest, kind, data).0)
  {
    SendKeepsCore(s, dest, kind, data);
    SendSameProcesses(s, dest, kind, data);
    SendKeepsMail(s, dest, kind, data);
    SendNoNewSleeper(s, dest, kind, data);
    Reassemble(s, Send(s, dest, kind, data).0);
  }

  lemma PopKeepsInv(s: State, receiving: set<Tid>)
    requires Inv(s) && receiving <= s.receiving
    ensures Inv(PopMessage(s).0.(receiving := receiving))
  {
    var r := PopMessage(s).0.(receiving := receiving);
    PopMessageKeepsCore(s, receiving);
    PopKeepsMail(s, receiving);
    PopNoNewSleeper(s, receiving);
    Reassemble(s, r);
  }

  lemma MarkBlockedKeepsInv(s: State)
    requires Inv(s) && s.current != IDLE0 && s.procs[s.current.pid].ring == []
    ensures Inv(MarkBlocked(s))
  {
    MarkBlockedKeepsCore(s);
    MarkBlockedKeepsMail(s);
    MarkBlockedNoNewSleeper(s);
    Reassemble(s, MarkBlocked(s));
  }

  lemma BlockKeepsInv(s: State)
    requires Inv(s) && s.current != IDLE0 && s.procs[s.current.pid].ring == []
    ensures Inv(BlockAndYield(s))
  {
    MarkBlockedKeepsInv(s);
    ScheduleKeepsInv(MarkBlocked(s));
  }

  lemma ReceiveKeepsInv(s: State, size: nat)
    requires Inv(s) && s.current != IDLE0
    ensures Inv(Receive(s, size))
  {
    hide Inv, Core, WellFormed, BlockAndYield;
    InvParts(s);
    if 0 < size <= MESSAGE_MAX {
      if s.procs[s.current.pid].ring == [] {
        BlockKeepsInv(s);
      } else {
        PopKeepsInv(s, s.receiving);
        assert PopMessage(s).0.receiving == s.receiving;
      }
    }
  }

  lemma MarkDyingKeepsInv(s: State)
    requires Inv(s) && s.current.pid != IDLE
    ensures Inv(MarkDying(s))
  {
    MarkDyingKeepsCore(s);
    MarkDyingShrinks(s);
    MailShrinksKeepsMail(s, MarkDying(s));
    MarkDyingNoNewSleeper(s);
    Reassemble(s, MarkDying(s));
  }

  lemma ReapKeepsInv(s: State, rest: seq<Pid>)
    requires Inv(s)
    ensures Inv(ReapFrom(s, rest))
  {
    ReapKeepsCore(s, rest);
    ReapKeepsStructure(s, rest);
    ReapNoNewSleeper(s, rest);
    NoNewSleeperKeeps(s, ReapFrom(s, rest));
    ReapShrinks(s, rest);
    MailShrinksKeepsMail(s, ReapFrom(s, rest));
  }

  lemma SleepKeepsInv(s: State, ms: u32)
    requires Inv(s)
    ensures Inv(FallAsleep(s, ms))
  {
    if FallsAsleep(s, ms) {
      MarkAsleepKeepsInv(s, WakeTick(s, ms));
      ScheduleKeepsInv(MarkAsleep(s, WakeTick(s, ms)));
    }
  }

  lemma ExitKeepsInv(s: State, status: int)
    requires Inv(s)
    ensures Inv(Exit(s, status))
  {
    hide Inv, Core, WellFormed, Schedule, Place;
    InvParts(s);
    if s.current.pid != IDLE {
      PlaceKeepsInv(s, s.current, ZombieQ, s.threads[s.current].(state := Zombie, exitCode := status));
      ScheduleKeepsInv(MarkZombie(s, status));
    }
  }

  lemma StepKeepsInv(s: State, a: Action)
    requires Inv(s) && Enabled(s, a)
    ensures Inv(Step(s, a))
  {
    hide Inv, Schedule, TickPass, MarkDying, FallAsleep, Exit, Receive, NewThread, NewProcess, Send, ReapFrom,
      PopMessage, Core, WellFormed;
    InvParts(s);
    match a
    case Timer => TickPassKeepsInv(s); ScheduleKeepsInv(TickPass(s));
    case Yield => ScheduleKeepsInv(s);
    case Sleep(ms) => SleepKeepsInv(s, ms);
    case ExitThread(status) => ExitKeepsInv(s, status);
    case NThread(entry, memOk) => NewThreadKeepsInv(s, s.current.pid, entry, memOk);
    case NProcess(code, n, mem) => NewProcessKeepsInv(s, code, n, mem);
    case SendTo(dest, kind, data) => SendKeepsInv(s, dest, kind, data);
    case ReceiveUpTo(size) => ReceiveKeepsInv(s, size);
    case ResumeReceive => PopKeepsInv(s, s.receiving - {s.current});
    case Fault => MarkDyingKeepsInv(s); ScheduleKeepsInv(MarkDying(s));
    case Reap => ReapKeepsInv(s, s.list);
  }

  // ----- runs

  /** Steps are functions, so a run is its first state and its actions; each action must be
      one the thread then current can take. */
  ghost predicate Legal(s: State, actions: seq<Action>)
    decreases |actions|, 0
  {
    WellFormed(s) && (actions != [] ==>
      Legal(s, Front(actions)) && Enabled(After(s, Front(actions)), Last(actions)))
  }

  /** The state at the end of a run. */
  ghost function After(s: State, actions: seq<Action>): (r: State)
    requires Legal(s, actions)
    ensures WellFormed(r)
    decreases |actions|, 1
  {
    if actions == [] then s else Step(After(s, Front(actions)), Last(actions))
  }

  function Front(actions: seq<Action>): (r: seq<Action>)
    requires actions != []
  {
    actions[..|actions| - 1]
  }

  function Last(actions: seq<Action>): (a: Action)
    requires actions != []
  {
    actions[|actions| - 1]
  }

  lemma {:induction false} RunKeepsInv(s: State, actions: seq<Action>)
    requires Inv(s) && Legal(s, actions)
    ensures Inv(After(s, actions))
    decreases |actions|
  {
    if actions != [] {
      RunKeepsInv(s, Front(actions));
      StepKeepsInv(After(s, Front(actions)), Last(actions));
    }
  }

  /** A beginning of a run is a run. */
  lemma {:induction false} LegalPrefix(s: State, actions: seq<Action>, i: nat)
    requires Legal(s, actions) && i <= |actions|
    ensures Legal(s, actions[..i])
    decreases |actions|
  {
    if i < |actions| {
      assert Front(actions)[..i] == actions[..i];
      LegalPrefix(s, Front(actions), i);
    } else {
      assert actions[..i] == actions;
    }
  }

  lemma NoSteps(s: State)
    requires Inv(s)
    ensures Legal(s, []) && After(s, []) == s
  {
  }

  lemma NextStep(s: State, actions: seq<Action>, i: nat)
    requires Legal(s, actions) && i < |actions|
    ensures Legal(s, actions[..i]) && Legal(s, actions[..i + 1])
    ensures Enabled(After(s, actions[..i]), actions[i])
    ensures After(s, actions[..i + 1]) == Step(After(s, actions[..i]), actions[i])
  {
    hide Step, Enabled;
    LegalPrefix(s, actions, i + 1);
    LegalPrefix(s, actions, i);
    assert Front(actions[..i + 1]) == actions[..i];
  }

  /** The states the kernel can get into. */
  ghost predicate Reachable(s: State) {
    exists actions :: Legal(INITIAL, actions) && After(INITIAL, actions) == s
  }

  lemma ReachableInv(s: State)
    requires Reachable(s)
    ensures Inv(s)
  {
    var actions :| Legal(INITIAL, actions) && After(INITIAL, actions) == s;
    InitialInv();
    RunKeepsInv(INITIAL, actions);
  }

  /** No runnable thread is ever lost: in every reachable state each running or ready thread
      of a normal process is current or in the ready queue. */
  lemma NoThreadIsLost(s: State, t: Tid)
    requires Reachable(s) && t in s.threads && Normal(s, t)
    requires s.threads[t].state.Running? || s.threads[t].state.Ready?
    ensures ReadyQ in s.queues
    ensures t == s.current || t in s.queues[ReadyQ]
  {
    ReachableInv(s);
  }

  lemma StoppedAreFindable(s: State, t: Tid)
    requires Core(s) && t in s.threads && Normal(s, t)
    ensures s.threads[t].state.Sleeping? <==> t in s.queues[SleepQ]
    ensures s.threads[t].state.Blocked? <==> t in s.queues[Waiters(t.pid)]
    ensures s.threads[t].state.Zombie? <==> t in s.queues[ZombieQ]
  {
    assert forall q :: q in s.queues && t in s.queues[q] ==> q == QueueOf(t, s.threads[t].state);
  }

  /** A thread that sleeps, waits or has exited is where the code that ends that state looks for it. */
  lemma StoppedThreadsAreFindable(s: State, t: Tid)
    requires Reachable(s) && t in s.threads && Normal(s, t)
    ensures WellFormed(s)
    ensures s.threads[t].state.Sleeping? <==> t in s.queues[SleepQ]
    ensures s.threads[t].state.Blocked? <==> t in s.queues[Waiters(t.pid)]
    ensures s.threads[t].state.Zombie? <==> t in s.queues[ZombieQ]
  {
    ReachableInv(s);
    StoppedAreFindable(s, t);
  }

  lemma OnePlace(s: State, p: QId, q: QId, j: nat, k: nat)
    requires Core(s) && p in s.queues && q in s.queues && j < |s.queues[p]| && k < |s.queues[q]|
    requires s.queues[p][j] == s.queues[q][k]
    ensures p == q && j == k
  {
    var t := s.queues[p][j];
    assert t in s.queues[p] && t in s.queues[q];
    assert p == QueueOf(t, s.threads[t].state) == q;
    assert Distinct(s.queues[p]);
  }

  /** No thread is linked twice, neither in two queues nor twice in one. */
  lemma LinkedOnce(s: State, p: QId, q: QId, j: nat, k: nat)
    requires Reachable(s) && p in s.queues && q in s.queues && j < |s.queues[p]| && k < |s.queues[q]|
    requires s.queues[p][j] == s.queues[q][k]
    ensures p == q && j == k
  {
    ReachableInv(s);
    OnePlace(s, p, q, j, k);
  }

  /** In every reachable state a valid send to a live user process that has a waiter is accepted. */
  lemma SendToWaiterNeverRefused(s: State, dest: Pid, kind: u32, data: Option<seq<byte>>)
    requires Reachable(s) && dest in s.procs && dest != IDLE && !s.procs[dest].dying && ValidPayload(data)
    requires Waiters(dest) in s.queues && s.queues[Waiters(dest)] != []
    ensures WellFormed(s) && Send(s, dest, kind, data).1
  {
    ReachableInv(s);
    SendToWaiterSucceeds(s, dest, kind, data);
  }

  /** In every reachable state what a mailbox delivered followed by what it holds is what it
      accepted, in order, and it never holds more than sixteen messages. */
  lemma MailIsConserved(s: State, p: Pid)
    requires Reachable(s) && p in s.procs
    ensures s.procs[p].accepted == s.procs[p].delivered + s.procs[p].ring
    ensures |s.procs[p].ring| <= MAILBOX_SLOTS
  {
    ReachableInv(s);
    assert RingOk(p, s.procs[p]);
  }

  /** In every reachable state a queued sleeper is woken by the next timer pass exactly when that
      pass's tick equals its wake tick. */
  lemma SleepersWakeOnTime(s: State, t: Tid)
    requires Reachable(s) && SleepQ in s.queues && t in s.queues[SleepQ]
    ensures Core(s)
    ensures t in TickPass(s).queues[ReadyQ] <==> TickPass(s).ticks == s.threads[t].wake
    ensures t in TickPass(s).queues[SleepQ] <==> TickPass(s).ticks != s.threads[t].wake
  {
    ReachableInv(s);
    WokenExactlyOnTime(s, t);
  }
}
