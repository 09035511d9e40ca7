/**
  What a step may change, component by component, said without the functions that make the step:
  the clock, the processes, the mailboxes, the records of the threads. Whatever is not named here
  a step leaves alone.
*/
module Effects {
  import opened Common
  import opened Seqs
  import opened Sched
  import opened SchedInvariant
  import opened ProcessForest
  import opened SleepQueue
  import opened Mailboxes
  import opened SchedRuns
  import opened Reaper

  // ----- the clock and the pids

  predicate Clock(s: State, a: Action, r: State) {
    r.ticks == if a.Timer? then (s.ticks + 1) % 0x1_0000_0000 else s.ticks
  }

  /** Everything a new process needs could be had. */
  predicate Furnished(a: Action) {
    a.NProcess? && a.code != 0 && a.n != 0 && a.mem == Memory(true, true, true, true)
  }

  /** Processes come from the creating step, with the next pid; they go in a reaper pass, if they are dying. */
  ghost predicate Population(s: State, a: Action, r: State) {
    && r.nextPid == s.nextPid
                    + (if a.NProcess? && a.code != 0 && a.n != 0 && a.mem.data && a.mem.directory then 1 else 0)
    && (forall p :: p in r.procs <==>
          (p in s.procs && !(a.Reap? && s.procs[p].dying)) || (Furnished(a) && p == s.nextPid))
    && (forall p :: p in r.procs && p !in s.procs ==> r.procs[p] == Process(false, Some(s.current.pid), 16, [], [], []))
  }

  /** Only a fault makes a process dying, the one it happens in; only a reaper pass changes a parent. */
  ghost predicate Fates(s: State, a: Action, r: State) {
    forall p :: p in s.procs && p in r.procs ==>
      && r.procs[p].dying == (s.procs[p].dying || (a.Fault? && p == s.current.pid))
      && (!a.Reap? ==> r.procs[p].dad == s.procs[p].dad)
  }

  // ----- the mailboxes

  /** The step is a send to `p` that succeeds. */
  ghost predicate Sends(s: State, a: Action, p: Pid) {
    && a.SendTo? && a.dest == p && a.data.Some? && 0 < |a.data.value| <= 64
    && p in s.procs && p != 0 && !s.procs[p].dying && |s.procs[p].ring| < 16
  }

  /** What the step adds to the mailbox of `p`: what the sender gave, under the sender's pid. */
  ghost function Sent(s: State, a: Action, p: Pid): (m: seq<Message>) {
    if Sends(s, a, p) then [Message(s.current.pid, a.kind, a.data.value)] else []
  }

  /** The step takes a message out of the mailbox of `p`. */
  predicate Takes(s: State, a: Action, p: Pid) {
    && p == s.current.pid && p in s.procs && s.procs[p].ring != []
    && (a.ResumeReceive? || (a.ReceiveUpTo? && 0 < a.size <= 64))
  }

  ghost predicate Mailbox(was: Process, now: Process, sent: seq<Message>, taken: bool) {
    && now.capacity == was.capacity && (taken ==> was.ring != [])
    && now.accepted == was.accepted + sent
    && now.delivered == was.delivered + (if taken then was.ring[..1] else [])
    && now.ring == (if taken then was.ring[1..] else was.ring) + sent
  }

  /** Only sends to a process and receives of its own threads touch its mailbox. */
  ghost predicate Post(s: State, a: Action, r: State) {
    forall p :: p in s.procs && p in r.procs ==> Mailbox(s.procs[p], r.procs[p], Sent(s, a, p), Takes(s, a, p))
  }

  // ----- the threads

  /** A thread starts in the lowest free one of eight slots, of the caller or of a new process. */
  ghost predicate Starts(s: State, a: Action, t: Tid) {
    && t !in s.threads && t.slot < 8 && (forall k: nat :: k < t.slot ==> Tid(t.pid, k) in s.threads)
    && ((a.NThread? && t.pid == s.current.pid && a.entry != 0 && a.memOk)
        || (Furnished(a) && t == Tid(s.nextPid, 0)))
  }

  /** Threads come as `Starts` says and go with their process. */
  ghost predicate Crew(s: State, a: Action, r: State) {
    && (forall t :: t in r.threads <==>
          (t in s.threads && t.pid in s.procs && !(a.Reap? && s.procs[t.pid].dying)) || Starts(s, a, t))
    && (forall t :: t in r.threads && t !in s.threads ==> r.threads[t] == Thread(Ready, 0, 0))
  }

  /** The call puts its caller to sleep: it asks for a tick at least, and that is not past the counter. */
  predicate Sleeps(s: State, a: Action) {
    a.Sleep? && s.current != Tid(0, 0) && a.ms >= 10 && s.ticks + a.ms / 10 < 0x1_0000_0000
  }

  predicate Exits(s: State, a: Action) {
    a.ExitThread? && s.current.pid != 0
  }

  predicate Blocks(s: State, a: Action) {
    && a.ReceiveUpTo? && 0 < a.size <= 64
    && s.current.pid in s.procs && s.procs[s.current.pid].ring == []
  }

  /** Who is woken: sleepers whose tick has come, and the first that waits for a message that is sent. */
  ghost predicate Awoken(s: State, a: Action, t: Tid) {
    || (a.Timer? && SleepQ in s.queues && t in s.queues[SleepQ] && t in s.threads && s.threads[t].wake == s.ticks + 1)
    || (a.SendTo? && Sends(s, a, a.dest) && Waiters(a.dest) in s.queues && s.queues[Waiters(a.dest)] != []
        && t == s.queues[Waiters(a.dest)][0])
  }

  ghost function StateAfter(s: State, a: Action, r: State, t: Tid): (st: ThreadState)
    requires t in s.threads
  {
    if t == r.current && t != s.current then Running
    else if Awoken(s, a, t) then Ready
    else if t == s.current && Sleeps(s, a) then Sleeping
    else if t == s.current && Exits(s, a) then Zombie
    else if t == s.current && Blocks(s, a) then Blocked
    else s.threads[t].state
  }

  ghost predicate Record(s: State, a: Action, r: State, t: Tid)
    requires t in s.threads && t in r.threads
  {
    var was, now := s.threads[t], r.threads[t];
    && now.state == StateAfter(s, a, r, t)
    && now.exitCode == (if t == s.current && Exits(s, a) then a.status else was.exitCode)
    && (if t == s.current && Sleeps(s, a) then 10 * (now.wake - s.ticks) <= a.ms < 10 * (now.wake - s.ticks + 1)
        else now.wake == was.wake)
  }

  /** Exit codes are those the threads exited with, wake ticks those they asked for; a thread changes
      its state by what it calls, by being woken, or by being switched to. */
  ghost predicate Records(s: State, a: Action, r: State) {
    forall t :: t in s.threads && t in r.threads ==> Record(s, a, r, t)
  }

  ghost predicate Effect(s: State, a: Action, r: State) {
    Clock(s, a, r) && Population(s, a, r) && Fates(s, a, r) && Post(s, a, r) && Crew(s, a, r) && Records(s, a, r)
  }

  // ----- schedule

  /** All that a call of schedule changes beside the ready queue. */
  ghost predicate OnlySwitches(s: State, r: State)
    requires WellFormed(s) && WellFormed(r)
  {
    && r.ticks == s.ticks && r.nextPid == s.nextPid && r.procs == s.procs && r.threads.Keys == s.threads.Keys
    && (forall t :: t in s.threads ==>
          r.threads[t] == if t == r.current && t != s.current then s.threads[t].(state := Running) else s.threads[t])
  }

  lemma DispatchOnlySwitches(s: State)
    requires WellFormed(s) && s.queues[ReadyQ] != []
    ensures OnlySwitches(s, Dispatch(s))
  {
  }

  lemma ScheduleOnlySwitches(s: State)
    requires WellFormed(s)
    ensures OnlySwitches(s, Schedule(s))
  {
    hide Push;
    if s.queues[ReadyQ] != [] {
      DispatchOnlySwitches(Requeue(s));
    }
  }

  /** What precedes the call of schedule in a step: the caller is still current, and the records are
      those `StateAfter` names, whoever is switched to. */
  ghost predicate Marked(s: State, a: Action, m: State) {
    && m.current == s.current && Clock(s, a, m) && Population(s, a, m) && Fates(s, a, m) && Post(s, a, m)
    && Crew(s, a, m) && Records(s, a, m)
  }

  lemma ThenSwitches(s: State, a: Action, m: State, r: State)
    requires Marked(s, a, m) && WellFormed(m) && WellFormed(r) && OnlySwitches(m, r)
    requires forall t :: t in m.threads ==> t in s.threads
    ensures Effect(s, a, r)
  {
    hide WellFormed, Population, Fates, Post, Crew, Records, OnlySwitches;
    PopulationSwitches(s, a, m, r);
    PostSwitches(s, a, m, r);
    CrewSwitches(s, a, m, r);
    RecordsSwitch(s, a, m, r);
    assert Clock(s, a, r) by {
      assert r.ticks == m.ticks by { ClockSwitches(m, r); }
    }
  }

  lemma ClockSwitches(m: State, r: State)
    requires WellFormed(m) && WellFormed(r) && OnlySwitches(m, r)
    ensures r.ticks == m.ticks
  {
  }

  lemma PopulationSwitches(s: State, a: Action, m: State, r: State)
    requires Population(s, a, m) && Fates(s, a, m) && WellFormed(m) && WellFormed(r) && OnlySwitches(m, r)
    ensures Population(s, a, r) && Fates(s, a, r)
  {
    hide WellFormed;
  }

  lemma PostSwitches(s: State, a: Action, m: State, r: State)
    requires Post(s, a, m) && WellFormed(m) && WellFormed(r) && OnlySwitches(m, r)
    ensures Post(s, a, r)
  {
    hide WellFormed, Sent, Takes, Mailbox;
  }

  lemma CrewSwitches(s: State, a: Action, m: State, r: State)
    requires Crew(s, a, m) && WellFormed(m) && WellFormed(r) && OnlySwitches(m, r)
    requires forall t :: t in m.threads ==> t in s.threads
    ensures Crew(s, a, r)
  {
    hide WellFormed, Starts;
  }

  lemma RecordsSwitch(s: State, a: Action, m: State, r: State)
    requires m.current == s.current && Records(s, a, m) && WellFormed(m) && WellFormed(r) && OnlySwitches(m, r)
    ensures Records(s, a, r)
  {
    hide WellFormed, Awoken, Sleeps, Exits, Blocks;
    forall t | t in s.threads && t in r.threads ensures Record(s, a, r, t) {
      assert Record(s, a, m, t);
    }
  }

  lemma ThenSchedule(s: State, a: Action, m: State)
    requires Marked(s, a, m) && WellFormed(m) && m.threads.Keys == s.threads.Keys
    ensures Effect(s, a, Schedule(m))
  {
    hide WellFormed, Marked, Schedule, Effect, OnlySwitches;
    ScheduleOnlySwitches(m);
    ThenSwitches(s, a, m, Schedule(m));
  }

  // ----- steps that are about the caller or the clock only

  predicate Plain(s: State, a: Action) {
    || a.Timer? || a.Yield? || a.Sleep? || a.ExitThread?
    || (a.ReceiveUpTo? && (a.size == 0 || a.size > 64 || Blocks(s, a)))
    || (a.ResumeReceive? && s.current.pid in s.procs && s.procs[s.current.pid].ring == [])
  }

  /** Processes and threads are there as before. */
  ghost predicate Calm(s: State, m: State) {
    m.current == s.current && m.procs == s.procs && m.nextPid == s.nextPid && m.threads.Keys == s.threads.Keys
  }

  lemma CalmKeeps(s: State, a: Action, m: State)
    requires Plain(s, a) && Calm(s, m) && WellFormed(s)
    ensures Population(s, a, m) && Fates(s, a, m) && Post(s, a, m) && Crew(s, a, m)
  {
    forall p | p in s.procs && p in m.procs ensures Mailbox(s.procs[p], m.procs[p], Sent(s, a, p), Takes(s, a, p)) {
      EmptyMail(s.procs[p]);
    }
  }

  lemma EmptyMail(proc: Process)
    ensures Mailbox(proc, proc, [], false)
  {
  }

  lemma CalmStep(s: State, a: Action, m: State)
    requires Plain(s, a) && WellFormed(s) && WellFormed(m) && Calm(s, m) && Clock(s, a, m) && Records(s, a, m)
    ensures Effect(s, a, Schedule(m))
  {
    hide WellFormed, Population, Fates, Post, Crew, Records, Clock, Schedule, Effect;
    CalmKeeps(s, a, m);
    ThenSchedule(s, a, m);
  }

  lemma TimerEffect(s: State)
    requires Inv(s)
    ensures WellFormed(s) && Effect(s, Timer, Step(s, Timer))
  {
    hide Inv, TickPass, Schedule, Effect, WellFormed, Records;
    InvBasis(s);
    TickRecords(s);
    TickIsCalm(s);
    CalmStep(s, Timer, TickPass(s));
  }

  lemma TickIsCalm(s: State)
    requires Inv(s)
    ensures WellFormed(s) && Calm(s, TickPass(s)) && Clock(s, Timer, TickPass(s))
  {
    hide Inv, TickPass, Core, Structure, Filter, Due, Not;
    InvBasis(s);
    TickPassSplits(s);
  }

  lemma TickRecords(s: State)
    requires Inv(s)
    ensures WellFormed(s) && Records(s, Timer, TickPass(s))
  {
    hide Inv, TickPass, Filter, Core, Structure;
    InvBasis(s);
    TickPassSplits(s);
    TickIsExact(s);
  }

  /** The due sleepers are those of the new tick. */
  lemma TickIsExact(s: State)
    requires Inv(s)
    ensures WellFormed(s) && forall t :: t in s.queues[SleepQ] ==>
      t in s.threads && (Due(Advance(s))(t) <==> s.threads[t].wake == s.ticks + 1)
  {
    if s.queues[SleepQ] != [] {
      SleepersPreventWrap(s);
    }
  }

  /** The step changes nothing before a call of schedule, if it makes one at all. */
  predicate Idles(s: State, a: Action) {
    || a.Yield? || (a.Sleep? && !Sleeps(s, a)) || (a.ExitThread? && !Exits(s, a))
    || (a.ReceiveUpTo? && (a.size == 0 || a.size > 64))
    || (a.ResumeReceive? && s.current.pid in s.procs && s.procs[s.current.pid].ring == [])
  }

  lemma SameRecords(s: State, a: Action)
    requires Idles(s, a)
    ensures Records(s, a, s) && Clock(s, a, s) && Calm(s, s)
  {
  }

  lemma YieldEffect(s: State)
    requires Inv(s)
    ensures WellFormed(s) && Effect(s, Yield, Step(s, Yield))
  {
    hide Inv, Core, Structure, Schedule, Effect, WellFormed, Records, Clock;
    InvBasis(s);
    SameRecords(s, Yield);
    CalmStep(s, Yield, s);
  }

  /** The guard of sys_sleep, read off the arguments. */
  lemma SleepGuard(s: State, ms: u32)
    ensures FallsAsleep(s, ms) <==> Sleeps(s, Sleep(ms))
    ensures Sleeps(s, Sleep(ms)) ==> 10 * (WakeTick(s, ms) - s.ticks) <= ms < 10 * (WakeTick(s, ms) - s.ticks + 1)
  {
  }

  lemma AsleepRecords(s: State, ms: u32)
    requires WellFormed(s) && Sleeps(s, Sleep(ms))
    ensures var m := MarkAsleep(s, WakeTick(s, ms)); Calm(s, m) && Clock(s, Sleep(ms), m) && Records(s, Sleep(ms), m)
  {
    hide Push;
    SleepGuard(s, ms);
  }

  /** A step that leaves the state as it is. */
  lemma NothingEffect(s: State, a: Action)
    requires WellFormed(s) && Idles(s, a)
    ensures Effect(s, a, s)
  {
    hide WellFormed, Population, Fates, Post, Crew, Records, Clock, Sleeps, Exits;
    SameRecords(s, a);
    CalmKeeps(s, a, s);
  }

  lemma SleepEffect(s: State, ms: u32)
    requires Inv(s)
    ensures WellFormed(s) && Effect(s, Sleep(ms), Step(s, Sleep(ms)))
  {
    hide Inv, Core, Structure, Schedule, Effect, WellFormed, Records, Clock, Calm, MarkAsleep, Sleeps, FallsAsleep;
    InvBasis(s);
    SleepGuard(s, ms);
    if FallsAsleep(s, ms) {
      AsleepRecords(s, ms);
      CalmStep(s, Sleep(ms), MarkAsleep(s, WakeTick(s, ms)));
    } else {
      NothingEffect(s, Sleep(ms));
    }
  }

  lemma ZombieRecords(s: State, status: int)
    requires WellFormed(s) && Exits(s, ExitThread(status))
    ensures var m := MarkZombie(s, status);
      Calm(s, m) && Clock(s, ExitThread(status), m) && Records(s, ExitThread(status), m)
  {
    hide Push;
  }

  lemma ExitEffect(s: State, status: int)
    requires Inv(s)
    ensures WellFormed(s) && Effect(s, ExitThread(status), Step(s, ExitThread(status)))
  {
    hide Inv, Core, Structure, Schedule, Effect, WellFormed, Records, Clock, Calm, MarkZombie;
    InvBasis(s);
    if Exits(s, ExitThread(status)) {
      ZombieRecords(s, status);
      CalmStep(s, ExitThread(status), MarkZombie(s, status));
    } else {
      NothingEffect(s, ExitThread(status));
    }
  }

  // ----- messages

  lemma BlockedRecords(s: State, size: nat)
    requires WellFormed(s) && Blocks(s, ReceiveUpTo(size))
    ensures var m, a := MarkBlocked(s), ReceiveUpTo(size); Calm(s, m) && Clock(s, a, m) && Records(s, a, m)
  {
    hide Push;
  }

  lemma ReceiveBlocks(s: State, size: nat)
    requires Inv(s) && Blocks(s, ReceiveUpTo(size))
    ensures WellFormed(s) && Effect(s, ReceiveUpTo(size), BlockAndYield(s))
  {
    hide Inv, Core, Structure, Schedule, Effect, WellFormed, Records, Clock, Calm, MarkBlocked;
    InvBasis(s);
    BlockedRecords(s, size);
    CalmStep(s, ReceiveUpTo(size), MarkBlocked(s));
  }

  /** A pop: one mailbox is touched, and nothing else. */
  lemma PopEffect(s: State, a: Action, receiving: set<Tid>)
    requires WellFormed(s) && Takes(s, a, s.current.pid)
    ensures Effect(s, a, PopMessage(s).0.(receiving := receiving))
  {
    hide Population, Fates, Post, Crew, Records, Clock, WellFormed, PopMessage, Takes;
    PopPost(s, a, receiving);
    PopRest(s, a, receiving);
  }

  lemma PopPost(s: State, a: Action, receiving: set<Tid>)
    requires WellFormed(s) && Takes(s, a, s.current.pid)
    ensures Post(s, a, PopMessage(s).0.(receiving := receiving))
  {
    var r := PopMessage(s).0;
    forall p | p in s.procs ensures Mailbox(s.procs[p], r.procs[p], Sent(s, a, p), Takes(s, a, p)) {
      EmptyMail(s.procs[p]);
    }
  }

  lemma PopRest(s: State, a: Action, receiving: set<Tid>)
    requires WellFormed(s) && Takes(s, a, s.current.pid)
    ensures var r := PopMessage(s).0.(receiving := receiving);
      Clock(s, a, r) && Population(s, a, r) && Fates(s, a, r) && Crew(s, a, r) && Records(s, a, r)
  {
  }

  lemma ReceiveEffect(s: State, size: nat)
    requires Inv(s)
    ensures WellFormed(s) && Effect(s, ReceiveUpTo(size), Step(s, ReceiveUpTo(size)))
  {
    hide Inv, Effect, WellFormed, BlockAndYield, PopMessage;
    InvParts(s);
    if size == 0 || size > MESSAGE_MAX {
      NothingEffect(s, ReceiveUpTo(size));
    } else if s.procs[s.current.pid].ring == [] {
      ReceiveBlocks(s, size);
    } else {
      PopEffect(s, ReceiveUpTo(size), s.receiving);
      PopKeepsReceiving(s);
    }
  }

  lemma PopKeepsReceiving(s: State)
    requires WellFormed(s)
    ensures PopMessage(s).0.(receiving := s.receiving) == PopMessage(s).0
    ensures s.procs[s.current.pid].ring == [] ==> PopMessage(s).0 == s
  {
  }

  /** The bookkeeping of receives is no part of an effect. */
  lemma SansReceiving(s: State, a: Action, r: State, receiving: set<Tid>)
    requires Effect(s, a, r)
    ensures Effect(s, a, r.(receiving := receiving))
  {
    hide Population, Fates, Crew, Post, Records;
    var after := r.(receiving := receiving);
    RecordsSansReceiving(s, a, r, receiving);
    SameProcessEffects(s, a, r, after);
    SameCrew(s, a, r, after);
  }

  lemma RecordsSansReceiving(s: State, a: Action, r: State, receiving: set<Tid>)
    requires Records(s, a, r)
    ensures Records(s, a, r.(receiving := receiving))
  {
    hide Awoken, Sleeps, Exits, Blocks;
    forall t | t in s.threads && t in r.threads ensures Record(s, a, r.(receiving := receiving), t) {
      assert Record(s, a, r, t);
    }
  }

  lemma ResumeEffect(s: State)
    requires Inv(s)
    ensures WellFormed(s) && Effect(s, ResumeReceive, Step(s, ResumeReceive))
  {
    hide Inv, Effect, WellFormed, PopMessage;
    InvParts(s);
    PopKeepsReceiving(s);
    if s.procs[s.current.pid].ring == [] {
      NothingEffect(s, ResumeReceive);
      SansReceiving(s, ResumeReceive, s, s.receiving - {s.current});
    } else {
      PopEffect(s, ResumeReceive, s.receiving - {s.current});
    }
  }

  /** When ipc_send succeeds, read off the arguments and the mailbox. */
  lemma SendGuard(s: State, dest: Pid, kind: u32, data: Option<seq<byte>>)
    requires Inv(s)
    ensures WellFormed(s) && (Send(s, dest, kind, data).1 <==> Sends(s, SendTo(dest, kind, data), dest))
  {
    if dest in s.procs {
      assert RingOk(dest, s.procs[dest]);
    }
  }

  lemma DeliveredPost(s: State, dest: Pid, kind: u32, data: Option<seq<byte>>)
    requires WellFormed(s) && Sends(s, SendTo(dest, kind, data), dest)
    ensures Post(s, SendTo(dest, kind, data), Deliver(s, dest, Message(s.current.pid, kind, data.value)))
  {
    var a, r := SendTo(dest, kind, data), Deliver(s, dest, Message(s.current.pid, kind, data.value));
    forall p | p in s.procs ensures Mailbox(s.procs[p], r.procs[p], Sent(s, a, p), Takes(s, a, p)) {
      EmptyMail(s.procs[p]);
    }
  }

  lemma DeliveredRest(s: State, a: Action, dest: Pid, m: Message)
    requires WellFormed(s) && a.SendTo? && dest in s.procs
    ensures var r := Deliver(s, dest, m);
      && Clock(s, a, r) && Population(s, a, r) && Fates(s, a, r) && Crew(s, a, r)
      && r.threads == s.threads && r.queues == s.queues && r.current == s.current
  {
  }

  /** Waking the first waiter changes nothing but queues and its state. */
  lemma WakeTouches(s: State, dest: Pid)
    requires WellFormed(s) && dest in s.procs
    ensures var r, w := WakeWaiter(s, dest), s.queues[Waiters(dest)];
      && r.current == s.current && r.procs == s.procs && r.ticks == s.ticks && r.nextPid == s.nextPid
      && r.threads == (if w == [] then s.threads else s.threads[w[0] := s.threads[w[0]].(state := Ready)])
      && r.threads.Keys == s.threads.Keys
  {
    hide Push;
  }

  lemma SameBut(s: State, a: Action, m: State, r: State)
    requires Clock(s, a, m) && Population(s, a, m) && Fates(s, a, m) && Crew(s, a, m) && Post(s, a, m)
    requires r.procs == m.procs && r.ticks == m.ticks && r.nextPid == m.nextPid && r.threads.Keys == m.threads.Keys
    requires forall t :: t in r.threads && t !in s.threads ==> r.threads[t] == m.threads[t]
    ensures Clock(s, a, r) && Population(s, a, r) && Fates(s, a, r) && Crew(s, a, r) && Post(s, a, r)
  {
    hide Population, Fates, Crew, Post;
    SameProcessEffects(s, a, m, r);
    SameCrew(s, a, m, r);
  }

  lemma SameProcessEffects(s: State, a: Action, m: State, r: State)
    requires Population(s, a, m) && Fates(s, a, m) && Post(s, a, m) && r.procs == m.procs && r.nextPid == m.nextPid
    ensures Population(s, a, r) && Fates(s, a, r) && Post(s, a, r)
  {
    hide Sent, Takes, Mailbox, Furnished;
  }

  lemma SameCrew(s: State, a: Action, m: State, r: State)
    requires Crew(s, a, m) && r.threads.Keys == m.threads.Keys
    requires forall t :: t in r.threads && t !in s.threads ==> r.threads[t] == m.threads[t]
    ensures Crew(s, a, r)
  {
    hide Starts;
  }

  lemma WokenRecords(s: State, a: Action, r: State)
    requires WellFormed(s) && a.SendTo? && Sends(s, a, a.dest) && a.dest in s.procs && r.current == s.current
    requires var w := s.queues[Waiters(a.dest)];
      r.threads == if w == [] then s.threads else s.threads[w[0] := s.threads[w[0]].(state := Ready)]
    ensures Records(s, a, r)
  {
    hide Sends;
  }

  lemma AcceptedEffect(s: State, dest: Pid, kind: u32, data: Option<seq<byte>>)
    requires WellFormed(s) && Sends(s, SendTo(dest, kind, data), dest)
    ensures Effect(s, SendTo(dest, kind, data),
                   WakeWaiter(Deliver(s, dest, Message(s.current.pid, kind, data.value)), dest))
  {
    hide WellFormed, Population, Fates, Crew, Records, Clock, Post, Deliver, WakeWaiter;
    var a, m := SendTo(dest, kind, data), Message(s.current.pid, kind, data.value);
    var d := Deliver(s, dest, m);
    DeliveredPost(s, dest, kind, data);
    DeliveredRest(s, a, dest, m);
    assert dest in d.procs by { DeliverKeepsDest(s, dest, m); }
    WakeTouches(d, dest);
    SameBut(s, a, d, WakeWaiter(d, dest));
    WokenRecords(s, a, WakeWaiter(d, dest));
  }

  lemma DeliverKeepsDest(s: State, dest: Pid, m: Message)
    requires WellFormed(s) && dest in s.procs
    ensures dest in Deliver(s, dest, m).procs
  {
  }

  lemma SendEffect(s: State, dest: Pid, kind: u32, data: Option<seq<byte>>)
    requires Inv(s)
    ensures WellFormed(s) && Effect(s, SendTo(dest, kind, data), Step(s, SendTo(dest, kind, data)))
  {
    hide Inv, Core, Structure, WellFormed, Effect, Sends, Deliver, WakeWaiter, Accepts;
    InvBasis(s);
    SendGuard(s, dest, kind, data);
    if Sends(s, SendTo(dest, kind, data), dest) {
      AcceptedEffect(s, dest, kind, data);
    } else {
      RefusedEffect(s, dest, kind, data);
    }
  }

  lemma RefusedEffect(s: State, dest: Pid, kind: u32, data: Option<seq<byte>>)
    requires WellFormed(s) && !Sends(s, SendTo(dest, kind, data), dest)
    ensures Effect(s, SendTo(dest, kind, data), s)
  {
    hide Sends;
    var a := SendTo(dest, kind, data);
    forall p | p in s.procs ensures Mailbox(s.procs[p], s.procs[p], Sent(s, a, p), Takes(s, a, p)) {
      SendsTo(s, dest, kind, data, p);
      EmptyMail(s.procs[p]);
    }
    SendsTo(s, dest, kind, data, dest);
  }

  lemma SendsTo(s: State, dest: Pid, kind: u32, data: Option<seq<byte>>, p: Pid)
    ensures Sends(s, SendTo(dest, kind, data), p) ==> p == dest
  {
  }

  // ----- threads and processes

  /** The slot search finds the lowest free one of the eight. */
  lemma {:induction false} SlotIsLowest(s: State, p: Pid, from: nat)
    requires from <= THREADS_PER_PROCESS
    ensures var slot := FreeSlot(s, p, from);
      && (slot.None? <==> forall k: nat :: from <= k < 8 ==> Tid(p, k) in s.threads)
      && (slot.Some? ==> from <= slot.value < 8 && Tid(p, slot.value) !in s.threads)
      && (slot.Some? ==> forall k: nat :: from <= k < slot.value ==> Tid(p, k) in s.threads)
    decreases 8 - from
  {
    if from < THREADS_PER_PROCESS {
      SlotIsLowest(s, p, from + 1);
    }
  }

  lemma NewThreadEffect(s: State, entry: u32, memOk: bool)
    requires Inv(s)
    ensures WellFormed(s) && Effect(s, NThread(entry, memOk), Step(s, NThread(entry, memOk)))
  {
    hide Inv, WellFormed, FreeSlot, Place, Population, Fates, Crew, Records, Clock, Post;
    InvParts(s);
    var p := s.current.pid;
    var slot := FreeSlot(s, p, 0);
    SlotIsLowest(s, p, 0);
    ReadyIsThere(s);
    if entry == 0 || slot.None? || !memOk {
      NoThreadEffect(s, entry, memOk);
    } else {
      PlacedEffect(s, entry, slot.value);
    }
  }

  lemma ReadyIsThere(s: State)
    requires WellFormed(s)
    ensures ReadyQ in s.queues
  {
  }

  lemma SameMailbox(s: State, a: Action, r: State)
    requires r.procs == s.procs && a.NThread?
    ensures Post(s, a, r)
  {
    forall p | p in s.procs ensures Mailbox(s.procs[p], r.procs[p], Sent(s, a, p), Takes(s, a, p)) {
      EmptyMail(s.procs[p]);
    }
  }

  lemma NoThreadEffect(s: State, entry: u32, memOk: bool)
    requires WellFormed(s)
    requires entry == 0 || !memOk || forall k: nat :: k < 8 ==> Tid(s.current.pid, k) in s.threads
    ensures Effect(s, NThread(entry, memOk), s)
  {
    hide Post;
    SameMailbox(s, NThread(entry, memOk), s);
  }

  lemma PlacedEffect(s: State, entry: u32, slot: nat)
    requires WellFormed(s) && s.current.pid in s.procs && ReadyQ in s.queues && entry != 0
    requires slot < 8 && Tid(s.current.pid, slot) !in s.threads
    requires forall k: nat :: k < slot ==> Tid(s.current.pid, k) in s.threads
    ensures Effect(s, NThread(entry, true), Place(s, Tid(s.current.pid, slot), ReadyQ, FRESH.(state := Ready)))
  {
    hide Post, Push;
    var a, r := NThread(entry, true), Place(s, Tid(s.current.pid, slot), ReadyQ, FRESH.(state := Ready));
    SameMailbox(s, a, r);
    forall t | Starts(s, a, t) ensures t == Tid(s.current.pid, slot) {
      assert t.slot < slot ==> Tid(s.current.pid, t.slot) in s.threads;
      assert slot < t.slot ==> Tid(t.pid, slot) in s.threads;
    }
  }

  lemma NewProcessEffect(s: State, code: u32, n: u32, mem: Memory)
    requires Inv(s)
    ensures WellFormed(s) && Effect(s, NProcess(code, n, mem), Step(s, NProcess(code, n, mem)))
  {
    hide Inv, NewProcess, Structure, WellFormed, Effect, Born;
    InvBasis(s);
    NewProcessAllOrNothing(s, code, n, mem);
    CountedExactly(s, code, n, mem);
    NextPidIsFresh(s);
    if Furnished(NProcess(code, n, mem)) {
      BornEffect(s, code, n, mem);
    } else {
      UnbornEffect(s, code, n, mem, NewProcess(s, code, n, mem).0);
    }
  }

  /** The pid is used up as soon as the process block has been made. */
  lemma CountedExactly(s: State, code: u32, n: u32, mem: Memory)
    requires WellFormed(s) && Structure(s)
    ensures NewProcess(s, code, n, mem).0.nextPid
      == s.nextPid + if code != 0 && n != 0 && mem.data && mem.directory then 1 else 0
  {
    hide Push, FreeSlot, Structure;
    NextPidIsFresh(s);
  }

  lemma BornEffect(s: State, code: u32, n: u32, mem: Memory)
    requires WellFormed(s) && Furnished(NProcess(code, n, mem)) && s.nextPid !in s.procs
    requires forall t :: t in s.threads ==> t.pid != s.nextPid
    ensures Effect(s, NProcess(code, n, mem), Born(s))
  {
    hide Push, Post;
    BornPost(s, NProcess(code, n, mem));
  }

  lemma BornPost(s: State, a: Action)
    requires WellFormed(s) && s.nextPid !in s.procs && a.NProcess?
    ensures Post(s, a, Born(s))
  {
    hide Push;
    var r := Born(s);
    forall p | p in s.procs && p in r.procs ensures Mailbox(s.procs[p], r.procs[p], Sent(s, a, p), Takes(s, a, p)) {
      EmptyMail(s.procs[p]);
    }
  }

  lemma UnbornEffect(s: State, code: u32, n: u32, mem: Memory, r: State)
    requires WellFormed(s) && !Furnished(NProcess(code, n, mem)) && r == s.(nextPid := r.nextPid)
    requires r.nextPid == s.nextPid + if code != 0 && n != 0 && mem.data && mem.directory then 1 else 0
    ensures Effect(s, NProcess(code, n, mem), r)
  {
    var a := NProcess(code, n, mem);
    forall p | p in s.procs && p in r.procs ensures Mailbox(s.procs[p], r.procs[p], Sent(s, a, p), Takes(s, a, p)) {
      EmptyMail(s.procs[p]);
    }
  }

  lemma DyingMarks(s: State)
    requires WellFormed(s)
    ensures Marked(s, Fault, MarkDying(s)) && MarkDying(s).threads == s.threads
  {
    hide DropThreads;
    forall p | p in s.procs ensures Mailbox(s.procs[p], MarkDying(s).procs[p], Sent(s, Fault, p), Takes(s, Fault, p)) {
      EmptyMail(s.procs[p]);
    }
  }

  lemma FaultEffect(s: State)
    requires Inv(s)
    ensures WellFormed(s) && Effect(s, Fault, Step(s, Fault))
  {
    hide Inv, Core, Structure, Schedule, Effect, WellFormed, Marked, MarkDying;
    InvBasis(s);
    DyingMarks(s);
    ThenSchedule(s, Fault, MarkDying(s));
  }

  lemma {:induction false} ReapKeepsClock(s: State, rest: seq<Pid>)
    requires WellFormed(s)
    ensures ReapFrom(s, rest).ticks == s.ticks && ReapFrom(s, rest).nextPid == s.nextPid
    decreases |rest|
  {
    hide ThreadsExcept, QueuesAfter;
    if rest != [] {
      ReapKeepsClock(if rest[0] in s.procs && s.procs[rest[0]].dying then DestroyProcess(s, rest[0]) else s, rest[1..]);
    }
  }

  lemma ReapEffect(s: State)
    requires Inv(s) && s.current.pid == IDLE
    ensures WellFormed(s) && Effect(s, Action.Reap, Step(s, Action.Reap))
  {
    hide Inv, Core, Structure, ReapFrom, Removed, WellFormed, Effect;
    InvBasis(s);
    ReaperPass(s);
    ReapKeepsClock(s, s.list);
    ReapedEffect(s, ReapFrom(s, s.list));
  }

  lemma ReapedEffect(s: State, r: State)
    requires WellFormed(s) && Removed(s, Dying(s), r) && r.ticks == s.ticks && r.nextPid == s.nextPid
    requires s.current.pid == IDLE
    ensures Effect(s, Action.Reap, r)
  {
    hide WellFormed, Removed, Post, Fates, Records, Crew, Population;
    ReapedProcesses(s, r);
    ReapedThreads(s, r);
  }

  lemma ReapedProcesses(s: State, r: State)
    requires Removed(s, Dying(s), r) && r.nextPid == s.nextPid
    ensures Population(s, Action.Reap, r) && Fates(s, Action.Reap, r) && Post(s, Action.Reap, r)
  {
    hide QueueGone;
    forall p | p in s.procs && p in r.procs
      ensures r.procs[p].dying == s.procs[p].dying
      ensures Mailbox(s.procs[p], r.procs[p], Sent(s, Action.Reap, p), Takes(s, Action.Reap, p))
    {
      assert r.procs[p].(dad := None) == s.procs[p].(dad := None);
      EmptyMail(s.procs[p]);
    }
  }

  lemma ReapedThreads(s: State, r: State)
    requires WellFormed(s) && Removed(s, Dying(s), r)
    ensures Crew(s, Action.Reap, r) && Records(s, Action.Reap, r)
  {
    hide QueueGone;
  }

  /** Every step in every state of a run has these effects and no other. */
  lemma StepEffects(s: State, a: Action)
    requires Inv(s) && Enabled(s, a)
    ensures WellFormed(s) && Effect(s, a, Step(s, a))
  {
    hide Inv, Effect, Step, WellFormed;
    match a
    case Timer => TimerEffect(s);
    case Yield => YieldEffect(s);
    case Sleep(ms) => SleepEffect(s, ms);
    case ExitThread(status) => ExitEffect(s, status);
    case NThread(entry, memOk) => NewThreadEffect(s, entry, memOk);
    case NProcess(code, n, mem) => NewProcessEffect(s, code, n, mem);
    case SendTo(dest, kind, data) => SendEffect(s, dest, kind, data);
    case ReceiveUpTo(size) => ReceiveEffect(s, size);
    case ResumeReceive => ResumeEffect(s);
    case Fault => FaultEffect(s);
    case Reap => ReapEffect(s);
  }
}
