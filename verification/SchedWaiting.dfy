/**
  Bounded waiting: every call of schedule brings a thread of the ready queue strictly
  nearer to its front, no other step sets it back, so a thread with k others ahead
  of it runs within k + 1 calls.
*/
module SchedWaiting {
  import opened Common
  import opened Seqs
  import opened Sched
  import opened SchedInvariant
  import opened ProcessForest
  import opened SleepQueue
  import opened SchedRuns

  function IndexOf<T(==)>(s: seq<T>, x: T): (i: nat)
    requires x in s
    ensures i < |s| && s[i] == x
  {
    if s[0] == x then 0 else 1 + IndexOf(s[1..], x)
  }

  lemma IndexWithout<T(!new)>(s: seq<T>, x: T, t: T)
    requires t in s && x != t
    ensures IndexOf(Without(s, x), t) <= IndexOf(s, t)
  {
    if s[0] != t {
      IndexWithout(s[1..], x, t);
    }
  }

  lemma IndexAppend<T(!new)>(s: seq<T>, u: seq<T>, t: T)
    requires t in s
    ensures IndexOf(s + u, t) == IndexOf(s, t)
  {
    if s[0] != t {
      assert (s + u)[1..] == s[1..] + u;
      IndexAppend(s[1..], u, t);
    }
  }

  lemma IndexFilter<T(!new)>(s: seq<T>, keep: T -> bool, t: T)
    requires t in s && keep(t)
    ensures IndexOf(Filter(s, keep), t) <= IndexOf(s, t)
  {
    if s[0] != t {
      IndexFilter(s[1..], keep, t);
    }
  }

  ghost predicate Waiting(s: State, t: Tid)
    requires WellFormed(s)
  {
    t in s.queues[ReadyQ] && t != s.current && Normal(s, t)
  }

  /** The number of threads ahead of `t` in the ready queue. */
  function Ahead(s: State, t: Tid): (n: nat)
    requires WellFormed(s) && t in s.queues[ReadyQ]
  {
    IndexOf(s.queues[ReadyQ], t)
  }

  /** `t` got the processor, or waits with at least `gain` threads fewer ahead of it. */
  ghost predicate Nearer(s: State, r: State, t: Tid, gain: nat)
    requires WellFormed(s) && WellFormed(r) && t in s.queues[ReadyQ]
  {
    r.current == t || (Waiting(r, t) && Ahead(r, t) + gain <= Ahead(s, t))
  }

  lemma RequeueNearer(s: State, t: Tid)
    requires WellFormed(s) && Waiting(s, t)
    ensures Nearer(s, Requeue(s), t, 0)
  {
    var r := s.queues[ReadyQ];
    IndexWithout(r, s.current, t);
    IndexAppend(Without(r, s.current), [s.current], t);
  }

  lemma DispatchNearer(s: State, t: Tid)
    requires WellFormed(s) && NoRepeats(s) && Waiting(s, t)
    ensures Nearer(s, Dispatch(s), t, 1)
  {
  }

  /** One call of schedule. */
  lemma ScheduleNearer(s: State, t: Tid)
    requires Core(s) && Waiting(s, t)
    ensures Nearer(s, Schedule(s), t, 1)
  {
    RequeueKeepsCore(s);
    RequeueNearer(s, t);
    DispatchNearer(Requeue(s), t);
  }

  lemma ThenSchedule(s: State, r: State, t: Tid)
    requires WellFormed(s) && t in s.queues[ReadyQ] && Core(r) && r.current != t && Nearer(s, r, t, 0)
    ensures Nearer(s, Schedule(r), t, 1)
  {
    ScheduleNearer(r, t);
  }

  lemma TickPassNearer(s: State, t: Tid)
    requires Core(s) && Waiting(s, t)
    ensures Nearer(s, TickPass(s), t, 0) && TickPass(s).current == s.current
  {
    TickPassSplits(s);
    IndexAppend(s.queues[ReadyQ], Filter(s.queues[SleepQ], Due(Advance(s))), t);
  }

  lemma PlaceNearer(s: State, u: Tid, q: QId, th: Thread, t: Tid)
    requires WellFormed(s) && Waiting(s, t) && u.pid in s.procs && q in s.queues && u != t
    ensures Nearer(s, Place(s, u, q, th), t, 0)
  {
    var r := s.queues[ReadyQ];
    IndexWithout(r, u, t);
    IndexAppend(Without(r, u), [u], t);
  }

  lemma MarkDyingNearer(s: State, t: Tid)
    requires WellFormed(s) && Waiting(s, t) && t.pid != s.current.pid
    ensures Nearer(s, MarkDying(s), t, 0)
  {
    IndexFilter(s.queues[ReadyQ], NotOf(s.current.pid), t);
  }

  lemma DestroyNearer(s: State, p: Pid, t: Tid)
    requires WellFormed(s) && Waiting(s, t) && p in s.procs && t.pid != p
    ensures Nearer(s, DestroyProcess(s, p), t, 0)
  {
    IndexFilter(s.queues[ReadyQ], NotOf(p), t);
  }

  lemma {:induction false} ReapNearer(s: State, rest: seq<Pid>, t: Tid)
    requires WellFormed(s) && Waiting(s, t)
    ensures Nearer(s, ReapFrom(s, rest), t, 0)
    decreases |rest|
  {
    if rest != [] {
      if rest[0] in s.procs && s.procs[rest[0]].dying {
        DestroyNearer(s, rest[0], t);
        ReapNearer(DestroyProcess(s, rest[0]), rest[1..], t);
      } else {
        ReapNearer(s, rest[1..], t);
      }
    }
  }

  lemma BornNearer(s: State, t: Tid)
    requires WellFormed(s) && Structure(s) && Waiting(s, t)
    ensures Nearer(s, Born(s), t, 0)
  {
    NextPidIsFresh(s);
    PlaceNearer(CreateProcess(s), Tid(s.nextPid, 0), ReadyQ, FRESH.(state := Ready), t);
  }

  lemma SendNearer(s: State, dest: Pid, kind: u32, data: Option<seq<byte>>, t: Tid)
    requires Core(s) && Waiting(s, t)
    ensures Nearer(s, Send(s, dest, kind, data).0, t, 0)
  {
    if ValidPayload(data) && Accepts(s, dest) {
      var s1 := Deliver(s, dest, Message(s.current.pid, kind, data.value));
      var w := s1.queues[Waiters(dest)];
      if w != [] {
        WakeWaiterIsMove(s1, dest);
        assert Waiters(dest) == QueueOf(w[0], s1.threads[w[0]].state);
        assert ReadyQ == QueueOf(t, s1.threads[t].state);
        PlaceNearer(s1, w[0], ReadyQ, s1.threads[w[0]].(state := Ready), t);
      }
    }
  }

  /** Whether the step calls schedule. */
  predicate Schedules(s: State, a: Action)
    requires s.current.pid in s.procs
  {
    match a
    case Timer => true
    case Yield => true
    case Fault => true
    case Sleep(ms) => FallsAsleep(s, ms)
    case ExitThread(status) => s.current.pid != IDLE
    case ReceiveUpTo(size) => 0 < size <= MESSAGE_MAX && s.procs[s.current.pid].ring == []
    case _ => false
  }

  lemma TimerNearer(s: State, t: Tid)
    requires Inv(s) && Waiting(s, t)
    ensures Nearer(s, Schedule(TickPass(s)), t, 1)
  {
    TickPassNearer(s, t);
    TickPassKeepsInv(s);
    ThenSchedule(s, TickPass(s), t);
  }

  lemma FaultNearer(s: State, t: Tid)
    requires Inv(s) && Waiting(s, t) && s.current.pid != IDLE && t.pid != s.current.pid
    ensures Nearer(s, Schedule(MarkDying(s)), t, 1)
  {
    MarkDyingNearer(s, t);
    MarkDyingKeepsCore(s);
    ThenSchedule(s, MarkDying(s), t);
  }

  lemma FaultKills(s: State, t: Tid)
    requires Inv(s) && t.pid == s.current.pid
    ensures !Normal(Schedule(MarkDying(s)), t)
  {
  }

  lemma AsleepNearer(s: State, wake: u32, t: Tid)
    requires Inv(s) && Waiting(s, t) && s.ticks < wake && s.current != IDLE0
    ensures Nearer(s, Schedule(MarkAsleep(s, wake)), t, 1)
  {
    PlaceNearer(s, s.current, SleepQ, s.threads[s.current].(state := Sleeping, wake := wake), t);
    MarkAsleepKeepsInv(s, wake);
    ThenSchedule(s, MarkAsleep(s, wake), t);
  }

  lemma ZombieNearer(s: State, status: int, t: Tid)
    requires Inv(s) && Waiting(s, t) && s.current.pid != IDLE
    ensures Nearer(s, Schedule(MarkZombie(s, status)), t, 1)
  {
    var th := s.threads[s.current].(state := Zombie, exitCode := status);
    PlaceNearer(s, s.current, ZombieQ, th, t);
    MarkZombieKeepsCore(s, status);
    ThenSchedule(s, MarkZombie(s, status), t);
  }

  lemma MarkZombieKeepsCore(s: State, status: int)
    requires Core(s) && s.current.pid != IDLE
    ensures Core(MarkZombie(s, status))
  {
    PlaceKeepsCore(s, s.current, ZombieQ, s.threads[s.current].(state := Zombie, exitCode := status));
  }

  lemma BlockedNearer(s: State, t: Tid)
    requires Inv(s) && Waiting(s, t) && s.current != IDLE0
    ensures Nearer(s, BlockAndYield(s), t, 1)
  {
    PlaceNearer(s, s.current, Waiters(s.current.pid), s.threads[s.current].(state := Blocked), t);
    MarkBlockedKeepsCore(s);
    ThenSchedule(s, MarkBlocked(s), t);
  }

  lemma NewThreadNearer(s: State, entry: u32, memOk: bool, t: Tid)
    requires WellFormed(s) && Waiting(s, t)
    ensures Nearer(s, NewThread(s, s.current.pid, entry, memOk).0, t, 0)
  {
    var slot := FreeSlot(s, s.current.pid, 0);
    if entry != 0 && slot.Some? && memOk {
      PlaceNearer(s, Tid(s.current.pid, slot.value), ReadyQ, FRESH.(state := Ready), t);
    }
  }

  lemma NewProcessNearer(s: State, entry: u32, n: u32, mem: Memory, t: Tid)
    requires WellFormed(s) && Structure(s) && Waiting(s, t)
    ensures Nearer(s, NewProcess(s, entry, n, mem).0, t, 0)
  {
    NewProcessAllOrNothing(s, entry, n, mem);
    BornNearer(s, t);
  }

  lemma PopNearer(s: State, t: Tid)
    requires WellFormed(s) && Waiting(s, t)
    ensures Nearer(s, PopMessage(s).0, t, 0)
  {
  }

  lemma ResumeNearer(s: State, t: Tid)
    requires WellFormed(s) && Waiting(s, t)
    ensures Nearer(s, Resume(s), t, 0)
  {
  }

  lemma ReceiveNearer(s: State, size: nat, t: Tid)
    requires Inv(s) && Waiting(s, t) && s.current != IDLE0
    ensures Nearer(s, Receive(s, size), t, if Schedules(s, ReceiveUpTo(size)) then 1 else 0)
  {
    hide Nearer, NoRepeats, Located, Findable, IdleAhead, WellFormed, BlockAndYield, PopMessage;
    CoreParts(s);
    if 0 < size <= MESSAGE_MAX {
      if s.procs[s.current.pid].ring == [] {
        BlockedNearer(s, t);
      } else {
        PopNearer(s, t);
      }
    } else {
      SameNearer(s, t);
    }
  }

  lemma SameNearer(s: State, t: Tid)
    requires WellFormed(s) && Waiting(s, t)
    ensures Nearer(s, s, t, 0)
  {
  }

  lemma FallAsleepNearer(s: State, ms: u32, t: Tid)
    requires Inv(s) && Waiting(s, t)
    ensures Nearer(s, FallAsleep(s, ms), t, if Schedules(s, Sleep(ms)) then 1 else 0)
  {
    if FallsAsleep(s, ms) {
      AsleepNearer(s, WakeTick(s, ms), t);
    }
  }

  lemma ExitNearer(s: State, status: int, t: Tid)
    requires Inv(s) && Waiting(s, t)
    ensures Nearer(s, Exit(s, status), t, if Schedules(s, ExitThread(status)) then 1 else 0)
  {
    if s.current.pid != IDLE {
      ZombieNearer(s, status, t);
    }
  }

  /** One step: never a set-back, and a strict gain when it calls schedule. */
  lemma StepNearer(s: State, a: Action, t: Tid)
    requires Inv(s) && Enabled(s, a) && Waiting(s, t) && Normal(Step(s, a), t)
    ensures Nearer(s, Step(s, a), t, if Schedules(s, a) then 1 else 0)
  {
    hide Nearer, NoRepeats, Located, Findable, IdleAhead, WellFormed, Normal, Schedule, TickPass, MarkDying, FallAsleep,
      Exit, Receive, Resume, NewThread, NewProcess, Send, ReapFrom;
    CoreParts(s);
    match a
    case Timer => TimerNearer(s, t);
    case Yield => ScheduleNearer(s, t);
    case Fault =>
      if t.pid == s.current.pid {
        FaultKills(s, t);
      }
      FaultNearer(s, t);
    case Sleep(ms) => FallAsleepNearer(s, ms, t);
    case ExitThread(status) => ExitNearer(s, status, t);
    case ReceiveUpTo(size) => ReceiveNearer(s, size, t);
    case NThread(entry, memOk) => NewThreadNearer(s, entry, memOk, t);
    case NProcess(code, n, mem) => NewProcessNearer(s, code, n, mem, t);
    case SendTo(dest, kind, data) => SendNearer(s, dest, kind, data, t);
    case ResumeReceive => ResumeNearer(s, t);
    case Reap => ReapNearer(s, s.list, t);
  }

  // ----- runs

  /** How many steps of the run call schedule. */
  ghost function Calls(s: State, actions: seq<Action>): (n: nat)
    requires Legal(s, actions)
    decreases |actions|
  {
    if actions == [] then 0
    else Calls(s, Front(actions)) + if Schedules(After(s, Front(actions)), Last(actions)) then 1 else 0
  }

  /** The process of `t` is normal in every state of the run. */
  ghost predicate StaysNormal(s: State, actions: seq<Action>, t: Tid)
    requires Legal(s, actions)
    decreases |actions|
  {
    Normal(After(s, actions), t) && (actions != [] ==> StaysNormal(s, Front(actions), t))
  }

  /** `t` is current in some state of the run. */
  ghost predicate Runs(s: State, actions: seq<Action>, t: Tid)
    requires Legal(s, actions)
    decreases |actions|
  {
    After(s, actions).current == t || (actions != [] && Runs(s, Front(actions), t))
  }

  lemma {:induction false} RunsOrNears(s: State, actions: seq<Action>, t: Tid)
    requires Inv(s) && Waiting(s, t) && Legal(s, actions) && StaysNormal(s, actions, t)
    ensures Runs(s, actions, t)
      || (Waiting(After(s, actions), t) && Ahead(After(s, actions), t) + Calls(s, actions) <= Ahead(s, t))
    decreases |actions|
  {
    if actions != [] {
      var s1 := After(s, Front(actions));
      RunsOrNears(s, Front(actions), t);
      if !Runs(s, Front(actions), t) {
        RunKeepsInv(s, Front(actions));
        StepNearer(s1, Last(actions), t);
      }
    }
  }

  /** Bounded waiting: from any reachable state, a thread of a normal process with k threads
      ahead of it in the ready queue runs within k + 1 calls of schedule, if its process lives on. */
  lemma BoundedWaiting(s: State, actions: seq<Action>, t: Tid)
    requires Reachable(s) && Legal(s, actions) && Waiting(s, t) && StaysNormal(s, actions, t)
    requires Calls(s, actions) >= Ahead(s, t) + 1
    ensures Runs(s, actions, t)
  {
    ReachableInv(s);
    RunsOrNears(s, actions, t);
  }
}
