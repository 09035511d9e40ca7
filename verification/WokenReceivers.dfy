/**
  No lost wakeup. A receiver that yields stays in the queue of waiters until a send
  wakes it. As long as each such yield really switches away, every message that
  sits in a mailbox while some thread still waits there is owed to a receiver that
  has been woken and has not popped yet.
*/
module WokenReceivers {
  import opened Common
  import opened Seqs
  import opened Sched
  import opened SchedInvariant
  import opened ProcessForest
  import opened SleepQueue
  import opened Mailboxes
  import opened SchedRuns
  import opened SchedWaiting

  /** The threads of `p` that are inside a receive and no longer wait: each will pop next. */
  ghost function Owed(s: State, p: Pid): (owed: set<Tid>)
    requires Waiters(p) in s.queues
  {
    set t | t in s.receiving && t.pid == p && t !in s.queues[Waiters(p)]
  }

  ghost predicate WaitersReceive(s: State)
    requires WellFormed(s)
  {
    forall p, t :: p in s.procs && t in s.queues[Waiters(p)] ==> t in s.receiving
  }

  ghost predicate CurrentNotWaiting(s: State)
    requires WellFormed(s)
  {
    s.current !in s.queues[Waiters(s.current.pid)]
  }

  ghost predicate PromisedTo(s: State, p: Pid)
    requires WellFormed(s) && p in s.procs
  {
    s.queues[Waiters(p)] != [] ==> |s.procs[p].ring| <= |Owed(s, p)|
  }

  ghost predicate Promised(s: State)
    requires WellFormed(s)
  {
    forall p :: p in s.procs ==> PromisedTo(s, p)
  }

  ghost predicate Attentive(s: State) {
    Inv(s) && WaitersReceive(s) && CurrentNotWaiting(s) && Promised(s)
  }

  // ----- steps that leave the mailboxes in use alone

  ghost predicate UndisturbedAt(s: State, r: State, p: Pid)
    requires WellFormed(s) && WellFormed(r) && p in r.procs
  {
    r.queues[Waiters(p)] != [] ==>
      && p in s.procs && r.procs[p].ring == s.procs[p].ring
      && r.queues[Waiters(p)] == s.queues[Waiters(p)]
      && (forall t: Tid :: t.pid == p ==> (t in r.receiving <==> t in s.receiving))
  }

  ghost predicate Undisturbed(s: State, r: State)
    requires WellFormed(s) && WellFormed(r)
  {
    forall p :: p in r.procs ==> UndisturbedAt(s, r, p)
  }

  lemma WaitersAreOwn(s: State, p: Pid, t: Tid)
    requires Core(s) && p in s.procs && t in s.queues[Waiters(p)]
    ensures t.pid == p && s.threads[t].state.Blocked?
  {
    assert Waiters(p) == QueueOf(t, s.threads[t].state);
  }

  lemma UndisturbedAtKeeps(s: State, r: State, p: Pid)
    requires Core(s) && WellFormed(r) && WaitersReceive(s) && Promised(s) && p in r.procs && UndisturbedAt(s, r, p)
    ensures PromisedTo(r, p)
    ensures forall t :: t in r.queues[Waiters(p)] ==> t in r.receiving
  {
    if r.queues[Waiters(p)] != [] {
      assert PromisedTo(s, p);
      assert Owed(r, p) == Owed(s, p);
      forall t | t in r.queues[Waiters(p)] ensures t in r.receiving {
        WaitersAreOwn(s, p, t);
      }
    }
  }

  lemma UndisturbedKeeps(s: State, r: State)
    requires Core(s) && WellFormed(r) && WaitersReceive(s) && Promised(s) && Undisturbed(s, r)
    ensures WaitersReceive(r) && Promised(r)
  {
    forall p | p in r.procs
      ensures PromisedTo(r, p)
      ensures forall t :: t in r.queues[Waiters(p)] ==> t in r.receiving
    {
      UndisturbedAtKeeps(s, r, p);
    }
  }

  /** Only the mailbox of `p` was touched, and there the promise holds. */
  lemma UndisturbedButOne(s: State, r: State, p: Pid)
    requires Core(s) && WellFormed(r) && WaitersReceive(s) && Promised(s) && p in r.procs && PromisedTo(r, p)
    requires forall q :: q in r.procs && q != p ==> UndisturbedAt(s, r, q)
    requires forall t :: t in r.queues[Waiters(p)] ==> t in r.receiving
    ensures WaitersReceive(r) && Promised(r)
  {
    forall q | q in r.procs && q != p
      ensures PromisedTo(r, q)
      ensures forall t :: t in r.queues[Waiters(q)] ==> t in r.receiving
    {
      UndisturbedAtKeeps(s, r, q);
    }
  }

  lemma WaitsNowhere(s: State, t: Tid)
    requires Core(s) && t.pid in s.procs && t !in s.queues[Waiters(t.pid)]
    ensures forall p :: p in s.procs ==> t !in s.queues[Waiters(p)]
  {
    forall p | p in s.procs && t in s.queues[Waiters(p)] ensures false {
      WaitersAreOwn(s, p, t);
    }
  }

  lemma PlaceUndisturbed(s: State, t: Tid, q: QId, th: Thread)
    requires Core(s) && t.pid in s.procs && q in s.queues && !q.Waiters? && t !in s.queues[Waiters(t.pid)]
    ensures Undisturbed(s, Place(s, t, q, th))
  {
    hide NoRepeats, Located, Findable, IdleAhead;
    WaitsNowhere(s, t);
  }

  lemma DispatchUndisturbed(s: State)
    requires WellFormed(s) && s.queues[ReadyQ] != []
    ensures Undisturbed(s, Dispatch(s))
  {
  }

  lemma RunningDoNotWait(s: State, t: Tid)
    requires Core(s) && t in s.threads && !s.threads[t].state.Blocked?
    ensures t !in s.queues[Waiters(t.pid)]
  {
    if t in s.queues[Waiters(t.pid)] {
      WaitersAreOwn(s, t.pid, t);
    }
  }

  lemma RequeueUndisturbed(s: State)
    requires Core(s)
    ensures Undisturbed(s, Requeue(s))
  {
    hide Undisturbed, NoRepeats, Located, Findable, IdleAhead, Push;
    if s.threads[s.current].state.Running? {
      RunningDoNotWait(s, s.current);
      PlaceUndisturbed(s, s.current, ReadyQ, s.threads[s.current]);
      assert s.threads[s.current := s.threads[s.current]] == s.threads;
    } else {
      SameUndisturbed(s);
    }
  }

  lemma SameUndisturbed(s: State)
    requires WellFormed(s)
    ensures Undisturbed(s, s)
  {
  }

  lemma ScheduleUndisturbed(s: State)
    requires Core(s)
    ensures Undisturbed(s, Schedule(s))
  {
    if s.queues[ReadyQ] != [] {
      RequeueUndisturbed(s);
      DispatchUndisturbed(Requeue(s));
    }
  }

  lemma SwitchedIsRunning(s: State)
    requires WellFormed(s) && Schedule(s).current != s.current
    ensures Schedule(s).threads[Schedule(s).current].state.Running?
  {
  }

  /** A call of schedule cannot make a waiting thread current. */
  lemma ScheduleKeepsCurrentAwake(s: State)
    requires Core(s) && (CurrentNotWaiting(s) || Schedule(s).current != s.current)
    ensures CurrentNotWaiting(Schedule(s))
  {
    var r := Schedule(s);
    ScheduleKeepsCore(s);
    ScheduleUndisturbed(s);
    if r.current != s.current {
      SwitchedIsRunning(s);
      RunningDoNotWait(r, r.current);
    }
  }

  lemma TickPassUndisturbed(s: State)
    requires Core(s)
    ensures Undisturbed(s, TickPass(s)) && TickPass(s).current == s.current
  {
    TickPassSplits(s);
  }

  lemma DroppedQueue(s: State, gone: Pid, p: Pid)
    requires Core(s) && p in s.procs
    ensures DropThreads(s.queues, gone)[Waiters(p)] == if p == gone then [] else s.queues[Waiters(p)]
  {
    var q := s.queues[Waiters(p)];
    forall t | t in q ensures t.pid == p {
      WaitersAreOwn(s, p, t);
    }
    if p == gone {
      FilterNone(q, NotOf(p));
    } else {
      FilterKeepsAll(q, gone);
    }
  }

  lemma MarkDyingUndisturbed(s: State)
    requires Core(s)
    ensures Undisturbed(s, MarkDying(s))
  {
    hide NoRepeats, Located, Findable, IdleAhead, DropThreads;
    forall p | p in s.procs ensures UndisturbedAt(s, MarkDying(s), p) {
      DroppedQueue(s, s.current.pid, p);
    }
  }

  lemma DestroyUndisturbed(s: State, p: Pid)
    requires Core(s) && p in s.procs
    ensures Undisturbed(s, DestroyProcess(s, p))
  {
    hide NoRepeats, Located, Findable, IdleAhead, DestroyProcess, DropProcess, QueuesAfter, DropThreads;
    DestroyLeaves(s, p);
    if s.current.pid != p {
      var r := DestroyProcess(s, p);
      DropKeepsOtherMail(s.procs, p);
      forall q | q in r.procs ensures UndisturbedAt(s, r, q) {
        DroppedQueue(s, p, q);
        QueuesAfterAt(s.queues, p, q);
      }
    }
  }

  lemma DestroyLeaves(s: State, p: Pid)
    requires WellFormed(s) && p in s.procs
    ensures var r := DestroyProcess(s, p);
      if s.current.pid == p then r == s
      else
        && r.queues == QueuesAfter(s.queues, p) && r.procs == DropProcess(s.procs, p)
        && r.procs.Keys == s.procs.Keys - {p} && forall t :: t in r.receiving <==> t in s.receiving && t.pid != p
  {
  }

  lemma QueuesAfterAt(queues: map<QId, seq<Tid>>, p: Pid, q: Pid)
    requires Waiters(q) in queues && q != p
    ensures Waiters(q) in QueuesAfter(queues, p)
    ensures QueuesAfter(queues, p)[Waiters(q)] == DropThreads(queues, p)[Waiters(q)]
  {
  }

  lemma UndisturbedTwice(s: State, s1: State, r: State)
    requires WellFormed(s) && WellFormed(s1) && WellFormed(r) && Undisturbed(s, s1) && Undisturbed(s1, r)
    requires forall p :: p in r.procs ==> p in s1.procs
    ensures Undisturbed(s, r)
  {
    forall p | p in r.procs ensures UndisturbedAt(s, r, p) {
      assert UndisturbedAt(s, s1, p) && UndisturbedAt(s1, r, p);
    }
  }

  lemma {:induction false} ReapOnlyRemoves(s: State, rest: seq<Pid>)
    requires WellFormed(s)
    ensures ReapFrom(s, rest).current == s.current
    ensures forall p :: p in ReapFrom(s, rest).procs ==> p in s.procs
    decreases |rest|
  {
    if rest != [] {
      if rest[0] in s.procs && s.procs[rest[0]].dying {
        ReapOnlyRemoves(DestroyProcess(s, rest[0]), rest[1..]);
      } else {
        ReapOnlyRemoves(s, rest[1..]);
      }
    }
  }

  lemma {:induction false} ReapUndisturbed(s: State, rest: seq<Pid>)
    requires Core(s)
    ensures Undisturbed(s, ReapFrom(s, rest))
    decreases |rest|
  {
    if rest != [] {
      if rest[0] in s.procs && s.procs[rest[0]].dying {
        var s1 := DestroyProcess(s, rest[0]);
        DestroyUndisturbed(s, rest[0]);
        DestroyKeepsCore(s, rest[0]);
        ReapUndisturbed(s1, rest[1..]);
        ReapOnlyRemoves(s1, rest[1..]);
        UndisturbedTwice(s, s1, ReapFrom(s1, rest[1..]));
      } else {
        ReapUndisturbed(s, rest[1..]);
      }
    }
  }

  lemma CountingUndisturbed(s: State, nextPid: Pid)
    requires WellFormed(s)
    ensures Undisturbed(s, s.(nextPid := nextPid))
  {
  }

  lemma CreateUndisturbed(s: State)
    requires WellFormed(s) && Structure(s)
    ensures Undisturbed(s, CreateProcess(s))
  {
  }

  lemma BornUndisturbed(s: State)
    requires Inv(s)
    ensures Undisturbed(s, Born(s))
  {
    NextPidIsFresh(s);
    var s1 := CreateProcess(s);
    CreateKeepsCore(s);
    CreateUndisturbed(s);
    PlaceUndisturbed(s1, Tid(s.nextPid, 0), ReadyQ, FRESH.(state := Ready));
    UndisturbedTwice(s, s1, Born(s));
  }

  // ----- steps on a mailbox

  lemma OwedGains(s: State, r: State, p: Pid, t: Tid)
    requires Waiters(p) in s.queues && Waiters(p) in r.queues && r.receiving == s.receiving
    requires s.queues[Waiters(p)] != [] && t == s.queues[Waiters(p)][0] && t.pid == p && t in s.receiving
    requires t !in r.queues[Waiters(p)]
    requires forall u :: u in s.queues[Waiters(p)] <==> u == t || u in r.queues[Waiters(p)]
    ensures |Owed(r, p)| == |Owed(s, p)| + 1
  {
    assert Owed(r, p) == Owed(s, p) + {t};
  }

  lemma WakeUndisturbsOthers(s: State, dest: Pid, q: Pid)
    requires Core(s) && dest in s.procs && q in s.procs && q != dest && s.queues[Waiters(dest)] != []
    ensures WakeWaiter(s, dest).queues[Waiters(q)] == s.queues[Waiters(q)]
  {
    var t := s.queues[Waiters(dest)][0];
    WaitersAreOwn(s, dest, t);
    if t in s.queues[Waiters(q)] {
      WaitersAreOwn(s, q, t);
    }
  }

  lemma WakePromises(s: State, dest: Pid, m: Message)
    requires Core(s) && WaitersReceive(s) && dest in s.procs && PromisedTo(s, dest) && Core(Deliver(s, dest, m))
    ensures var r := WakeWaiter(Deliver(s, dest, m), dest);
      PromisedTo(r, dest) && forall t :: t in r.queues[Waiters(dest)] ==> t in r.receiving
  {
    var s1 := Deliver(s, dest, m);
    var w := s.queues[Waiters(dest)];
    WakeWaiterShortens(s1, dest);
    if w != [] {
      WaitersAreOwn(s, dest, w[0]);
      assert w[0] in w && w[0] !in w[1..];
      OwedGains(s, WakeWaiter(s1, dest), dest, w[0]);
    }
  }

  lemma WakeUndisturbedAt(s: State, dest: Pid, m: Message, q: Pid)
    requires Core(s) && dest in s.procs && Core(Deliver(s, dest, m)) && q in s.procs && q != dest
    ensures UndisturbedAt(s, WakeWaiter(Deliver(s, dest, m), dest), q)
  {
    var s1 := Deliver(s, dest, m);
    if s1.queues[Waiters(dest)] != [] {
      WakeUndisturbsOthers(s1, dest, q);
    }
  }

  lemma WakeKeepsPromise(s: State, dest: Pid, m: Message)
    requires Core(s) && WaitersReceive(s) && Promised(s) && dest in s.procs
    ensures var r := WakeWaiter(Deliver(s, dest, m), dest); WaitersReceive(r) && Promised(r)
  {
    var r := WakeWaiter(Deliver(s, dest, m), dest);
    DeliverKeepsCore(s, dest, m);
    WakeWaiterShortens(Deliver(s, dest, m), dest);
    WakePromises(s, dest, m);
    forall q | q in r.procs && q != dest ensures UndisturbedAt(s, r, q) {
      WakeUndisturbedAt(s, dest, m, q);
    }
    UndisturbedButOne(s, r, dest);
  }

  lemma WakeKeepsCurrentAwake(s: State, dest: Pid, m: Message)
    requires Core(s) && CurrentNotWaiting(s) && dest in s.procs
    ensures CurrentNotWaiting(WakeWaiter(Deliver(s, dest, m), dest))
  {
  }

  lemma SendKeepsAttentive(s: State, dest: Pid, kind: u32, data: Option<seq<byte>>)
    requires Attentive(s)
    ensures Attentive(Send(s, dest, kind, data).0)
  {
    SendKeepsInv(s, dest, kind, data);
    if ValidPayload(data) && Accepts(s, dest) {
      var m := Message(s.current.pid, kind, data.value);
      WakeKeepsPromise(s, dest, m);
      WakeKeepsCurrentAwake(s, dest, m);
    }
  }

  lemma ResumePromises(s: State)
    requires WellFormed(s) && PromisedTo(s, s.current.pid) && CurrentNotWaiting(s) && s.current in s.receiving
    ensures PromisedTo(Resume(s), s.current.pid)
  {
    assert Owed(Resume(s), s.current.pid) == Owed(s, s.current.pid) - {s.current};
  }

  lemma ResumeUndisturbed(s: State)
    requires WellFormed(s)
    ensures forall q :: q in s.procs && q != s.current.pid ==> UndisturbedAt(s, Resume(s), q)
  {
  }

  lemma ResumeStaysAwake(s: State)
    requires Core(s) && WaitersReceive(s) && CurrentNotWaiting(s)
    ensures CurrentNotWaiting(Resume(s))
    ensures forall t :: t in s.queues[Waiters(s.current.pid)] ==> t in Resume(s).receiving
  {
  }

  lemma ResumeKeepsAttentive(s: State)
    requires Attentive(s) && s.current in s.receiving
    ensures Attentive(Resume(s))
  {
    PopKeepsInv(s, s.receiving - {s.current});
    ResumePromises(s);
    ResumeUndisturbed(s);
    ResumeStaysAwake(s);
    UndisturbedButOne(s, Resume(s), s.current.pid);
  }

  lemma PopPromises(s: State)
    requires WellFormed(s) && PromisedTo(s, s.current.pid)
    ensures PromisedTo(PopMessage(s).0, s.current.pid)
    ensures forall q :: q in s.procs && q != s.current.pid ==> UndisturbedAt(s, PopMessage(s).0, q)
  {
    assert Owed(PopMessage(s).0, s.current.pid) == Owed(s, s.current.pid);
  }

  lemma PopKeepsAttentive(s: State)
    requires Attentive(s)
    ensures Attentive(PopMessage(s).0)
  {
    var r := PopMessage(s).0;
    assert r == r.(receiving := s.receiving);
    PopKeepsInv(s, s.receiving);
    PopPromises(s);
    UndisturbedButOne(s, r, s.current.pid);
  }

  /** Blocking on an empty mailbox; the promise is then that of zero messages. */
  lemma MarkBlockedKeepsPromise(s: State)
    requires Core(s) && WaitersReceive(s) && Promised(s) && s.current != IDLE0 && s.procs[s.current.pid].ring == []
    requires CurrentNotWaiting(s)
    ensures WaitersReceive(MarkBlocked(s)) && Promised(MarkBlocked(s))
  {
    WaitsNowhere(s, s.current);
    UndisturbedButOne(s, MarkBlocked(s), s.current.pid);
  }

  lemma BlockKeepsAttentive(s: State)
    requires Attentive(s) && s.current != IDLE0 && s.procs[s.current.pid].ring == []
    requires BlockAndYield(s).current != s.current
    ensures Attentive(BlockAndYield(s))
  {
    MarkBlockedKeepsPromise(s);
    MarkBlockedKeepsInv(s);
    BlockKeepsInv(s);
    ScheduleUndisturbed(MarkBlocked(s));
    UndisturbedKeeps(MarkBlocked(s), BlockAndYield(s));
    ScheduleKeepsCurrentAwake(MarkBlocked(s));
  }

  // ----- one step

  lemma AttentiveParts(s: State)
    requires Attentive(s)
    ensures Inv(s) && Core(s) && WellFormed(s) && s.current in s.threads && s.current.pid in s.procs &&
      ZombieQ in s.queues
    ensures ReadyQ in s.queues && s.current.slot < THREADS_PER_PROCESS
  {
  }

  /** The yield inside a receive does its job: it switches to another thread. */
  ghost predicate Switches(s: State, a: Action)
    requires WellFormed(s)
  {
    a.ReceiveUpTo? && Schedules(s, a) ==> BlockAndYield(s).current != s.current
  }

  /** Schedule after a step that left the mailboxes alone. */
  lemma ThenScheduleKeeps(s: State, r: State)
    requires Attentive(s) && Inv(r) && Undisturbed(s, r) && CurrentNotWaiting(r)
    ensures Attentive(Schedule(r))
  {
    UndisturbedKeeps(s, r);
    ScheduleKeepsInv(r);
    ScheduleUndisturbed(r);
    UndisturbedKeeps(r, Schedule(r));
    ScheduleKeepsCurrentAwake(r);
  }

  lemma PlaceCurrentKeeps(s: State, q: QId, th: Thread)
    requires Attentive(s) && q in s.queues && !q.Waiters? && Inv(Place(s, s.current, q, th))
    ensures Attentive(Schedule(Place(s, s.current, q, th)))
  {
    PlaceUndisturbed(s, s.current, q, th);
    ThenScheduleKeeps(s, Place(s, s.current, q, th));
  }

  lemma PlaceNewKeeps(s: State, t: Tid)
    requires Attentive(s) && t.pid in s.procs && t !in s.threads && Inv(Place(s, t, ReadyQ, FRESH.(state := Ready)))
    ensures Attentive(Place(s, t, ReadyQ, FRESH.(state := Ready)))
  {
    PlaceUndisturbed(s, t, ReadyQ, FRESH.(state := Ready));
    UndisturbedKeeps(s, Place(s, t, ReadyQ, FRESH.(state := Ready)));
  }

  lemma TimerKeepsAttentive(s: State)
    requires Attentive(s)
    ensures Attentive(Schedule(TickPass(s)))
  {
    TickPassKeepsInv(s);
    TickPassUndisturbed(s);
    ThenScheduleKeeps(s, TickPass(s));
  }

  lemma YieldKeepsAttentive(s: State)
    requires Attentive(s)
    ensures Attentive(Schedule(s))
  {
    SameUndisturbed(s);
    ThenScheduleKeeps(s, s);
  }

  lemma SleepKeepsAttentive(s: State, ms: u32)
    requires Attentive(s)
    ensures Attentive(FallAsleep(s, ms))
  {
    if FallsAsleep(s, ms) {
      var wake := WakeTick(s, ms);
      MarkAsleepKeepsInv(s, wake);
      PlaceCurrentKeeps(s, SleepQ, s.threads[s.current].(state := Sleeping, wake := wake));
    }
  }

  lemma ExitKeepsAttentive(s: State, status: int)
    requires Attentive(s)
    ensures Attentive(Exit(s, status))
  {
    hide Attentive, Inv, Core, WellFormed, Schedule, Place;
    AttentiveParts(s);
    if s.current.pid != IDLE {
      var th := s.threads[s.current].(state := Zombie, exitCode := status);
      PlaceKeepsInv(s, s.current, ZombieQ, th);
      PlaceCurrentKeeps(s, ZombieQ, th);
    }
  }

  lemma FaultKeepsAttentive(s: State)
    requires Attentive(s) && s.current.pid != IDLE
    ensures Attentive(Schedule(MarkDying(s)))
  {
    MarkDyingKeepsInv(s);
    MarkDyingUndisturbed(s);
    ThenScheduleKeeps(s, MarkDying(s));
  }

  lemma NewThreadKeepsAttentive(s: State, entry: u32, memOk: bool)
    requires Attentive(s)
    ensures Attentive(NewThread(s, s.current.pid, entry, memOk).0)
  {
    NewThreadKeepsInv(s, s.current.pid, entry, memOk);
    var slot := FreeSlot(s, s.current.pid, 0);
    if entry != 0 && slot.Some? && memOk {
      PlaceNewKeeps(s, Tid(s.current.pid, slot.value));
    }
  }

  lemma NewProcessKeepsAttentive(s: State, entry: u32, n: u32, mem: Memory)
    requires Attentive(s)
    ensures Attentive(NewProcess(s, entry, n, mem).0)
  {
    hide NewProcess, Born, WaitersReceive, CurrentNotWaiting, Promised;
    NewProcessAllOrNothing(s, entry, n, mem);
    NewProcessKeepsInv(s, entry, n, mem);
    BornKeepsMail(s);
    CountingKeepsMail(s, s.nextPid + 1);
  }

  lemma BornKeepsMail(s: State)
    requires Attentive(s)
    ensures WaitersReceive(Born(s)) && Promised(Born(s)) && CurrentNotWaiting(Born(s))
  {
    hide Undisturbed, WaitersReceive, Promised;
    BornUndisturbed(s);
    UndisturbedKeeps(s, Born(s));
    StaysAwake(s, Born(s));
  }

  lemma CountingKeepsMail(s: State, nextPid: Pid)
    requires Attentive(s)
    ensures var r := s.(nextPid := nextPid); WellFormed(r) && WaitersReceive(r) && Promised(r) && CurrentNotWaiting(r)
  {
    CountingUndisturbed(s, nextPid);
    UndisturbedKeeps(s, s.(nextPid := nextPid));
  }

  lemma ReceiveKeepsAttentive(s: State, size: nat)
    requires Attentive(s) && s.current != IDLE0
    requires 0 < size <= MESSAGE_MAX && s.procs[s.current.pid].ring == [] ==> BlockAndYield(s).current != s.current
    ensures Attentive(Receive(s, size))
  {
    hide NoRepeats, Located, Findable, IdleAhead, WellFormed, WaitersReceive, CurrentNotWaiting, Promised,
      BlockAndYield, PopMessage;
    CoreParts(s);
    if 0 < size <= MESSAGE_MAX {
      if s.procs[s.current.pid].ring == [] {
        BlockKeepsAttentive(s);
      } else {
        PopKeepsAttentive(s);
      }
    }
  }

  lemma StaysAwake(s: State, r: State)
    requires WellFormed(s) && WellFormed(r) && CurrentNotWaiting(s) && Undisturbed(s, r) && r.current == s.current
    ensures CurrentNotWaiting(r)
  {
    assert UndisturbedAt(s, r, r.current.pid);
  }

  lemma ReapKeepsAttentive(s: State)
    requires Attentive(s)
    ensures Attentive(ReapFrom(s, s.list))
  {
    ReapKeepsInv(s, s.list);
    ReapUndisturbed(s, s.list);
    ReapOnlyRemoves(s, s.list);
    UndisturbedKeeps(s, ReapFrom(s, s.list));
    StaysAwake(s, ReapFrom(s, s.list));
  }

  lemma StepKeepsAttentive(s: State, a: Action)
    requires Attentive(s) && Enabled(s, a) && Switches(s, a)
    ensures Attentive(Step(s, a))
  {
    hide Attentive, Schedule, TickPass, MarkDying, FallAsleep, Exit, Receive, Resume, NewThread, NewProcess, Send,
      ReapFrom, BlockAndYield;
    match a
    case Timer => TimerKeepsAttentive(s);
    case Yield => YieldKeepsAttentive(s);
    case Sleep(ms) => SleepKeepsAttentive(s, ms);
    case ExitThread(status) => ExitKeepsAttentive(s, status);
    case NThread(entry, memOk) => NewThreadKeepsAttentive(s, entry, memOk);
    case NProcess(code, n, mem) => NewProcessKeepsAttentive(s, code, n, mem);
    case SendTo(dest, kind, data) => SendKeepsAttentive(s, dest, kind, data);
    case ReceiveUpTo(size) => ReceiveKeepsAttentive(s, size);
    case ResumeReceive => ResumeKeepsAttentive(s);
    case Fault => FaultKeepsAttentive(s);
    case Reap => ReapKeepsAttentive(s);
  }

  // ----- runs

  /** Every yield inside a receive of the run switches away. */
  ghost predicate AlwaysSwitches(s: State, actions: seq<Action>)
    requires Legal(s, actions)
    decreases |actions|
  {
    actions != [] ==> AlwaysSwitches(s, Front(actions)) && Switches(After(s, Front(actions)), Last(actions))
  }

  lemma {:induction false} RunKeepsAttentive(s: State, actions: seq<Action>)
    requires Attentive(s) && Legal(s, actions) && AlwaysSwitches(s, actions)
    ensures Attentive(After(s, actions))
    decreases |actions|
  {
    if actions != [] {
      RunKeepsAttentive(s, Front(actions));
      StepKeepsAttentive(After(s, Front(actions)), Last(actions));
    }
  }

  lemma InitialAttentive()
    ensures Attentive(INITIAL)
  {
    InitialInv();
  }

  /** No lost wakeup: on every run from boot in which the yields of receive switch away, the
      messages buffered beside a waiting thread are each owed to a woken receiver of that process. */
  lemma NoLostWakeup(actions: seq<Action>, p: Pid)
    requires Legal(INITIAL, actions) && AlwaysSwitches(INITIAL, actions)
    requires var s := After(INITIAL, actions); p in s.procs && s.queues[Waiters(p)] != []
    ensures var s := After(INITIAL, actions); |s.procs[p].ring| <= |Owed(s, p)|
  {
    InitialAttentive();
    RunKeepsAttentive(INITIAL, actions);
    assert PromisedTo(After(INITIAL, actions), p);
  }

  /** When the yield of a receive switches away: exactly when the thread at the front of the
      ready queue (the receiver itself left out) belongs to a normal process. */
  lemma SwitchesExactly(s: State)
    requires Core(s) && s.current != IDLE0
    ensures var r := Without(s.queues[ReadyQ], s.current);
      r != [] && (BlockAndYield(s).current != s.current <==> Normal(s, r[0]))
  {
    var s1 := MarkBlocked(s);
    var r := Without(s.queues[ReadyQ], s.current);
    assert IDLE0 in r;
    assert s1.queues[ReadyQ] == r;
    assert r[0] in r;
  }

  /** Blocking and yielding leaves the caller among the waiters of its mailbox. */
  lemma BlockerWaits(s: State)
    requires Core(s)
    ensures s.current in BlockAndYield(s).queues[Waiters(s.current.pid)]
    ensures BlockAndYield(s).receiving == s.receiving + {s.current} && BlockAndYield(s).procs == s.procs
  {
    hide NoRepeats, Located, Findable, IdleAhead;
    var s1 := MarkBlocked(s);
    assert s.current in s1.queues[Waiters(s.current.pid)];
    assert s1.threads[s.current].state.Blocked? && Requeue(s1) == s1;
  }

  /** A yield that does not switch away leaves the receiver running while it waits; what it does
      next is pop, and then it waits with no receive behind it. Otherwise every promise is kept. */
  lemma StrayExactly(s: State)
    requires Attentive(s) && s.current != IDLE0 && s.procs[s.current.pid].ring == []
    ensures var r := BlockAndYield(s);
      && (r.current == s.current <==> !CurrentNotWaiting(r))
      && (r.current == s.current ==>
            && s.current in Resume(r).queues[Waiters(s.current.pid)] && s.current !in Resume(r).receiving
            && !WaitersReceive(Resume(r)))
      && (r.current != s.current ==> Attentive(r))
  {
    BlockerWaits(s);
    if BlockAndYield(s).current != s.current {
      BlockKeepsAttentive(s);
    }
  }

  /** After every step of the run each waiting thread is inside a receive, and the current thread
      is none of them. */
  ghost predicate AlwaysWatched(s: State, actions: seq<Action>)
    requires Legal(s, actions)
    decreases |actions|
  {
    && WaitersReceive(After(s, actions)) && CurrentNotWaiting(After(s, actions))
    && (actions != [] ==> AlwaysWatched(s, Front(actions)))
  }

  /** On runs from boot, no thread is ever left waiting without a receive behind it if and only if
      every yield of a receive switches away. */
  lemma WatchedExactly(actions: seq<Action>)
    requires Legal(INITIAL, actions)
    ensures AlwaysWatched(INITIAL, actions) <==> AlwaysSwitches(INITIAL, actions)
  {
    InitialAttentive();
    RunWatchedExactly(INITIAL, actions);
  }

  lemma {:induction false} RunWatchedExactly(s: State, actions: seq<Action>)
    requires Attentive(s) && Legal(s, actions)
    ensures AlwaysWatched(s, actions) <==> AlwaysSwitches(s, actions)
    decreases |actions|
  {
    hide Attentive, Enabled, Switches, Step, WaitersReceive, CurrentNotWaiting;
    if actions != [] {
      RunWatchedExactly(s, Front(actions));
    }
    if AlwaysSwitches(s, actions) {
      RunKeepsAttentive(s, actions);
      AttentiveWatches(After(s, actions));
    } else if actions == [] {
      AttentiveWatches(s);
    } else if AlwaysSwitches(s, Front(actions)) {
      RunKeepsAttentive(s, Front(actions));
      UnswitchedWaits(After(s, Front(actions)), Last(actions));
    }
  }

  lemma AttentiveWatches(s: State)
    requires Attentive(s)
    ensures WaitersReceive(s) && CurrentNotWaiting(s)
  {
  }

  lemma UnswitchedWaits(s: State, a: Action)
    requires Attentive(s) && Enabled(s, a) && !Switches(s, a)
    ensures !CurrentNotWaiting(Step(s, a))
  {
    hide NoRepeats, Located, Findable, IdleAhead, WellFormed, WaitersReceive, CurrentNotWaiting, Promised,
      BlockAndYield;
    CoreParts(s);
    StrayExactly(s);
  }
}
