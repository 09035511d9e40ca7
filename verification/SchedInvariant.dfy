/**
  What every step of the scheduler keeps. The code lets a thread stay current while
  its state says it sleeps or waits, and while it is linked in the ready queue;
  `IdleAhead` is the strengthening that nevertheless keeps every thread findable.
*/
module SchedInvariant {
  import opened Common
  import opened Seqs
  import opened Sched

  /** The one queue a thread with this state may be linked in. */
  function QueueOf(t: Tid, st: ThreadState): (q: QId) {
    match st
    case Running => ReadyQ
    case Ready => ReadyQ
    case Blocked => Waiters(t.pid)
    case Zombie => ZombieQ
    case Sleeping => SleepQ
  }

  predicate Normal(s: State, t: Tid) {
    t.pid in s.procs && !s.procs[t.pid].dying
  }

  ghost predicate NoRepeats(s: State) {
    forall q :: q in s.queues ==> Distinct(s.queues[q])
  }

  /** A linked thread sits in the queue its state names, so it sits in one queue only. */
  ghost predicate Located(s: State)
    requires WellFormed(s)
  {
    forall q, t :: q in s.queues && t in s.queues[q] ==> q == QueueOf(t, s.threads[t].state)
  }

  /** A thread of a normal process is linked there, unless it is the running one. */
  ghost predicate Findable(s: State)
    requires WellFormed(s)
  {
    forall t :: t in s.threads && Normal(s, t) ==>
      (t == s.current && s.threads[t].state.Running?) || t in s.queues[QueueOf(t, s.threads[t].state)]
  }

  ghost predicate IdleAhead(s: State)
    requires WellFormed(s)
  {
    && IDLE0 in s.threads && s.threads[IDLE0].state.Running?
    && !s.procs[IDLE].dying
    && (s.current != IDLE0 ==> IDLE0 in s.queues[ReadyQ] && Before(s.queues[ReadyQ], IDLE0, s.current))
  }

  ghost predicate Core(s: State) {
    WellFormed(s) && NoRepeats(s) && Located(s) && Findable(s) && IdleAhead(s)
  }

  lemma CoreParts(s: State)
    requires Core(s)
    ensures WellFormed(s) && s.current in s.threads && s.current.pid in s.procs && ReadyQ in s.queues
    ensures IDLE in s.procs && !s.procs[IDLE].dying
  {
  }

  // ----- moving one thread

  lemma DetachKeepsDistinct(queues: map<QId, seq<Tid>>, t: Tid)
    requires forall q :: q in queues ==> Distinct(queues[q])
    ensures forall q :: q in queues ==> Distinct(Without(queues[q], t))
  {
    forall q | q in queues ensures Distinct(Without(queues[q], t)) {
      WithoutDistinct(queues[q], t);
    }
  }

  lemma PushKeepsNoRepeats(queues: map<QId, seq<Tid>>, q: QId, t: Tid)
    requires q in queues && forall k :: k in queues ==> Distinct(queues[k])
    ensures forall k :: k in queues ==> Distinct(Push(queues, q, t)[k])
  {
    DetachKeepsDistinct(queues, t);
    DistinctAppend(Without(queues[q], t), t);
  }

  /** What Place changes, seen one thread and one queue at a time. */
  ghost predicate Placed(s: State, s': State, t: Tid, q: QId, th: Thread) {
    && s'.current == s.current && s'.procs == s.procs
    && s'.threads == s.threads[t := th]
    && s'.queues.Keys == s.queues.Keys
    && forall k, u :: k in s.queues ==> (u in s'.queues[k] <==> if u == t then k == q else u in s.queues[k])
  }

  lemma PlacedKeepsPlaces(s: State, s': State, t: Tid, th: Thread)
    requires WellFormed(s) && Located(s) && Findable(s)
    requires WellFormed(s') && QueueOf(t, th.state) in s.queues && Placed(s, s', t, QueueOf(t, th.state), th)
    ensures Located(s') && Findable(s')
  {
    PlacedKeepsLocated(s, s', t, th);
    PlacedKeepsFindable(s, s', t, th);
  }

  lemma PlacedKeepsLocated(s: State, s': State, t: Tid, th: Thread)
    requires WellFormed(s) && Located(s)
    requires WellFormed(s') && QueueOf(t, th.state) in s.queues && Placed(s, s', t, QueueOf(t, th.state), th)
    ensures Located(s')
  {
    forall q, u | q in s'.queues && u in s'.queues[q] ensures q == QueueOf(u, s'.threads[u].state) {
      assert u != t ==> u in s.queues[q];
    }
  }

  lemma PlacedKeepsFindable(s: State, s': State, t: Tid, th: Thread)
    requires WellFormed(s) && Findable(s)
    requires WellFormed(s') && QueueOf(t, th.state) in s.queues && Placed(s, s', t, QueueOf(t, th.state), th)
    ensures Findable(s')
  {
    forall u | u in s'.threads && Normal(s', u)
      ensures (u == s'.current && s'.threads[u].state.Running?) || u in s'.queues[QueueOf(u, s'.threads[u].state)]
    {
      assert u != t ==> u in s.threads && Normal(s, u);
    }
  }

  lemma PlaceKeepsIdleAhead(s: State, t: Tid, q: QId, th: Thread)
    requires WellFormed(s) && IdleAhead(s) && t != IDLE0 && t.pid in s.procs && q in s.queues
    ensures IdleAhead(Place(s, t, q, th))
  {
    if s.current != IDLE0 {
      BeforeWithout(s.queues[ReadyQ], t, IDLE0, s.current);
      BeforeAppend(Without(s.queues[ReadyQ], t), [t], IDLE0, s.current);
    }
  }

  lemma PlaceKeepsCore(s: State, t: Tid, q: QId, th: Thread)
    requires Core(s) && t.pid in s.procs && t != IDLE0 && q == QueueOf(t, th.state)
    ensures Core(Place(s, t, q, th))
  {
    PlacedKeepsPlaces(s, Place(s, t, q, th), t, th);
    PlaceKeepsIdleAhead(s, t, q, th);
    PushKeepsNoRepeats(s.queues, q, t);
  }

  // ----- schedule

  lemma RequeueKeepsPlaces(s: State)
    requires WellFormed(s) && Located(s) && Findable(s)
    ensures Located(Requeue(s)) && Findable(Requeue(s))
  {
    if s.threads[s.current].state.Running? {
      var th := s.threads[s.current];
      assert s.threads == s.threads[s.current := th];
      PlacedKeepsPlaces(s, Requeue(s), s.current, th);
    }
  }

  lemma RequeueKeepsIdleAhead(s: State)
    requires WellFormed(s) && IdleAhead(s)
    ensures IdleAhead(Requeue(s))
  {
    if s.threads[s.current].state.Running? && s.current != IDLE0 {
      var r := s.queues[ReadyQ];
      BeforeWithout(r, s.current, IDLE0, s.current);
      BeforeAppend(Without(r, s.current), [s.current], IDLE0, s.current);
    }
  }

  lemma RequeueKeepsCore(s: State)
    requires Core(s)
    ensures Core(Requeue(s))
  {
    RequeueKeepsPlaces(s);
    RequeueKeepsIdleAhead(s);
    PushKeepsNoRepeats(s.queues, ReadyQ, s.current);
  }

  /** What Dispatch changes, seen one thread and one queue at a time. */
  ghost predicate Dispatched(s: State, s': State, n: Tid)
    requires n in s.threads
  {
    && s'.procs == s.procs
    && s'.queues.Keys == s.queues.Keys
    && (forall k, u :: k in s.queues ==> (u in s'.queues[k] <==> u in s.queues[k] && !(k == ReadyQ && u == n)))
    && if n == s.current || !Normal(s, n)
       then s'.current == s.current && s'.threads == s.threads
       else s'.current == n && s'.threads == s.threads[n := s.threads[n].(state := Running)]
  }

  lemma DispatchedKeepsLocated(s: State, s': State, n: Tid)
    requires WellFormed(s) && Located(s) && IdleAhead(s)
    requires n in s.queues[ReadyQ] && WellFormed(s') && Dispatched(s, s', n)
    ensures Located(s')
  {
    forall q, u | q in s'.queues && u in s'.queues[q] ensures q == QueueOf(u, s'.threads[u].state) {
      assert u in s.queues[q];
      assert q == QueueOf(u, s.threads[u].state);
    }
  }

  lemma DispatchedKeepsFindable(s: State, s': State, n: Tid)
    requires WellFormed(s) && Located(s) && Findable(s) && IdleAhead(s)
    requires n in s.queues[ReadyQ] && WellFormed(s') && Dispatched(s, s', n)
    requires n == s.current ==> n == IDLE0
    requires s.threads[s.current].state.Running? ==> s.current in s.queues[ReadyQ]
    ensures Findable(s')
  {
    forall t | t in s'.threads && Normal(s', t)
      ensures (t == s'.current && s'.threads[t].state.Running?) || t in s'.queues[QueueOf(t, s'.threads[t].state)]
    {
      assert t in s.threads && Normal(s, t);
      if t != n {
        assert s'.threads[t] == s.threads[t];
        assert t in s.queues[QueueOf(t, s.threads[t].state)];
      }
    }
  }

  lemma DispatchIsDispatched(s: State)
    requires WellFormed(s) && NoRepeats(s) && s.queues[ReadyQ] != []
    ensures Dispatched(s, Dispatch(s), s.queues[ReadyQ][0])
  {
    var r := s.queues[ReadyQ];
    assert forall t :: t in r[1..] <==> t in r && t != r[0];
  }

  lemma DispatchKeepsNoRepeats(s: State)
    requires WellFormed(s) && NoRepeats(s) && s.queues[ReadyQ] != []
    ensures NoRepeats(Dispatch(s))
  {
  }

  lemma DispatchKeepsIdleAhead(s: State)
    requires Core(s) && s.queues[ReadyQ] != []
    requires s.threads[s.current].state.Running? ==> s.current in s.queues[ReadyQ]
    ensures IdleAhead(Dispatch(s))
  {
    var r := s.queues[ReadyQ];
    var s' := Dispatch(s);
    if s'.current != IDLE0 {
      assert r[0] != IDLE0;
      if s'.current != s.current {
        BeforeAbsent(r[1..], IDLE0, r[0]);
      }
    }
  }

  lemma DispatchKeepsCore(s: State)
    requires Core(s) && s.queues[ReadyQ] != []
    requires s.threads[s.current].state.Running? ==> s.current in s.queues[ReadyQ]
    ensures Core(Dispatch(s))
  {
    var n := s.queues[ReadyQ][0];
    DispatchIsDispatched(s);
    DispatchedKeepsLocated(s, Dispatch(s), n);
    DispatchedKeepsFindable(s, Dispatch(s), n);
    DispatchKeepsIdleAhead(s);
    DispatchKeepsNoRepeats(s);
  }

  lemma ScheduleKeepsCore(s: State)
    requires Core(s)
    ensures Core(Schedule(s))
  {
    if s.queues[ReadyQ] != [] {
      RequeueKeepsCore(s);
      DispatchKeepsCore(Requeue(s));
    }
  }

  // ----- the other steps, up to the call of schedule

  lemma WakeAllKeepsCore(s: State, rest: seq<Tid>)
    requires Core(s) && (forall t :: t in rest ==> t in s.threads && t != IDLE0)
    ensures Core(WakeAll(s, rest))
    decreases |rest|
  {
    if rest != [] {
      if s.ticks >= s.threads[rest[0]].wake {
        PlaceKeepsCore(s, rest[0], ReadyQ, s.threads[rest[0]].(state := Ready));
        WakeAllKeepsCore(Move(s, rest[0], ReadyQ, Ready), rest[1..]);
      } else {
        WakeAllKeepsCore(s, rest[1..]);
      }
    }
  }

  lemma AdvanceKeepsCore(s: State)
    requires Core(s)
    ensures Core(Advance(s))
  {
  }

  lemma IdleNeverSleeps(s: State)
    requires Core(s)
    ensures IDLE0 !in s.queues[SleepQ]
  {
    assert QueueOf(IDLE0, s.threads[IDLE0].state) == ReadyQ;
  }

  lemma TickPassKeepsCore(s: State)
    requires Core(s)
    ensures Core(TickPass(s))
  {
    IdleNeverSleeps(s);
    AdvanceKeepsCore(s);
    WakeAllKeepsCore(Advance(s), s.queues[SleepQ]);
  }

  /** Only links of threads of `p` and the mailbox queue of `p` are gone. */
  ghost predicate FewerLinks(was: map<QId, seq<Tid>>, now: map<QId, seq<Tid>>, p: Pid) {
    && (forall k :: k in was && k != Waiters(p) ==> k in now)
    && (forall k, u :: k in now && u in now[k] ==> k in was && u in was[k])
    && (forall k, u :: k in now && k in was && u in was[k] && u.pid != p ==> u in now[k])
  }

  /** Threads of normal processes keep their queues; nothing new is linked and nothing new is normal. */
  ghost predicate OnlyLoses(s: State, s': State, p: Pid) {
    && s'.current == s.current && FewerLinks(s.queues, s'.queues, p)
    && (forall u :: u in s'.threads ==> u in s.threads && s'.threads[u] == s.threads[u])
    && (forall u :: Normal(s', u) ==> Normal(s, u) && u.pid != p)
  }

  lemma LosingKeepsLocated(s: State, s': State, p: Pid)
    requires WellFormed(s) && Located(s) && WellFormed(s') && OnlyLoses(s, s', p)
    ensures Located(s')
  {
    forall q, u | q in s'.queues && u in s'.queues[q] ensures q == QueueOf(u, s'.threads[u].state) {
      assert u in s.queues[q];
    }
  }

  lemma LosingKeepsFindable(s: State, s': State, p: Pid)
    requires WellFormed(s) && Findable(s) && WellFormed(s') && OnlyLoses(s, s', p)
    ensures Findable(s')
  {
    hide FewerLinks, WellFormed;
    forall u | u in s'.threads ensures QueueOf(u, s'.threads[u].state) in s'.queues {
      QueuesExist(s', u);
    }
    forall u | u in s'.threads && Normal(s', u)
      ensures (u == s'.current && s'.threads[u].state.Running?) || u in s'.queues[QueueOf(u, s'.threads[u].state)]
    {
      assert Normal(s, u) && u.pid != p;
      QueuesExist(s, u);
      StillLinked(s.queues, s'.queues, p, QueueOf(u, s.threads[u].state), u);
    }
  }

  lemma QueuesExist(s: State, u: Tid)
    requires WellFormed(s) && u in s.threads
    ensures QueueOf(u, s.threads[u].state) in s.queues
  {
  }

  lemma StillLinked(was: map<QId, seq<Tid>>, now: map<QId, seq<Tid>>, p: Pid, k: QId, u: Tid)
    requires FewerLinks(was, now, p) && k in was && u.pid != p && k != Waiters(p)
    ensures k in now && (u in was[k] ==> u in now[k])
  {
  }

  lemma DropKeepsNoRepeats(queues: map<QId, seq<Tid>>, p: Pid)
    requires forall k :: k in queues ==> Distinct(queues[k])
    ensures forall k :: k in queues ==> Distinct(DropThreads(queues, p)[k])
  {
    forall k | k in queues ensures Distinct(DropThreads(queues, p)[k]) {
      FilterDistinct(queues[k], NotOf(p));
    }
  }

  lemma DropKeepsIdleAhead(s: State, s': State, p: Pid)
    requires WellFormed(s) && IdleAhead(s) && p != IDLE && WellFormed(s') && s'.current == s.current
    requires IDLE0 in s'.threads && s'.threads[IDLE0] == s.threads[IDLE0] && !s'.procs[IDLE].dying
    requires s'.queues[ReadyQ] == Filter(s.queues[ReadyQ], NotOf(p))
    ensures IdleAhead(s')
  {
    if s.current != IDLE0 {
      BeforeFilter(s.queues[ReadyQ], NotOf(p), IDLE0, s.current);
    }
  }

  lemma MarkDyingKeepsPlaces(s: State)
    requires WellFormed(s) && Located(s) && Findable(s)
    ensures Located(MarkDying(s)) && Findable(MarkDying(s))
  {
    MarkDyingOnlyLoses(s);
    LosingKeepsLocated(s, MarkDying(s), s.current.pid);
    LosingKeepsFindable(s, MarkDying(s), s.current.pid);
  }

  lemma MarkDyingOnlyLoses(s: State)
    requires WellFormed(s)
    ensures OnlyLoses(s, MarkDying(s), s.current.pid)
  {
    hide FewerLinks, DropThreads;
    DropFewerLinks(s.queues, s.current.pid);
  }

  lemma DropFewerLinks(queues: map<QId, seq<Tid>>, p: Pid)
    ensures FewerLinks(queues, DropThreads(queues, p), p)
  {
  }

  lemma MarkDyingKeepsCore(s: State)
    requires Core(s) && s.current.pid != IDLE
    ensures Core(MarkDying(s))
  {
    var p := s.current.pid;
    MarkDyingKeepsPlaces(s);
    DropKeepsNoRepeats(s.queues, p);
    DropKeepsIdleAhead(s, MarkDying(s), p);
  }

  lemma DroppedOnlyLoses(s: State, s': State, p: Pid)
    requires Dropped(s, s', p)
    ensures OnlyLoses(s, s', p)
  {
  }

  lemma DestroyedKeepsPlaces(s: State, s': State, p: Pid)
    requires WellFormed(s) && Located(s) && Findable(s) && WellFormed(s') && Dropped(s, s', p)
    ensures Located(s') && Findable(s')
  {
    DroppedOnlyLoses(s, s', p);
    LosingKeepsLocated(s, s', p);
    LosingKeepsFindable(s, s', p);
  }

  lemma DestroyKeepsIdleAhead(s: State, p: Pid)
    requires WellFormed(s) && IdleAhead(s) && p in s.procs && s.current.pid != p && p != IDLE
    ensures IdleAhead(DestroyProcess(s, p))
  {
    DropKeepsIdleAhead(s, DestroyProcess(s, p), p);
  }

  lemma DestroyKeepsCore(s: State, p: Pid)
    requires Core(s) && p in s.procs && p != IDLE
    ensures Core(DestroyProcess(s, p))
  {
    if s.current.pid != p {
      DestroyedKeepsPlaces(s, DestroyProcess(s, p), p);
      DestroyKeepsIdleAhead(s, p);
      DropKeepsNoRepeats(s.queues, p);
    }
  }

  lemma ReapKeepsCore(s: State, rest: seq<Pid>)
    requires Core(s)
    ensures Core(ReapFrom(s, rest))
    decreases |rest|
  {
    if rest != [] {
      if rest[0] in s.procs && s.procs[rest[0]].dying {
        DestroyKeepsCore(s, rest[0]);
        ReapKeepsCore(DestroyProcess(s, rest[0]), rest[1..]);
      } else {
        ReapKeepsCore(s, rest[1..]);
      }
    }
  }

  lemma CreateKeepsCore(s: State)
    requires Core(s) && s.nextPid !in s.procs && Waiters(s.nextPid) !in s.queues
    ensures Core(CreateProcess(s))
  {
    hide Located, Findable;
    CreateKeepsLocated(s);
    CreateKeepsFindable(s);
  }

  lemma CreateKeepsLocated(s: State)
    requires WellFormed(s) && Located(s)
    ensures Located(CreateProcess(s))
  {
  }

  lemma CreateKeepsFindable(s: State)
    requires WellFormed(s) && Findable(s) && s.nextPid !in s.procs && Waiters(s.nextPid) !in s.queues
    ensures Findable(CreateProcess(s))
  {
  }

  /** Popping a waiter and readying it is one move, since it was linked nowhere else. */
  lemma WakeWaiterIsMove(s: State, dest: Pid)
    requires WellFormed(s) && NoRepeats(s) && dest in s.procs && s.queues[Waiters(dest)] != []
    ensures WakeWaiter(s, dest) == Move(s, s.queues[Waiters(dest)][0], ReadyQ, Ready)
  {
    var w := s.queues[Waiters(dest)];
    var t := w[0];
    WithoutAt(w, 0);
    assert t !in w[1..];
    var popped := s.queues[Waiters(dest) := w[1..]];
    assert Detach(popped, t) == Detach(s.queues, t);
  }

  lemma SendKeepsCore(s: State, dest: Pid, kind: u32, data: Option<seq<byte>>)
    requires Core(s)
    ensures Core(Send(s, dest, kind, data).0)
  {
    if ValidPayload(data) && Accepts(s, dest) {
      var s1 := Deliver(s, dest, Message(s.current.pid, kind, data.value));
      assert Core(s1);
      var w := s1.queues[Waiters(dest)];
      if w != [] {
        WakeWaiterIsMove(s1, dest);
        assert Waiters(dest) == QueueOf(w[0], s1.threads[w[0]].state);
        PlaceKeepsCore(s1, w[0], ReadyQ, s1.threads[w[0]].(state := Ready));
      }
    }
  }

  lemma PopMessageKeepsCore(s: State, receiving: set<Tid>)
    requires Core(s)
    ensures Core(PopMessage(s).0.(receiving := receiving))
  {
  }

  lemma MarkBlockedKeepsCore(s: State)
    requires Core(s) && s.current != IDLE0
    ensures Core(MarkBlocked(s))
  {
    PlaceKeepsCore(s, s.current, Waiters(s.current.pid), s.threads[s.current].(state := Blocked));
  }
}
