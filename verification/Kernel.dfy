/**
  The kernel's scheduling code as it runs: queues linked through their nodes on the
  heap, thread and process records updated in place. `Abs` is the state of the state
  machine in module Sched; every method proves that it makes exactly the step of that
  name.
*/
module Kernel {
  import opened Common
  import opened Seqs
  import opened Sched
  import opened Queues
  import opened SchedInvariant
  import opened ProcessForest
  import opened ProcessList
  import opened SleepQueue
  import opened SchedRuns

  /** Every process has the waiters queue of its mailbox. */
  ghost predicate WaitersWired(waiters: map<Pid, Queue>, pids: set<Pid>, w: World) {
    && waiters.Keys == pids
    && forall p :: p in waiters ==> waiters[p].id == Waiters(p) && w.HasQueue(waiters[p])
  }

  /** Every thread has its node; nodes without a thread are those of processes long gone. */
  ghost predicate NodesWired(nodes: map<Tid, Node>, tids: set<Tid>, pids: set<Pid>, nextPid: Pid, w: World) {
    && (forall t :: t in tids ==> t in nodes)
    && (forall t :: t in nodes ==> t in w.nodes && nodes[t] == w.nodes[t])
    && (forall t :: t in w.nodes ==> t.pid < nextPid && (t.pid in pids ==> t in tids))
  }

  ghost predicate Wiring(waiters: map<Pid, Queue>, nodes: map<Tid, Node>, tids: set<Tid>, pids: set<Pid>, nextPid: Pid,
                         w: World) {
    w.Named() && WaitersWired(waiters, pids, w) && NodesWired(nodes, tids, pids, nextPid, w)
  }

  /** The well-formedness of a state, for proofs that need not look inside it. */
  ghost predicate Sane(s: State) {
    WellFormed(s)
  }

  lemma NodeOf(waiters: map<Pid, Queue>, nodes: map<Tid, Node>, tids: set<Tid>, pids: set<Pid>, nextPid: Pid, w: World,
               t: Tid)
    requires Wiring(waiters, nodes, tids, pids, nextPid, w)
    ensures t in tids ==> t in nodes
    ensures t in nodes ==> w.Has(nodes[t]) && nodes[t].key == t && t in w.nodes && w.nodes[t] == nodes[t]
  {
  }

  lemma MailboxOf(waiters: map<Pid, Queue>, pids: set<Pid>, w: World, p: Pid)
    requires WaitersWired(waiters, pids, w) && p in pids
    ensures p in waiters && waiters[p].id == Waiters(p) && w.HasQueue(waiters[p])
  {
  }

  lemma SameKeys<K, V>(m: map<K, V>, k: K, v: V)
    requires k in m
    ensures m[k := v].Keys == m.Keys
  {
  }

  lemma InitialWellFormed()
    ensures Sane(INITIAL)
  {
  }

  lemma OnlyIdleListed()
    ensures Threaded(Some(IDLE), map[IDLE := Siblings(None, None)], [IDLE])
  {
  }

  ghost function FirstWorld(ready: Queue, sleeping: Queue, zombies: Queue, mailbox: Queue, idle: Node): (w: World)
    ensures w.nodeSet == {idle} && w.queueSet == {ready, sleeping, zombies, mailbox}
  {
    World(map[ReadyQ := ready, SleepQ := sleeping, ZombieQ := zombies, Waiters(IDLE) := mailbox],
          map[IDLE0 := idle], {ready, sleeping, zombies, mailbox}, {idle})
  }

  ghost predicate Cleared(q: Queue, k: QId)
    reads q
  {
    q.id == k && q.first == null && q.last == null && q.size == 0
  }

  lemma FirstWorldWired(ready: Queue, sleeping: Queue, zombies: Queue, mailbox: Queue, idle: Node)
    requires Cleared(ready, ReadyQ) && Cleared(sleeping, SleepQ) && Cleared(zombies, ZombieQ)
    requires Cleared(mailbox, Waiters(IDLE)) && idle.key == IDLE0 && idle.q == null
    ensures var w := FirstWorld(ready, sleeping, zombies, mailbox, idle);
      && w.HasQueue(ready) && w.HasQueue(sleeping) && w.HasQueue(zombies)
      && w.queues.Keys == INITIAL.queues.Keys && w.Linked(INITIAL.queues)
      && Wiring(map[IDLE := mailbox], map[IDLE0 := idle], INITIAL.threads.Keys, INITIAL.procs.Keys, 1, w)
  {
    hide World.Linked;
    var w := FirstWorld(ready, sleeping, zombies, mailbox, idle);
    FirstWorldLinked(ready, sleeping, zombies, mailbox, idle);
    assert w.queues.Keys == INITIAL.queues.Keys;
  }

  lemma FirstWorldLinked(ready: Queue, sleeping: Queue, zombies: Queue, mailbox: Queue, idle: Node)
    requires Cleared(ready, ReadyQ) && Cleared(sleeping, SleepQ) && Cleared(zombies, ZombieQ)
    requires Cleared(mailbox, Waiters(IDLE)) && idle.key == IDLE0 && idle.q == null
    ensures FirstWorld(ready, sleeping, zombies, mailbox, idle).Named()
    ensures FirstWorld(ready, sleeping, zombies, mailbox, idle).Linked(INITIAL.queues)
  {
    hide World.Linked;
    var w := FirstWorld(ready, sleeping, zombies, mailbox, idle);
    assert w.queues.Keys == INITIAL.queues.Keys;
    NothingLinked(w, INITIAL.queues);
  }

  class Kernel {
    const readyQueue: Queue
    const sleepQueue: Queue
    const zombieQueue: Queue
    var currentThread: Tid
    var threads: map<Tid, Thread>
    var procs: map<Pid, Process>
    /** The waiters queue of each process's mailbox, and the queue node inside each thread. */
    var waiters: map<Pid, Queue>
    var nodes: map<Tid, Node>
    /** The process list: its first process, and each process's prev and next. */
    var firstProcess: Option<Pid>
    var links: map<Pid, Siblings>
    var nextPid: Pid
    var ticks: u32
    /** What cannot be read off the fields: the sequences the process list and the queues stand for,
        all queues and nodes there are, and which threads are stopped inside a receive. */
    ghost var list: seq<Pid>
    ghost var queues: map<QId, seq<Tid>>
    ghost var w: World
    ghost var receiving: set<Tid>

    ghost function Abs(): (s: State)
      reads this
    {
      State(currentThread, threads, queues, procs, list, nextPid, ticks, receiving)
    }

    /** The queue variables are queues of the world. */
    ghost predicate Fixtures()
      reads this`w
    {
      && readyQueue.id == ReadyQ && w.HasQueue(readyQueue)
      && sleepQueue.id == SleepQ && w.HasQueue(sleepQueue)
      && zombieQueue.id == ZombieQ && w.HasQueue(zombieQueue)
    }

    /** The links stand for the list, and every queue and thread has its place in the world. */
    ghost predicate Wired()
      reads this
    {
      && Threaded(firstProcess, links, list) && queues.Keys == w.queues.Keys
      && Fixtures() && Wiring(waiters, nodes, threads.Keys, procs.Keys, nextPid, w)
    }

    ghost predicate Valid()
      reads this, w.nodeSet, w.queueSet
    {
      Wired() && w.Linked(queues) && WellFormed(Abs())
    }

    /** What Valid says, for proofs that keep it closed. */
    lemma Handles()
      requires Valid()
      ensures Sane(Abs()) && w.Linked(queues) && queues.Keys == w.queues.Keys
      ensures readyQueue.id == ReadyQ && w.HasQueue(readyQueue) && ReadyQ in queues
      ensures sleepQueue.id == SleepQ && w.HasQueue(sleepQueue) && SleepQ in queues
      ensures zombieQueue.id == ZombieQ && w.HasQueue(zombieQueue) && ZombieQ in queues
      ensures currentThread in threads && currentThread.pid in procs
    {
    }

    lemma OwnsReadyQueue()
      requires Valid()
      ensures w.HasQueue(readyQueue)
    {
    }

    lemma Mailbox(p: Pid)
      requires Valid() && p in procs
      ensures p in waiters && waiters[p].id == Waiters(p) && w.HasQueue(waiters[p]) && Waiters(p) in queues
    {
      MailboxOf(waiters, procs.Keys, w, p);
    }

    /** queue_init on the queues there are at boot, and the node of the first thread. */
    static method FirstQueues() returns (ready: Queue, sleeping: Queue, zombies: Queue, mailbox: Queue, idle: Node)
      ensures Cleared(ready, ReadyQ) && Cleared(sleeping, SleepQ) && Cleared(zombies, ZombieQ)
      ensures Cleared(mailbox, Waiters(IDLE)) && idle.key == IDLE0 && idle.q == null
      ensures fresh({ready, sleeping, zombies, mailbox}) && fresh(idle)
    {
      ready := new Queue(ReadyQ);
      sleeping := new Queue(SleepQ);
      zombies := new Queue(ZombieQ);
      mailbox := new Queue(Waiters(IDLE));
      idle := new Node(IDLE0);
    }

    /** sched_init */
    constructor ()
      ensures Valid() && Abs() == INITIAL
      ensures currentThread == Tid(0, 0) && list == [0] && nextPid == 1 && ticks == 0 && receiving == {}
      ensures threads == map[Tid(0, 0) := Thread(Running, 0, 0)]
      ensures forall q :: q in queues ==> queues[q] == []
      ensures fresh(w.nodeSet) && fresh(w.queueSet)
    {
      hide World.Linked, World.Named, WellFormed, Wiring, Threaded, FirstWorld;
      var ready, sleeping, zombies, mailbox, idle := FirstQueues();
      readyQueue, sleepQueue, zombieQueue := ready, sleeping, zombies;
      currentThread := IDLE0;
      threads := map[IDLE0 := FRESH];
      procs := map[IDLE := Process(false, None, 0, [], [], [])];
      waiters := map[IDLE := mailbox];
      nodes := map[IDLE0 := idle];
      firstProcess, links := Some(IDLE), map[IDLE := Siblings(None, None)];
      list, nextPid, ticks, receiving := [IDLE], 1, 0, {};
      queues := INITIAL.queues;
      w := FirstWorld(ready, sleeping, zombies, mailbox, idle);
      new;
      FirstWorldWired(ready, sleeping, zombies, mailbox, idle);
      InitialWellFormed();
      OnlyIdleListed();
      assert Abs() == INITIAL;
    }

    /** queue_remove and queue_push on the node of a thread. */
    method Relink(t: Tid, q: Queue)
      requires Valid() && t in threads && w.HasQueue(q)
      modifies this`queues
      modifies w.nodeSet`prev, w.nodeSet`next, w.nodeSet`q, w.queueSet`first, w.queueSet`last, w.queueSet`size
      ensures q.id in old(queues) && Valid() && Abs() == old(Abs()).(queues := Push(old(queues), q.id, t))
    {
      hide World.Linked, WellFormed, Wiring, Threaded, Push, Fixtures;
      NodeOf(waiters, nodes, threads.Keys, procs.Keys, nextPid, w, t);
      PushKeepsWellFormed(Abs(), q.id, t);
      RemoveAndPush(q, nodes[t], w, queues);
      queues := Push(queues, q.id, t);
    }

    /** Writing one thread's state, exit code or wake tick. */
    method Annotate(t: Tid, th: Thread)
      requires Valid() && t in threads
      modifies this`threads
      ensures Valid() && Abs() == old(Abs()).(threads := old(threads)[t := th])
    {
      hide World.Linked, WellFormed, Wiring, Threaded;
      AnnotateKeepsWellFormed(Abs(), t, th);
      SameKeys(threads, t, th);
      threads := threads[t := th];
    }

    /** sched_ready, sched_zombie and sched_sleep are this code with their own queue and state. */
    method MoveTo(t: Tid, q: Queue, st: ThreadState)
      requires Valid() && t in threads && w.HasQueue(q)
      modifies this`threads, this`queues
      modifies w.nodeSet`prev, w.nodeSet`next, w.nodeSet`q, w.queueSet`first, w.queueSet`last, w.queueSet`size
      ensures q.id in old(queues) && Valid() && Abs() == Move(old(Abs()), t, q.id, st)
    {
      hide Valid, World.Linked, WellFormed, Push;
      Handles();
      Relink(t, q);
      Annotate(t, threads[t].(state := st));
    }

    method SchedReady(t: Tid)
      requires Valid() && t in threads
      modifies this`threads, this`queues
      modifies w.nodeSet`prev, w.nodeSet`next, w.nodeSet`q, w.queueSet`first, w.queueSet`last, w.queueSet`size
      ensures Valid() && Abs() == Move(old(Abs()), t, ReadyQ, Ready)
    {
      hide Valid, World.Linked, WellFormed, Push, Move;
      Handles();
      MoveTo(t, readyQueue, Ready);
    }

    /** switch_context, as far as the state goes. */
    method SwitchContext(t: Tid)
      requires Valid() && t in threads
      modifies this`currentThread, this`threads
      ensures Valid() && Abs() == SwitchTo(old(Abs()), t)
    {
      hide World.Linked, WellFormed, Wiring, Threaded;
      ghost var after := SwitchTo(Abs(), t);
      SameKeys(threads, t, threads[t].(state := Running));
      currentThread := t;
      threads := threads[t := threads[t].(state := Running)];
      assert Abs() == after;
    }

    /** The requeueing of the current thread by the scheduler. */
    method RequeueCurrent()
      requires Valid()
      modifies this`queues
      modifies w.nodeSet`prev, w.nodeSet`next, w.nodeSet`q, w.queueSet`first, w.queueSet`last, w.queueSet`size
      ensures Valid() && Abs() == Requeue(old(Abs()))
    {
      hide World.Linked, WellFormed, Wiring, Threaded, Push;
      ghost var after := Requeue(Abs());
      CurrentExists(Abs());
      NodeOf(waiters, nodes, threads.Keys, procs.Keys, nextPid, w, currentThread);
      if threads[currentThread].state.Running? {
        QueuePush(readyQueue, nodes[currentThread], w, queues);
        queues := Push(queues, ReadyQ, currentThread);
      }
      assert Abs() == after;
    }

    /** The popping of the ready queue by the scheduler. */
    method PopReadyThread() returns (t: Tid)
      requires Valid() && queues[ReadyQ] != []
      modifies this`queues
      modifies w.nodeSet`prev, w.nodeSet`next, w.nodeSet`q, w.queueSet`first, w.queueSet`last, w.queueSet`size
      ensures Valid() && Abs() == PopReady(old(Abs())) && t == old(queues[ReadyQ][0])
      ensures t in threads && t.pid in procs
    {
      hide World.Linked, WellFormed, Wiring, Threaded;
      ghost var after := PopReady(Abs());
      FrontExists(Abs(), ReadyQ);
      NodeOf(waiters, nodes, threads.Keys, procs.Keys, nextPid, w, queues[ReadyQ][0]);
      var node := QueuePop(readyQueue, w, queues);
      t := node.key;
      queues := queues[ReadyQ := queues[ReadyQ][1..]];
      assert Abs() == after;
    }

    /** schedule, with its three early returns. */
    method Schedule()
      requires Valid()
      modifies this`currentThread, this`threads, this`queues
      modifies w.nodeSet`prev, w.nodeSet`next, w.nodeSet`q, w.queueSet`first, w.queueSet`last, w.queueSet`size
      ensures Valid() && Abs() == Sched.Schedule(old(Abs()))
    {
      hide Valid, World.Linked, WellFormed, Requeue, PopReady, SwitchTo;
      Handles();
      var empty := QueueEmpty(readyQueue, w, queues);
      if empty {
        return;
      }
      RequeueCurrent();
      var newThread := PopReadyThread();
      if newThread == currentThread {
        return;
      }
      if procs[newThread.pid].dying {
        return;
      }
      SwitchContext(newThread);
    }

    /** The timer's walk over the sleep queue: the successor is read before the node may be unlinked. */
    method WakeSleepers()
      requires Valid() && AsleepOnly(queues, [], queues[SleepQ])
      modifies this`threads, this`queues
      modifies w.nodeSet`prev, w.nodeSet`next, w.nodeSet`q, w.queueSet`first, w.queueSet`last, w.queueSet`size
      ensures Valid() && Abs() == WakeAll(old(Abs()), old(queues[SleepQ]))
    {
      hide Valid, World.Linked, WellFormed, Push, WakeAll, AsleepOnly;
      Handles();
      SleepersExist(Abs());
      ghost var slept, rest: seq<Tid>, all := [], queues[SleepQ], WakeAll(Abs(), queues[SleepQ]);
      var node := FirstOf(sleepQueue);
      while node != null
        invariant Valid() && Sane(Abs()) && AsleepOnly(queues, slept, rest)
        invariant forall t :: t in rest ==> t in threads
        invariant WakeAll(Abs(), rest) == all
        invariant w.Has(node) && KeyOf(node) == At(rest, 0)
        decreases |rest|
      {
        ghost var more := rest[1..];
        assert rest == [rest[0]] + more;
        AsleepBehind(queues, slept, rest);
        var next := NextOf(node, sleepQueue, slept, rest);
        Handles();
        WakeAllStep(Abs(), rest);
        if ticks >= threads[node.key].wake {
          WakeOne(queues, slept, rest);
          SchedReady(node.key);
        } else {
          SkipAsleep(queues, slept, rest);
          slept := slept + [rest[0]];
        }
        rest := more;
        node := next;
      }
      Handles();
      WakeAllDone(Abs());
    }

    /** The front of a queue. */
    method FirstOf(q: Queue) returns (node: Node?)
      requires Valid() && w.HasQueue(q) && q.id in queues
      ensures w.Has(node) && KeyOf(node) == At(queues[q.id], 0)
    {
      node := q.first;
    }

    /** The successor of a linked node. */
    method NextOf(node: Node, q: Queue, ghost slept: seq<Tid>, ghost rest: seq<Tid>) returns (next: Node?)
      requires Valid() && w.HasQueue(q) && q.id in queues && queues[q.id] == slept + rest
      requires rest != [] && w.Has(node) && node.key == rest[0]
      ensures w.Has(next) && KeyOf(next) == At(rest, 1)
    {
      hide World.Linked, WellFormed, Wiring, Threaded;
      ghost var s, i := queues[q.id], |slept|;
      assert s[i] == rest[0];
      NextInQueue(w, queues, q.id, i);
      assert At(s, i + 1) == At(rest, 1);
      next := node.next;
    }

    /** timer_handler */
    method TimerHandler()
      requires Valid() && AsleepOnly(queues, [], queues[SleepQ])
      modifies this`currentThread, this`threads, this`queues, this`ticks
      modifies w.nodeSet`prev, w.nodeSet`next, w.nodeSet`q, w.queueSet`first, w.queueSet`last, w.queueSet`size
      ensures Valid() && Abs() == Sched.Schedule(TickPass(old(Abs())))
    {
      hide World.Linked, WellFormed, Wiring, Threaded, WakeAll, AsleepOnly, Sched.Schedule;
      ghost var now := Advance(Abs());
      ticks := (ticks + 1) % WORD;
      assert Abs() == now;
      WakeSleepers();
      Schedule();
    }

    /** The current thread gets the record `noted`, then the queue and state of its new life. */
    method Retire(noted: Thread, q: Queue, st: ThreadState)
      requires Valid() && w.HasQueue(q) && q.id in queues && currentThread in threads
      modifies this`threads, this`queues
      modifies w.nodeSet`prev, w.nodeSet`next, w.nodeSet`q, w.queueSet`first, w.queueSet`last, w.queueSet`size
      ensures currentThread.pid in procs
      ensures Valid() && Abs() == Place(old(Abs()), currentThread, q.id, noted.(state := st))
    {
      hide Valid, World.Linked, WellFormed, Place;
      Handles();
      PlaceAnnotated(Abs(), currentThread, noted, q.id, noted.(state := st));
      Annotate(currentThread, noted);
      MoveTo(currentThread, q, st);
    }

    /** sched_exit_current_thread */
    method ExitCurrentThread(status: int)
      requires Valid()
      modifies this`currentThread, this`threads, this`queues
      modifies w.nodeSet`prev, w.nodeSet`next, w.nodeSet`q, w.queueSet`first, w.queueSet`last, w.queueSet`size
      ensures Valid() && Abs() == Exit(old(Abs()), status)
    {
      hide Valid, World.Linked, WellFormed, Place, Sched.Schedule;
      Handles();
      if currentThread.pid == IDLE {
        return;
      }
      Retire(threads[currentThread].(exitCode := status), zombieQueue, Zombie);
      Schedule();
    }

    /** sys_sleep_impl and sched_thread_sleep. */
    method ThreadSleep(ms: u32)
      requires Valid()
      modifies this`currentThread, this`threads, this`queues
      modifies w.nodeSet`prev, w.nodeSet`next, w.nodeSet`q, w.queueSet`first, w.queueSet`last, w.queueSet`size
      ensures Valid() && Abs() == FallAsleep(old(Abs()), ms)
    {
      hide Valid, World.Linked, WellFormed, Place, Sched.Schedule;
      Handles();
      var wakeTick := (ticks + ms / MS_PER_TICK) % WORD;
      if wakeTick <= ticks {
        return;
      }
      if currentThread == IDLE0 {
        return;
      }
      Retire(threads[currentThread].(wake := wakeTick), sleepQueue, Sleeping);
      Schedule();
    }

    /** sched_get_process: a walk down the process list. */
    method GetProcess(pid: Pid) returns (found: bool)
      requires Valid()
      ensures found <==> pid in list
    {
      hide World.Linked, WellFormed, Wiring, Threaded;
      FirstLeads(firstProcess, links, list);
      ghost var i := 0;
      var p := firstProcess;
      while p.Some?
        invariant 0 <= i <= |list| && p == Nth(list, i) && pid !in list[..i]
        decreases |list| - i
      {
        NextLeads(firstProcess, links, list, i);
        if p.value == pid {
          return true;
        }
        p := links[p.value].next;
        i := i + 1;
      }
      return false;
    }

    /** What ring_buffer_push on the mailbox of `dest` does to the process value. */
    method DeliverTo(dest: Pid, m: Message)
      requires Valid() && dest in procs
      modifies this`procs
      ensures Valid() && Abs() == Deliver(old(Abs()), dest, m) && dest in procs
    {
      hide World.Linked, WellFormed, Wiring, Threaded;
      ghost var after := Deliver(Abs(), dest, m);
      SameKeys(procs, dest, procs[dest].(ring := procs[dest].ring + [m], accepted := procs[dest].accepted + [m]));
      procs := procs[dest := procs[dest].(ring := procs[dest].ring + [m], accepted := procs[dest].accepted + [m])];
      assert Abs() == after;
    }

    /** The waking half of ipc_send. */
    method WakeFirstWaiter(dest: Pid)
      requires Valid() && dest in procs && Waiters(dest) in queues
      modifies this`threads, this`queues
      modifies w.nodeSet`prev, w.nodeSet`next, w.nodeSet`q, w.queueSet`first, w.queueSet`last, w.queueSet`size
      ensures Valid() && Abs() == WakeWaiter(old(Abs()), dest)
    {
      hide Valid, World.Linked, WellFormed, Move;
      Handles();
      Mailbox(dest);
      var empty := QueueEmpty(waiters[dest], w, queues);
      if empty {
        return;
      }
      var t := PopFront(waiters[dest]);
      SchedReady(t);
    }

    /** queue_pop on a queue known not to be empty. */
    method PopFront(q: Queue) returns (t: Tid)
      requires Valid() && w.HasQueue(q) && queues[q.id] != []
      modifies this`queues
      modifies w.nodeSet`prev, w.nodeSet`next, w.nodeSet`q, w.queueSet`first, w.queueSet`last, w.queueSet`size
      ensures Valid() && t == old(queues[q.id][0]) && t in threads
      ensures Abs() == old(Abs()).(queues := old(queues)[q.id := old(queues)[q.id][1..]])
    {
      hide World.Linked, WellFormed, Wiring, Threaded;
      PopKeepsWellFormed(Abs(), q.id);
      FrontExists(Abs(), q.id);
      NodeOf(waiters, nodes, threads.Keys, procs.Keys, nextPid, w, queues[q.id][0]);
      var node := QueuePop(q, w, queues);
      t := node.key;
      queues := queues[q.id := queues[q.id][1..]];
    }

    /** What ring_buffer_pop on the caller's mailbox does to the process value. */
    method TakeMessage() returns (m: Option<Message>)
      requires Valid()
      modifies this`procs
      ensures Valid() && PopMessage(old(Abs())) == (Abs(), m)
    {
      hide World.Linked, WellFormed, Wiring, Threaded;
      CurrentExists(Abs());
      var p := currentThread.pid;
      ghost var after := PopMessage(Abs()).0;
      if procs[p].ring == [] {
        return None;
      }
      m := Some(procs[p].ring[0]);
      SameKeys(procs, p, procs[p].(ring := procs[p].ring[1..], delivered := procs[p].delivered + [procs[p].ring[0]]));
      procs := procs[p := procs[p].(ring := procs[p].ring[1..], delivered := procs[p].delivered + [procs[p].ring[0]])];
      assert Abs() == after;
    }

    /** The blocking of ipc_receive: the thread joins the waiters of its own mailbox. */
    method Block()
      requires Valid()
      modifies this`threads, this`queues, this`receiving
      modifies w.nodeSet`prev, w.nodeSet`next, w.nodeSet`q, w.queueSet`first, w.queueSet`last, w.queueSet`size
      ensures Valid() && Abs() == MarkBlocked(old(Abs()))
    {
      hide Valid, World.Linked, WellFormed, Wiring, Move;
      Handles();
      Mailbox(currentThread.pid);
      MoveTo(currentThread, waiters[currentThread.pid], Blocked);
      NoteReceiving();
    }

    /** Bookkeeping: the current thread is inside a receive. */
    ghost method NoteReceiving()
      requires Valid()
      modifies this`receiving
      ensures Valid() && Abs() == old(Abs()).(receiving := old(receiving) + {currentThread})
    {
      hide World.Linked, WellFormed, Wiring, Threaded;
      ReceivingKeepsWellFormed(Abs(), receiving + {currentThread});
      receiving := receiving + {currentThread};
    }

    /** Bookkeeping: the current thread's receive is over. */
    ghost method NoteReceived()
      requires Valid()
      modifies this`receiving
      ensures Valid() && Abs() == old(Abs()).(receiving := old(receiving) - {currentThread})
    {
      hide World.Linked, WellFormed, Wiring, Threaded;
      ReceivingKeepsWellFormed(Abs(), receiving - {currentThread});
      receiving := receiving - {currentThread};
    }

    /** queue_remove on one slot of a process; an unused slot's node is in no queue. */
    method UnlinkSlot(t: Tid)
      requires Valid()
      modifies this`queues
      modifies w.nodeSet`prev, w.nodeSet`next, w.nodeSet`q, w.queueSet`first, w.queueSet`last, w.queueSet`size
      ensures Valid() && Abs() == old(Abs()).(queues := Detach(old(queues), t))
    {
      hide World.Linked, WellFormed, Wiring, Threaded, Detach;
      DetachKeepsWellFormed(Abs(), t);
      NodeOf(waiters, nodes, threads.Keys, procs.Keys, nextPid, w, t);
      if t in nodes {
        QueueRemove(nodes[t], w, queues);
      }
      queues := Detach(queues, t);
    }

    /** queue_remove on each of the eight slots of a process. */
    method UnlinkThreads(p: Pid)
      requires Valid() && p in procs
      modifies this`queues
      modifies w.nodeSet`prev, w.nodeSet`next, w.nodeSet`q, w.queueSet`first, w.queueSet`last, w.queueSet`size
      ensures Valid() && Abs() == old(Abs()).(queues := DropSlots(old(queues), p, THREADS_PER_PROCESS))
    {
      hide Valid, World.Linked, WellFormed, Detach;
      var i := 0;
      while i < THREADS_PER_PROCESS
        invariant 0 <= i <= THREADS_PER_PROCESS
        invariant Valid() && Abs() == old(Abs()).(queues := DropSlots(old(queues), p, i))
      {
        UnlinkSlot(Tid(p, i));
        i := i + 1;
      }
    }

    method SetDying(p: Pid)
      requires Valid() && p in procs
      modifies this`procs
      ensures Valid() && Abs() == old(Abs()).(procs := old(procs)[p := old(procs)[p].(dying := true)])
    {
      hide World.Linked, WellFormed, Wiring, Threaded;
      SameKeys(procs, p, procs[p].(dying := true));
      ProcKeepsWellFormed(Abs(), p, procs[p].(dying := true));
      procs := procs[p := procs[p].(dying := true)];
    }

    /** sched_destroy_current_process up to its yield. */
    method MarkCurrentDying()
      requires Valid() && SlotsOk(Abs())
      modifies this`queues, this`procs
      modifies w.nodeSet`prev, w.nodeSet`next, w.nodeSet`q, w.queueSet`first, w.queueSet`last, w.queueSet`size
      ensures Valid() && Abs() == MarkDying(old(Abs()))
    {
      hide Valid, World.Linked, WellFormed, DropThreads, SlotsOk;
      Handles();
      SlotsAreDropped(Abs(), currentThread.pid);
      UnlinkThreads(currentThread.pid);
      SetDying(currentThread.pid);
    }

    /** sched_destroy_current_process; the yield at its end is a call of schedule. */
    method DestroyCurrentProcess()
      requires Valid() && SlotsOk(Abs())
      modifies this`currentThread, this`threads, this`queues, this`procs
      modifies w.nodeSet`prev, w.nodeSet`next, w.nodeSet`q, w.queueSet`first, w.queueSet`last, w.queueSet`size
      ensures Valid() && Abs() == Sched.Schedule(MarkDying(old(Abs())))
    {
      hide Valid, World.Linked, WellFormed, MarkDying, Sched.Schedule, SlotsOk;
      MarkCurrentDying();
      Schedule();
    }

    /** The slot search of sched_create_thread. */
    method FindSlot(p: Pid) returns (slot: Option<nat>)
      ensures slot == FreeSlot(Abs(), p, 0)
    {
      var i := 0;
      while i < THREADS_PER_PROCESS
        invariant 0 <= i <= THREADS_PER_PROCESS
        invariant FreeSlot(Abs(), p, i) == FreeSlot(Abs(), p, 0)
      {
        if Tid(p, i) !in threads {
          return Some(i);
        }
        i := i + 1;
      }
      return None;
    }

    /** The part of sched_create_thread that fills a slot. */
    method FillSlot(t: Tid)
      requires Valid() && t !in threads && t.pid in procs && t.pid < nextPid
      modifies this`threads, this`nodes, this`w
      ensures Valid() && Abs() == old(Abs()).(threads := old(threads)[t := FRESH]) && t in threads
      ensures fresh(w.nodeSet - old(w.nodeSet)) && w.queueSet == old(w.queueSet)
    {
      hide World.Linked, WellFormed, Wiring, Threaded;
      FreshThreadWellFormed(Abs(), t);
      var node := new Node(t);
      ghost var wider := w.(nodes := w.nodes[t := node], nodeSet := w.nodeSet + {node});
      WiringWithNode(waiters, nodes, threads, procs.Keys, nextPid, w, node, wider);
      NodeJoins(w, queues, node, wider);
      w := wider;
      nodes := nodes[t := node];
      threads := threads[t := FRESH];
    }

    /** The end of sched_create_thread, in the free slot it has found, and sched_ready. */
    method StartThread(p: Pid, entry: u32, slot: nat)
      requires Valid() && p in procs && p < nextPid && entry != 0 && FreeSlot(Abs(), p, 0) == Some(slot)
      modifies this`threads, this`nodes, this`w, this`queues
      modifies w.nodeSet`prev, w.nodeSet`next, w.nodeSet`q, w.queueSet`first, w.queueSet`last, w.queueSet`size
      ensures Valid() && NewThread(old(Abs()), p, entry, true) == (Abs(), true)
      ensures fresh(w.nodeSet - old(w.nodeSet)) && w.queueSet == old(w.queueSet)
    {
      hide Valid, World.Linked, WellFormed, Place, FreeSlot;
      Handles();
      WaitersExist(Abs(), p);
      CurrentExists(Abs());
      var t := Tid(p, slot);
      SlotIsFree(Abs(), p);
      PlaceAnnotated(Abs(), t, FRESH, ReadyQ, FRESH.(state := Ready));
      FillSlot(t);
      SchedReady(t);
    }

    /** sys_nthread_impl: sched_create_thread and sched_ready. `memOk` says whether both stacks could be had. */
    method CreateThread(p: Pid, entry: u32, memOk: bool) returns (ok: bool)
      requires Valid() && p in procs && p < nextPid
      modifies this`threads, this`nodes, this`w, this`queues
      modifies w.nodeSet`prev, w.nodeSet`next, w.nodeSet`q, w.queueSet`first, w.queueSet`last, w.queueSet`size
      ensures Valid() && NewThread(old(Abs()), p, entry, memOk) == (Abs(), ok)
      ensures fresh(w.nodeSet - old(w.nodeSet)) && w.queueSet == old(w.queueSet)
    {
      hide Valid, World.Linked, WellFormed, Place, FreeSlot;
      Handles();
      if entry == 0 {
        return false;
      }
      var slot := FindSlot(p);
      if slot.None? {
        return false;
      }
      if !memOk {
        return false;
      }
      StartThread(p, entry, slot.value);
      return true;
    }

    /** queue_init on the waiters queue of a new mailbox. */
    method AddMailbox(p: Pid) returns (mailbox: Queue)
      requires Valid() && Waiters(p) !in queues
      modifies this`queues, this`w
      ensures Valid() && Abs() == old(Abs()).(queues := old(queues)[Waiters(p) := []])
      ensures mailbox.id == Waiters(p) && w.HasQueue(mailbox)
      ensures fresh(w.queueSet - old(w.queueSet)) && w.nodeSet == old(w.nodeSet)
    {
      hide World.Linked, WellFormed, Wiring, Threaded;
      QueueKeepsWellFormed(Abs(), Waiters(p));
      mailbox := new Queue(Waiters(p));
      ghost var wider := w.(queues := w.queues[Waiters(p) := mailbox], queueSet := w.queueSet + {mailbox});
      WiringWithQueue(waiters, nodes, threads.Keys, procs.Keys, nextPid, w, mailbox, wider);
      QueueJoins(w, queues, mailbox, wider);
      w := wider;
      queues := queues[Waiters(p) := []];
    }

    /** The new process block becomes the first of the list. */
    method ListProcess(p: Pid)
      requires Threaded(firstProcess, links, list) && p !in list
      modifies this`firstProcess, this`links, this`list
      ensures Threaded(firstProcess, links, list) && list == [p] + old(list)
    {
      hide Threaded;
      HeadInserts(firstProcess, links, list, p);
      links := links[p := Siblings(None, firstProcess)];
      if firstProcess.Some? {
        links := links[firstProcess.value := links[firstProcess.value].(prev := Some(p))];
      }
      firstProcess := Some(p);
      list := [p] + list;
    }

    /** The process block of `p` leaves the list: its neighbours are joined. */
    method UnlistProcess(p: Pid)
      requires Threaded(firstProcess, links, list) && p in list
      modifies this`firstProcess, this`links, this`list
      ensures Threaded(firstProcess, links, list) && list == Without(old(list), p)
    {
      hide Threaded, Without;
      Unhooks(firstProcess, links, list, p);
      var own := links[p];
      if own.prev.Some? {
        links := links[own.prev.value := links[own.prev.value].(next := own.next)];
      }
      if own.next.Some? {
        links := links[own.next.value := links[own.next.value].(prev := own.prev)];
      }
      if firstProcess == Some(p) {
        firstProcess := own.next;
      }
      links := links - {p};
      list := Without(list, p);
    }

    /** The new process block heads the list. */
    method ListBlock(p: Pid)
      requires Valid() && p !in list
      modifies this`firstProcess, this`links, this`list
      ensures Valid() && Abs() == old(Abs()).(list := [p] + old(list))
    {
      hide World.Linked, WellFormed, Wiring, Threaded, Fixtures;
      ListKeepsWellFormed(Abs(), [p] + list);
      ListProcess(p);
    }

    /** The new process block gets its pid, its parent and its mailbox. */
    method InsertProcess(mailbox: Queue)
      requires Valid() && nextPid !in procs && mailbox.id == Waiters(nextPid) && w.HasQueue(mailbox)
      modifies this`procs, this`waiters, this`nextPid
      ensures Valid() && old(nextPid) in procs && nextPid == old(nextPid) + 1 && list == old(list)
      ensures Abs() == Enrolled(old(Abs()))
    {
      hide World.Linked, WellFormed, Wiring, Threaded, Fixtures;
      ghost var after := Enrolled(Abs());
      var p := nextPid;
      var proc := Process(false, Some(currentThread.pid), MAILBOX_SLOTS, [], [], []);
      NewProcKeepsWellFormed(Abs(), p, proc, p + 1);
      WiringWithProcess(waiters, nodes, threads.Keys, procs, p, w, mailbox, proc);
      waiters := waiters[p := mailbox];
      procs := procs[p := proc];
      nextPid := p + 1;
      assert Abs() == after;
    }

    /** sched_create_process, once its memory is there. */
    method CreateProcessBlock() returns (p: Pid)
      requires Valid() && Waiters(nextPid) !in queues && nextPid !in procs && nextPid !in list
      modifies this`procs, this`queues, this`waiters, this`firstProcess, this`links, this`list, this`nextPid, this`w
      ensures Valid() && Abs() == CreateProcess(old(Abs())) && p == old(nextPid) && p in procs && nextPid == p + 1
      ensures fresh(w.queueSet - old(w.queueSet)) && w.nodeSet == old(w.nodeSet)
    {
      hide Valid, World.Linked, WellFormed, Enrolled;
      p := nextPid;
      Handles();
      EnrolledIsCreated(Abs());
      var mailbox := AddMailbox(p);
      InsertProcess(mailbox);
      ListBlock(p);
    }

    /** The reparenting loop of sched_destroy_process. */
    method ReparentChildren(p: Pid)
      requires Valid() && p in procs && forall c :: c in list <==> c in procs
      modifies this`procs
      ensures Valid() && Abs() == old(Abs()).(procs := Reparent(old(procs), p)) && p in procs
    {
      hide World.Linked, WellFormed, Wiring, Threaded;
      ReparentKeepsWellFormed(Abs(), p);
      procs := ReparentEach(procs, firstProcess, links, list, p);
    }

    /** The walk down the list that gives each child of `p` its grandparent. */
    static method ReparentEach(was: map<Pid, Process>, first: Option<Pid>, links: map<Pid, Siblings>,
                               ghost list: seq<Pid>, p: Pid)
      returns (procs: map<Pid, Process>)
      requires p in was && Threaded(first, links, list) && forall c :: c in list <==> c in was
      ensures procs == Reparent(was, p)
    {
      hide Threaded;
      FirstLeads(first, links, list);
      procs := was;
      var dad := was[p].dad;
      ghost var i := 0;
      var c := first;
      while c.Some?
        invariant 0 <= i <= |list| && c == Nth(list, i) && procs.Keys == was.Keys
        invariant forall k :: k in was ==>
          procs[k] == if k in list[..i] && was[k].dad == Some(p) then was[k].(dad := dad) else was[k]
        decreases |list| - i
      {
        NextLeads(first, links, list, i);
        assert c.value in was;
        if procs[c.value].dad == Some(p) {
          procs := procs[c.value := procs[c.value].(dad := dad)];
        }
        c := links[c.value].next;
        i := i + 1;
      }
      assert list[..|list|] == list;
    }

    /** The process block leaves the list. */
    method UnlistBlock(p: Pid)
      requires Valid() && p in list
      modifies this`firstProcess, this`links, this`list
      ensures Valid() && Abs() == old(Abs()).(list := Without(old(list), p))
    {
      hide World.Linked, WellFormed, Wiring, Threaded, Without, Fixtures;
      ListKeepsWellFormed(Abs(), Without(list, p));
      UnlistProcess(p);
    }

    /** The release of an unlinked process block with its threads. */
    method ReleaseBlock(p: Pid)
      requires Valid() && p in procs && currentThread.pid != p
      requires NoneLinked(queues, p)
      modifies this`threads, this`nodes, this`receiving, this`waiters, this`procs
      ensures Valid() && Abs() == Released(old(Abs()), p)
    {
      hide World.Linked, WellFormed, Wiring, Threaded, ThreadsExcept, NodesExcept, NoneLinked, Fixtures;
      ghost var after := Released(Abs(), p);
      WiringWithout(waiters, procs, nodes, threads, nextPid, w, p);
      ReleaseKeepsWellFormed(Abs(), p);
      threads := ThreadsExcept(threads, p);
      nodes := NodesExcept(nodes, p);
      receiving := after.receiving;
      waiters := waiters - {p};
      procs := procs - {p};
      assert Abs() == after;
    }

    /** The release of a mailbox queue that nobody uses any more. */
    method ReleaseMailbox(p: Pid)
      requires Valid() && p !in procs && Waiters(p) in queues && queues[Waiters(p)] == []
      modifies this`queues, this`w
      ensures Valid() && Abs() == old(Abs()).(queues := old(queues) - {Waiters(p)})
      ensures w.nodeSet == old(w.nodeSet) && w.queueSet == old(w.queueSet)
    {
      hide World.Linked, WellFormed, Wiring, Threaded;
      ghost var narrower := w.(queues := w.queues - {Waiters(p)});
      QueueLeaves(w, queues, Waiters(p), narrower);
      WiringWithoutQueue(waiters, nodes, threads.Keys, procs.Keys, nextPid, w, p, narrower);
      MailboxKeepsWellFormed(Abs(), p);
      queues := queues - {Waiters(p)};
      w := narrower;
    }

    /** The first half of sched_destroy_process: children get a new parent, threads leave their queues. */
    method UnlinkProcess(p: Pid)
      requires Valid() && p in procs && SlotsOk(Abs()) && OwnWaiters(queues, p) && Waiters(p) in queues
      requires forall c :: c in list <==> c in procs
      modifies this`queues, this`procs
      modifies w.nodeSet`prev, w.nodeSet`next, w.nodeSet`q, w.queueSet`first, w.queueSet`last, w.queueSet`size
      ensures Valid() && p in procs
      ensures Abs() == old(Abs()).(procs := Reparent(old(procs), p), queues := DropThreads(old(queues), p))
      ensures NoneLinked(queues, p) && Waiters(p) in queues && queues[Waiters(p)] == []
    {
      hide Valid, World.Linked, WellFormed, Reparent, SlotsOk, DropThreads, OwnWaiters, NoneLinked;
      Handles();
      SlotsAreDropped(Abs(), p);
      NobodyLinked(queues, p);
      ReparentChildren(p);
      UnlinkThreads(p);
    }

    /** The second half: the process block leaves the list and is released, and so is its mailbox. */
    method ReleaseProcess(p: Pid)
      requires Valid() && p in procs && currentThread.pid != p && p in list
      requires NoneLinked(queues, p) && Waiters(p) in queues && queues[Waiters(p)] == []
      modifies this`queues, this`procs, this`threads, this`nodes, this`receiving, this`waiters
      modifies this`firstProcess, this`links, this`list, this`w
      ensures Valid()
      ensures Abs() == Released(old(Abs()), p).(list := Without(old(list), p), queues := old(queues) - {Waiters(p)})
      ensures w.nodeSet == old(w.nodeSet) && w.queueSet == old(w.queueSet)
    {
      hide Valid, World.Linked, WellFormed, NoneLinked, Without, ThreadsExcept;
      UnlistBlock(p);
      ReleaseBlock(p);
      ReleaseMailbox(p);
    }

    /** sched_destroy_process; it refuses the process whose page directory is loaded. */
    method DestroyProcess(p: Pid)
      requires Valid() && p in procs && SlotsOk(Abs()) && OwnWaiters(queues, p)
      requires forall c :: c in list <==> c in procs
      modifies this`queues, this`procs, this`threads, this`nodes, this`receiving, this`waiters
      modifies this`firstProcess, this`links, this`list, this`w
      modifies w.nodeSet`prev, w.nodeSet`next, w.nodeSet`q, w.queueSet`first, w.queueSet`last, w.queueSet`size
      ensures Valid() && Abs() == Sched.DestroyProcess(old(Abs()), p)
      ensures w.nodeSet == old(w.nodeSet) && w.queueSet == old(w.queueSet)
    {
      hide Valid, World.Linked, WellFormed, Reparent, SlotsOk, DropThreads, OwnWaiters, NoneLinked, Released,
        Sched.DestroyProcess;
      Handles();
      DestroySteps(Abs(), p);
      if currentThread.pid == p {
        return;
      }
      WaitersExist(Abs(), p);
      UnlinkProcess(p);
      ReleaseProcess(p);
    }

    /** The successor of a process on the list. */
    method NextProcess(p: Pid, ghost rest: seq<Pid>) returns (next: Option<Pid>)
      requires Valid() && IsTail(list, rest) && rest != [] && rest[0] == p
      ensures next == Nth(rest[1..], 0)
    {
      hide World.Linked, WellFormed, Wiring, Threaded;
      SavedNext(firstProcess, links, list, rest);
      next := links[p].next;
    }

    /** The head of the process list. */
    method FirstProcess() returns (p: Option<Pid>)
      requires Valid()
      ensures p == Nth(list, 0)
    {
      hide World.Linked, WellFormed, Wiring;
      p := firstProcess;
    }

    /** One pass of the reaper, on the list as it is when the pass starts: the successor is read
        before the process may be destroyed. */
    method ReaperPass()
      requires Valid() && Core(Abs()) && Structure(Abs()) && currentThread.pid == IDLE
      modifies this`queues, this`procs, this`threads, this`nodes, this`receiving, this`waiters
      modifies this`firstProcess, this`links, this`list, this`w
      modifies w.nodeSet`prev, w.nodeSet`next, w.nodeSet`q, w.queueSet`first, w.queueSet`last, w.queueSet`size
      ensures Valid() && Abs() == ReapFrom(old(Abs()), old(list))
      ensures w.nodeSet == old(w.nodeSet) && w.queueSet == old(w.queueSet)
    {
      hide Valid, World.Linked, WellFormed, Core, Structure, ReapFrom, SlotsOk, OwnWaiters, Sched.DestroyProcess;
      Handles();
      ghost var rest, all := list, ReapFrom(Abs(), list);
      var p := FirstProcess();
      while p.Some?
        invariant Valid() && Sane(Abs()) && Core(Abs()) && Structure(Abs()) && currentThread.pid == IDLE
        invariant w.nodeSet == old(w.nodeSet) && w.queueSet == old(w.queueSet)
        invariant ReapFrom(Abs(), rest) == all && IsTail(list, rest)
        invariant p == Nth(rest, 0)
        decreases |rest|
      {
        ReapStep(Abs(), rest);
        var next := NextProcess(p.value, rest);
        if procs[p.value].dying {
          DestroyProcess(p.value);
        }
        p := next;
        rest := rest[1..];
      }
      Handles();
      ReapDone(Abs());
    }

    /** The code pages and the first thread of a new process, which is destroyed again when there is
        no memory for them. */
    method FurnishProcess(p: Pid, region: bool, stacks: bool) returns (ok: bool)
      requires Valid() && p in procs && p < nextPid && SlotsOk(Abs()) && OwnWaiters(queues, p)
      requires forall c :: c in list <==> c in procs
      modifies this
      modifies w.nodeSet`prev, w.nodeSet`next, w.nodeSet`q, w.queueSet`first, w.queueSet`last, w.queueSet`size
      ensures Valid() && (Abs(), ok) == Furnish(old(Abs()), p, region, stacks)
      ensures fresh(w.nodeSet - old(w.nodeSet)) && w.queueSet == old(w.queueSet)
    {
      hide Valid, World.Linked, WellFormed, NewThread, SlotsOk, OwnWaiters, Sched.DestroyProcess;
      Handles();
      NoThreadNoChange(Abs(), p, 0x400000, stacks);
      if !region {
        DestroyProcess(p);
        return false;
      }
      ok := CreateThread(p, 0x400000, stacks);
      if !ok {
        DestroyProcess(p);
      }
    }

    /** sys_nprocess_impl; `mem` says how far each of its allocations gets. */
    method NewProcess(entry: u32, n: u32, mem: Memory) returns (pid: Pid)
      requires Valid() && Core(Abs()) && Structure(Abs())
      modifies this
      modifies w.nodeSet`prev, w.nodeSet`next, w.nodeSet`q, w.queueSet`first, w.queueSet`last, w.queueSet`size
      ensures Valid() && Sched.NewProcess(old(Abs()), entry, n, mem) == (Abs(), pid)
      ensures fresh(w.nodeSet - old(w.nodeSet)) && fresh(w.queueSet - old(w.queueSet))
    {
      hide Valid, World.Linked, WellFormed, Core, Structure, CreateProcess, SlotsOk, OwnWaiters, Furnish,
        Sched.NewProcess;
      Handles();
      CreationSteps(Abs(), entry, n, mem);
      if entry == 0 || n == 0 || !mem.data || !mem.directory {
        return 0;
      }
      NascentIsFree(Abs());
      pid := CreateProcessBlock();
      var ok := FurnishProcess(pid, mem.region, mem.stacks);
      return if ok then pid else 0;
    }

    /** A step that touches no mailbox, made by the code for it. */
    method PerformPostless(a: Action)
      requires Valid() && Inv(Abs()) && Enabled(Abs(), a) && Postless(a)
      modifies this
      modifies w.nodeSet`prev, w.nodeSet`next, w.nodeSet`q, w.queueSet`first, w.queueSet`last, w.queueSet`size
      ensures Valid() && WellFormed(old(Abs())) && Abs() == Step(old(Abs()), a)
      ensures fresh(w.nodeSet - old(w.nodeSet)) && fresh(w.queueSet - old(w.queueSet))
    {
      hide Valid, World.Linked, WellFormed, Core, Structure, Inv, SlotsOk, AsleepOnly, Sched.Schedule, TickPass,
        MarkDying, FallAsleep, Exit, NewThread, Enabled, Step, Postless;
      InvParts(Abs());
      InvServes(Abs());
      PostlessSteps(Abs(), a);
      match a {
        case Timer => TimerHandler();
        case Yield => Schedule();
        case Sleep(ms) => ThreadSleep(ms);
        case ExitThread(status) => ExitCurrentThread(status);
        case NThread(entry, memOk) =>
          var ok := CreateThread(currentThread.pid, entry, memOk);
        case Fault => DestroyCurrentProcess();
      }
    }
  }

  /** Steps that neither add nor remove a process and neither push nor pop a message. */
  predicate Postless(a: Action) {
    a.Timer? || a.Yield? || a.Sleep? || a.ExitThread? || a.NThread? || a.Fault?
  }

  lemma PostlessSteps(s: State, a: Action)
    requires WellFormed(s) && s.current.pid in s.procs && Postless(a)
    ensures a.Timer? || a.Yield? || a.Sleep? || a.ExitThread? || a.NThread? || a.Fault?
    ensures Step(s, a) == match a
                          case Timer => Sched.Schedule(TickPass(s))
                          case Sleep(ms) => FallAsleep(s, ms)
                          case ExitThread(status) => Exit(s, status)
                          case NThread(entry, memOk) => NewThread(s, s.current.pid, entry, memOk).0
                          case Fault => Sched.Schedule(MarkDying(s))
                          case _ => Sched.Schedule(s)
  {
  }

  /** The state with a process block for the next pid. */
  function Enrolled(s: State): (r: State) {
    s.(procs := s.procs[s.nextPid := Process(false, Some(s.current.pid), MAILBOX_SLOTS, [], [], [])],
       nextPid := s.nextPid + 1)
  }

  lemma EnrolledIsCreated(s: State)
    requires Sane(s)
    ensures CreateProcess(s)
      == Enrolled(s.(queues := s.queues[Waiters(s.nextPid) := []])).(list := [s.nextPid] + s.list)
  {
  }

  lemma ReceivingKeepsWellFormed(s: State, receiving: set<Tid>)
    requires WellFormed(s)
    ensures Sane(s.(receiving := receiving))
  {
  }

  lemma CurrentExists(s: State)
    requires WellFormed(s)
    ensures s.current in s.threads && s.current.pid in s.procs && ReadyQ in s.queues
  {
  }

  lemma FrontExists(s: State, q: QId)
    requires WellFormed(s) && q in s.queues && s.queues[q] != []
    ensures s.queues[q][0] in s.threads && s.queues[q][0].pid in s.procs
  {
    assert s.queues[q][0] in s.queues[q];
  }

  lemma SleepersExist(s: State)
    requires Sane(s)
    ensures forall t :: t in s.queues[SleepQ] ==> t in s.threads
  {
  }

  lemma WakeAllStep(s: State, rest: seq<Tid>)
    requires Sane(s) && rest != [] && forall t :: t in rest ==> t in s.threads
    ensures WakeAll(s, rest) == if s.ticks >= s.threads[rest[0]].wake
      then WakeAll(Move(s, rest[0], ReadyQ, Ready), rest[1..]) else WakeAll(s, rest[1..])
  {
  }

  lemma WakeAllDone(s: State)
    requires Sane(s)
    ensures WakeAll(s, []) == s
  {
  }

  lemma SkipAsleep(queues: map<QId, seq<Tid>>, slept: seq<Tid>, rest: seq<Tid>)
    requires rest != [] && AsleepOnly(queues, slept, rest)
    ensures AsleepOnly(queues, slept + [rest[0]], rest[1..])
  {
    SkipOne(queues, slept, rest, (t: Tid) => false);
  }

  /** Annotating a thread and then moving it is one placement. */
  lemma PlaceAnnotated(s: State, t: Tid, noted: Thread, q: QId, th: Thread)
    requires WellFormed(s) && t.pid in s.procs && q in s.queues && noted.(state := th.state) == th
    ensures Sane(s.(threads := s.threads[t := noted]))
    ensures Move(s.(threads := s.threads[t := noted]), t, q, th.state) == Place(s, t, q, th)
  {
    assert s.threads[t := noted][t := th] == s.threads[t := th];
  }

  lemma PopKeepsWellFormed(s: State, q: QId)
    requires WellFormed(s) && q in s.queues && s.queues[q] != []
    ensures Sane(s.(queues := s.queues[q := s.queues[q][1..]]))
  {
  }

  lemma WaitersExist(s: State, p: Pid)
    requires WellFormed(s) && p in s.procs
    ensures Waiters(p) in s.queues
  {
  }

  /** The queues after queue_remove on the first `n` slots of process `p`. */
  function DropSlots(queues: map<QId, seq<Tid>>, p: Pid, n: nat): (r: map<QId, seq<Tid>>) {
    if n == 0 then queues else Detach(DropSlots(queues, p, n - 1), Tid(p, n - 1))
  }

  lemma DetachKeepsWellFormed(s: State, t: Tid)
    requires WellFormed(s)
    ensures Sane(s.(queues := Detach(s.queues, t)))
    ensures Detach(s.queues, t).Keys == s.queues.Keys
    ensures t !in s.threads ==> Detach(s.queues, t) == s.queues
  {
  }

  lemma DropSlotsIsFilter(queues: map<QId, seq<Tid>>, p: Pid, n: nat, k: QId)
    requires k in queues
    ensures k in DropSlots(queues, p, n)
    ensures DropSlots(queues, p, n)[k] == Filter(queues[k], (t: Tid) => !(t.pid == p && t.slot < n))
  {
    if n == 0 {
      FilterAll(queues[k], (t: Tid) => !(t.pid == p && t.slot < n));
    } else {
      DropSlotsIsFilter(queues, p, n - 1, k);
      WithoutIsFilter(Filter(queues[k], (t: Tid) => !(t.pid == p && t.slot < n - 1)), Tid(p, n - 1));
      FilterTwice(queues[k], (t: Tid) => !(t.pid == p && t.slot < n - 1), (t: Tid) => t != Tid(p, n - 1),
                  (t: Tid) => !(t.pid == p && t.slot < n));
    }
  }

  lemma WithoutIsFilter(q: seq<Tid>, u: Tid)
    ensures Without(q, u) == Filter(q, (t: Tid) => t != u)
  {
    if q != [] {
      WithoutIsFilter(q[1..], u);
    }
  }

  /** With eight slots a process, removing slot by slot removes all its threads. */
  lemma SlotsAreDropped(s: State, p: Pid)
    requires WellFormed(s) && SlotsOk(s)
    ensures DropSlots(s.queues, p, THREADS_PER_PROCESS) == DropThreads(s.queues, p)
  {
    hide DropSlots, Filter, WellFormed;
    var r := DropSlots(s.queues, p, THREADS_PER_PROCESS);
    DropSlotsKeys(s.queues, p, THREADS_PER_PROCESS);
    forall k | k in s.queues ensures r[k] == DropThreads(s.queues, p)[k] {
      SlotsDroppedAt(s, p, k);
    }
  }

  lemma SlotsDroppedAt(s: State, p: Pid, k: QId)
    requires WellFormed(s) && SlotsOk(s) && k in s.queues
    ensures k in DropSlots(s.queues, p, THREADS_PER_PROCESS)
    ensures DropSlots(s.queues, p, THREADS_PER_PROCESS)[k] == Filter(s.queues[k], NotOf(p))
  {
    hide DropSlots, Filter;
    var low: Tid -> bool := (t: Tid) => !(t.pid == p && t.slot < THREADS_PER_PROCESS);
    DropSlotsIsFilter(s.queues, p, THREADS_PER_PROCESS, k);
    FilterExtensional(s.queues[k], low, NotOf(p));
  }

  lemma DropSlotsKeys(queues: map<QId, seq<Tid>>, p: Pid, n: nat)
    ensures DropSlots(queues, p, n).Keys == queues.Keys
  {
  }

  lemma SlotIsFree(s: State, p: Pid)
    requires FreeSlot(s, p, 0).Some?
    ensures Tid(p, FreeSlot(s, p, 0).value) !in s.threads
  {
  }

  lemma FreshThreadWellFormed(s: State, t: Tid)
    requires WellFormed(s) && t.pid in s.procs
    ensures Sane(s.(threads := s.threads[t := FRESH]))
  {
  }

  lemma PushKeepsWellFormed(s: State, q: QId, t: Tid)
    requires WellFormed(s) && q in s.queues && t in s.threads
    ensures Sane(s.(queues := Push(s.queues, q, t)))
  {
  }

  lemma AnnotateKeepsWellFormed(s: State, t: Tid, th: Thread)
    requires WellFormed(s) && t in s.threads
    ensures Sane(s.(threads := s.threads[t := th]))
  {
  }

  lemma ProcKeepsWellFormed(s: State, p: Pid, proc: Process)
    requires WellFormed(s) && p in s.procs
    ensures Sane(s.(procs := s.procs[p := proc]))
  {
  }

  /** A thread's node joins the world, the thread joins the kernel. */
  lemma WiringWithNode(waiters: map<Pid, Queue>, nodes: map<Tid, Node>, threads: map<Tid, Thread>, pids: set<Pid>,
                       nextPid: Pid, w: World, node: Node, wider: World)
    requires Wiring(waiters, nodes, threads.Keys, pids, nextPid, w)
    requires node.key !in threads && node.key.pid in pids && node.key.pid < nextPid
    requires wider == w.(nodes := w.nodes[node.key := node], nodeSet := w.nodeSet + {node})
    ensures node.key !in w.nodes
    ensures Wiring(waiters, nodes[node.key := node], threads[node.key := FRESH].Keys, pids, nextPid, wider)
  {
  }

  /** A queue joins the world. */
  lemma WiringWithQueue(waiters: map<Pid, Queue>, nodes: map<Tid, Node>, tids: set<Tid>, pids: set<Pid>, nextPid: Pid,
                        w: World, q: Queue, wider: World)
    requires Wiring(waiters, nodes, tids, pids, nextPid, w) && q.id !in w.queues
    requires wider == w.(queues := w.queues[q.id := q], queueSet := w.queueSet + {q})
    ensures Wiring(waiters, nodes, tids, pids, nextPid, wider)
    ensures forall k :: w.HasQueue(k) ==> wider.HasQueue(k)
  {
  }

  /** A process joins the kernel with its mailbox queue. */
  lemma WiringWithProcess(waiters: map<Pid, Queue>, nodes: map<Tid, Node>, tids: set<Tid>, procs: map<Pid, Process>,
                          p: Pid, w: World, q: Queue, proc: Process)
    requires Wiring(waiters, nodes, tids, procs.Keys, p, w) && q.id == Waiters(p) && w.HasQueue(q)
    ensures Wiring(waiters[p := q], nodes, tids, procs[p := proc].Keys, p + 1, w)
  {
  }

  /** The mailbox queue of a process long gone leaves the world. */
  lemma WiringWithoutQueue(waiters: map<Pid, Queue>, nodes: map<Tid, Node>, tids: set<Tid>, pids: set<Pid>,
                           nextPid: Pid, w: World, p: Pid, narrower: World)
    requires Wiring(waiters, nodes, tids, pids, nextPid, w) && p !in pids
    requires narrower == w.(queues := w.queues - {Waiters(p)})
    ensures Wiring(waiters, nodes, tids, pids, nextPid, narrower)
    ensures forall k :: w.HasQueue(k) && k.id != Waiters(p) ==> narrower.HasQueue(k)
  {
  }

  /** A released process takes its threads along. */
  lemma WiringWithout(waiters: map<Pid, Queue>, procs: map<Pid, Process>, nodes: map<Tid, Node>,
                      threads: map<Tid, Thread>, nextPid: Pid, w: World, p: Pid)
    requires Wiring(waiters, nodes, threads.Keys, procs.Keys, nextPid, w)
    ensures Wiring(waiters - {p}, NodesExcept(nodes, p), ThreadsExcept(threads, p).Keys, (procs - {p}).Keys, nextPid, w)
  {
  }

  function NodesExcept(nodes: map<Tid, Node>, p: Pid): (r: map<Tid, Node>) {
    map t | t in nodes && t.pid != p :: nodes[t]
  }

  lemma QueueKeepsWellFormed(s: State, k: QId)
    requires WellFormed(s) && k !in s.queues
    ensures Sane(s.(queues := s.queues[k := []]))
  {
  }

  lemma NewProcKeepsWellFormed(s: State, p: Pid, proc: Process, nextPid: Pid)
    requires WellFormed(s) && Waiters(p) in s.queues
    ensures Sane(s.(procs := s.procs[p := proc], nextPid := nextPid))
  {
  }

  lemma ReparentKeepsWellFormed(s: State, p: Pid)
    requires WellFormed(s) && p in s.procs
    ensures Sane(s.(procs := Reparent(s.procs, p))) && Reparent(s.procs, p).Keys == s.procs.Keys
  {
  }

  /** Only threads of process `p` wait on its mailbox. */
  ghost predicate OwnWaiters(queues: map<QId, seq<Tid>>, p: Pid) {
    Waiters(p) in queues ==> forall t :: t in queues[Waiters(p)] ==> t.pid == p
  }

  lemma NobodyLinked(queues: map<QId, seq<Tid>>, p: Pid)
    requires OwnWaiters(queues, p)
    ensures NoneLinked(DropThreads(queues, p), p)
    ensures Waiters(p) in queues ==> DropThreads(queues, p)[Waiters(p)] == []
  {
    if Waiters(p) in queues {
      FilterNone(queues[Waiters(p)], NotOf(p));
    }
  }

  /** What the operations need in a state the kernel can be in. */
  lemma InvServes(s: State)
    requires Inv(s)
    ensures Core(s) && Structure(s) && SlotsOk(s) && SleepQ in s.queues && AsleepOnly(s.queues, [], s.queues[SleepQ])
    ensures forall p :: p in s.list <==> p in s.procs
    ensures s.current.pid in s.procs && s.current.pid < s.nextPid
  {
    SleepersAsleepOnly(s);
  }

  lemma DescendingDistinct(list: seq<Pid>)
    requires Descending(list)
    ensures Distinct(list)
  {
  }

  /** What one turn of the reaper's loop needs and does. */
  lemma ReapStep(s: State, rest: seq<Pid>)
    requires Core(s) && Structure(s) && s.current.pid == IDLE && IsTail(s.list, rest) && rest != []
    ensures rest[0] in s.procs && SlotsOk(s) && Descending(s.list) && OwnWaiters(s.queues, rest[0])
    ensures forall c :: c in s.list <==> c in s.procs
    ensures var r := if s.procs[rest[0]].dying then Sched.DestroyProcess(s, rest[0]) else s;
      Sane(r) && Core(r) && Structure(r) && r.current == s.current && IsTail(r.list, rest[1..]) &&
        ReapFrom(s, rest) == ReapFrom(r, rest[1..])
  {
    DescendingDistinct(s.list);
    TailStep(s.list, rest);
    CoreWaiters(s, rest[0]);
    if s.procs[rest[0]].dying {
      DestroyKeepsCore(s, rest[0]);
      DestroyKeepsStructure(s, rest[0]);
    }
  }

  lemma CoreWaiters(s: State, p: Pid)
    requires Core(s)
    ensures OwnWaiters(s.queues, p)
  {
    if Waiters(p) in s.queues {
      forall t | t in s.queues[Waiters(p)] ensures t.pid == p {
        assert Waiters(p) == QueueOf(t, s.threads[t].state);
      }
    }
  }

  /** A process that has just been created can be destroyed again. */
  lemma NascentIsFree(s: State)
    requires Core(s) && Structure(s)
    ensures Waiters(s.nextPid) !in s.queues && s.nextPid !in s.procs && s.nextPid !in s.list &&
      s.current.pid != s.nextPid
    ensures var r := CreateProcess(s);
      r.current == s.current && SlotsOk(r) && OwnWaiters(r.queues, s.nextPid) &&
        forall c :: c in r.list <==> c in r.procs
  {
    NextPidIsFresh(s);
    CreateKeepsCore(s);
    CreateKeepsStructure(s);
    CoreWaiters(CreateProcess(s), s.nextPid);
  }

  /** The part of sys_nprocess that is left once the process block is on the list. */
  function Furnish(s: State, p: Pid, region: bool, stacks: bool): (r: (State, bool))
    requires Sane(s) && p in s.procs
  {
    if !region then (Sched.DestroyProcess(s, p), false)
    else
      var (s1, ok) := NewThread(s, p, 0x400000, stacks);
      if ok then (s1, true) else (Sched.DestroyProcess(s1, p), false)
  }

  /** The steps sys_nprocess is made of. */
  lemma CreationSteps(s: State, entry: u32, n: u32, mem: Memory)
    requires Sane(s)
    ensures s.nextPid in CreateProcess(s).procs
    ensures Sched.NewProcess(s, entry, n, mem) ==
      if entry == 0 || n == 0 || !mem.data || !mem.directory then (s, 0)
      else
        var (r, ok) := Furnish(CreateProcess(s), s.nextPid, mem.region, mem.stacks);
        (r, if ok then s.nextPid else 0)
  {
  }

  lemma NoThreadNoChange(s: State, p: Pid, entry: u32, memOk: bool)
    requires Sane(s) && p in s.procs
    ensures !NewThread(s, p, entry, memOk).1 ==> NewThread(s, p, entry, memOk).0 == s
    ensures p in NewThread(s, p, entry, memOk).0.procs
  {
  }

  lemma ReapDone(s: State)
    requires WellFormed(s)
    ensures ReapFrom(s, []) == s
  {
  }

  /** The steps sched_destroy_process is made of. */
  lemma DestroySteps(s: State, p: Pid)
    requires WellFormed(s) && p in s.procs
    ensures s.current.pid == p ==> Sched.DestroyProcess(s, p) == s
    ensures s.current.pid != p ==>
      var r := Released(s.(procs := Reparent(s.procs, p), queues := DropThreads(s.queues, p)), p);
      && p !in r.procs && r.queues == DropThreads(s.queues, p)
      && Sched.DestroyProcess(s, p) == r.(list := Without(s.list, p), queues := r.queues - {Waiters(p)})
  {
  }

  /** No queue holds a thread of process `p`. */
  ghost predicate NoneLinked(queues: map<QId, seq<Tid>>, p: Pid) {
    forall k, t :: k in queues && t in queues[k] ==> t.pid != p
  }

  /** What is left of the state once an unlinked process block is released. */
  function Released(s: State, p: Pid): (r: State) {
    State(s.current, ThreadsExcept(s.threads, p), s.queues, s.procs - {p}, s.list, s.nextPid, s.ticks,
          set t | t in s.receiving && t.pid != p)
  }

  lemma ListKeepsWellFormed(s: State, list: seq<Pid>)
    requires WellFormed(s)
    ensures Sane(s.(list := list))
  {
  }

  lemma ReleaseKeepsWellFormed(s: State, p: Pid)
    requires WellFormed(s) && p in s.procs && s.current.pid != p
    requires NoneLinked(s.queues, p)
    ensures Sane(Released(s, p))
  {
  }

  lemma MailboxKeepsWellFormed(s: State, p: Pid)
    requires WellFormed(s) && p !in s.procs
    ensures Sane(s.(queues := s.queues - {Waiters(p)}))
  {
  }
}
