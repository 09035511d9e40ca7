/**
  The mailboxes over whole runs: nothing accepted is lost or reordered, and a
  waiting thread is proof that the ring buffer has room.
*/
module Mailboxes {
  import opened Common
  import opened Seqs
  import opened Sched
  import opened SchedInvariant
  import opened ProcessForest

  ghost predicate RingOk(p: Pid, proc: Process) {
    && proc.capacity == (if p == IDLE then 0 else MAILBOX_SLOTS)
    && |proc.ring| <= proc.capacity
    && proc.accepted == proc.delivered + proc.ring
  }

  /** Together the messages buffered for a process and the threads waiting for one, if
      there are any, never outnumber the threads a process can have. */
  ghost predicate RoomForWaiters(ring: seq<Message>, waiters: seq<Tid>) {
    waiters != [] ==> |ring| + |waiters| <= THREADS_PER_PROCESS
  }

  ghost predicate Mail(s: State)
    requires WellFormed(s)
  {
    forall p :: p in s.procs ==> RingOk(p, s.procs[p]) && RoomForWaiters(s.procs[p].ring, s.queues[Waiters(p)])
  }

  predicate SameMail(a: Process, b: Process) {
    a.capacity == b.capacity && a.ring == b.ring && a.accepted == b.accepted && a.delivered == b.delivered
  }

  /** The mailbox contents are untouched and the queues of waiters did not grow. */
  ghost predicate MailShrinks(s: State, r: State)
    requires WellFormed(s) && WellFormed(r)
  {
    forall p :: p in r.procs ==>
      && p in s.procs
      && SameMail(s.procs[p], r.procs[p])
      && |r.queues[Waiters(p)]| <= |s.queues[Waiters(p)]|
  }

  lemma MailShrinksKeepsMail(s: State, r: State)
    requires WellFormed(s) && WellFormed(r) && Mail(s) && MailShrinks(s, r)
    ensures Mail(r)
  {
    forall p | p in r.procs
      ensures RingOk(p, r.procs[p]) && RoomForWaiters(r.procs[p].ring, r.queues[Waiters(p)])
    {
      assert SameMail(s.procs[p], r.procs[p]);
    }
  }

  lemma PlaceShrinks(s: State, t: Tid, q: QId, th: Thread)
    requires WellFormed(s) && t.pid in s.procs && q in s.queues && !q.Waiters?
    ensures MailShrinks(s, Place(s, t, q, th))
  {
  }

  lemma DispatchShrinks(s: State)
    requires WellFormed(s) && s.queues[ReadyQ] != []
    ensures MailShrinks(s, Dispatch(s))
  {
  }

  lemma ScheduleShrinks(s: State)
    requires WellFormed(s)
    ensures MailShrinks(s, Schedule(s))
  {
    if s.queues[ReadyQ] != [] {
      assert MailShrinks(s, Requeue(s));
      DispatchShrinks(Requeue(s));
    }
  }

  lemma {:induction false} WakeAllShrinks(s: State, rest: seq<Tid>)
    requires WellFormed(s) && forall t :: t in rest ==> t in s.threads
    ensures MailShrinks(s, WakeAll(s, rest))
    decreases |rest|
  {
    if rest != [] {
      if s.ticks >= s.threads[rest[0]].wake {
        var s1 := Move(s, rest[0], ReadyQ, Ready);
        PlaceShrinks(s, rest[0], ReadyQ, s.threads[rest[0]].(state := Ready));
        WakeAllShrinks(s1, rest[1..]);
      } else {
        WakeAllShrinks(s, rest[1..]);
      }
    }
  }

  lemma DropKeepsOtherMail(procs: map<Pid, Process>, p: Pid)
    requires p in procs
    ensures forall q :: q in DropProcess(procs, p) ==> SameMail(procs[q], DropProcess(procs, p)[q])
  {
  }

  lemma DestroyedShrinks(s: State, r: State, p: Pid)
    requires WellFormed(s) && WellFormed(r) && p in s.procs
    requires r.procs == DropProcess(s.procs, p) && r.queues == QueuesAfter(s.queues, p)
    ensures MailShrinks(s, r)
  {
    DropKeepsOtherMail(s.procs, p);
  }

  lemma DestroyShrinks(s: State, p: Pid)
    requires WellFormed(s) && p in s.procs
    ensures MailShrinks(s, DestroyProcess(s, p))
  {
    if s.current.pid != p {
      DestroyedShrinks(s, DestroyProcess(s, p), p);
    }
  }

  lemma {:induction false} ReapShrinks(s: State, rest: seq<Pid>)
    requires WellFormed(s)
    ensures MailShrinks(s, ReapFrom(s, rest))
    decreases |rest|
  {
    if rest != [] {
      if rest[0] in s.procs && s.procs[rest[0]].dying {
        var s1 := DestroyProcess(s, rest[0]);
        DestroyShrinks(s, rest[0]);
        ReapShrinks(s1, rest[1..]);
      } else {
        ReapShrinks(s, rest[1..]);
      }
    }
  }

  lemma MarkDyingShrinks(s: State)
    requires WellFormed(s)
    ensures MailShrinks(s, MarkDying(s))
  {
  }

  lemma CreateKeepsMail(s: State)
    requires WellFormed(s) && Mail(s) && s.nextPid != IDLE
    ensures Mail(CreateProcess(s))
  {
  }

  lemma BornKeepsMail(s: State)
    requires WellFormed(s) && Structure(s) && Mail(s)
    ensures Mail(Born(s))
  {
    CreateKeepsMail(s);
    PlaceShrinks(CreateProcess(s), Tid(s.nextPid, 0), ReadyQ, FRESH.(state := Ready));
    MailShrinksKeepsMail(CreateProcess(s), Born(s));
  }

  // ----- messages

  lemma RingAfterPop(p: Pid, proc: Process)
    requires RingOk(p, proc) && proc.ring != []
    ensures RingOk(p, proc.(ring := proc.ring[1..], delivered := proc.delivered + [proc.ring[0]]))
  {
    assert proc.ring == [proc.ring[0]] + proc.ring[1..];
    assert proc.accepted == (proc.delivered + [proc.ring[0]]) + proc.ring[1..];
  }

  lemma PopKeepsMail(s: State, receiving: set<Tid>)
    requires WellFormed(s) && Mail(s)
    ensures Mail(PopMessage(s).0.(receiving := receiving))
  {
    var p := s.current.pid;
    if s.procs[p].ring != [] {
      RingAfterPop(p, s.procs[p]);
    }
  }

  /** Waking one waiter shortens the queue of `dest` by one and lengthens none. */
  lemma WakeWaiterShortens(s: State, dest: Pid)
    requires Core(s) && dest in s.procs
    ensures var r := WakeWaiter(s, dest); var w := s.queues[Waiters(dest)];
      && r.procs == s.procs
      && (w != [] ==> r.queues[Waiters(dest)] == w[1..])
      && (forall q :: q in s.procs ==> |r.queues[Waiters(q)]| <= |s.queues[Waiters(q)]|)
  {
    var w := s.queues[Waiters(dest)];
    if w != [] {
      assert w[0] !in w[1..];
    }
  }

  lemma DeliverKeepsCore(s: State, dest: Pid, m: Message)
    requires Core(s) && dest in s.procs
    ensures Core(Deliver(s, dest, m))
  {
  }

  lemma RingAfterDeliver(p: Pid, proc: Process, m: Message)
    requires RingOk(p, proc) && |proc.ring| < proc.capacity
    ensures RingOk(p, proc.(ring := proc.ring + [m], accepted := proc.accepted + [m]))
  {
    assert proc.accepted + [m] == proc.delivered + (proc.ring + [m]);
  }

  lemma SendKeepsMail(s: State, dest: Pid, kind: u32, data: Option<seq<byte>>)
    requires Core(s) && Mail(s)
    ensures Mail(Send(s, dest, kind, data).0)
  {
    if ValidPayload(data) && Accepts(s, dest) {
      var m := Message(s.current.pid, kind, data.value);
      var s1 := Deliver(s, dest, m);
      RingAfterDeliver(dest, s.procs[dest], m);
      DeliverKeepsCore(s, dest, m);
      WakeWaiterShortens(s1, dest);
      WokenKeepsMail(s, dest, m, WakeWaiter(s1, dest));
    }
  }

  lemma WokenKeepsMail(s: State, dest: Pid, m: Message, r: State)
    requires WellFormed(s) && WellFormed(r) && Mail(s) && dest in s.procs
    requires r.procs == Deliver(s, dest, m).procs && RingOk(dest, r.procs[dest])
    requires var w := s.queues[Waiters(dest)]; w != [] ==> r.queues[Waiters(dest)] == w[1..]
    requires forall q :: q in s.procs ==> |r.queues[Waiters(q)]| <= |s.queues[Waiters(q)]|
    ensures Mail(r)
  {
    forall q | q in r.procs ensures RingOk(q, r.procs[q]) && RoomForWaiters(r.procs[q].ring, r.queues[Waiters(q)]) {
      assert RingOk(q, s.procs[q]) && RoomForWaiters(s.procs[q].ring, s.queues[Waiters(q)]);
    }
  }

  /** A process has as many threads waiting as it has slots, at most. */
  lemma WaitersAreFew(s: State, p: Pid)
    requires Core(s) && SlotsOk(s) && p in s.procs
    ensures |s.queues[Waiters(p)]| <= THREADS_PER_PROCESS
  {
    var w := s.queues[Waiters(p)];
    forall t | t in w ensures t.pid == p && t.slot < THREADS_PER_PROCESS {
      assert Waiters(p) == QueueOf(t, s.threads[t].state);
    }
    FewSlots(w, p, THREADS_PER_PROCESS);
  }

  lemma {:induction false} FewSlots(w: seq<Tid>, p: Pid, n: nat)
    requires Distinct(w) && forall t :: t in w ==> t.pid == p && t.slot < n
    ensures |w| <= n
    decreases n
  {
    if w != [] {
      assert w[0] in w;
      var last := Tid(p, n - 1);
      WithoutDistinct(w, last);
      FewSlots(Without(w, last), p, n - 1);
      if last in w {
        var k :| 0 <= k < |w| && w[k] == last;
        WithoutAt(w, k);
      }
    }
  }

  /** Queueing a waiter on an empty mailbox. */
  lemma PlaceWaiterKeepsMail(s: State, r: State, p: Pid)
    requires WellFormed(s) && WellFormed(r) && Mail(s) && r.procs == s.procs && p in s.procs && s.procs[p].ring == []
    requires |r.queues[Waiters(p)]| <= THREADS_PER_PROCESS
    requires forall q :: q in s.procs && q != p ==> |r.queues[Waiters(q)]| <= |s.queues[Waiters(q)]|
    ensures Mail(r)
  {
    forall q | q in r.procs ensures RingOk(q, r.procs[q]) && RoomForWaiters(r.procs[q].ring, r.queues[Waiters(q)]) {
      assert RingOk(q, s.procs[q]) && RoomForWaiters(s.procs[q].ring, s.queues[Waiters(q)]);
    }
  }

  lemma MarkBlockedKeepsMail(s: State)
    requires Core(s) && Structure(s) && Mail(s) && s.current != IDLE0 && s.procs[s.current.pid].ring == []
    ensures Mail(MarkBlocked(s))
  {
    hide NoRepeats, Located, Findable, IdleAhead, Mail;
    var r := MarkBlocked(s);
    MarkBlockedKeepsCore(s);
    assert SlotsOk(r);
    WaitersAreFew(r, s.current.pid);
    PlaceWaiterKeepsMail(s, r, s.current.pid);
  }

  /** A waiting thread means the send cannot be refused for want of room: a valid message
      to a live user process with a waiter is always accepted. */
  lemma SendToWaiterSucceeds(s: State, dest: Pid, kind: u32, data: Option<seq<byte>>)
    requires Core(s) && Mail(s) && dest in s.procs && dest != IDLE && !s.procs[dest].dying
    requires ValidPayload(data) && s.queues[Waiters(dest)] != []
    ensures Send(s, dest, kind, data).1
  {
    assert RoomForWaiters(s.procs[dest].ring, s.queues[Waiters(dest)]);
  }
}
