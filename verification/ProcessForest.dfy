/**
  The process list and the parent forest: the list runs from the newest process to
  idle, and every parent link leads to an older live process, so the walk up from
  any process ends at idle.
*/
module ProcessForest {
  import opened Common
  import opened Seqs
  import opened Sched
  import opened SchedInvariant

  ghost predicate Descending(list: seq<Pid>) {
    forall i, j :: 0 <= i < j < |list| ==> list[i] > list[j]
  }

  ghost predicate ListOk(s: State) {
    && Descending(s.list)
    && (forall p :: p in s.list <==> p in s.procs)
    && (forall p :: p in s.procs ==> p < s.nextPid)
    && IDLE in s.procs
    && (forall p :: Waiters(p) in s.queues ==> p in s.procs)
  }

  /** The parent of a process is live and strictly older; only idle has none. */
  ghost predicate DadsOk(procs: map<Pid, Process>) {
    forall p :: p in procs ==>
      if p == IDLE then procs[p].dad == None
      else procs[p].dad.Some? && procs[p].dad.value < p && procs[p].dad.value in procs
  }

  ghost predicate SlotsOk(s: State) {
    && (forall t :: t in s.threads ==> t.slot < THREADS_PER_PROCESS)
    && (forall t :: t in s.receiving ==> t in s.threads)
  }

  ghost predicate Structure(s: State) {
    ListOk(s) && DadsOk(s.procs) && SlotsOk(s)
  }

  // ----- steps that do not touch processes

  /** Same processes, same list, same set of queues; threads only as the slots allow. */
  ghost predicate SameProcesses(s: State, r: State) {
    && r.list == s.list && r.nextPid == s.nextPid
    && r.procs.Keys == s.procs.Keys
    && r.queues.Keys == s.queues.Keys
    && (forall p :: p in s.procs ==> r.procs[p].dad == s.procs[p].dad)
    && (forall t :: t in s.threads ==> t in r.threads)
    && (forall t :: t in r.threads ==> t in s.threads || t.slot < THREADS_PER_PROCESS)
    && (forall t :: t in r.receiving ==> t in s.receiving || t in s.threads)
  }

  lemma SameProcessesKeepsStructure(s: State, r: State)
    requires Structure(s) && SameProcesses(s, r)
    ensures Structure(r)
  {
  }

  lemma DispatchSameProcesses(s: State)
    requires WellFormed(s) && s.queues[ReadyQ] != []
    ensures SameProcesses(s, Dispatch(s))
  {
  }

  lemma ScheduleSameProcesses(s: State)
    requires WellFormed(s)
    ensures SameProcesses(s, Schedule(s))
  {
    if s.queues[ReadyQ] != [] {
      assert SameProcesses(s, Requeue(s));
      DispatchSameProcesses(Requeue(s));
    }
  }

  lemma WakeAllSameProcesses(s: State, rest: seq<Tid>)
    requires WellFormed(s) && forall t :: t in rest ==> t in s.threads
    ensures SameProcesses(s, WakeAll(s, rest))
    decreases |rest|
  {
    if rest != [] {
      if s.ticks >= s.threads[rest[0]].wake {
        WakeAllSameProcesses(Move(s, rest[0], ReadyQ, Ready), rest[1..]);
      } else {
        WakeAllSameProcesses(s, rest[1..]);
      }
    }
  }

  lemma SendSameProcesses(s: State, dest: Pid, kind: u32, data: Option<seq<byte>>)
    requires WellFormed(s)
    ensures SameProcesses(s, Send(s, dest, kind, data).0)
  {
  }

  // ----- steps that do

  lemma ConsDescends(list: seq<Pid>, p: Pid)
    requires Descending(list) && forall q :: q in list ==> q < p
    ensures Descending([p] + list)
  {
    var r := [p] + list;
    forall i, j | 0 <= i < j < |r| ensures r[i] > r[j] {
      assert r[j] == list[j - 1] && list[j - 1] in list;
    }
  }

  lemma CreateKeepsList(s: State)
    requires WellFormed(s) && ListOk(s)
    ensures ListOk(CreateProcess(s))
  {
    ConsDescends(s.list, s.nextPid);
    var s' := CreateProcess(s);
    assert forall q :: q in s'.list <==> q == s.nextPid || q in s.list;
  }

  lemma CreateKeepsDads(s: State)
    requires WellFormed(s) && Structure(s)
    ensures DadsOk(CreateProcess(s).procs)
  {
  }

  lemma CreateKeepsStructure(s: State)
    requires WellFormed(s) && Structure(s)
    ensures Structure(CreateProcess(s))
  {
    CreateKeepsList(s);
    CreateKeepsDads(s);
  }

  lemma WithoutDescends(list: seq<Pid>, p: Pid)
    requires Descending(list)
    ensures Descending(Without(list, p))
  {
    if list != [] {
      WithoutDescends(list[1..], p);
      if list[0] != p {
        var r := Without(list[1..], p);
        forall j | 0 <= j < |r| ensures list[0] > r[j] {
          assert r[j] in list[1..];
        }
      }
    }
  }

  lemma DropKeepsDads(procs: map<Pid, Process>, p: Pid)
    requires DadsOk(procs) && p in procs && p != IDLE
    ensures DadsOk(DropProcess(procs, p))
  {
  }

  lemma DestroyKeepsStructure(s: State, p: Pid)
    requires WellFormed(s) && Structure(s) && p in s.procs && p != IDLE
    ensures Structure(DestroyProcess(s, p))
  {
    WithoutDescends(s.list, p);
    DropKeepsDads(s.procs, p);
  }

  lemma ReapKeepsStructure(s: State, rest: seq<Pid>)
    requires Core(s) && Structure(s)
    ensures Structure(ReapFrom(s, rest))
    decreases |rest|
  {
    if rest != [] {
      if rest[0] in s.procs && s.procs[rest[0]].dying {
        DestroyKeepsCore(s, rest[0]);
        DestroyKeepsStructure(s, rest[0]);
        ReapKeepsStructure(DestroyProcess(s, rest[0]), rest[1..]);
      } else {
        ReapKeepsStructure(s, rest[1..]);
      }
    }
  }

  // ----- sys_nprocess is all or nothing

  lemma FilterKeepsAll(queue: seq<Tid>, p: Pid)
    requires forall t :: t in queue ==> t.pid != p
    ensures Filter(queue, NotOf(p)) == queue
  {
    FilterAll(queue, NotOf(p));
  }

  lemma QueuesUndone(queues: map<QId, seq<Tid>>, p: Pid)
    requires Waiters(p) !in queues
    requires forall k, t :: k in queues && t in queues[k] ==> t.pid != p
    ensures QueuesAfter(queues[Waiters(p) := []], p) == queues
  {
    var all := queues[Waiters(p) := []];
    var q := QueuesAfter(all, p);
    assert q.Keys == queues.Keys;
    forall k | k in queues ensures q[k] == queues[k] {
      assert q[k] == DropThreads(all, p)[k] == Filter(all[k], NotOf(p));
      assert all[k] == queues[k];
      FilterKeepsAll(queues[k], p);
    }
  }

  lemma ProcsUndone(procs: map<Pid, Process>, p: Pid, proc: Process)
    requires p !in procs && forall c :: c in procs ==> procs[c].dad != Some(p)
    ensures DropProcess(procs[p := proc], p) == procs
  {
  }

  lemma ThreadsUndone(threads: map<Tid, Thread>, p: Pid)
    requires forall t :: t in threads ==> t.pid != p
    ensures ThreadsExcept(threads, p) == threads
  {
  }

  lemma NextPidIsFresh(s: State)
    requires WellFormed(s) && Structure(s)
    ensures s.nextPid !in s.procs && s.nextPid !in s.list && Waiters(s.nextPid) !in s.queues
    ensures forall k, t :: k in s.queues && t in s.queues[k] ==> t.pid != s.nextPid
    ensures forall t :: t in s.threads || t in s.receiving ==> t.pid != s.nextPid
    ensures forall c :: c in s.procs ==> s.procs[c].dad != Some(s.nextPid)
  {
  }

  /** Destroying a process that never got a thread leaves nothing behind but a used pid. */
  lemma CreateThenDestroy(s: State)
    requires WellFormed(s) && Structure(s)
    ensures DestroyProcess(CreateProcess(s), s.nextPid) == s.(nextPid := s.nextPid + 1)
  {
    var p := s.nextPid;
    NextPidIsFresh(s);
    UndoCreate(s, p, CreateProcess(s).procs[p]);
  }

  lemma UndoCreate(s: State, p: Pid, proc: Process)
    requires p !in s.procs && p !in s.list && Waiters(p) !in s.queues
    requires forall k, t :: k in s.queues && t in s.queues[k] ==> t.pid != p
    requires forall t :: t in s.threads || t in s.receiving ==> t.pid != p
    requires forall c :: c in s.procs ==> s.procs[c].dad != Some(p)
    ensures QueuesAfter(s.queues[Waiters(p) := []], p) == s.queues
    ensures DropProcess(s.procs[p := proc], p) == s.procs
    ensures ThreadsExcept(s.threads, p) == s.threads
    ensures Without([p] + s.list, p) == s.list
    ensures (set t | t in s.receiving && t.pid != p) == s.receiving
  {
    QueuesUndone(s.queues, p);
    ProcsUndone(s.procs, p, proc);
    ThreadsUndone(s.threads, p);
    WithoutAppend([p], s.list, p);
  }

  /** The first thread of a new process. */
  function Born(s: State): (r: State)
    requires WellFormed(s)
    ensures WellFormed(r)
  {
    Place(CreateProcess(s), Tid(s.nextPid, 0), ReadyQ, FRESH.(state := Ready))
  }

  /** sys_nprocess either changes nothing but the pid counter and returns 0, or adds one
      process with one ready thread and returns its pid. */
  lemma NewProcessAllOrNothing(s: State, entry: u32, n: u32, mem: Memory)
    requires WellFormed(s) && Structure(s)
    ensures var (r, pid) := NewProcess(s, entry, n, mem);
      if entry != 0 && n != 0 && mem == Memory(true, true, true, true)
      then pid == s.nextPid && r == Born(s)
      else pid == 0 && (r == s || r == s.(nextPid := s.nextPid + 1))
  {
    hide DestroyProcess, Place, FreeSlot, Structure, WellFormed;
    CreateThenDestroy(s);
    FirstSlotIsFree(s);
  }

  lemma FirstSlotIsFree(s: State)
    requires WellFormed(s) && Structure(s)
    ensures FreeSlot(CreateProcess(s), s.nextPid, 0) == Some(0)
  {
    assert Tid(s.nextPid, 0) !in s.threads;
  }

  lemma BornKeepsCore(s: State)
    requires Core(s) && Structure(s)
    ensures Core(Born(s))
  {
    NextPidIsFresh(s);
    CreateKeepsCore(s);
    PlaceKeepsCore(CreateProcess(s), Tid(s.nextPid, 0), ReadyQ, FRESH.(state := Ready));
  }

  lemma CountingKeepsCore(s: State, nextPid: Pid)
    requires Core(s)
    ensures Core(s.(nextPid := nextPid))
  {
  }
}
