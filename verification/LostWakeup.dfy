/**
  Why NoLostWakeup needs its hypothesis: a run in which the yield of a receive pops a thread
  of a dying process, goes on in the receiver itself, and leaves a waiter that no receive
  stands behind. A later message goes to that waiter, while a thread that does receive waits on.
*/
module LostWakeup {
  import opened Common
  import opened Seqs
  import opened Sched
  import opened ProcessForest
  import opened SchedRuns
  import opened WokenReceivers

  const D0: Tid := Tid(1, 0)
  const P0: Tid := Tid(2, 0)
  const P1: Tid := Tid(2, 1)
  const ALL: Memory := Memory(true, true, true, true)
  const MAIL: Message := Message(IDLE, 0, [7])
  const NPROCESS: Action := NProcess(1, 1, ALL)
  const NTHREAD: Action := NThread(1, true)
  const RECEIVE: Action := ReceiveUpTo(1)
  const SEND: Action := SendTo(2, 0, Some([7]))

  /** Process 1 creates process 2 and faults; two threads of process 2 receive; idle sends once. */
  const RUN: seq<Action> :=
    [NPROCESS, Yield, NPROCESS, Fault, Yield, NTHREAD, RECEIVE, ResumeReceive, Yield, Yield, RECEIVE, SEND]

  // ----- the states of the run, in terms of what varies

  function Threads1(d0: ThreadState): (m: map<Tid, Thread>)
    ensures m.Keys == {IDLE0, D0} && m[IDLE0] == FRESH && m[D0] == FRESH.(state := d0)
  {
    map[IDLE0 := FRESH, D0 := FRESH.(state := d0)]
  }

  function Threads2(p0: ThreadState): (m: map<Tid, Thread>)
    ensures m.Keys == {IDLE0, D0, P0} && m[IDLE0] == FRESH && m[D0] == FRESH && m[P0] == FRESH.(state := p0)
  {
    map[IDLE0 := FRESH, D0 := FRESH, P0 := FRESH.(state := p0)]
  }

  function Threads3(p0: ThreadState, p1: ThreadState): (m: map<Tid, Thread>)
    ensures m.Keys == {IDLE0, D0, P0, P1} && m[IDLE0] == FRESH && m[D0] == FRESH
    ensures m[P0] == FRESH.(state := p0) && m[P1] == FRESH.(state := p1)
  {
    Threads2(p0)[P1 := FRESH.(state := p1)]
  }

  function Queues1(ready: seq<Tid>): (m: map<QId, seq<Tid>>)
    ensures m.Keys == {ReadyQ, SleepQ, ZombieQ, Waiters(IDLE), Waiters(1)} && m[ReadyQ] == ready
    ensures forall k :: k in m && k != ReadyQ ==> m[k] == []
  {
    map[ReadyQ := ready, SleepQ := [], ZombieQ := [], Waiters(IDLE) := [], Waiters(1) := []]
  }

  function Queues2(ready: seq<Tid>, waiting: seq<Tid>): (m: map<QId, seq<Tid>>)
    ensures m.Keys == {ReadyQ, SleepQ, ZombieQ, Waiters(IDLE), Waiters(1), Waiters(2)}
    ensures m[ReadyQ] == ready && m[Waiters(2)] == waiting
    ensures forall k :: k in m && k != ReadyQ && k != Waiters(2) ==> m[k] == []
  {
    Queues1(ready)[Waiters(2) := waiting]
  }

  const PROC0: Process := Process(false, None, 0, [], [], [])

  function Procs1(): (m: map<Pid, Process>)
    ensures m.Keys == {IDLE, 1} && !m[1].dying && !m[IDLE].dying
  {
    map[IDLE := PROC0, 1 := Process(false, Some(IDLE), MAILBOX_SLOTS, [], [], [])]
  }

  function Procs2(dying: bool, ring: seq<Message>): (m: map<Pid, Process>)
    ensures m.Keys == {IDLE, 1, 2} && m[1].dying == dying && !m[IDLE].dying
    ensures m[2] == Process(false, Some(1), MAILBOX_SLOTS, ring, ring, [])
  {
    map[IDLE := PROC0, 1 := Process(dying, Some(IDLE), MAILBOX_SLOTS, [], [], []),
        2 := Process(false, Some(1), MAILBOX_SLOTS, ring, ring, [])]
  }

  function Early(current: Tid, d0: ThreadState, ready: seq<Tid>): (s: State) {
    State(current, Threads1(d0), Queues1(ready), Procs1(), [1, IDLE], 2, 0, {})
  }

  function Middle(current: Tid, p0: ThreadState, ready: seq<Tid>, dying: bool): (s: State) {
    State(current, Threads2(p0), Queues2(ready, []), Procs2(dying, []), [2, 1, IDLE], 3, 0, {})
  }

  function Late(current: Tid, p0: ThreadState, p1: ThreadState, ready: seq<Tid>, waiting: seq<Tid>,
                ring: seq<Message>, receiving: set<Tid>): State {
    State(current, Threads3(p0, p1), Queues2(ready, waiting), Procs2(true, ring), [2, 1, IDLE], 3, 0, receiving)
  }

  /** The state after the first `i` steps. */
  function Stage(i: nat): (s: State)
    requires i <= 12
  {
    match i
    case 0 => INITIAL
    case 1 => Early(IDLE0, Ready, [D0])
    case 2 => Early(D0, Running, [IDLE0])
    case 3 => Middle(D0, Ready, [IDLE0, P0], false)
    case 4 => Middle(IDLE0, Ready, [P0, D0], true)
    case 5 => Middle(P0, Running, [D0, IDLE0], true)
    case 6 => Late(P0, Running, Ready, [D0, IDLE0, P1], [], [], {})
    case 7 => Late(P0, Blocked, Ready, [IDLE0, P1], [P0], [], {P0})
    case 8 => Late(P0, Blocked, Ready, [IDLE0, P1], [P0], [], {})
    case 9 => Late(IDLE0, Blocked, Ready, [P1], [P0], [], {})
    case 10 => Late(P1, Blocked, Running, [IDLE0], [P0], [], {})
    case 11 => Late(IDLE0, Blocked, Blocked, [], [P0, P1], [], {P1})
    case 12 => Late(IDLE0, Ready, Blocked, [P0], [P1], [MAIL], {P1})
  }

  // ----- single steps, for states in which the thread that moves is linked nowhere

  ghost predicate Unlinked(queues: map<QId, seq<Tid>>, t: Tid) {
    forall k :: k in queues ==> t !in queues[k]
  }

  lemma PushUnlinked(queues: map<QId, seq<Tid>>, k: QId, t: Tid)
    requires Unlinked(queues, t) && k in queues
    ensures Push(queues, k, t) == queues[k := queues[k] + [t]]
  {
    assert Detach(queues, t) == queues;
  }

  /** A running thread yields to the normal thread at the front. */
  lemma SwitchAway(s: State, n: Tid, rest: seq<Tid>)
    requires WellFormed(s) && s.queues[ReadyQ] == [n] + rest && s.threads[s.current].state.Running?
    requires Unlinked(s.queues, s.current) && n in s.threads && !s.procs[n.pid].dying
    ensures Schedule(s) == s.(current := n, queues := s.queues[ReadyQ := rest + [s.current]],
                              threads := s.threads[n := s.threads[n].(state := Running)])
  {
    hide Push;
    PushUnlinked(s.queues, ReadyQ, s.current);
    assert n in s.queues[ReadyQ];
    assert ([n] + rest + [s.current])[1..] == rest + [s.current];
    assert s.queues[ReadyQ := [n] + rest + [s.current]][ReadyQ := rest + [s.current]]
        == s.queues[ReadyQ := rest + [s.current]];
  }

  /** A thread that is not running leaves to the thread at the front, or stays when that is dying. */
  lemma SwitchFrom(s: State, n: Tid, rest: seq<Tid>)
    requires WellFormed(s) && s.queues[ReadyQ] == [n] + rest && !s.threads[s.current].state.Running?
    requires n in s.threads && n != s.current
    ensures Schedule(s) ==
      if s.procs[n.pid].dying then s.(queues := s.queues[ReadyQ := rest])
      else s.(current := n, queues := s.queues[ReadyQ := rest],
        threads := s.threads[n := s.threads[n].(state := Running)])
  {
  }

  lemma FaultsUnlinked(s: State)
    requires WellFormed(s) && forall t: Tid :: t.pid == s.current.pid ==> Unlinked(s.queues, t)
    ensures MarkDying(s) == s.(procs := s.procs[s.current.pid := s.procs[s.current.pid].(dying := true)])
  {
    hide Filter;
    forall k | k in s.queues ensures Filter(s.queues[k], NotOf(s.current.pid)) == s.queues[k] {
      FilterAll(s.queues[k], NotOf(s.current.pid));
    }
  }

  lemma BlocksUnlinked(s: State)
    requires WellFormed(s) && Unlinked(s.queues, s.current) && s.procs[s.current.pid].ring == []
    ensures var k := Waiters(s.current.pid);
      && k in s.queues
      && MarkBlocked(s) == s.(queues := s.queues[k := s.queues[k] + [s.current]],
                              threads := s.threads[s.current := s.threads[s.current].(state := Blocked)],
                              receiving := s.receiving + {s.current})
      && Receive(s, 1) == Schedule(MarkBlocked(s))
  {
    hide Push, Schedule;
    PushUnlinked(s.queues, Waiters(s.current.pid), s.current);
  }

  lemma BornUnlinked(s: State)
    requires WellFormed(s) && Structure(s)
    ensures var p := s.nextPid; var t := Tid(p, 0);
      NewProcess(s, 1, 1, ALL).0 == State(
        s.current, s.threads[t := FRESH.(state := Ready)],
        s.queues[Waiters(p) := []][ReadyQ := s.queues[ReadyQ] + [t]],
        s.procs[p := Process(false, Some(s.current.pid), MAILBOX_SLOTS, [], [], [])], [p] + s.list, p + 1, s.ticks,
          s.receiving)
  {
    hide Push, NewProcess;
    NewProcessAllOrNothing(s, 1, 1, ALL);
    NextPidIsFresh(s);
    PushUnlinked(CreateProcess(s).queues, ReadyQ, Tid(s.nextPid, 0));
  }

  // ----- the steps of the run

  lemma Step0()
    requires WellFormed(INITIAL) && Structure(INITIAL)
    ensures Enabled(INITIAL, NPROCESS) && Step(INITIAL, NPROCESS) == Early(IDLE0, Ready, [D0])
  {
    hide NewProcess, Structure, WellFormed, Threads1, Queues1, Procs1;
    BornUnlinked(INITIAL);
    FirstQueues();
    FirstThreads();
  }

  lemma FirstQueues()
    ensures INITIAL.queues[Waiters(1) := []][ReadyQ := INITIAL.queues[ReadyQ] + [D0]] == Queues1([D0])
  {
    assert [] + [D0] == [D0];
  }

  lemma FirstThreads()
    ensures INITIAL.threads[D0 := FRESH.(state := Ready)] == Threads1(Ready)
    ensures INITIAL.procs[1 := Process(false, Some(IDLE), MAILBOX_SLOTS, [], [], [])] == Procs1()
  {
  }

  lemma Step1(s: State)
    requires WellFormed(s) && s == Early(IDLE0, Ready, [D0])
    ensures Enabled(s, Yield) && Step(s, Yield) == Early(D0, Running, [IDLE0])
  {
    hide Schedule, Threads1, Queues1, Procs1, WellFormed;
    SwitchAway(s, D0, []);
    assert [] + [IDLE0] == [IDLE0];
    assert Queues1([D0])[ReadyQ := [IDLE0]] == Queues1([IDLE0]);
    assert Threads1(Ready)[D0 := FRESH] == Threads1(Running);
  }

  lemma Step2(s: State)
    requires WellFormed(s) && Structure(s) && s == Early(D0, Running, [IDLE0])
    ensures Enabled(s, NPROCESS) && Step(s, NPROCESS) == Middle(D0, Ready, [IDLE0, P0], false)
  {
    hide NewProcess, Structure, WellFormed;
    BornUnlinked(s);
    assert [IDLE0] + [P0] == [IDLE0, P0];
    assert Queues1([IDLE0])[Waiters(2) := []][ReadyQ := [IDLE0, P0]] == Queues2([IDLE0, P0], []);
    assert Threads1(Running)[P0 := FRESH.(state := Ready)] == Threads2(Ready);
    assert Procs1()[2 := Process(false, Some(1), MAILBOX_SLOTS, [], [], [])] == Procs2(false, []);
  }

  lemma Step3(s: State)
    requires WellFormed(s) && s == Middle(D0, Ready, [IDLE0, P0], false)
    ensures Enabled(s, Fault) && Step(s, Fault) == Middle(IDLE0, Ready, [P0, D0], true)
  {
    hide Schedule, MarkDying, Threads2, Queues2, WellFormed;
    FaultsUnlinked(s);
    SwitchAway(MarkDying(s), IDLE0, [P0]);
    assert [P0] + [D0] == [P0, D0];
    ReadyQueues([IDLE0, P0], [], [P0, D0]);
    assert Threads2(Ready)[IDLE0 := FRESH] == Threads2(Ready);
    assert Procs2(false, [])[1 := Procs2(false, [])[1].(dying := true)] == Procs2(true, []);
  }

  lemma Step4(s: State)
    requires WellFormed(s) && s == Middle(IDLE0, Ready, [P0, D0], true)
    ensures Enabled(s, Yield) && Step(s, Yield) == Middle(P0, Running, [D0, IDLE0], true)
  {
    hide Schedule, Threads2, Queues2, Procs2, WellFormed;
    SwitchAway(s, P0, [D0]);
    assert [D0] + [IDLE0] == [D0, IDLE0];
    ReadyQueues([P0, D0], [], [D0, IDLE0]);
    assert Threads2(Ready)[P0 := FRESH] == Threads2(Running);
  }

  lemma Step5(s: State)
    requires WellFormed(s) && s == Middle(P0, Running, [D0, IDLE0], true)
    ensures Enabled(s, NTHREAD) && Step(s, NTHREAD) == Late(P0, Running, Ready, [D0, IDLE0, P1], [], [], {})
  {
    hide Push, Queues2, Threads2, Procs2, WellFormed;
    PushUnlinked(s.queues, ReadyQ, P1);
    assert FreeSlot(s, 2, 1) == Some(1);
    assert [D0, IDLE0] + [P1] == [D0, IDLE0, P1];
    ReadyQueues([D0, IDLE0], [], [D0, IDLE0, P1]);
    assert Threads2(Running)[P1 := FRESH.(state := Ready)] == Threads3(Running, Ready);
  }

  lemma Step6(s: State)
    requires WellFormed(s) && s == Late(P0, Running, Ready, [D0, IDLE0, P1], [], [], {})
    ensures Enabled(s, RECEIVE) && Step(s, RECEIVE) == Late(P0, Blocked, Ready, [IDLE0, P1], [P0], [], {P0})
  {
    hide Schedule, MarkBlocked, Receive, Threads3, Queues2, Procs2, WellFormed;
    BlocksUnlinked(s);
    BlockedQueues([D0, IDLE0, P1], [], P0);
    assert [] + [P0] == [P0];
    assert Threads3(Running, Ready)[P0 := FRESH.(state := Blocked)] == Threads3(Blocked, Ready);
    SwitchFrom(MarkBlocked(s), D0, [IDLE0, P1]);
    ReadyQueues([D0, IDLE0, P1], [P0], [IDLE0, P1]);
  }

  lemma BlockedQueues(ready: seq<Tid>, waiting: seq<Tid>, t: Tid)
    ensures Queues2(ready, waiting)[Waiters(2) := waiting + [t]] == Queues2(ready, waiting + [t])
  {
  }

  lemma ReadyQueues(ready: seq<Tid>, waiting: seq<Tid>, now: seq<Tid>)
    ensures Queues2(ready, waiting)[ReadyQ := now] == Queues2(now, waiting)
  {
  }

  lemma Step7(s: State)
    requires WellFormed(s) && s == Late(P0, Blocked, Ready, [IDLE0, P1], [P0], [], {P0})
    ensures Enabled(s, ResumeReceive) && Step(s, ResumeReceive) == Late(P0, Blocked, Ready, [IDLE0, P1], [P0], [], {})
  {
    hide Threads3, Queues2, Procs2, WellFormed;
    assert {P0} - {P0} == {};
  }

  lemma Step8(s: State)
    requires WellFormed(s) && s == Late(P0, Blocked, Ready, [IDLE0, P1], [P0], [], {})
    ensures Enabled(s, Yield) && Step(s, Yield) == Late(IDLE0, Blocked, Ready, [P1], [P0], [], {})
  {
    hide Schedule, Threads3, Queues2, Procs2, WellFormed;
    SwitchFrom(s, IDLE0, [P1]);
    ReadyQueues([IDLE0, P1], [P0], [P1]);
    assert Threads3(Blocked, Ready)[IDLE0 := FRESH] == Threads3(Blocked, Ready);
  }

  lemma Step9(s: State)
    requires WellFormed(s) && s == Late(IDLE0, Blocked, Ready, [P1], [P0], [], {})
    ensures Enabled(s, Yield) && Step(s, Yield) == Late(P1, Blocked, Running, [IDLE0], [P0], [], {})
  {
    hide Schedule, Threads3, Queues2, Procs2, WellFormed;
    SwitchAway(s, P1, []);
    assert [] + [IDLE0] == [IDLE0];
    ReadyQueues([P1], [P0], [IDLE0]);
    assert Threads3(Blocked, Ready)[P1 := FRESH] == Threads3(Blocked, Running);
  }

  lemma Step10(s: State)
    requires WellFormed(s) && s == Late(P1, Blocked, Running, [IDLE0], [P0], [], {})
    ensures Enabled(s, RECEIVE) && Step(s, RECEIVE) == Late(IDLE0, Blocked, Blocked, [], [P0, P1], [], {P1})
  {
    hide Schedule, MarkBlocked, Receive, Threads3, Queues2, Procs2, WellFormed;
    BlocksUnlinked(s);
    BlockedQueues([IDLE0], [P0], P1);
    assert [P0] + [P1] == [P0, P1];
    assert Threads3(Blocked, Running)[P1 := FRESH.(state := Blocked)] == Threads3(Blocked, Blocked);
    SwitchFrom(MarkBlocked(s), IDLE0, []);
    ReadyQueues([IDLE0], [P0, P1], []);
    assert Threads3(Blocked, Blocked)[IDLE0 := FRESH] == Threads3(Blocked, Blocked);
  }

  lemma Step11(s: State)
    requires WellFormed(s) && s == Late(IDLE0, Blocked, Blocked, [], [P0, P1], [], {P1})
    ensures Enabled(s, SEND) && Step(s, SEND) == Late(IDLE0, Ready, Blocked, [P0], [P1], [MAIL], {P1})
  {
    hide Push, Threads3, Queues2, Procs2, WellFormed, Deliver, WakeWaiter;
    Delivered(s);
    Woken1(Late(IDLE0, Blocked, Blocked, [], [P0, P1], [MAIL], {P1}));
  }

  lemma Delivered(s: State)
    requires WellFormed(s) && s == Late(IDLE0, Blocked, Blocked, [], [P0, P1], [], {P1})
    ensures Deliver(s, 2, MAIL) == Late(IDLE0, Blocked, Blocked, [], [P0, P1], [MAIL], {P1})
  {
    hide Threads3, Queues2, WellFormed;
    assert [] + [MAIL] == [MAIL];
    DeliveredProcs();
  }

  lemma Woken1(s: State)
    requires WellFormed(s) && s == Late(IDLE0, Blocked, Blocked, [], [P0, P1], [MAIL], {P1})
    ensures WakeWaiter(s, 2) == Late(IDLE0, Ready, Blocked, [P0], [P1], [MAIL], {P1})
  {
    hide Push, Threads3, Queues2, Procs2, WellFormed;
    var popped := Queues2([], [P0, P1])[Waiters(2) := [P1]];
    assert popped == Queues2([], [P1]);
    assert [P0, P1][1..] == [P1];
    PushUnlinked(popped, ReadyQ, P0);
    assert [] + [P0] == [P0];
    ReadyQueues([], [P1], [P0]);
    assert Threads3(Blocked, Blocked)[P0 := FRESH.(state := Ready)] == Threads3(Ready, Blocked);
  }

  lemma DeliveredProcs()
    ensures Procs2(true, [])[2 := Process(false, Some(1), MAILBOX_SLOTS, [MAIL], [MAIL], [])] == Procs2(true, [MAIL])
  {
  }

  lemma InvIsWellFormed(s: State)
    requires Inv(s)
    ensures WellFormed(s) && Structure(s)
  {
  }

  lemma StageStep(i: nat)
    requires i < 12 && Inv(Stage(i))
    ensures WellFormed(Stage(i)) && Enabled(Stage(i), RUN[i]) && Step(Stage(i), RUN[i]) == Stage(i + 1)
  {
    hide Inv, Step, Enabled, WellFormed, Structure, Early, Middle, Late;
    var s := Stage(i);
    InvIsWellFormed(s);
    match i {
      case 0 => Step0();
      case 1 => Step1(s);
      case 2 => Step2(s);
      case 3 => Step3(s);
      case 4 => Step4(s);
      case 5 => Step5(s);
      case 6 => Step6(s);
      case 7 => Step7(s);
      case 8 => Step8(s);
      case 9 => Step9(s);
      case 10 => Step10(s);
      case 11 => Step11(s);
    }
  }

  lemma {:induction false} RunTo(i: nat)
    requires i <= 12
    ensures Legal(INITIAL, RUN[..i]) && After(INITIAL, RUN[..i]) == Stage(i) && Inv(Stage(i))
    decreases i
  {
    hide Inv, Step, Enabled, WellFormed, Stage, Legal, After;
    if i == 0 {
      NoSteps();
    } else {
      RunTo(i - 1);
      StageStep(i - 1);
      StepKeepsInv(Stage(i - 1), RUN[i - 1]);
      OneStep(i - 1);
    }
  }

  lemma NoSteps()
    ensures Legal(INITIAL, []) && After(INITIAL, []) == Stage(0) && Inv(Stage(0)) && RUN[..0] == []
  {
    InitialInv();
  }

  lemma OneStep(i: nat)
    requires i < 12 && Legal(INITIAL, RUN[..i]) && Enabled(After(INITIAL, RUN[..i]), RUN[i])
    ensures Legal(INITIAL, RUN[..i + 1]) && After(INITIAL, RUN[..i + 1]) == Step(After(INITIAL, RUN[..i]), RUN[i])
  {
    hide Step, Enabled, WellFormed;
    assert Front(RUN[..i + 1]) == RUN[..i] && Last(RUN[..i + 1]) == RUN[i];
    LegalStarts(RUN[..i]);
  }

  lemma LegalStarts(actions: seq<Action>)
    requires Legal(INITIAL, actions)
    ensures WellFormed(INITIAL)
  {
  }

  /** Without the hypothesis the conclusion fails: this run ends with a message buffered, a thread
      waiting for one, and no receiver that the message is owed to. */
  lemma WakeupLost()
    ensures Legal(INITIAL, RUN)
    ensures var s := After(INITIAL, RUN);
      2 in s.procs && s.queues[Waiters(2)] == [P1] && P1 in s.receiving && |s.procs[2].ring| == 1 && Owed(s, 2) == {}
  {
    hide Legal, After, Inv, WellFormed, Threads3, Queues2, Procs2;
    RunTo(12);
    assert RUN[..12] == RUN;
  }
}
