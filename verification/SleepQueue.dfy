/**
  The timer's walk over the sleep queue, which unlinks nodes while it iterates:
  it is an exact, order-keeping split of the queue into awake and still asleep.
*/
module SleepQueue {
  import opened Seqs
  import opened Sched
  import opened SchedInvariant

  function Due(s: State): (keep: Tid -> bool) {
    (t: Tid) => t in s.threads && s.threads[t].wake <= s.ticks
  }

  function Not(f: Tid -> bool): (keep: Tid -> bool) {
    (t: Tid) => !f(t)
  }

  /** The queues after the walk over `rest`, which followed `slept` in the sleep queue. */
  function SplitQueues(queues: map<QId, seq<Tid>>, slept: seq<Tid>, rest: seq<Tid>, due: Tid -> bool)
    : map<QId, seq<Tid>>
    requires ReadyQ in queues
  {
    queues[SleepQ := slept + Filter(rest, Not(due))][ReadyQ := queues[ReadyQ] + Filter(rest, due)]
  }

  function Woken(threads: map<Tid, Thread>, rest: seq<Tid>, due: Tid -> bool): (r: map<Tid, Thread>)
    ensures r.Keys == threads.Keys
  {
    map t | t in threads :: if t in rest && due(t) then threads[t].(state := Ready) else threads[t]
  }

  /** The threads of `rest` are linked in the sleep queue only, behind `slept`. */
  ghost predicate AsleepOnly(queues: map<QId, seq<Tid>>, slept: seq<Tid>, rest: seq<Tid>) {
    && ReadyQ in queues && SleepQ in queues
    && queues[SleepQ] == slept + rest && Distinct(slept + rest)
    && (forall k, t :: k in queues && k != SleepQ && t in queues[k] ==> t !in rest)
  }

  lemma SplitDistinct(slept: seq<Tid>, rest: seq<Tid>)
    requires rest != [] && Distinct(slept + rest)
    ensures rest[0] !in rest[1..] && Distinct(slept + rest[1..])
    ensures Without(slept + rest, rest[0]) == slept + rest[1..]
  {
    var all := slept + rest;
    var k := |slept|;
    assert all[k] == rest[0];
    WithoutAt(all, k);
    WithoutDistinct(all, rest[0]);
    assert all[..k] == slept && all[k + 1..] == rest[1..];
    forall i | 0 <= i < |rest[1..]| ensures rest[1..][i] != rest[0] {
      assert rest[1..][i] == all[k + 1 + i];
    }
  }

  /** One woken sleeper: it moves from inside the sleep queue to the end of the ready queue. */
  lemma WakeOne(queues: map<QId, seq<Tid>>, slept: seq<Tid>, rest: seq<Tid>)
    requires rest != [] && AsleepOnly(queues, slept, rest)
    ensures Push(queues, ReadyQ, rest[0])
         == queues[SleepQ := slept + rest[1..]][ReadyQ := queues[ReadyQ] + [rest[0]]]
    ensures AsleepOnly(Push(queues, ReadyQ, rest[0]), slept, rest[1..])
  {
    var q := Push(queues, ReadyQ, rest[0]);
    SplitDistinct(slept, rest);
    forall k | k in queues && k != SleepQ && k != ReadyQ ensures q[k] == queues[k] {
      assert rest[0] !in queues[k];
    }
    assert rest[0] !in queues[ReadyQ];
    assert forall t :: t in rest <==> t == rest[0] || t in rest[1..];
  }

  lemma SkipOne(queues: map<QId, seq<Tid>>, slept: seq<Tid>, rest: seq<Tid>, due: Tid -> bool)
    requires rest != [] && !due(rest[0]) && AsleepOnly(queues, slept, rest)
    ensures AsleepOnly(queues, slept + [rest[0]], rest[1..])
    ensures SplitQueues(queues, slept + [rest[0]], rest[1..], due) == SplitQueues(queues, slept, rest, due)
  {
    assert (slept + [rest[0]]) + rest[1..] == slept + rest;
    assert forall t :: t in rest <==> t == rest[0] || t in rest[1..];
    assert (slept + [rest[0]]) + Filter(rest[1..], Not(due)) == slept + Filter(rest, Not(due));
  }

  lemma WakeOneThenSplit(queues: map<QId, seq<Tid>>, slept: seq<Tid>, rest: seq<Tid>, due: Tid -> bool)
    requires rest != [] && due(rest[0]) && ReadyQ in queues
    ensures SplitQueues(queues[SleepQ := slept + rest[1..]][ReadyQ := queues[ReadyQ] + [rest[0]]],
      slept, rest[1..], due)
         == SplitQueues(queues, slept, rest, due)
  {
    var ready := queues[ReadyQ];
    assert (ready + [rest[0]]) + Filter(rest[1..], due) == ready + Filter(rest, due);
  }

  lemma WokenSplit(threads: map<Tid, Thread>, rest: seq<Tid>, due: Tid -> bool)
    requires rest != [] && rest[0] in threads
    ensures Woken(if due(rest[0]) then threads[rest[0] := threads[rest[0]].(state := Ready)]
      else threads, rest[1..], due)
         == Woken(threads, rest, due)
  {
    assert forall t :: t in rest <==> t == rest[0] || t in rest[1..];
  }

  ghost predicate Split(s: State, slept: seq<Tid>, rest: seq<Tid>, due: Tid -> bool, r: State)
    requires WellFormed(s)
  {
    r == s.(threads := Woken(s.threads, rest, due), queues := SplitQueues(s.queues, slept, rest, due))
  }

  lemma SplitNothing(queues: map<QId, seq<Tid>>, threads: map<Tid, Thread>, slept: seq<Tid>, due: Tid -> bool)
    requires AsleepOnly(queues, slept, [])
    ensures SplitQueues(queues, slept, [], due) == queues
    ensures Woken(threads, [], due) == threads
  {
    assert slept + [] == slept && queues[ReadyQ] + [] == queues[ReadyQ];
  }

  lemma AsleepBehind(queues: map<QId, seq<Tid>>, slept: seq<Tid>, rest: seq<Tid>)
    requires AsleepOnly(queues, slept, rest)
    ensures ReadyQ in queues && SleepQ in queues && queues[SleepQ] == slept + rest
  {
  }

  lemma {:induction false} WakeAllSplits(s: State, slept: seq<Tid>, rest: seq<Tid>, due: Tid -> bool)
    requires WellFormed(s) && AsleepOnly(s.queues, slept, rest)
    requires forall t :: t in rest ==> t in s.threads && (due(t) <==> s.threads[t].wake <= s.ticks)
    ensures Split(s, slept, rest, due, WakeAll(s, rest))
    decreases |rest|
  {
    hide AsleepOnly, WellFormed, Woken, SplitQueues, Push, Filter;
    AsleepBehind(s.queues, slept, rest);
    if rest == [] {
      SplitNothing(s.queues, s.threads, slept, due);
    } else {
      WokenSplit(s.threads, rest, due);
      if due(rest[0]) {
        WakeOne(s.queues, slept, rest);
        WakeOneThenSplit(s.queues, slept, rest, due);
        WakeAllSplits(Move(s, rest[0], ReadyQ, Ready), slept, rest[1..], due);
      } else {
        SkipOne(s.queues, slept, rest, due);
        WakeAllSplits(s, slept + [rest[0]], rest[1..], due);
      }
    }
  }

  lemma SleepersAsleepOnly(s: State)
    requires Core(s)
    ensures WellFormed(s) && AsleepOnly(s.queues, [], s.queues[SleepQ])
  {
    var q := s.queues[SleepQ];
    assert [] + q == q;
    forall k, t | k in s.queues && k != SleepQ && t in s.queues[k] ensures t !in q {
      assert k == QueueOf(t, s.threads[t].state);
    }
  }

  /** The whole timer pass: sleepers whose tick has come join the ready queue in their old
      order, the others keep theirs, and no other queue is touched. */
  lemma TickPassSplits(s: State)
    requires Core(s)
    ensures var now := Advance(s); var q := s.queues[SleepQ];
      TickPass(s) == now.(
        threads := Woken(s.threads, q, Due(now)),
        queues := s.queues[SleepQ := Filter(q, Not(Due(now)))][ReadyQ := s.queues[ReadyQ] + Filter(q, Due(now))])
  {
    hide Core, WakeAll, Filter, AsleepOnly, Woken;
    SleepersAsleepOnly(s);
    var q := s.queues[SleepQ];
    WakeAllSplits(Advance(s), [], q, Due(Advance(s)));
    assert [] + Filter(q, Not(Due(Advance(s)))) == Filter(q, Not(Due(Advance(s))));
  }

  // ----- wake ticks

  /** No sleeper is overdue. */
  ghost predicate NoOversleep(s: State)
    requires WellFormed(s)
  {
    forall t :: t in s.queues[SleepQ] ==> s.ticks < s.threads[t].wake
  }

  /** With a sleeper queued the tick counter cannot wrap: its wake tick is a 32-bit number ahead of it. */
  lemma SleepersPreventWrap(s: State)
    requires WellFormed(s) && NoOversleep(s) && s.queues[SleepQ] != []
    ensures Advance(s).ticks == s.ticks + 1
  {
    var t := s.queues[SleepQ][0];
    assert t in s.queues[SleepQ];
  }

  /** A sleeper is woken on exactly the tick it asked for, neither earlier nor later. */
  lemma WokenExactlyOnTime(s: State, t: Tid)
    requires Core(s) && NoOversleep(s) && t in s.queues[SleepQ]
    ensures t in TickPass(s).queues[ReadyQ] <==> TickPass(s).ticks == s.threads[t].wake
    ensures t in TickPass(s).queues[SleepQ] <==> TickPass(s).ticks != s.threads[t].wake
  {
    TickPassSplits(s);
    SleepersPreventWrap(s);
    assert SleepQ == QueueOf(t, s.threads[t].state);
    assert t !in s.queues[ReadyQ];
  }

  lemma TickPassKeepsNoOversleep(s: State)
    requires Core(s) && NoOversleep(s)
    ensures NoOversleep(TickPass(s))
  {
    TickPassSplits(s);
  }
}
