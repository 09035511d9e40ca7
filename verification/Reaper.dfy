/**
  What one uninterrupted pass of the reaper leaves: the normal processes exactly as
  they were, no dying process, no queue holding one of its threads, and every
  orphan under its nearest surviving ancestor.
*/
module Reaper {
  import opened Common
  import opened Seqs
  import opened Sched
  import opened SchedInvariant
  import opened ProcessForest

  /** The way up from `p` through the parent links; that it ends at all is what DadsOk buys. */
  ghost function WalkUp(procs: map<Pid, Process>, p: Pid): (path: seq<Pid>)
    requires DadsOk(procs) && p in procs
    ensures |path| > 0 && path[0] == p && path[|path| - 1] == IDLE
    ensures forall q :: q in path ==> q in procs && q <= p
    decreases p
  {
    if p == IDLE then [p] else [p] + WalkUp(procs, procs[p].dad.value)
  }

  /** The nearest ancestor of `p`, itself included, that is not dying. */
  ghost function LiveAncestor(procs: map<Pid, Process>, p: Pid): (a: Pid)
    requires DadsOk(procs) && p in procs && IDLE in procs && !procs[IDLE].dying
    ensures a in procs && !procs[a].dying && a in WalkUp(procs, p)
    decreases p
  {
    if !procs[p].dying then p else LiveAncestor(procs, procs[p].dad.value)
  }

  lemma {:induction false} DropKeepsLiveAncestor(procs: map<Pid, Process>, p: Pid, c: Pid)
    requires DadsOk(procs) && IDLE in procs && !procs[IDLE].dying
    requires p in procs && procs[p].dying && c in procs && c != p
    requires DadsOk(DropProcess(procs, p))
    ensures LiveAncestor(DropProcess(procs, p), c) == LiveAncestor(procs, c)
    decreases c
  {
    if procs[c].dying {
      var d := procs[c].dad.value;
      if d == p {
        DropKeepsLiveAncestor(procs, p, procs[p].dad.value);
      } else {
        DropKeepsLiveAncestor(procs, p, d);
      }
    }
  }

  lemma DropKeepsFoster(procs: map<Pid, Process>, p: Pid, c: Pid)
    requires DadsOk(procs) && IDLE in procs && !procs[IDLE].dying
    requires p in procs && procs[p].dying && c in procs && c != p && c != IDLE
    requires DadsOk(DropProcess(procs, p))
    ensures LiveAncestor(DropProcess(procs, p), DropProcess(procs, p)[c].dad.value)
         == LiveAncestor(procs, procs[c].dad.value)
  {
    var d := procs[c].dad.value;
    DropKeepsLiveAncestor(procs, p, if d == p then procs[p].dad.value else d);
  }

  function Outside(gone: set<Pid>): (keep: Tid -> bool) {
    (t: Tid) => t.pid !in gone
  }

  predicate QueueGone(k: QId, gone: set<Pid>) {
    k.Waiters? && k.pid in gone
  }

  /** `r` is `s` without the processes `gone`, their threads and their mailbox queues;
      only parent links may differ elsewhere. */
  ghost predicate Removed(s: State, gone: set<Pid>, r: State) {
    && r.current == s.current
    && r.procs.Keys == s.procs.Keys - gone
    && (forall p :: p in r.procs ==> r.procs[p].(dad := None) == s.procs[p].(dad := None))
    && (forall t :: t in r.threads <==> t in s.threads && t.pid !in gone)
    && (forall t :: t in r.threads ==> r.threads[t] == s.threads[t])
    && (forall k :: k in r.queues <==> k in s.queues && !QueueGone(k, gone))
    && (forall k :: k in r.queues ==> r.queues[k] == Filter(s.queues[k], Outside(gone)))
  }

  lemma NothingRemoved(s: State)
    ensures Removed(s, {}, s)
  {
    forall k | k in s.queues ensures s.queues[k] == Filter(s.queues[k], Outside({})) {
      FilterAll(s.queues[k], Outside({}));
    }
  }

  lemma RemovedTwice(s: State, one: set<Pid>, s1: State, more: set<Pid>, r: State)
    requires Removed(s, one, s1) && Removed(s1, more, r)
    ensures Removed(s, one + more, r)
  {
    forall k | k in r.queues ensures r.queues[k] == Filter(s.queues[k], Outside(one + more)) {
      FilterTwice(s.queues[k], Outside(one), Outside(more), Outside(one + more));
    }
    forall p | p in r.procs ensures r.procs[p].(dad := None) == s.procs[p].(dad := None) {
      assert s1.procs[p].(dad := None) == s.procs[p].(dad := None);
    }
  }

  lemma QueuesAfterFilter(queues: map<QId, seq<Tid>>, p: Pid, k: QId)
    requires k in QueuesAfter(queues, p)
    ensures QueuesAfter(queues, p)[k] == Filter(queues[k], Outside({p}))
  {
    assert QueuesAfter(queues, p)[k] == DropThreads(queues, p)[k];
    FilterExtensional(queues[k], NotOf(p), Outside({p}));
  }

  lemma QueuesAfterKeys(queues: map<QId, seq<Tid>>, p: Pid)
    ensures forall k :: k in QueuesAfter(queues, p) <==> k in queues && !QueueGone(k, {p})
  {
  }

  lemma DropChangesDadsOnly(procs: map<Pid, Process>, p: Pid)
    requires p in procs
    ensures var r := DropProcess(procs, p);
      forall c :: c in r ==> r[c].(dad := None) == procs[c].(dad := None)
  {
  }

  lemma DestroyRemoves(s: State, p: Pid)
    requires WellFormed(s) && p in s.procs && s.current.pid != p
    ensures Removed(s, {p}, DestroyProcess(s, p))
  {
    var r := DestroyProcess(s, p);
    QueuesAfterKeys(s.queues, p);
    DropChangesDadsOnly(s.procs, p);
    forall k | k in r.queues ensures r.queues[k] == Filter(s.queues[k], Outside({p})) {
      QueuesAfterFilter(s.queues, p, k);
    }
  }

  /** The dying processes in the part `rest` of the list. */
  function Doomed(procs: map<Pid, Process>, rest: seq<Pid>): (gone: set<Pid>) {
    set p | p in rest && p in procs && procs[p].dying
  }

  lemma DestroyDooms(procs: map<Pid, Process>, rest: seq<Pid>)
    requires rest != [] && rest[0] in procs && procs[rest[0]].dying
    ensures Doomed(procs, rest) == {rest[0]} + Doomed(DropProcess(procs, rest[0]), rest[1..])
  {
    assert rest == [rest[0]] + rest[1..];
  }

  lemma SkipDooms(procs: map<Pid, Process>, rest: seq<Pid>)
    requires rest != [] && !(rest[0] in procs && procs[rest[0]].dying)
    ensures Doomed(procs, rest) == Doomed(procs, rest[1..])
  {
    assert rest == [rest[0]] + rest[1..];
  }

  lemma {:induction false} ReapRemoves(s: State, rest: seq<Pid>)
    requires Core(s) && Structure(s) && s.current.pid == IDLE
    ensures Removed(s, Doomed(s.procs, rest), ReapFrom(s, rest))
    decreases |rest|
  {
    if rest == [] {
      NothingRemoved(s);
      assert Doomed(s.procs, rest) == {};
    } else if rest[0] in s.procs && s.procs[rest[0]].dying {
      var s1 := DestroyProcess(s, rest[0]);
      DestroyKeepsCore(s, rest[0]);
      DestroyKeepsStructure(s, rest[0]);
      DestroyRemoves(s, rest[0]);
      DestroyDooms(s.procs, rest);
      ReapRemoves(s1, rest[1..]);
      RemovedTwice(s, {rest[0]}, s1, Doomed(s1.procs, rest[1..]), ReapFrom(s, rest));
    } else {
      SkipDooms(s.procs, rest);
      ReapRemoves(s, rest[1..]);
    }
  }

  /** Every survivor hangs under the nearest surviving ancestor it had. */
  ghost predicate Fostered(procs: map<Pid, Process>, after: map<Pid, Process>)
    requires DadsOk(procs) && IDLE in procs && !procs[IDLE].dying
    requires DadsOk(after) && IDLE in after && !after[IDLE].dying
  {
    forall c :: c in after && c in procs && c != IDLE ==>
      LiveAncestor(after, after[c].dad.value) == LiveAncestor(procs, procs[c].dad.value)
  }

  lemma {:induction false} ReapFosters(s: State, rest: seq<Pid>)
    requires Core(s) && Structure(s) && s.current.pid == IDLE
    ensures Core(ReapFrom(s, rest)) && Structure(ReapFrom(s, rest)) && Fostered(s.procs, ReapFrom(s, rest).procs)
    decreases |rest|
  {
    ReapKeepsCore(s, rest);
    ReapKeepsStructure(s, rest);
    if rest != [] {
      if rest[0] in s.procs && s.procs[rest[0]].dying {
        var s1 := DestroyProcess(s, rest[0]);
        DestroyKeepsCore(s, rest[0]);
        DestroyKeepsStructure(s, rest[0]);
        ReapFosters(s1, rest[1..]);
        ReapRemoves(s1, rest[1..]);
        var r := ReapFrom(s1, rest[1..]);
        forall c | c in r.procs && c in s.procs && c != IDLE
          ensures LiveAncestor(r.procs, r.procs[c].dad.value) == LiveAncestor(s.procs, s.procs[c].dad.value)
        {
          DropKeepsFoster(s.procs, rest[0], c);
        }
      } else {
        ReapFosters(s, rest[1..]);
      }
    }
  }

  ghost function Dying(s: State): (pids: set<Pid>) {
    set p | p in s.procs && s.procs[p].dying
  }

  lemma DyingAreListed(s: State)
    requires ListOk(s)
    ensures Doomed(s.procs, s.list) == Dying(s)
  {
  }

  /** One reaper pass removes exactly the dying processes, with every trace of their threads. */
  lemma ReaperPass(s: State)
    requires Core(s) && Structure(s) && s.current.pid == IDLE
    ensures Removed(s, Dying(s), ReapFrom(s, s.list))
  {
    DyingAreListed(s);
    ReapRemoves(s, s.list);
  }

  /** After the pass nothing is dying and every linked thread belongs to a normal process. */
  lemma NothingDyingIsLeft(s: State, r: State)
    requires Core(s) && Structure(s) && Removed(s, Dying(s), r) && WellFormed(r)
    ensures Dying(r) == {}
    ensures forall k, t :: k in r.queues && t in r.queues[k] ==> Normal(r, t)
  {
    forall p | p in r.procs ensures !r.procs[p].dying {
      assert r.procs[p].(dad := None) == s.procs[p].(dad := None);
    }
  }

  /** After the pass the parent of each survivor is the nearest ancestor that survived. */
  lemma ReaperAdopts(s: State, c: Pid)
    requires Core(s) && Structure(s) && s.current.pid == IDLE
    requires c in ReapFrom(s, s.list).procs && c in s.procs && c != IDLE
    ensures ReapFrom(s, s.list).procs[c].dad == Some(LiveAncestor(s.procs, s.procs[c].dad.value))
  {
    var r := ReapFrom(s, s.list);
    ReaperPass(s);
    ReapFosters(s, s.list);
    NothingDyingIsLeft(s, r);
    var d := r.procs[c].dad.value;
    assert d !in Dying(r);
    assert LiveAncestor(r.procs, d) == d;
  }
}
