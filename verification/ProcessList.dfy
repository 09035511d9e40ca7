/**
  The global process list: prev and next links between the process blocks, which are named by
  their pids, and the first of them. `Threaded` says for which sequence they stand.
*/
module ProcessList {
  import opened Common
  import opened Seqs
  import opened Sched

  datatype Siblings = Siblings(prev: Option<Pid>, next: Option<Pid>)

  /** The element at index `i`; a null pointer behind either end. */
  function Nth(list: seq<Pid>, i: int): (p: Option<Pid>) {
    if 0 <= i < |list| then Some(list[i]) else None
  }

  /** Block `list[i]` leads to its neighbours. */
  predicate Hangs(links: map<Pid, Siblings>, list: seq<Pid>, i: nat)
    requires i < |list|
  {
    list[i] in links && links[list[i]] == Siblings(Nth(list, i - 1), Nth(list, i + 1))
  }

  /** The links are mutual: each block leads to its neighbours in `list`, and no block is left out. */
  ghost predicate Threaded(first: Option<Pid>, links: map<Pid, Siblings>, list: seq<Pid>) {
    && first == Nth(list, 0) && Distinct(list)
    && (forall p :: p in links <==> p in list)
    && (forall i: nat :: i < |list| ==> Hangs(links, list, i))
  }

  lemma FirstLeads(first: Option<Pid>, links: map<Pid, Siblings>, list: seq<Pid>)
    requires Threaded(first, links, list)
    ensures first == Nth(list, 0)
  {
  }

  lemma NextLeads(first: Option<Pid>, links: map<Pid, Siblings>, list: seq<Pid>, i: nat)
    requires Threaded(first, links, list) && i < |list|
    ensures list[i] in links && links[list[i]].next == Nth(list, i + 1)
  {
    assert Hangs(links, list, i);
  }

  // ----- insertion at the head

  /** The writes of sched_create_process for the block of `p`. */
  function Headed(first: Option<Pid>, links: map<Pid, Siblings>, p: Pid): (r: map<Pid, Siblings>)
    requires first.Some? ==> first.value in links
  {
    var joined := links[p := Siblings(None, first)];
    if first.Some? then joined[first.value := joined[first.value].(prev := Some(p))] else joined
  }

  /** They put `p` ahead of everything. */
  lemma HeadInserts(first: Option<Pid>, links: map<Pid, Siblings>, list: seq<Pid>, p: Pid)
    requires Threaded(first, links, list) && p !in list
    ensures first.Some? ==> first.value in links
    ensures Threaded(Some(p), Headed(first, links, p), [p] + list)
  {
    var r, longer := Headed(first, links, p), [p] + list;
    DistinctCons(p, list);
    forall i: nat | i < |longer| ensures Hangs(r, longer, i) {
      if i > 0 {
        assert longer[i] == list[i - 1] && Hangs(links, list, i - 1);
      }
    }
  }

  // ----- removal

  /** The link writes of sched_destroy_process for the block of `p`, which is then released. */
  function Unhooked(links: map<Pid, Siblings>, p: Pid): (r: map<Pid, Siblings>)
    requires p in links
    requires links[p].prev.Some? ==> links[p].prev.value in links
    requires links[p].next.Some? ==> links[p].next.value in links
    ensures r.Keys == links.Keys - {p}
  {
    var l := links[p];
    var a := if l.prev.Some? then links[l.prev.value := links[l.prev.value].(next := l.next)] else links;
    var b := if l.next.Some? then a[l.next.value := a[l.next.value].(prev := l.prev)] else a;
    b - {p}
  }

  lemma NeighboursExist(first: Option<Pid>, links: map<Pid, Siblings>, list: seq<Pid>, p: Pid)
    requires Threaded(first, links, list) && p in list
    ensures p in links && (first == Some(p) <==> links[p].prev == None)
    ensures links[p].prev.Some? ==> links[p].prev.value in links && links[p].prev.value != p
    ensures links[p].next.Some? ==> links[p].next.value in links && links[p].next.value != p
  {
    var i: nat :| i < |list| && list[i] == p;
    assert Hangs(links, list, i);
    assert i > 0 ==> list[i - 1] in links;
    assert i + 1 < |list| ==> list[i + 1] in links;
  }

  /** Taking a block out, at the head, in the middle or at the tail, joins its neighbours. */
  lemma Unhooks(first: Option<Pid>, links: map<Pid, Siblings>, list: seq<Pid>, p: Pid)
    requires Threaded(first, links, list) && p in list
    ensures p in links
    ensures links[p].prev.Some? ==> links[p].prev.value in links
    ensures links[p].next.Some? ==> links[p].next.value in links
    ensures Threaded(if first == Some(p) then links[p].next else first, Unhooked(links, p), Without(list, p))
  {
    hide Without, Unhooked, Hangs, Distinct;
    NeighboursExist(first, links, list, p);
    var k: nat :| k < |list| && list[k] == p;
    var r, shorter := Unhooked(links, p), Without(list, p);
    WithoutAt(list, k);
    WithoutDistinct(list, p);
    NextLeads(first, links, list, k);
    FirstOnce(list, k);
    forall i: nat | i < |shorter| ensures Hangs(r, shorter, i) {
      UnhookedAt(first, links, list, k, i);
    }
  }

  lemma FirstOnce(list: seq<Pid>, k: nat)
    requires Distinct(list) && k < |list|
    ensures list[0] == list[k] <==> k == 0
  {
  }

  lemma UnhookedAt(first: Option<Pid>, links: map<Pid, Siblings>, list: seq<Pid>, k: nat, i: nat)
    requires Threaded(first, links, list) && k < |list| && i + 1 < |list|
    requires list[k] in links
    requires links[list[k]].prev.Some? ==> links[list[k]].prev.value in links
    requires links[list[k]].next.Some? ==> links[list[k]].next.value in links
    ensures Hangs(Unhooked(links, list[k]), list[..k] + list[k + 1..], i)
  {
    hide Nth, Distinct;
    var j: nat := if i < k then i else i + 1;
    assert (list[..k] + list[k + 1..])[i] == list[j];
    assert Hangs(links, list, j) && Hangs(links, list, k);
    NthCut(list, k, i - 1);
    NthCut(list, k, i + 1);
    NthIs(list, k - 1, j);
    NthIs(list, k + 1, j);
    NthIs(list, k, j);
  }

  lemma NthCut(list: seq<Pid>, k: nat, i: int)
    requires k < |list| && -1 <= i < |list|
    ensures Nth(list[..k] + list[k + 1..], i) == Nth(list, if i < k then i else i + 1)
  {
  }

  lemma NthIs(list: seq<Pid>, i: int, j: nat)
    requires Distinct(list) && j < |list| && -1 <= i <= |list|
    ensures Nth(list, i) == Some(list[j]) <==> i == j
    ensures i == j ==> list[i] == list[j]
    ensures 0 <= i < |list| && list[i] == list[j] ==> i == j
  {
  }

  // ----- the walk of the reaper

  /** `rest` is the end of `list`. */
  predicate IsTail(list: seq<Pid>, rest: seq<Pid>) {
    |rest| <= |list| && rest == list[|list| - |rest|..]
  }

  lemma TailStep(list: seq<Pid>, rest: seq<Pid>)
    requires Distinct(list) && IsTail(list, rest) && rest != []
    ensures rest[0] in list && IsTail(list, rest[1..]) && IsTail(Without(list, rest[0]), rest[1..])
  {
    var k := |list| - |rest|;
    assert rest[0] == list[k];
    WithoutAt(list, k);
    assert list[k + 1..] == rest[1..];
  }

  /** The successor saved before the first of `rest` may be destroyed heads what is left to visit. */
  lemma SavedNext(first: Option<Pid>, links: map<Pid, Siblings>, list: seq<Pid>, rest: seq<Pid>)
    requires Threaded(first, links, list) && IsTail(list, rest) && rest != []
    ensures rest[0] in links && links[rest[0]].next == Nth(rest[1..], 0)
  {
    NextLeads(first, links, list, |list| - |rest|);
  }
}
