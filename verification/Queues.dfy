/**
  The intrusive doubly linked queues, on the heap. A node carries its links and the
  queue that owns it; a queue carries its ends and its size. `Linked` ties all queues
  of a kernel at once to the sequences they stand for.
*/
module Queues {
  import opened Common
  import opened Seqs
  import opened Sched

  class Node {
    /** The thread this node is embedded in (CONTAINER_OF). */
    const key: Tid
    var prev: Node?
    var next: Node?
    var q: Queue?

    constructor (key: Tid)
      ensures this.key == key && prev == null && next == null && q == null
    {
      this.key := key;
      prev, next, q := null, null, null;
    }
  }

  /** `first` and `last` are the sentinel's `next` and `prev`. */
  class Queue {
    const id: QId
    var first: Node?
    var last: Node?
    var size: nat

    /** queue_init */
    constructor (id: QId)
      ensures this.id == id && first == null && last == null && size == 0
    {
      this.id := id;
      first, last, size := null, null, 0;
    }
  }

  // ----- links and ends as values: pointers by the names of what they point to

  datatype Links = Links(prev: Option<Tid>, next: Option<Tid>, q: Option<QId>)
  datatype Ends = Ends(first: Option<Tid>, last: Option<Tid>, size: int)

  const UNLINKED: Links := Links(None, None, None)

  /** The thread at position `i` of `s`, if there is one. */
  function At(s: seq<Tid>, i: int): (t: Option<Tid>) {
    if 0 <= i < |s| then Some(s[i]) else None
  }

  /** The links of `s` are those of a doubly linked list owned by queue `k`. */
  ghost predicate Chain(k: QId, s: seq<Tid>, links: map<Tid, Links>) {
    forall i :: 0 <= i < |s| ==> s[i] in links && links[s[i]] == Links(At(s, i - 1), At(s, i + 1), Some(k))
  }

  function EndsOf(s: seq<Tid>): (ends: Ends) {
    Ends(At(s, 0), At(s, |s| - 1), |s|)
  }

  /** Every queue is a chain of its sequence. */
  ghost predicate QueuesSay(ends: map<QId, Ends>, links: map<Tid, Links>, m: map<QId, seq<Tid>>) {
    && ends.Keys == m.Keys
    && forall k :: k in m ==> Distinct(m[k]) && ends[k] == EndsOf(m[k]) && Chain(k, m[k], links)
  }

  /** A node that names an owner is in that queue's sequence. */
  ghost predicate OwnersSay(links: map<Tid, Links>, m: map<QId, seq<Tid>>) {
    forall t :: t in links && links[t].q.Some? ==> links[t].q.value in m && t in m[links[t].q.value]
  }

  /** Links and ends say the sequences `m`. */
  ghost predicate Says(ends: map<QId, Ends>, links: map<Tid, Links>, m: map<QId, seq<Tid>>) {
    QueuesSay(ends, links, m) && OwnersSay(links, m)
  }

  function SetNext(links: map<Tid, Links>, n: Option<Tid>, next: Option<Tid>): (r: map<Tid, Links>)
    requires n.Some? ==> n.value in links
    ensures r.Keys == links.Keys
  {
    if n.None? then links else links[n.value := links[n.value].(next := next)]
  }

  function SetPrev(links: map<Tid, Links>, n: Option<Tid>, prev: Option<Tid>): (r: map<Tid, Links>)
    requires n.Some? ==> n.value in links
    ensures r.Keys == links.Keys
  {
    if n.None? then links else links[n.value := links[n.value].(prev := prev)]
  }

  /** What queue_remove writes into the nodes. */
  function Unlinked(links: map<Tid, Links>, t: Tid): (r: map<Tid, Links>)
    requires t in links
    requires links[t].prev.Some? ==> links[t].prev.value in links
    requires links[t].next.Some? ==> links[t].next.value in links
    ensures r.Keys == links.Keys && r[t] == UNLINKED
    ensures forall u :: u in links && u != t ==>
      r[u] == Links(if links[t].next == Some(u) then links[t].prev else links[u].prev,
                    if links[t].prev == Some(u) then links[t].next else links[u].next, links[u].q)
  {
    var l := links[t];
    SetPrev(SetNext(links, l.prev, l.next), l.next, l.prev)[t := UNLINKED]
  }

  /** What queue_remove writes into the queue. */
  function UnlinkedEnds(e: Ends, l: Links): (ends: Ends) {
    Ends(if l.prev.None? then l.next else e.first, if l.next.None? then l.prev else e.last, e.size - 1)
  }

  function Cut(s: seq<Tid>, i: nat): (r: seq<Tid>)
    requires i < |s|
  {
    s[..i] + s[i + 1..]
  }

  /** Unlinking position `i`, seen from any other position `h` of the same list. */
  lemma UnlinkedAt(k: QId, s: seq<Tid>, links: map<Tid, Links>, i: nat, h: nat)
    requires Chain(k, s, links) && Distinct(s) && i < |s| && h < |s| && h != i
    ensures Unlinked(links, s[i])[s[h]]
      == Links(if h == i + 1 then At(s, i - 1) else At(s, h - 1), if h + 1 == i then At(s, i + 1) else At(s, h + 1),
        Some(k))
  {
    var l := links[s[i]];
    assert l == Links(At(s, i - 1), At(s, i + 1), Some(k));
    assert links[s[h]] == Links(At(s, h - 1), At(s, h + 1), Some(k));
    assert l.prev == Some(s[h]) <==> h + 1 == i;
    assert l.next == Some(s[h]) <==> h == i + 1;
  }

  /** The neighbours at position `j` once `i` is cut out, in terms of the old positions. */
  lemma CutAt(s: seq<Tid>, i: nat, j: nat)
    requires i < |s| && j < |s| - 1
    ensures var h := if j < i then j else j + 1; var r := Cut(s, i);
      && r[j] == s[h]
      && At(r, j - 1) == (if h == i + 1 then At(s, i - 1) else At(s, h - 1))
      && At(r, j + 1) == (if h + 1 == i then At(s, i + 1) else At(s, h + 1))
  {
  }

  lemma UnlinkChain(k: QId, s: seq<Tid>, links: map<Tid, Links>, i: nat)
    requires Chain(k, s, links) && Distinct(s) && i < |s|
    ensures Chain(k, Cut(s, i), Unlinked(links, s[i]))
  {
    var r, after := Cut(s, i), Unlinked(links, s[i]);
    forall j | 0 <= j < |r| ensures r[j] in after && after[r[j]] == Links(At(r, j - 1), At(r, j + 1), Some(k)) {
      CutAt(s, i, j);
      UnlinkedAt(k, s, links, i, if j < i then j else j + 1);
    }
  }

  lemma UnlinkEnds(k: QId, s: seq<Tid>, links: map<Tid, Links>, i: nat)
    requires Chain(k, s, links) && i < |s|
    ensures UnlinkedEnds(EndsOf(s), links[s[i]]) == EndsOf(Cut(s, i))
  {
  }

  lemma OwnerIs(ends: map<QId, Ends>, links: map<Tid, Links>, m: map<QId, seq<Tid>>, k: QId, t: Tid)
    requires Says(ends, links, m) && k in m && t in links
    ensures t in m[k] <==> links[t].q == Some(k)
  {
    assert Chain(k, m[k], links);
  }

  /** A thread's neighbours are in its own queue. */
  lemma NeighboursAreNear(k: QId, s: seq<Tid>, links: map<Tid, Links>, t: Tid)
    requires Chain(k, s, links) && t in s
    ensures t in links && links[t].q == Some(k)
    ensures links[t].prev.Some? ==> links[t].prev.value in s && links[t].prev.value in links
    ensures links[t].next.Some? ==> links[t].next.value in s && links[t].next.value in links
  {
    var i :| 0 <= i < |s| && s[i] == t;
    assert links[s[i]] == Links(At(s, i - 1), At(s, i + 1), Some(k));
  }

  /** A chain sees only its own nodes. */
  lemma ChainFrame(k: QId, s: seq<Tid>, links: map<Tid, Links>, after: map<Tid, Links>)
    requires Chain(k, s, links) && forall t :: t in s ==> t in after && t in links && after[t] == links[t]
    ensures Chain(k, s, after)
  {
  }

  /** Only the list of queue `k` was rewired, from `m[k]` into `s`. */
  ghost predicate Rewired(links: map<Tid, Links>, after: map<Tid, Links>, k: QId, was: seq<Tid>, s: seq<Tid>) {
    && after.Keys == links.Keys
    && (forall u :: u in s ==> u in links && (links[u].q == None || links[u].q == Some(k)))
    && (forall u :: u in links && u !in was && u !in s ==> after[u] == links[u])
    && (forall u :: u in links && u in was && u !in s ==> after[u].q == None)
  }

  lemma RewiredOther(ends: map<QId, Ends>, links: map<Tid, Links>, m: map<QId, seq<Tid>>,
                     k: QId, s: seq<Tid>, after: map<Tid, Links>, k': QId)
    requires Says(ends, links, m) && k in m && Rewired(links, after, k, m[k], s) && k' in m && k' != k
    ensures Chain(k', m[k'], after)
  {
    forall u | u in m[k'] ensures u in links && u in after && after[u] == links[u] {
      NeighboursAreNear(k', m[k'], links, u);
      OwnerIs(ends, links, m, k, u);
    }
    ChainFrame(k', m[k'], links, after);
  }

  lemma RewiredOwner(ends: map<QId, Ends>, links: map<Tid, Links>, m: map<QId, seq<Tid>>,
                     k: QId, s: seq<Tid>, after: map<Tid, Links>, u: Tid)
    requires Says(ends, links, m) && k in m && Rewired(links, after, k, m[k], s) && Chain(k, s, after)
    requires u in after && after[u].q.Some?
    ensures after[u].q.value in m && u in m[k := s][after[u].q.value]
  {
    if u in s {
      NeighboursAreNear(k, s, after, u);
    } else {
      assert after[u] == links[u];
      OwnerIs(ends, links, m, k, u);
    }
  }

  lemma RewiredOwners(ends: map<QId, Ends>, links: map<Tid, Links>, m: map<QId, seq<Tid>>,
                      k: QId, s: seq<Tid>, after: map<Tid, Links>)
    requires Says(ends, links, m) && k in m && Rewired(links, after, k, m[k], s) && Chain(k, s, after)
    ensures OwnersSay(after, m[k := s])
  {
    var r := m[k := s];
    forall u | u in after && after[u].q.Some? ensures after[u].q.value in r && u in r[after[u].q.value] {
      RewiredOwner(ends, links, m, k, s, after, u);
    }
  }

  lemma SaysRewired(ends: map<QId, Ends>, links: map<Tid, Links>, m: map<QId, seq<Tid>>,
                    k: QId, s: seq<Tid>, after: map<Tid, Links>)
    requires Says(ends, links, m) && k in m && Rewired(links, after, k, m[k], s)
    requires Distinct(s) && Chain(k, s, after)
    ensures Says(ends[k := EndsOf(s)], after, m[k := s])
  {
    RewiredOwners(ends, links, m, k, s, after);
    forall k' | k' in m && k' != k ensures Chain(k', m[k'], after) {
      RewiredOther(ends, links, m, k, s, after, k');
    }
  }

  lemma DetachOther(ends: map<QId, Ends>, links: map<Tid, Links>, m: map<QId, seq<Tid>>, k: QId, t: Tid)
    requires Says(ends, links, m) && k in m && t in links && links[t].q == Some(k)
    ensures Detach(m, t) == m[k := Without(m[k], t)]
  {
    forall k' | k' in m && k' != k ensures t !in m[k'] {
      OwnerIs(ends, links, m, k', t);
    }
    DetachElsewhere(m, k, t);
  }

  lemma DetachElsewhere(m: map<QId, seq<Tid>>, k: QId, t: Tid)
    requires k in m && forall k' :: k' in m && k' != k ==> t !in m[k']
    ensures Detach(m, t) == m[k := Without(m[k], t)]
  {
  }

  lemma UnlinkRewires(k: QId, s: seq<Tid>, links: map<Tid, Links>, t: Tid)
    requires Chain(k, s, links) && Distinct(s) && t in s && t in links
    requires links[t].prev.Some? ==> links[t].prev.value in s && links[t].prev.value in links
    requires links[t].next.Some? ==> links[t].next.value in s && links[t].next.value in links
    ensures Rewired(links, Unlinked(links, t), k, s, Without(s, t))
    ensures Chain(k, Without(s, t), Unlinked(links, t)) && Distinct(Without(s, t))
    ensures UnlinkedEnds(EndsOf(s), links[t]) == EndsOf(Without(s, t))
  {
    var i :| 0 <= i < |s| && s[i] == t;
    WithoutAt(s, i);
    WithoutDistinct(s, t);
    UnlinkChain(k, s, links, i);
    UnlinkEnds(k, s, links, i);
    forall u | u in s ensures u in links && links[u].q == Some(k) {
      NeighboursAreNear(k, s, links, u);
    }
  }

  /** queue_remove on an owned node: it leaves its queue, and no other queue changes. */
  lemma SaysUnlinked(ends: map<QId, Ends>, links: map<Tid, Links>, m: map<QId, seq<Tid>>, t: Tid)
    requires Says(ends, links, m) && t in links && links[t].q.Some?
    ensures links[t].q.value in m && t in m[links[t].q.value]
    ensures links[t].prev.Some? ==> links[t].prev.value in links && links[t].prev.value != t
    ensures links[t].next.Some? ==> links[t].next.value in links && links[t].next.value != t
    ensures var k := links[t].q.value;
      Says(ends[k := UnlinkedEnds(ends[k], links[t])], Unlinked(links, t), Detach(m, t))
  {
    var k := links[t].q.value;
    NeighboursAreNear(k, m[k], links, t);
    DetachOther(ends, links, m, k, t);
    UnlinkRewires(k, m[k], links, t);
    SaysRewired(ends, links, m, k, Without(m[k], t), Unlinked(links, t));
  }

  // ----- queue_push and queue_pop on values

  function PushedLinks(links: map<Tid, Links>, k: QId, e: Ends, t: Tid): (r: map<Tid, Links>)
    requires t in links && (e.last.Some? ==> e.last.value in links)
    ensures r.Keys == links.Keys
  {
    SetNext(links, e.last, Some(t))[t := Links(e.last, None, Some(k))]
  }

  function PushedEnds(e: Ends, t: Tid): (ends: Ends) {
    Ends(if e.last.Some? then e.first else Some(t), Some(t), e.size + 1)
  }

  lemma PushChain(k: QId, s: seq<Tid>, links: map<Tid, Links>, t: Tid)
    requires Chain(k, s, links) && Distinct(s) && t !in s && t in links
    requires EndsOf(s).last.Some? ==> EndsOf(s).last.value in links
    ensures Chain(k, s + [t], PushedLinks(links, k, EndsOf(s), t))
    ensures PushedEnds(EndsOf(s), t) == EndsOf(s + [t])
  {
    var r, after := s + [t], PushedLinks(links, k, EndsOf(s), t);
    forall i | 0 <= i < |r| ensures r[i] in after && after[r[i]] == Links(At(r, i - 1), At(r, i + 1), Some(k)) {
      if i < |s| {
        assert links[s[i]] == Links(At(s, i - 1), At(s, i + 1), Some(k));
        assert i == |s| - 1 || s[i] != s[|s| - 1];
      }
    }
  }

  lemma LastIsLinked(k: QId, s: seq<Tid>, links: map<Tid, Links>)
    requires Chain(k, s, links)
    ensures EndsOf(s).last.Some? ==> EndsOf(s).last.value in s && EndsOf(s).last.value in links
  {
  }

  /** Linking an unowned node at the end of queue `k`. */
  lemma SaysPushed(ends: map<QId, Ends>, links: map<Tid, Links>, m: map<QId, seq<Tid>>, k: QId, t: Tid)
    requires Says(ends, links, m) && k in m && t in links && links[t].q == None
    ensures ends[k].last.Some? ==> ends[k].last.value in links && ends[k].last.value != t
    ensures Says(ends[k := PushedEnds(ends[k], t)], PushedLinks(links, k, ends[k], t), m[k := m[k] + [t]])
  {
    OwnerIs(ends, links, m, k, t);
    LastIsLinked(k, m[k], links);
    PushChain(k, m[k], links, t);
    DistinctAppend(m[k], t);
    forall u | u in m[k] ensures u in links && links[u].q == Some(k) {
      NeighboursAreNear(k, m[k], links, u);
    }
    SaysRewired(ends, links, m, k, m[k] + [t], PushedLinks(links, k, ends[k], t));
  }

  /** What queue_pop writes: the popped node keeps its stale links. */
  function PoppedLinks(links: map<Tid, Links>, t: Tid): (r: map<Tid, Links>)
    requires t in links && (links[t].next.Some? ==> links[t].next.value in links)
    ensures r.Keys == links.Keys
  {
    SetPrev(links[t := links[t].(q := None)], links[t].next, None)
  }

  function PoppedEnds(e: Ends, next: Option<Tid>): (ends: Ends) {
    Ends(next, if next.Some? then e.last else None, e.size - 1)
  }

  lemma PopChain(k: QId, s: seq<Tid>, links: map<Tid, Links>)
    requires Chain(k, s, links) && Distinct(s) && s != [] && s[0] in links
    requires links[s[0]].next.Some? ==> links[s[0]].next.value in links
    ensures Chain(k, s[1..], PoppedLinks(links, s[0]))
    ensures PoppedEnds(EndsOf(s), links[s[0]].next) == EndsOf(s[1..])
  {
    var r, after := s[1..], PoppedLinks(links, s[0]);
    assert links[s[0]] == Links(At(s, -1), At(s, 1), Some(k));
    forall i | 0 <= i < |r| ensures r[i] in after && after[r[i]] == Links(At(r, i - 1), At(r, i + 1), Some(k)) {
      assert links[s[i + 1]] == Links(At(s, i), At(s, i + 2), Some(k));
      assert i == 0 || s[i + 1] != s[1];
    }
  }

  lemma FrontLeads(k: QId, s: seq<Tid>, links: map<Tid, Links>)
    requires Chain(k, s, links) && Distinct(s) && s != []
    ensures s[0] in links && links[s[0]].q == Some(k)
    ensures links[s[0]].next.Some? ==>
      links[s[0]].next.value in s && links[s[0]].next.value in links && links[s[0]].next.value != s[0]
  {
    NeighboursAreNear(k, s, links, s[0]);
    assert links[s[0]] == Links(At(s, -1), At(s, 1), Some(k));
  }

  lemma PopRewires(k: QId, s: seq<Tid>, links: map<Tid, Links>)
    requires Chain(k, s, links) && Distinct(s) && s != [] && s[0] in links
    requires links[s[0]].next.Some? ==>
      links[s[0]].next.value in s && links[s[0]].next.value in links && links[s[0]].next.value != s[0]
    ensures Rewired(links, PoppedLinks(links, s[0]), k, s, s[1..]) && Distinct(s[1..])
  {
    hide Chain;
    assert forall u :: u in s <==> u == s[0] || u in s[1..];
    forall u | u in s ensures u in links && links[u].q == Some(k) {
      NeighboursAreNear(k, s, links, u);
    }
  }

  /** Unlinking the front of queue `k`. */
  lemma SaysPopped(ends: map<QId, Ends>, links: map<Tid, Links>, m: map<QId, seq<Tid>>, k: QId)
    requires Says(ends, links, m) && k in m && m[k] != []
    ensures m[k][0] in links
    ensures var t := m[k][0];
      && (links[t].next.Some? ==> links[t].next.value in links && links[t].next.value != t)
      && Says(ends[k := PoppedEnds(ends[k], links[t].next)], PoppedLinks(links, t), m[k := m[k][1..]])
  {
    hide Chain, Distinct, PoppedLinks, PoppedEnds, EndsOf, OwnersSay, Rewired;
    assert Chain(k, m[k], links) && Distinct(m[k]) && ends[k] == EndsOf(m[k]);
    FrontLeads(k, m[k], links);
    PopChain(k, m[k], links);
    PopRewires(k, m[k], links);
    SaysRewired(ends, links, m, k, m[k][1..], PoppedLinks(links, m[k][0]));
  }

  // ----- the heap

  ghost function KeyOf(n: Node?): (t: Option<Tid>) {
    if n == null then None else Some(n.key)
  }

  ghost function IdOf(q: Queue?): (id: Option<QId>) {
    if q == null then None else Some(q.id)
  }

  /** All queues and all nodes that exist, by the names the state machine gives them, and as
      the sets of objects a queue operation may write to. */
  datatype World = World(queues: map<QId, Queue>, nodes: map<Tid, Node>, queueSet: set<Queue>, nodeSet: set<Node>) {
    ghost predicate Named() {
      && (forall k :: k in queues ==> queues[k] in queueSet && queues[k].id == k)
      && (forall t :: t in nodes ==> nodes[t] in nodeSet && nodes[t].key == t)
    }

    ghost function AllLinks(): (links: map<Tid, Links>)
      requires Named()
      reads nodeSet
    {
      map t | t in nodes :: Links(KeyOf(nodes[t].prev), KeyOf(nodes[t].next), IdOf(nodes[t].q))
    }

    ghost function AllEnds(): (ends: map<QId, Ends>)
      requires Named()
      reads queueSet
    {
      map k | k in queues :: Ends(KeyOf(queues[k].first), KeyOf(queues[k].last), queues[k].size)
    }

    ghost predicate Has(n: Node?) {
      n != null ==> n.key in nodes && nodes[n.key] == n
    }

    ghost predicate HasQueue(q: Queue) {
      q.id in queues && queues[q.id] == q
    }

    /** Names are unique, and every pointer that is followed leads to something that exists. */
    ghost predicate Closed()
      reads nodeSet, queueSet
    {
      && Named()
      && (forall k :: k in queues ==> Has(queues[k].first) && Has(queues[k].last))
      && (forall t {:trigger nodes[t].q} :: t in nodes && nodes[t].q != null ==> HasQueue(nodes[t].q))
      && (forall t {:trigger nodes[t].prev} :: t in nodes && nodes[t].q != null ==> Has(nodes[t].prev))
      && (forall t {:trigger nodes[t].next} :: t in nodes && nodes[t].q != null ==> Has(nodes[t].next))
    }

    /** The heap's queues are the sequences `m`. */
    ghost predicate Linked(m: map<QId, seq<Tid>>)
      reads nodeSet, queueSet
    {
      Closed() && Says(AllEnds(), AllLinks(), m)
    }
  }

  lemma LinksOf(w: World, node: Node)
    requires w.Named() && w.Has(node)
    ensures node.key in w.AllLinks()
    ensures w.AllLinks()[node.key] == Links(KeyOf(node.prev), KeyOf(node.next), IdOf(node.q))
  {
  }

  lemma EndsOfQueue(w: World, q: Queue)
    requires w.Named() && w.HasQueue(q)
    ensures q.id in w.AllEnds() && w.AllEnds()[q.id] == Ends(KeyOf(q.first), KeyOf(q.last), q.size)
  {
  }

  // ----- writes of one field, as changes of the values

  method WriteNext(n: Node, next: Node?, ghost w: World)
    requires w.Closed() && w.Has(n) && w.Has(next)
    modifies n`next
    ensures w.Closed() && w.AllEnds() == old(w.AllEnds()) && n.next == next
    ensures w.AllLinks() == old(w.AllLinks())[n.key := old(w.AllLinks())[n.key].(next := KeyOf(next))]
  {
    n.next := next;
  }

  method WritePrev(n: Node, prev: Node?, ghost w: World)
    requires w.Closed() && w.Has(n) && w.Has(prev)
    modifies n`prev
    ensures w.Closed() && w.AllEnds() == old(w.AllEnds()) && n.prev == prev
    ensures w.AllLinks() == old(w.AllLinks())[n.key := old(w.AllLinks())[n.key].(prev := KeyOf(prev))]
  {
    n.prev := prev;
  }

  /** A node that gets an owner must have links that exist. */
  method WriteOwner(n: Node, q: Queue?, ghost w: World)
    requires w.Closed() && w.Has(n) && (q != null ==> w.HasQueue(q) && w.Has(n.prev) && w.Has(n.next))
    modifies n`q
    ensures w.Closed() && w.AllEnds() == old(w.AllEnds()) && n.q == q
    ensures w.AllLinks() == old(w.AllLinks())[n.key := old(w.AllLinks())[n.key].(q := IdOf(q))]
  {
    n.q := q;
  }

  method WriteFirst(q: Queue, n: Node?, ghost w: World)
    requires w.Closed() && w.HasQueue(q) && w.Has(n)
    modifies q`first
    ensures w.Closed() && w.AllLinks() == old(w.AllLinks()) && q.first == n
    ensures w.AllEnds() == old(w.AllEnds())[q.id := old(w.AllEnds())[q.id].(first := KeyOf(n))]
  {
    q.first := n;
  }

  method WriteLast(q: Queue, n: Node?, ghost w: World)
    requires w.Closed() && w.HasQueue(q) && w.Has(n)
    modifies q`last
    ensures w.Closed() && w.AllLinks() == old(w.AllLinks()) && q.last == n
    ensures w.AllEnds() == old(w.AllEnds())[q.id := old(w.AllEnds())[q.id].(last := KeyOf(n))]
  {
    q.last := n;
  }

  method WriteSize(q: Queue, size: nat, ghost w: World)
    requires w.Closed() && w.HasQueue(q)
    modifies q`size
    ensures w.Closed() && w.AllLinks() == old(w.AllLinks()) && q.size == size
    ensures w.AllEnds() == old(w.AllEnds())[q.id := old(w.AllEnds())[q.id].(size := size)]
  {
    q.size := size;
  }

  lemma SameEnds(ends: map<QId, Ends>, k: QId)
    requires k in ends
    ensures ends[k := ends[k]] == ends
  {
  }

  /** What follows `n` in `q` becomes `next`; no node before it means the front of the queue. */
  method LinkNext(q: Queue, n: Node?, next: Node?, ghost w: World)
    requires w.Closed() && w.Has(n) && w.Has(next) && w.HasQueue(q)
    modifies w.nodeSet`next, q`first
    ensures w.Closed()
    ensures w.AllLinks() == SetNext(old(w.AllLinks()), KeyOf(n), KeyOf(next))
    ensures w.AllEnds() == old(w.AllEnds())[q.id :=
      if n == null then old(w.AllEnds())[q.id].(first := KeyOf(next)) else old(w.AllEnds())[q.id]]
    ensures n != null ==> q.first == old(q.first)
    ensures forall x :: x in w.nodeSet && x != n ==> x.next == old(x.next)
  {
    hide World.AllLinks, World.AllEnds;
    EndsOfQueue(w, q);
    SameEnds(w.AllEnds(), q.id);
    if n != null {
      LinksOf(w, n);
      WriteNext(n, next, w);
    } else {
      WriteFirst(q, next, w);
    }
  }

  /** What precedes `n` in `q` becomes `prev`; no node after it means the back of the queue. */
  method LinkPrev(q: Queue, n: Node?, prev: Node?, ghost w: World)
    requires w.Closed() && w.Has(n) && w.Has(prev) && w.HasQueue(q)
    modifies w.nodeSet`prev, q`last
    ensures w.Closed()
    ensures w.AllLinks() == SetPrev(old(w.AllLinks()), KeyOf(n), KeyOf(prev))
    ensures w.AllEnds() == old(w.AllEnds())[q.id :=
      if n == null then old(w.AllEnds())[q.id].(last := KeyOf(prev)) else old(w.AllEnds())[q.id]]
    ensures n != null ==> q.last == old(q.last)
    ensures forall x :: x in w.nodeSet && x != n ==> x.prev == old(x.prev)
  {
    hide World.AllLinks, World.AllEnds;
    EndsOfQueue(w, q);
    SameEnds(w.AllEnds(), q.id);
    if n != null {
      LinksOf(w, n);
      WritePrev(n, prev, w);
    } else {
      WriteLast(q, prev, w);
    }
  }

  /** Writing the fields of a node that is the last of its queue, or in none. */
  method Rewrite(node: Node, prev: Node?, q: Queue?, ghost w: World)
    requires w.Closed() && w.Has(node) && w.Has(prev) && (q != null ==> w.HasQueue(q))
    modifies node`prev, node`next, node`q
    ensures w.Closed() && node.q == q && w.AllEnds() == old(w.AllEnds())
    ensures w.AllLinks() == old(w.AllLinks())[node.key := Links(KeyOf(prev), None, IdOf(q))]
  {
    hide World.AllLinks, World.AllEnds;
    LinksOf(w, node);
    WritePrev(node, prev, w);
    WriteNext(node, null, w);
    WriteOwner(node, q, w);
  }

  /** Clearing the fields of a node that has been taken out of `q`. */
  method Clear(node: Node, q: Queue, ghost w: World)
    requires w.Closed() && w.Has(node) && node.q == q && q.size > 0
    modifies node`prev, node`next, node`q, q`size
    ensures w.Closed() && node.q == null
    ensures w.AllLinks() == old(w.AllLinks())[node.key := UNLINKED]
    ensures w.AllEnds() == old(w.AllEnds())[q.id := old(w.AllEnds())[q.id].(size := old(q.size) - 1)]
  {
    hide World.AllLinks, World.AllEnds;
    EndsOfQueue(w, q);
    WriteSize(q, q.size - 1, w);
    Rewrite(node, null, null, w);
  }

  /** The neighbours of an owned node, or the ends of its queue, are joined around it. */
  method Bypass(node: Node, q: Queue, ghost w: World)
    requires w.Closed() && w.Has(node) && node.q == q
    requires node.prev != node && node.next != node
    modifies w.nodeSet`prev, w.nodeSet`next, q`first, q`last
    ensures w.Closed()
    ensures var links := old(w.AllLinks()); var l := links[node.key];
      w.AllLinks() == SetPrev(SetNext(links, l.prev, l.next), l.next, l.prev)
    ensures var e := old(w.AllEnds()); var l := old(w.AllLinks())[node.key];
      w.AllEnds() == e[q.id := UnlinkedEnds(e[q.id], l).(size := q.size)]
  {
    hide World.AllLinks, World.AllEnds;
    var prev, next := node.prev, node.next;
    LinksOf(w, node);
    EndsOfQueue(w, q);
    LinkNext(q, prev, next, w);
    LinkPrev(q, next, prev, w);
  }

  /** The pointer writes of queue_remove on an owned node. */
  method Unlink(node: Node, ghost w: World)
    requires w.Closed() && w.Has(node) && node.q != null
    requires node.prev != node && node.next != node && node.q.size > 0
    modifies w.nodeSet`prev, w.nodeSet`next, node`q, node.q`first, node.q`last, node.q`size
    ensures w.Closed() && node.q == null
    ensures w.AllLinks() == Unlinked(old(w.AllLinks()), node.key)
    ensures w.AllEnds() == old(w.AllEnds())[old(node.q.id) :=
      UnlinkedEnds(old(w.AllEnds())[old(node.q.id)], old(w.AllLinks())[node.key])]
  {
    hide World.AllLinks, World.AllEnds;
    var q := node.q;
    LinksOf(w, node);
    EndsOfQueue(w, q);
    Bypass(node, q, w);
    Clear(node, q, w);
  }

  /** queue_remove. The C code follows the node before testing it, so it must not be null. */
  method QueueRemove(node: Node, ghost w: World, ghost m: map<QId, seq<Tid>>)
    requires w.Linked(m) && w.Has(node)
    modifies w.nodeSet`prev, w.nodeSet`next, w.nodeSet`q, w.queueSet`first, w.queueSet`last, w.queueSet`size
    ensures w.Linked(Detach(m, node.key)) && node.q == null
  {
    if node.q == null {
      NotOwned(w.AllEnds(), w.AllLinks(), m, node.key);
    } else {
      SaysUnlinked(w.AllEnds(), w.AllLinks(), m, node.key);
      Unlink(node, w);
    }
  }

  lemma NotOwned(ends: map<QId, Ends>, links: map<Tid, Links>, m: map<QId, seq<Tid>>, t: Tid)
    requires Says(ends, links, m) && t in links && links[t].q == None
    ensures Detach(m, t) == m
  {
    forall k | k in m ensures t !in m[k] {
      OwnerIs(ends, links, m, k, t);
    }
  }

  /** Writing the fields of the node that becomes the last of `q`. */
  method Own(q: Queue, node: Node, prev: Node?, ghost w: World)
    requires w.Closed() && w.Has(prev) && w.HasQueue(q)
    requires w.Has(node)
    modifies node`prev, node`next, node`q, q`last, q`size
    ensures w.Closed()
    ensures w.AllLinks() == old(w.AllLinks())[node.key := Links(KeyOf(prev), None, Some(q.id))]
    ensures w.AllEnds() == old(w.AllEnds())[q.id :=
      Ends(KeyOf(q.first), Some(node.key), old(q.size) + 1)]
  {
    hide World.AllLinks, World.AllEnds;
    EndsOfQueue(w, q);
    Rewrite(node, prev, q, w);
    WriteLast(q, node, w);
    WriteSize(q, q.size + 1, w);
  }

  /** The pointer writes of queue_push once the node is free. */
  method Append(q: Queue, node: Node, ghost w: World)
    requires w.Closed() && w.HasQueue(q)
    requires w.Has(node) && node.q == null && q.last != node
    modifies w.nodeSet`next, node`prev, node`q, q`first, q`last, q`size
    ensures w.Closed()
    ensures w.AllLinks() == PushedLinks(old(w.AllLinks()), q.id, old(w.AllEnds())[q.id], node.key)
    ensures w.AllEnds() == old(w.AllEnds())[q.id := PushedEnds(old(w.AllEnds())[q.id], node.key)]
  {
    hide World.AllLinks, World.AllEnds;
    var last := q.last;
    EndsOfQueue(w, q);
    LinkNext(q, last, node, w);
    EndsOfQueue(w, q);
    Own(q, node, last, w);
  }

  lemma PushIsAppend(m: map<QId, seq<Tid>>, k: QId, t: Tid)
    requires k in m
    ensures Push(m, k, t) == Detach(m, t)[k := Detach(m, t)[k] + [t]]
  {
  }

  /** queue_push; a null queue or node changes nothing. */
  method QueuePush(q: Queue?, node: Node?, ghost w: World, ghost m: map<QId, seq<Tid>>)
    requires w.Linked(m)
    requires q != null ==> w.HasQueue(q)
    requires node != null ==> w.Has(node)
    modifies w.nodeSet`prev, w.nodeSet`next, w.nodeSet`q, w.queueSet`first, w.queueSet`last, w.queueSet`size
    ensures q == null || node == null ==> w.Linked(m)
    ensures q != null && node != null ==> q.id in m && w.Linked(Push(m, q.id, node.key))
  {
    if q == null || node == null {
      return;
    }
    QueueRemove(node, w, m);
    PushIsAppend(m, q.id, node.key);
    SaysPushed(w.AllEnds(), w.AllLinks(), Detach(m, node.key), q.id, node.key);
    Append(q, node, w);
  }

  /** Advancing the front of `q` past the node it is popped from; the node's links go stale. */
  method StepPast(q: Queue, node: Node, ghost w: World)
    requires w.Closed() && w.HasQueue(q) && q.size > 0
    requires w.Has(node) && node.q == q
    modifies node`q, q`first, q`size
    ensures w.Closed()
    ensures w.AllLinks() == old(w.AllLinks())[node.key := old(w.AllLinks())[node.key].(q := None)]
    ensures w.AllEnds() == old(w.AllEnds())[q.id :=
      Ends(KeyOf(node.next), KeyOf(q.last), old(q.size) - 1)]
    ensures w.Has(node.next)
  {
    hide World.AllLinks, World.AllEnds;
    LinksOf(w, node);
    EndsOfQueue(w, q);
    WriteOwner(node, null, w);
    WriteFirst(q, node.next, w);
    WriteSize(q, q.size - 1, w);
  }

  /** The two queue calls shared by sched_ready, sched_zombie, sched_sleep and ipc_receive:
      queue_remove, then queue_push, which removes once more. */
  method RemoveAndPush(q: Queue, node: Node, ghost w: World, ghost m: map<QId, seq<Tid>>)
    requires w.Linked(m) && w.HasQueue(q)
    requires w.Has(node)
    modifies w.nodeSet`prev, w.nodeSet`next, w.nodeSet`q, w.queueSet`first, w.queueSet`last, w.queueSet`size
    ensures q.id in m && w.Linked(Push(m, q.id, node.key))
  {
    QueueRemove(node, w, m);
    QueuePush(q, node, w, Detach(m, node.key));
    PushDetached(m, q.id, node.key);
  }

  lemma PushDetached(m: map<QId, seq<Tid>>, k: QId, t: Tid)
    requires k in m
    ensures Push(Detach(m, t), k, t) == Push(m, k, t)
  {
  }

  /** The pointer writes of queue_pop on a queue that is not empty. */
  method Behead(q: Queue, ghost w: World) returns (node: Node)
    requires w.Closed() && w.HasQueue(q) && q.size > 0
    requires q.first != null && q.first.q == q && q.first.next != q.first
    modifies w.nodeSet`prev, w.nodeSet`q, q`first, q`last, q`size
    ensures w.Closed() && old(q.first) == node
    ensures w.AllLinks() == PoppedLinks(old(w.AllLinks()), node.key)
    ensures w.AllEnds()
      == old(w.AllEnds())[q.id := PoppedEnds(old(w.AllEnds())[q.id], old(w.AllLinks())[node.key].next)]
  {
    hide World.AllLinks, World.AllEnds;
    node := q.first;
    var next := node.next;
    LinksOf(w, node);
    EndsOfQueue(w, q);
    StepPast(q, node, w);
    LinkPrev(q, next, null, w);
  }

  /** queue_pop */
  method QueuePop(q: Queue?, ghost w: World, ghost m: map<QId, seq<Tid>>) returns (node: Node?)
    requires w.Linked(m)
    requires q != null ==> w.HasQueue(q)
    modifies w.nodeSet`prev, w.nodeSet`next, w.nodeSet`q, w.queueSet`first, w.queueSet`last, w.queueSet`size
    ensures q == null ==> node == null && w.Linked(m)
    ensures q != null ==> q.id in m
    ensures q != null && m[q.id] == [] ==> node == null && w.Linked(m)
    ensures q != null && m[q.id] != [] ==>
      m[q.id][0] in w.nodes && node == w.nodes[m[q.id][0]] && w.Linked(m[q.id := m[q.id][1..]])
  {
    if q == null || q.first == null {
      return null;
    }
    SaysPopped(w.AllEnds(), w.AllLinks(), m, q.id);
    node := Behead(q, w);
  }

  /** queue_empty; a null queue counts as empty. */
  method QueueEmpty(q: Queue?, ghost w: World, ghost m: map<QId, seq<Tid>>) returns (empty: bool)
    requires w.Linked(m)
    requires q != null ==> w.HasQueue(q)
    ensures q == null ==> empty
    ensures q != null ==> q.id in m && (empty <==> m[q.id] == [])
  {
    if q == null {
      return true;
    }
    return q.first == null;
  }

  /** queue_size */
  method QueueSize(q: Queue?, ghost w: World, ghost m: map<QId, seq<Tid>>) returns (size: nat)
    requires w.Linked(m)
    requires q != null ==> w.HasQueue(q)
    ensures q == null ==> size == 0
    ensures q != null ==> q.id in m && size == |m[q.id]|
  {
    if q == null {
      return 0;
    }
    return q.size;
  }

  /** queue_get */
  method QueueGet(q: Queue?, index: nat, ghost w: World, ghost m: map<QId, seq<Tid>>) returns (node: Node?)
    requires w.Linked(m)
    requires q != null ==> w.HasQueue(q)
    ensures q == null ==> node == null
    ensures q != null ==> q.id in m
    ensures q != null && index >= |m[q.id]| ==> node == null
    ensures q != null && index < |m[q.id]| ==> m[q.id][index] in w.nodes && node == w.nodes[m[q.id][index]]
  {
    var size := QueueSize(q, w, m);
    if q == null || index >= size {
      return null;
    }
    ghost var s := m[q.id];
    assert Chain(q.id, s, w.AllLinks());
    node := q.first;
    var i := 0;
    while i < index
      invariant 0 <= i <= index
      invariant node != null && w.Has(node) && node.key == s[i]
    {
      if node == null {
        return null;
      }
      assert w.AllLinks()[s[i]] == Links(At(s, i - 1), At(s, i + 1), Some(q.id));
      node := node.next;
      i := i + 1;
    }
  }

  /** The node of each linked thread leads to the next thread of its queue. */
  lemma NextInQueue(w: World, m: map<QId, seq<Tid>>, k: QId, i: nat)
    requires w.Linked(m) && k in m && i < |m[k]|
    ensures m[k][i] in w.nodes && w.nodes[m[k][i]].key == m[k][i]
    ensures w.Has(w.nodes[m[k][i]].next) && KeyOf(w.nodes[m[k][i]].next) == At(m[k], i + 1)
  {
    var s := m[k];
    assert Chain(k, s, w.AllLinks());
    assert w.AllLinks()[s[i]] == Links(At(s, i - 1), At(s, i + 1), Some(k));
  }

  /** A new node that nothing points to joins the world. */
  lemma NodeJoins(w: World, m: map<QId, seq<Tid>>, node: Node, w': World)
    requires w.Linked(m) && node.q == null && node.key !in w.nodes
    requires w' == w.(nodes := w.nodes[node.key := node], nodeSet := w.nodeSet + {node})
    ensures w'.Linked(m)
  {
    hide Says, World.AllLinks, World.AllEnds, World.Closed;
    NodeKeepsClosed(w, node, w');
    NodeValues(w, node, w');
    SaysWithNode(w.AllEnds(), w.AllLinks(), m, node.key, Links(KeyOf(node.prev), KeyOf(node.next), None));
  }

  lemma NodeKeepsClosed(w: World, node: Node, w': World)
    requires w.Closed() && node.q == null && node.key !in w.nodes
    requires w' == w.(nodes := w.nodes[node.key := node], nodeSet := w.nodeSet + {node})
    ensures w'.Closed() && w.Named()
  {
  }

  lemma NodeValues(w: World, node: Node, w': World)
    requires w.Named() && node.q == null && node.key !in w.nodes
    requires w' == w.(nodes := w.nodes[node.key := node], nodeSet := w.nodeSet + {node})
    ensures w'.Named() && w'.AllEnds() == w.AllEnds() && node.key !in w.AllLinks()
    ensures w'.AllLinks() == w.AllLinks()[node.key := Links(KeyOf(node.prev), KeyOf(node.next), None)]
  {
  }

  lemma SaysWithNode(ends: map<QId, Ends>, links: map<Tid, Links>, m: map<QId, seq<Tid>>, t: Tid, l: Links)
    requires Says(ends, links, m) && t !in links && l.q == None
    ensures Says(ends, links[t := l], m)
  {
    forall k | k in m ensures Chain(k, m[k], links[t := l]) {
      assert Chain(k, m[k], links);
    }
  }

  lemma SaysWithQueue(ends: map<QId, Ends>, links: map<Tid, Links>, m: map<QId, seq<Tid>>, k: QId)
    requires Says(ends, links, m) && k !in m
    ensures Says(ends[k := EndsOf([])], links, m[k := []])
  {
    hide Chain, EndsOf;
    EmptyChain(k, links);
    forall t | t in links && links[t].q.Some? ensures links[t].q.value in m && t in m[links[t].q.value] {
    }
  }

  lemma EmptyChain(k: QId, links: map<Tid, Links>)
    ensures Chain(k, [], links) && Distinct<Tid>([])
  {
  }

  lemma SaysWithoutQueue(ends: map<QId, Ends>, links: map<Tid, Links>, m: map<QId, seq<Tid>>, k: QId)
    requires Says(ends, links, m) && k in m && m[k] == []
    ensures Says(ends - {k}, links, m - {k})
    ensures forall t :: t in links ==> links[t].q != Some(k)
  {
  }

  /** A new, empty queue joins the world. */
  lemma QueueJoins(w: World, m: map<QId, seq<Tid>>, q: Queue, w': World)
    requires w.Linked(m) && q.first == null && q.last == null && q.size == 0 && q.id !in w.queues
    requires w' == w.(queues := w.queues[q.id := q], queueSet := w.queueSet + {q})
    ensures w'.Linked(m[q.id := []])
  {
    hide Says, World.AllLinks, World.AllEnds;
    SaysKeys(w.AllEnds(), w.AllLinks(), m);
    QueueValues(w, q, w');
    SaysWithQueue(w.AllEnds(), w.AllLinks(), m, q.id);
  }

  lemma QueueValues(w: World, q: Queue, w': World)
    requires w.Named() && q.first == null && q.last == null && q.size == 0 && q.id !in w.queues
    requires w' == w.(queues := w.queues[q.id := q], queueSet := w.queueSet + {q})
    ensures w'.Named() && w'.AllLinks() == w.AllLinks() && q.id !in w.AllEnds()
    ensures w'.AllEnds() == w.AllEnds()[q.id := EndsOf([])]
  {
  }

  lemma SaysKeys(ends: map<QId, Ends>, links: map<Tid, Links>, m: map<QId, seq<Tid>>)
    requires Says(ends, links, m)
    ensures ends.Keys == m.Keys
  {
  }

  /** An empty queue leaves the world. */
  lemma QueueLeaves(w: World, m: map<QId, seq<Tid>>, k: QId, w': World)
    requires w.Linked(m) && k in m && m[k] == [] && w' == w.(queues := w.queues - {k})
    ensures w'.Linked(m - {k})
  {
    hide Says;
    SaysWithoutQueue(w.AllEnds(), w.AllLinks(), m, k);
    assert w'.AllLinks() == w.AllLinks();
    assert w'.AllEnds() == w.AllEnds() - {k};
    forall t | t in w.nodes && w.nodes[t].q != null ensures w.nodes[t].q.id != k {
      assert w.AllLinks()[t].q == Some(w.nodes[t].q.id);
    }
  }

  /** Nothing is linked in queues and nodes that have just been initialised. */
  lemma NothingLinked(w: World, m: map<QId, seq<Tid>>)
    requires w.Named() && m.Keys == w.queues.Keys && forall k :: k in m ==> m[k] == []
    requires forall k :: k in w.queues ==>
      w.queues[k].first == null && w.queues[k].last == null && w.queues[k].size == 0
    requires forall t :: t in w.nodes ==> w.nodes[t].q == null
    ensures w.Linked(m)
  {
  }
}
