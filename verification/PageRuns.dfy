/**
  Runs of pages, by page number: page `q` is page `q % 1024` of directory entry `q / 1024`.
*/
module PageRuns {
  import opened Common
  import opened Seqs
  import opened PageTables

  /** The pages below the self-mapping directory entry. */
  const PAGES: nat := SELF * ENTRIES

  function Pde(q: nat): (n: nat) {
    q / ENTRIES
  }

  function Pte(q: nat): (n: nat) {
    q % ENTRIES
  }

  lemma PageIndices(q: nat)
    ensures q < PAGES ==> Pde(q) < SELF
    ensures Pte(q) < ENTRIES
  {
  }

  /** What the indices mean for addresses: a directory entry covers 4 MB, a table entry 4 KB; the
      kernel half starts at 0xC0000000, the boot window is its first MB, the self-mapping is the
      last 4 MB. */
  lemma PagesAreAddresses(q: nat)
    requires q < PAGES
    ensures q * 4096 < 0xFFC0_0000 && Pde(q) == q * 4096 / 0x40_0000 && Pte(q) == q * 4096 / 4096 % 1024
    ensures Pde(q) >= KERNEL_HALF <==> q * 4096 >= 0xC000_0000
    ensures Window(Pde(q), Pte(q)) <==> 0xC000_0000 <= q * 4096 < 0xC010_0000
  {
  }

  lemma PagesDiffer(q: nat, p: nat)
    ensures Pde(q) == Pde(p) && Pte(q) == Pte(p) ==> q == p
  {
  }

  ghost function Trans(m: Memory, d: Frame, q: nat): (e: Option<Entry>)
    requires Shaped(m) && d in m.dirs && q < PAGES
  {
    PageIndices(q);
    Lookup(m, d, Pde(q), Pte(q))
  }

  predicate Shares(d: Frame, d': Frame, q: nat) {
    HomeOf(d, Pde(q)) == HomeOf(d', Pde(q))
  }

  ghost predicate FreeRun(m: Memory, d: Frame, q: nat, n: nat)
    requires Shaped(m) && d in m.dirs && q + n <= PAGES
  {
    forall k :: q <= k < q + n ==> Trans(m, d, k) == None
  }

  /** The pages from `lo` up to `first + |frames|` translate to their frames of `frames`,
      wherever directory `d` shares them; every other translation is as in `m`. */
  ghost predicate Installed(m: Memory, r: Memory, d: Frame, first: nat, lo: nat, frames: seq<Frame>, flags: bv12) {
    && Shaped(m) && Shaped(r) && r.dirs == m.dirs && d in m.dirs && first <= lo <= first + |frames| <= PAGES
    && forall d': Frame, q: nat :: d' in m.dirs && q < PAGES ==>
         Trans(r, d', q) ==
           if lo <= q < first + |frames| && Shares(d, d', q) then Some(Entry(frames[q - first], With(flags, PRESENT)))
           else Trans(m, d', q)
  }

  lemma NothingInstalled(m: Memory, r: Memory, d: Frame, first: nat, flags: bv12)
    requires Shaped(m) && d in m.dirs && first <= PAGES && SameTranslations(m, r)
    ensures Installed(m, r, d, first, first, [], flags)
  {
    forall d': Frame, q: nat | d' in m.dirs && q < PAGES ensures Trans(r, d', q) == Trans(m, d', q) {
      PageIndices(q);
    }
  }

  /** A rebinding of one page, by page numbers. */
  lemma ReboundPages(m: Memory, r: Memory, d: Frame, q: nat, x: Option<Entry>, d': Frame, p: nat)
    requires Rebound(m, r, d, Pde(q), Pte(q), x) && d' in m.dirs && q < PAGES && p < PAGES
    ensures Trans(r, d', p) == if p == q && Shares(d, d', q) then x else Trans(m, d', p)
  {
    PageIndices(q);
    PageIndices(p);
    PagesDiffer(q, p);
  }

  lemma InstallOne(m: Memory, n: Memory, r: Memory, d: Frame, first: nat, frames: seq<Frame>, flags: bv12, f: Frame)
    requires Installed(m, n, d, first, first, frames, flags) && first + |frames| < PAGES
    requires var q := first + |frames|; Rebound(n, r, d, Pde(q), Pte(q), Some(Entry(f, With(flags, PRESENT))))
    ensures Installed(m, r, d, first, first, frames + [f], flags)
  {
    var q := first + |frames|;
    forall d': Frame, p: nat | d' in m.dirs && p < PAGES
      ensures Trans(r, d', p) ==
        if first <= p < first + |frames + [f]| && Shares(d, d', p)
        then Some(Entry((frames + [f])[p - first], With(flags, PRESENT))) else Trans(m, d', p)
    {
      ReboundPages(n, r, d, q, Some(Entry(f, With(flags, PRESENT))), d', p);
    }
  }

  lemma UninstallOne(m: Memory, n: Memory, r: Memory, d: Frame, first: nat, lo: nat, frames: seq<Frame>, flags: bv12)
    requires Installed(m, n, d, first, lo, frames, flags) && lo < first + |frames| && Trans(m, d, lo) == None
    requires forall d' :: d' in m.dirs && Shares(d, d', lo) ==> Trans(m, d', lo) == None
    requires Rebound(n, r, d, Pde(lo), Pte(lo), None)
    ensures Installed(m, r, d, first, lo + 1, frames, flags)
  {
    forall d': Frame, p: nat | d' in m.dirs && p < PAGES
      ensures Trans(r, d', p) ==
        if lo + 1 <= p < first + |frames| && Shares(d, d', p)
        then Some(Entry(frames[p - first], With(flags, PRESENT))) else Trans(m, d', p)
    {
      ReboundPages(n, r, d, lo, None, d', p);
    }
  }

  /** Directories that share a page agree on its translation. */
  lemma SharedPages(m: Memory, d: Frame, d': Frame, q: nat)
    requires Shaped(m) && TablesOwned(m) && d in m.dirs && d' in m.dirs && q < PAGES && Shares(d, d', q)
    ensures Trans(m, d', q) == Trans(m, d, q)
  {
    PageIndices(q);
    if Pde(q) >= KERNEL_HALF {
      TableOf(m, d, Pde(q), d', Pde(q));
    }
  }

  lemma AllUninstalled(m: Memory, r: Memory, d: Frame, first: nat, frames: seq<Frame>, flags: bv12)
    requires Installed(m, r, d, first, first + |frames|, frames, flags)
    ensures SameTranslations(m, r)
  {
    forall d': Frame, i: nat, j: nat | Spot(d', i, j, m.dirs) ensures Lookup(r, d', i, j) == Lookup(m, d', i, j) {
      var q := i * ENTRIES + j;
      assert Pde(q) == i && Pte(q) == j && q < PAGES;
      assert Trans(r, d', q) == Trans(m, d', q);
    }
  }

  lemma InstalledThenSame(m: Memory, n: Memory, r: Memory, d: Frame, first: nat, lo: nat, frames: seq<Frame>,
                          flags: bv12)
    requires Installed(m, n, d, first, lo, frames, flags) && SameTranslations(n, r)
    ensures Installed(m, r, d, first, lo, frames, flags)
  {
    forall d': Frame, q: nat | d' in m.dirs && q < PAGES ensures Trans(r, d', q) == Trans(n, d', q) {
      PageIndices(q);
    }
  }

  /** No free page lies in the boot window. */
  lemma FreeIsNotWindow(m: Memory, d: Frame, q: nat)
    requires Shaped(m) && d in m.dirs && q < PAGES && Trans(m, d, q) == None
    ensures !Window(Pde(q), Pte(q))
  {
    PageIndices(q);
  }

  // ----- the owners of the frames of a run

  /** Beyond `base`, each frame of `frames` is the leaf of its page, except that the first
      `back` of them are lost. */
  ghost predicate LaidOut(base: map<Frame, Owner>, now: map<Frame, Owner>, d: Frame, first: nat, frames: seq<Frame>,
                          back: nat) {
    && Distinct(frames) && back <= |frames|
    && (forall f :: f in now <==> f in base || f in frames)
    && (forall f :: f in base ==> now[f] == base[f])
    && (forall k :: 0 <= k < |frames| ==>
          frames[k] !in base
          && now[frames[k]]
            == if k < back then Leaked else Leaf(HomeOf(d, Pde(first + k)), Pde(first + k), Pte(first + k)))
  }

  lemma LayOne(base: map<Frame, Owner>, now: map<Frame, Owner>, d: Frame, first: nat, frames: seq<Frame>, f: Frame)
    requires LaidOut(base, now, d, first, frames, 0) && f !in now
    ensures var q := first + |frames|;
      LaidOut(base, now[f := Leaf(HomeOf(d, Pde(q)), Pde(q), Pte(q))], d, first, frames + [f], 0)
  {
    DistinctAppend(frames, f);
  }

  lemma LoseOne(base: map<Frame, Owner>, now: map<Frame, Owner>, d: Frame, first: nat, frames: seq<Frame>, back: nat)
    requires LaidOut(base, now, d, first, frames, back) && back < |frames|
    ensures frames[back] in now && LaidOut(base, now[frames[back] := Leaked], d, first, frames, back + 1)
  {
    var r := now[frames[back] := Leaked];
    forall k | 0 <= k < |frames| ensures frames[k] !in base && r[frames[k]] ==
      if k < back + 1 then Leaked else Leaf(HomeOf(d, Pde(first + k)), Pde(first + k), Pte(first + k))
    {
      assert k != back ==> frames[k] != frames[back];
    }
  }

  // ----- releasing pages

  /** Of the owners in `was` those of the `gone` kind are left out of `now`. */
  ghost predicate OwnersLeft(was: map<Frame, Owner>, now: map<Frame, Owner>, gone: Owner -> bool) {
    && (forall f :: f in now <==> f in was && !gone(was[f]))
    && (forall f :: f in now ==> now[f] == was[f])
  }

  lemma OneLess(was: map<Frame, Owner>, now: map<Frame, Owner>, f: Frame, gone: Owner -> bool, more: Owner -> bool)
    requires OwnersLeft(was, now, gone) && f in now
    requires forall g :: g in was ==> (more(was[g]) <==> gone(was[g]) || g == f)
    ensures OwnersLeft(was, now - {f}, more)
  {
  }

  /** The leaves of the `k` pages from `first` on, seen from directory `d`. */
  predicate InRun(o: Owner, d: Frame, first: nat, k: nat) {
    o.Leaf? && o.i < SELF && o.j < ENTRIES && o.home == HomeOf(d, o.i) && first <= o.i * ENTRIES + o.j < first + k
  }

  function RunOf(d: Frame, first: nat, k: nat): (gone: Owner -> bool) {
    (o: Owner) => InRun(o, d, first, k)
  }

  /** Each place has one frame. */
  lemma OneFrame(m: Memory, d: Frame, q: nat, f: Frame)
    requires Sound(m) && d in m.dirs && q < PAGES && Trans(m, d, q).Some? && !Window(Pde(q), Pte(q)) && f in m.owner
    ensures m.owner[f] == Leaf(HomeOf(d, Pde(q)), Pde(q), Pte(q)) <==> f == Trans(m, d, q).value.frame
  {
    PageIndices(q);
  }

  lemma RunGrows(m: Memory, d: Frame, first: nat, k: nat, f: Frame)
    requires Sound(m) && d in m.dirs && first + k < PAGES
    requires !Window(Pde(first + k), Pte(first + k)) && Trans(m, d, first + k).Some? &&
      f == Trans(m, d, first + k).value.frame
    ensures f in m.owner && !m.owner[f].Table?
    ensures forall g :: g in m.owner ==>
      (RunOf(d, first, k + 1)(m.owner[g]) <==> RunOf(d, first, k)(m.owner[g]) || g == f)
  {
    hide Granting, EntriesOwned, OwnersPlaced, WindowMapped, Present, Lookup;
    var q := first + k;
    PageIndices(q);
    assert f in m.owner;
    forall g | g in m.owner ensures RunOf(d, first, k + 1)(m.owner[g]) <==> RunOf(d, first, k)(m.owner[g]) || g == f {
      OneFrame(m, d, q, g);
      var o := m.owner[g];
      if o.Leaf? && o.i < SELF && o.j < ENTRIES {
        assert Pde(o.i * ENTRIES + o.j) == o.i && Pte(o.i * ENTRIES + o.j) == o.j;
      }
    }
  }

  /** The `k` pages from `first` on are unmapped wherever directory `d` shares them, and no other
      translation changes. */
  ghost predicate Cleared(m: Memory, r: Memory, d: Frame, first: nat, k: nat) {
    && Shaped(m) && Shaped(r) && r.dirs == m.dirs && d in m.dirs
    && forall d': Frame, q: nat :: d' in m.dirs && q < PAGES ==>
         Trans(r, d', q) == if first <= q < first + k && Shares(d, d', q) then None else Trans(m, d', q)
  }

  lemma NothingCleared(m: Memory, d: Frame, first: nat)
    requires Shaped(m) && d in m.dirs
    ensures Cleared(m, m, d, first, 0)
  {
  }

  lemma ClearOne(m: Memory, n: Memory, u: Memory, r: Memory, d: Frame, first: nat, k: nat)
    requires Cleared(m, n, d, first, k) && first + k < PAGES
    requires Rebound(n, u, d, Pde(first + k), Pte(first + k), None) && SameTranslations(u, r)
    ensures Cleared(m, r, d, first, k + 1)
  {
    forall d': Frame, q: nat | d' in m.dirs && q < PAGES
      ensures Trans(r, d', q) == if first <= q < first + k + 1 && Shares(d, d', q) then None else Trans(m, d', q)
    {
      ReboundPages(n, u, d, first + k, None, d', q);
      PageIndices(q);
    }
  }

  /** Frames are left out alike by two descriptions that agree on the owners there are. */
  lemma SameLeft(was: map<Frame, Owner>, now: map<Frame, Owner>, gone: Owner -> bool, more: Owner -> bool)
    requires OwnersLeft(was, now, gone) && forall g :: g in was ==> (more(was[g]) <==> gone(was[g]))
    ensures OwnersLeft(was, now, more)
  {
  }

  // ----- emptying the private half of an address space

  /** What vmm_destroy has released when it reaches page `j` of directory entry `i`. */
  predicate Passed(o: Owner, d: Frame, i: nat, j: nat) {
    || (o.Leaf? && o.home == Private(d) && (o.i < i || (o.i == i && o.j < j)))
    || (o.Table? && o.home == Private(d) && o.i < i)
  }

  function PassedBy(d: Frame, i: nat, j: nat): (gone: Owner -> bool) {
    (o: Owner) => Passed(o, d, i, j)
  }

  /** Directory `d` is empty up to page `j` of entry `i`, its entries before `i` are absent, and
      every other translation is as in `m`. */
  ghost predicate Emptied(m: Memory, r: Memory, d: Frame, i: nat, j: nat) {
    && Shaped(m) && Shaped(r) && r.dirs == m.dirs && d in m.dirs && i <= KERNEL_HALF
    && (forall i': nat :: i' < i ==> !Present(r.tables[d][i']))
    && (forall d': Frame, i': nat, j': nat :: Spot(d', i', j', m.dirs) ==>
          Lookup(r, d', i', j') ==
            if d' == d && (i' < i || (i' == i && j' < j)) then None else Lookup(m, d', i', j'))
  }

  lemma NothingEmptied(m: Memory, d: Frame)
    requires Shaped(m) && d in m.dirs
    ensures Emptied(m, m, d, 0, 0) && OwnersLeft(m.owner, m.owner, PassedBy(d, 0, 0))
  {
  }

  lemma EmptyOne(m: Memory, n: Memory, r: Memory, d: Frame, i: nat, j: nat)
    requires Emptied(m, n, d, i, j) && i < KERNEL_HALF && j < ENTRIES
    requires Rebound(n, r, d, i, j, None) && r.tables[d] == n.tables[d]
    ensures Emptied(m, r, d, i, j + 1)
  {
  }

  lemma SkipAbsentPage(m: Memory, r: Memory, d: Frame, i: nat, j: nat)
    requires Emptied(m, r, d, i, j) && i < KERNEL_HALF && j < ENTRIES && Lookup(r, d, i, j).None?
    ensures Emptied(m, r, d, i, j + 1)
  {
  }

  lemma EmptyEntry(m: Memory, n: Memory, r: Memory, d: Frame, i: nat)
    requires Emptied(m, n, d, i, ENTRIES) && i < KERNEL_HALF && SameTranslations(n, r)
    requires r.tables[d] == n.tables[d][i := ZERO]
    ensures Emptied(m, r, d, i + 1, 0)
  {
    PresentStays(0, 0);
  }

  lemma SkipAbsentEntry(m: Memory, r: Memory, d: Frame, i: nat)
    requires Emptied(m, r, d, i, 0) && i < KERNEL_HALF && !Present(r.tables[d][i])
    ensures Emptied(m, r, d, i + 1, 0)
  {
  }

  /** A private page is the leaf of at most one frame, and of one exactly when it is mapped. */
  lemma PrivateLeaf(m: Memory, d: Frame, i: nat, j: nat, g: Frame)
    requires Sound(m) && Spot(d, i, j, m.dirs) && i < KERNEL_HALF && g in m.owner
    ensures m.owner[g] == Leaf(Private(d), i, j) <==> Lookup(m, d, i, j).Some? && Lookup(m, d, i, j).value.frame == g
  {
  }

  lemma PassPage(m: Memory, d: Frame, i: nat, j: nat, f: Frame)
    requires Sound(m) && Spot(d, i, j, m.dirs) && i < KERNEL_HALF
    requires Lookup(m, d, i, j).Some? && Lookup(m, d, i, j).value.frame == f
    ensures forall g :: g in m.owner ==>
      (PassedBy(d, i, j + 1)(m.owner[g]) <==> PassedBy(d, i, j)(m.owner[g]) || g == f)
  {
    forall g | g in m.owner ensures PassedBy(d, i, j + 1)(m.owner[g]) <==> PassedBy(d, i, j)(m.owner[g]) || g == f {
      PrivateLeaf(m, d, i, j, g);
    }
  }

  lemma PassAbsentPage(m: Memory, d: Frame, i: nat, j: nat)
    requires Sound(m) && Spot(d, i, j, m.dirs) && i < KERNEL_HALF && Lookup(m, d, i, j).None?
    ensures forall g :: g in m.owner ==> (PassedBy(d, i, j + 1)(m.owner[g]) <==> PassedBy(d, i, j)(m.owner[g]))
  {
    forall g | g in m.owner ensures PassedBy(d, i, j + 1)(m.owner[g]) <==> PassedBy(d, i, j)(m.owner[g]) {
      PrivateLeaf(m, d, i, j, g);
    }
  }

  /** The owner record of a private table is that of its directory entry. */
  lemma PrivateTable(m: Memory, d: Frame, i: nat, g: Frame)
    requires Sound(m) && Slot(d, i, m.dirs) && i < KERNEL_HALF && g in m.owner
    ensures m.owner[g] == Table(Private(d), i) <==> Present(m.tables[d][i]) && m.tables[d][i].frame == g
  {
  }

  lemma PassTable(m: Memory, d: Frame, i: nat, t: Frame)
    requires Sound(m) && Slot(d, i, m.dirs) && i < KERNEL_HALF && t in m.owner && m.owner[t] == Table(Private(d), i)
    ensures forall g :: g in m.owner ==>
      (PassedBy(d, i + 1, 0)(m.owner[g]) <==> PassedBy(d, i, ENTRIES)(m.owner[g]) || g == t)
  {
    PrivateTable(m, d, i, t);
    forall g | g in m.owner
      ensures PassedBy(d, i + 1, 0)(m.owner[g]) <==> PassedBy(d, i, ENTRIES)(m.owner[g]) || g == t
    {
      PrivateTable(m, d, i, g);
    }
  }

  /** Nothing is owned through an absent private entry. */
  lemma PassAbsentEntry(m: Memory, r: Memory, d: Frame, i: nat)
    requires Sound(r) && OwnersLeft(m.owner, r.owner, PassedBy(d, i, 0)) && Slot(d, i, r.dirs) && i < KERNEL_HALF
    requires !Present(r.tables[d][i])
    ensures OwnersLeft(m.owner, r.owner, PassedBy(d, i + 1, 0))
  {
    forall g | g in m.owner ensures PassedBy(d, i + 1, 0)(m.owner[g]) <==> PassedBy(d, i, 0)(m.owner[g]) {
      if g in r.owner {
        PrivateTable(r, d, i, g);
      }
    }
    SameLeft(m.owner, r.owner, PassedBy(d, i, 0), PassedBy(d, i + 1, 0));
  }
}
