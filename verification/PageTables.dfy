/**
  Two-level page tables as values, with a ghost record of who owns each allocated frame.
  The operations of the virtual memory manager are sequences of the few steps below; each
  step says what it does to every translation of every address space and keeps the
  bookkeeping exact.
*/
module PageTables {
  import opened Common

  type Frame = nat

  /** A 32-bit entry: a frame number and twelve flag bits. */
  datatype Entry = Entry(frame: Frame, flags: bv12)

  const ENTRIES: nat := 1024
  /** From this directory entry on, all address spaces share their page tables. */
  const KERNEL_HALF: nat := 768
  /** The directory entry that leads back to the directory itself. */
  const WINDOW: nat := 256
  const SELF: nat := 1023
  const PRESENT: bv12 := 1
  const ZERO: Entry := Entry(0, 0)

  predicate Present(e: Entry) {
    e.flags & PRESENT != 0
  }

  /** The bitwise or of two sets of flags. */
  function With(flags: bv12, more: bv12): (r: bv12) {
    flags | more
  }

  lemma PresentStays(flags: bv12, more: bv12)
    ensures With(flags, PRESENT) & PRESENT != 0
    ensures flags & PRESENT != 0 ==> With(flags, more) & PRESENT != 0
    ensures !Present(ZERO)
  {
  }

  /** It contains the flags of both and no others. */
  lemma WithExactly(flags: bv12, more: bv12)
    ensures With(flags, more) & flags == flags && With(flags, more) & more == more
    ensures With(flags, more) & !flags & !more == 0
  {
  }

  /** Whatever the page table entry `e` permits, the directory entry `pde` above it permits as well. */
  predicate Permits(pde: Entry, e: Entry) {
    e.flags & pde.flags == e.flags
  }

  /** The entry for frame `f` with the given flags, the present bit, and no other. */
  predicate Maps(e: Entry, f: Frame, flags: bv12) {
    e.frame == f && e.flags & flags == flags && e.flags & 1 == 1 && e.flags & !flags & !1 == 0
  }

  /** The flags of a directory entry have kept what they had, and have those given and the present bit. */
  predicate GrantsFlags(was: bv12, now: bv12, flags: bv12) {
    && now & flags == flags && now & 1 == 1
    && (was & 1 == 1 ==> now & was == was && now & !was & !flags == 0)
    && (was & 1 == 0 ==> now & !flags & !1 == 0)
  }

  predicate Grants(was: Entry, now: Entry, flags: bv12) {
    GrantsFlags(was.flags, now.flags, flags) && (Present(was) ==> now.frame == was.frame)
  }

  lemma MapsExactly(f: Frame, flags: bv12)
    ensures Maps(Entry(f, With(flags, PRESENT)), f, flags)
  {
  }

  lemma KeptFlags(was: bv12, flags: bv12)
    requires was & PRESENT != 0
    ensures GrantsFlags(was, With(was, flags), flags)
  {
    hide With;
    WithExactly(was, flags);
    FirstBitStays(was, With(was, flags));
  }

  lemma FirstBitStays(a: bv12, b: bv12)
    requires a & PRESENT != 0 && b & a == a
    ensures a & 1 == 1 && b & 1 == 1
  {
  }

  lemma NewFlags(was: bv12, flags: bv12)
    requires was & PRESENT == 0
    ensures GrantsFlags(was, With(With(flags, PRESENT), flags), flags)
  {
  }

  /** The flags of a new table's entry, and then those of the mapping. */
  lemma GrantsExactly(was: Entry, n: Entry, now: Entry, flags: bv12)
    requires if Present(was) then n == was else n.flags == With(flags, PRESENT)
    requires now == Entry(n.frame, With(n.flags, flags))
    ensures Grants(was, now, flags)
  {
    hide With, GrantsFlags;
    if Present(was) {
      KeptFlags(was.flags, flags);
    } else {
      NewFlags(was.flags, flags);
    }
  }

  lemma PermitsMore(pde: Entry, e: Entry, f: Frame, more: bv12)
    requires Permits(pde, e)
    ensures Permits(Entry(f, With(pde.flags, more)), e)
  {
  }

  lemma PermitsMapping(pde: Entry, f: Frame, flags: bv12)
    requires Present(pde) && With(pde.flags, flags) == pde.flags
    ensures Permits(pde, Entry(f, With(flags, PRESENT)))
  {
  }

  /** The address space a directory entry belongs to: one directory's, or everybody's. */
  datatype Home = Private(dir: Frame) | Shared

  function HomeOf(d: Frame, i: nat): (home: Home) {
    if i < KERNEL_HALF then Private(d) else Shared
  }

  /** What an allocated frame is for. A `Loose` frame is in the hands of the code that just
      allocated or unmapped it; nothing will ever release a `Leaked` one. */
  datatype Owner =
    | Reserved
    | Loose
    | Leaked
    | Directory
    | Table(home: Home, i: nat)
    | Leaf(home: Home, i: nat, j: nat)

  datatype Memory = Memory(tables: map<Frame, seq<Entry>>, dirs: set<Frame>, owner: map<Frame, Owner>)

  predicate Slot(d: Frame, i: nat, dirs: set<Frame>) {
    d in dirs && i < SELF
  }

  /** Tables have their 1024 entries, directories are tables, present directory entries lead to
      tables, and the shared half of every directory is present. */
  ghost predicate Tabular(m: Memory) {
    && (forall t :: t in m.tables ==> |m.tables[t]| == ENTRIES)
    && (forall d :: d in m.dirs ==> d in m.tables)
    && (forall d: Frame, i: nat :: Slot(d, i, m.dirs) && Present(m.tables[d][i]) ==> m.tables[d][i].frame in m.tables)
    && (forall d: Frame, i: nat :: Slot(d, i, m.dirs) && i >= KERNEL_HALF ==> Present(m.tables[d][i]))
  }

  /** The boot window is mapped in every address space. */
  ghost predicate WindowMapped(m: Memory)
    requires Tabular(m)
  {
    forall d: Frame, j: nat :: d in m.dirs && Window(KERNEL_HALF, j) ==>
      Present(m.tables[m.tables[d][KERNEL_HALF].frame][j])
  }

  ghost predicate Shaped(m: Memory) {
    Tabular(m) && WindowMapped(m)
  }

  /** The boot loader's view of the first MiB, mapped whoever owns the frames. */
  predicate Window(i: nat, j: nat) {
    i == KERNEL_HALF && j < WINDOW
  }

  /** The owners of directories, and of nothing else, say so. */
  ghost predicate DirectoriesOwned(m: Memory) {
    && (forall d :: d in m.dirs <==> d in m.owner && m.owner[d] == Directory)
    && (forall t :: t in m.tables <==> t in m.owner && (m.owner[t].Directory? || m.owner[t].Table?))
  }

  /** The table behind each present entry is owned by that entry. */
  ghost predicate EntriesOwned(m: Memory)
    requires Shaped(m)
  {
    forall d: Frame, i: nat :: Slot(d, i, m.dirs) && Present(m.tables[d][i]) ==>
      m.tables[d][i].frame in m.owner && m.owner[m.tables[d][i].frame] == Table(HomeOf(d, i), i)
  }

  predicate TablePlace(o: Owner, dirs: set<Frame>)
    requires o.Table?
  {
    o.i < SELF && (o.home.Private? <==> o.i < KERNEL_HALF) && (o.home.Private? ==> o.home.dir in dirs)
  }

  /** A frame owned as a table is behind the entry it names, in every directory that has it. */
  ghost predicate OwnersPlaced(m: Memory)
    requires Shaped(m)
  {
    && (forall t :: t in m.owner && m.owner[t].Table? ==> TablePlace(m.owner[t], m.dirs))
    && (forall t, d ::
          t in m.owner && m.owner[t].Table? && d in m.dirs && m.owner[t].home == HomeOf(d, m.owner[t].i) ==>
          Present(m.tables[d][m.owner[t].i]) && m.tables[d][m.owner[t].i].frame == t)
  }

  /** Directories and page tables are owned as such, and nothing else is. */
  ghost predicate TablesOwned(m: Memory)
    requires Shaped(m)
  {
    DirectoriesOwned(m) && EntriesOwned(m) && OwnersPlaced(m)
  }

  /** The entry that translates page `j` of directory entry `i`, in the address space of directory `d`. */
  ghost function Lookup(m: Memory, d: Frame, i: nat, j: nat): (e: Option<Entry>)
    requires Shaped(m) && Slot(d, i, m.dirs) && j < ENTRIES
  {
    var pde := m.tables[d][i];
    if !Present(pde) then None
    else
      var pte := m.tables[pde.frame][j];
      if Present(pte) then Some(pte) else None
  }

  predicate Spot(d: Frame, i: nat, j: nat, dirs: set<Frame>) {
    Slot(d, i, dirs) && j < ENTRIES
  }

  /** Outside the boot window a mapped frame is owned by the place it is mapped at. */
  ghost predicate LeavesOwned(m: Memory)
    requires Shaped(m)
  {
    && (forall d: Frame, i: nat, j: nat :: Spot(d, i, j, m.dirs) && !Window(i, j) && Lookup(m, d, i, j).Some? ==>
          var f := Lookup(m, d, i, j).value.frame; f in m.owner && m.owner[f] == Leaf(HomeOf(d, i), i, j))
    && (forall f :: f in m.owner && m.owner[f].Leaf? ==> Place(m.owner[f], m.dirs))
    && (forall f, d :: f in m.owner && m.owner[f].Leaf? && d in m.dirs && m.owner[f].home == HomeOf(d, m.owner[f].i) ==>
          Lookup(m, d, m.owner[f].i, m.owner[f].j).Some? && Lookup(m, d, m.owner[f].i, m.owner[f].j).value.frame == f)
  }

  predicate Place(o: Owner, dirs: set<Frame>)
    requires o.Leaf?
  {
    && o.i < SELF && o.j < ENTRIES && !Window(o.i, o.j)
    && (o.home.Private? <==> o.i < KERNEL_HALF) && (o.home.Private? ==> o.home.dir in dirs)
  }

  /** The processor allows an access only if the entries of both levels do. In the private half the
      directory entry never takes away what the page table entry gives. */
  ghost predicate Granting(m: Memory)
    requires Shaped(m)
  {
    forall d: Frame, i: nat, j: nat :: Spot(d, i, j, m.dirs) && i < KERNEL_HALF && Lookup(m, d, i, j).Some? ==>
      Permits(m.tables[d][i], Lookup(m, d, i, j).value)
  }

  ghost predicate Sound(m: Memory) {
    Shaped(m) && TablesOwned(m) && LeavesOwned(m) && Granting(m)
  }

  /** Outside the boot window no two pages lead to one frame, unless they are one shared page seen
      from two address spaces; and no page leads to a page table or a directory. */
  lemma NoFrameMappedTwice(m: Memory, d: Frame, i: nat, j: nat, d': Frame, i': nat, j': nat)
    requires Sound(m) && Spot(d, i, j, m.dirs) && Spot(d', i', j', m.dirs) && !Window(i, j) && !Window(i', j')
    requires Lookup(m, d, i, j).Some? && Lookup(m, d', i', j').Some?
    requires Lookup(m, d, i, j).value.frame == Lookup(m, d', i', j').value.frame
    ensures i == i' && j == j' && HomeOf(d, i) == HomeOf(d', i')
    ensures Lookup(m, d, i, j).value.frame !in m.tables
  {
    var f := Lookup(m, d, i, j).value.frame;
    assert m.owner[f] == Leaf(HomeOf(d, i), i, j);
    assert m.owner[f] == Leaf(HomeOf(d', i'), i', j');
  }

  /** Every translation of every address space is the same in `r`, except that page `j` of
      directory entry `i` now translates to `x` wherever directory `d` shares that entry. */
  ghost predicate Rebound(m: Memory, r: Memory, d: Frame, i: nat, j: nat, x: Option<Entry>) {
    && Shaped(m) && Shaped(r) && r.dirs == m.dirs
    && forall d': Frame, i': nat, j': nat :: Spot(d', i', j', m.dirs) ==>
         Lookup(r, d', i', j') ==
           if i' == i && j' == j && HomeOf(d', i) == HomeOf(d, i) then x else Lookup(m, d', i', j')
  }

  lemma SameIsSame(m: Memory)
    requires Shaped(m)
    ensures SameTranslations(m, m)
  {
  }

  lemma SameThenRebound(m: Memory, n: Memory, r: Memory, d: Frame, i: nat, j: nat, x: Option<Entry>)
    requires Spot(d, i, j, m.dirs)
    requires SameTranslations(m, n) && Rebound(n, r, d, i, j, x)
    ensures Rebound(m, r, d, i, j, x)
  {
  }

  lemma ReboundThenSame(m: Memory, n: Memory, r: Memory, d: Frame, i: nat, j: nat, x: Option<Entry>)
    requires Spot(d, i, j, m.dirs)
    requires Rebound(m, n, d, i, j, x) && SameTranslations(n, r)
    ensures Rebound(m, r, d, i, j, x)
  {
  }

  ghost predicate SameTranslations(m: Memory, r: Memory) {
    && Shaped(m) && Shaped(r) && r.dirs == m.dirs
    && forall d: Frame, i: nat, j: nat :: Spot(d, i, j, m.dirs) ==> Lookup(r, d, i, j) == Lookup(m, d, i, j)
  }

  /** One translation changed, and no directory entry. */
  lemma ReboundGrants(m: Memory, r: Memory, d: Frame, i: nat, j: nat, x: Option<Entry>)
    requires Shaped(m) && Granting(m) && Spot(d, i, j, m.dirs) && Rebound(m, r, d, i, j, x)
    requires forall d' :: d' in m.dirs ==> r.tables[d'] == m.tables[d']
    requires i < KERNEL_HALF && x.Some? ==> Permits(m.tables[d][i], x.value)
    ensures Granting(r)
  {
    hide Permits, Present, Lookup;
    forall d': Frame, i': nat, j': nat | Spot(d', i', j', r.dirs) && i' < KERNEL_HALF && Lookup(r, d', i', j').Some?
      ensures Permits(r.tables[d'][i'], Lookup(r, d', i', j').value)
    {
      if Lookup(r, d', i', j') == Lookup(m, d', i', j') {
        assert Permits(m.tables[d'][i'], Lookup(m, d', i', j').value);
      }
    }
  }

  /** No translation changed, and where there is one the directory entry keeps what it permitted. */
  lemma SameGrants(m: Memory, r: Memory)
    requires Shaped(m) && Granting(m) && SameTranslations(m, r)
    requires forall d: Frame, i: nat, j: nat :: Spot(d, i, j, m.dirs) && i < KERNEL_HALF && Lookup(m, d, i, j).Some? ==>
      Permits(r.tables[d][i], Lookup(m, d, i, j).value)
    ensures Granting(r)
  {
    hide Permits, Present, Lookup;
  }

  // ----- frames coming and going

  function Owned(m: Memory, f: Frame, o: Owner): (r: Memory) {
    m.(owner := m.owner[f := o])
  }

  function Released(m: Memory, f: Frame): (r: Memory) {
    m.(owner := m.owner - {f})
  }

  /** Neither a directory, nor a table, nor a leaf. */
  predicate Idle(m: Memory, f: Frame) {
    f !in m.owner || m.owner[f].Loose? || m.owner[f].Leaked?
  }

  lemma OwnedKeepsSound(m: Memory, f: Frame, o: Owner)
    requires Sound(m) && Idle(m, f) && (o.Loose? || o.Leaked?)
    ensures Sound(Owned(m, f, o)) && SameTranslations(m, Owned(m, f, o))
  {
    hide Permits, Present;
    OwnerKeepsTables(m, f, m.owner[f := o]);
    OwnerKeepsLeaves(m, f, m.owner[f := o]);
    SameGrants(m, Owned(m, f, o));
  }

  lemma ReleasedKeepsSound(m: Memory, f: Frame)
    requires Sound(m) && Idle(m, f)
    ensures Sound(Released(m, f)) && SameTranslations(m, Released(m, f))
  {
    hide Permits, Present;
    OwnerKeepsTables(m, f, m.owner - {f});
    OwnerKeepsLeaves(m, f, m.owner - {f});
    SameGrants(m, Released(m, f));
  }

  /** Only the entry of the idle frame `f` differs, and it stays idle. */
  ghost predicate OnlyIdle(m: Memory, f: Frame, owner: map<Frame, Owner>) {
    && Idle(m, f) && (f in owner ==> owner[f].Loose? || owner[f].Leaked?)
    && forall g :: g != f ==> (g in owner <==> g in m.owner) && (g in owner ==> owner[g] == m.owner[g])
  }

  lemma OwnerKeepsTables(m: Memory, f: Frame, owner: map<Frame, Owner>)
    requires Shaped(m) && TablesOwned(m) && OnlyIdle(m, f, owner)
    ensures Shaped(m.(owner := owner)) && TablesOwned(m.(owner := owner))
  {
  }

  lemma OwnerKeepsLeaves(m: Memory, f: Frame, owner: map<Frame, Owner>)
    requires Shaped(m) && LeavesOwned(m) && OnlyIdle(m, f, owner)
    ensures Shaped(m.(owner := owner)) && LeavesOwned(m.(owner := owner)) && SameTranslations(m, m.(owner := owner))
  {
    SameTablesSameTranslations(m, owner);
  }

  lemma SameTablesSameTranslations(m: Memory, owner: map<Frame, Owner>)
    requires Shaped(m)
    ensures SameTranslations(m, m.(owner := owner))
  {
  }

  // ----- two directory entries lead to the same table only when they are one entry or share it

  lemma TableOf(m: Memory, d: Frame, i: nat, d': Frame, i': nat)
    requires Shaped(m) && TablesOwned(m) && Slot(d, i, m.dirs) && Slot(d', i', m.dirs)
    requires Present(m.tables[d][i]) && Present(m.tables[d'][i'])
    ensures m.tables[d][i].frame == m.tables[d'][i'].frame <==> i == i' && HomeOf(d, i) == HomeOf(d', i')
    ensures m.tables[d][i].frame !in m.dirs
  {
    assert m.owner[m.tables[d][i].frame] == Table(HomeOf(d, i), i);
    assert m.owner[m.tables[d'][i'].frame] == Table(HomeOf(d', i'), i');
  }

  // ----- writing one page table entry

  ghost function Put(m: Memory, d: Frame, i: nat, j: nat, e: Entry, owner: map<Frame, Owner>): (r: Memory)
    requires Shaped(m) && Spot(d, i, j, m.dirs) && Present(m.tables[d][i])
  {
    var t := m.tables[d][i].frame;
    Memory(m.tables[t := m.tables[t][j := e]], m.dirs, owner)
  }

  /** The page can be written: its table is there, and a window page stays mapped. */
  ghost predicate Writable(m: Memory, d: Frame, i: nat, j: nat, e: Entry) {
    Shaped(m) && TablesOwned(m) && Spot(d, i, j, m.dirs) && Present(m.tables[d][i]) && (Window(i, j) ==> Present(e))
  }

  lemma PutKeepsDirectories(m: Memory, d: Frame, i: nat, j: nat, e: Entry, owner: map<Frame, Owner>)
    requires Writable(m, d, i, j, e)
    ensures var r := Put(m, d, i, j, e, owner);
      r.tables.Keys == m.tables.Keys && forall d' :: d' in m.dirs ==> d' in r.tables && r.tables[d'] == m.tables[d']
  {
    TableOf(m, d, i, d, i);
  }

  lemma PutKeepsShape(m: Memory, d: Frame, i: nat, j: nat, e: Entry, owner: map<Frame, Owner>)
    requires Writable(m, d, i, j, e)
    ensures Shaped(Put(m, d, i, j, e, owner))
  {
    var r := Put(m, d, i, j, e, owner);
    PutKeepsDirectories(m, d, i, j, e, owner);
    forall d': Frame, j': nat | d' in m.dirs && Window(KERNEL_HALF, j')
      ensures Present(r.tables[r.tables[d'][KERNEL_HALF].frame][j'])
    {
      TableOf(m, d, i, d', KERNEL_HALF);
      assert Present(m.tables[m.tables[d'][KERNEL_HALF].frame][j']);
    }
  }

  /** Writing one entry rebinds one page and no other. */
  lemma PutRebinds(m: Memory, d: Frame, i: nat, j: nat, e: Entry, owner: map<Frame, Owner>)
    requires Writable(m, d, i, j, e)
    ensures Rebound(m, Put(m, d, i, j, e, owner), d, i, j, if Present(e) then Some(e) else None)
  {
    var r := Put(m, d, i, j, e, owner);
    PutKeepsShape(m, d, i, j, e, owner);
    PutKeepsDirectories(m, d, i, j, e, owner);
    forall d': Frame, i': nat, j': nat | Spot(d', i', j', m.dirs)
      ensures Lookup(r, d', i', j') ==
        if i' == i && j' == j && HomeOf(d', i) == HomeOf(d, i) then (if Present(e) then Some(e) else None)
        else Lookup(m, d', i', j')
    {
      SharedPresence(m, d, i, d', i');
      if Present(m.tables[d'][i']) {
        TableOf(m, d, i, d', i');
      }
    }
  }

  /** Directories that share an entry agree on whether it is present. */
  lemma SharedPresence(m: Memory, d: Frame, i: nat, d': Frame, i': nat)
    requires Shaped(m) && Slot(d, i, m.dirs) && Slot(d', i', m.dirs)
    ensures i == i' && HomeOf(d, i) == HomeOf(d', i') ==> (Present(m.tables[d][i]) <==> Present(m.tables[d'][i']))
  {
  }

  /** The same frames are directories and tables, of the same places. */
  ghost predicate SameTableOwners(was: map<Frame, Owner>, now: map<Frame, Owner>) {
    && (forall t :: t in was && (was[t].Directory? || was[t].Table?) ==> t in now && now[t] == was[t])
    && (forall t :: t in now && (now[t].Directory? || now[t].Table?) ==> t in was && now[t] == was[t])
  }

  lemma PutKeepsTables(m: Memory, d: Frame, i: nat, j: nat, e: Entry, owner: map<Frame, Owner>)
    requires Writable(m, d, i, j, e) && SameTableOwners(m.owner, owner)
    ensures Shaped(Put(m, d, i, j, e, owner)) && TablesOwned(Put(m, d, i, j, e, owner))
  {
    PutKeepsShape(m, d, i, j, e, owner);
    PutKeepsDirectories(m, d, i, j, e, owner);
  }

  // ----- mapping and unmapping one page

  /** The loose frame `f` becomes the leaf of an unmapped page whose table is there. */
  ghost function Bound(m: Memory, d: Frame, i: nat, j: nat, f: Frame, flags: bv12): (r: Memory)
    requires Shaped(m) && Spot(d, i, j, m.dirs) && Present(m.tables[d][i])
  {
    Put(m, d, i, j, Entry(f, With(flags, PRESENT)), m.owner[f := Leaf(HomeOf(d, i), i, j)])
  }

  lemma BoundLeaves(m: Memory, r: Memory, d: Frame, i: nat, j: nat, e: Entry)
    requires Shaped(m) && LeavesOwned(m) && Spot(d, i, j, m.dirs) && !Window(i, j)
    requires Rebound(m, r, d, i, j, Some(e)) && Lookup(m, d, i, j) == None
    requires e.frame in m.owner && m.owner[e.frame] == Loose && r.owner == m.owner[e.frame := Leaf(HomeOf(d, i), i, j)]
    ensures LeavesOwned(r)
  {
  }

  lemma BoundKeepsSound(m: Memory, d: Frame, i: nat, j: nat, f: Frame, flags: bv12)
    requires Sound(m) && Spot(d, i, j, m.dirs) && Present(m.tables[d][i]) && Lookup(m, d, i, j) == None
    requires f in m.owner && m.owner[f] == Loose
    requires i < KERNEL_HALF ==> Permits(m.tables[d][i], Entry(f, With(flags, PRESENT)))
    ensures Sound(Bound(m, d, i, j, f, flags))
    ensures Rebound(m, Bound(m, d, i, j, f, flags), d, i, j, Some(Entry(f, With(flags, PRESENT))))
  {
    hide Permits, With, Granting;
    var e, owner := Entry(f, With(flags, PRESENT)), m.owner[f := Leaf(HomeOf(d, i), i, j)];
    PresentStays(flags, 0);
    PutRebinds(m, d, i, j, e, owner);
    PutKeepsTables(m, d, i, j, e, owner);
    PutKeepsDirectories(m, d, i, j, e, owner);
    BoundLeaves(m, Bound(m, d, i, j, f, flags), d, i, j, e);
    ReboundGrants(m, Bound(m, d, i, j, f, flags), d, i, j, Some(e));
  }

  /** The owners once page (`i`, `j`) is about to be overwritten: a frame mapped there is lost. */
  ghost function Displaced(m: Memory, d: Frame, i: nat, j: nat): (r: map<Frame, Owner>)
    requires Shaped(m) && Spot(d, i, j, m.dirs)
  {
    var was := Lookup(m, d, i, j);
    if was.None? then m.owner else m.owner[was.value.frame := Leaked]
  }

  /** The loose frame `f` becomes the leaf of a page whose table is there, mapped or not. */
  ghost function Rewritten(m: Memory, d: Frame, i: nat, j: nat, f: Frame, flags: bv12): (r: Memory)
    requires Shaped(m) && Spot(d, i, j, m.dirs) && Present(m.tables[d][i])
  {
    Put(m, d, i, j, Entry(f, With(flags, PRESENT)), Displaced(m, d, i, j)[f := Leaf(HomeOf(d, i), i, j)])
  }

  lemma RewrittenKeepsSound(m: Memory, d: Frame, i: nat, j: nat, f: Frame, flags: bv12)
    requires Sound(m) && Spot(d, i, j, m.dirs) && !Window(i, j) && Present(m.tables[d][i])
    requires f in m.owner && m.owner[f] == Loose
    requires i < KERNEL_HALF ==> Permits(m.tables[d][i], Entry(f, With(flags, PRESENT)))
    ensures Sound(Rewritten(m, d, i, j, f, flags))
    ensures Rebound(m, Rewritten(m, d, i, j, f, flags), d, i, j, Some(Entry(f, With(flags, PRESENT))))
    ensures Rewritten(m, d, i, j, f, flags).tables[d] == m.tables[d]
  {
    TableOf(m, d, i, d, i);
    if Lookup(m, d, i, j).None? {
      BoundKeepsSound(m, d, i, j, f, flags);
    } else {
      var g, n := Lookup(m, d, i, j).value.frame, Unbound(m, d, i, j);
      UnboundKeepsSound(m, d, i, j);
      LoseAndBind(m, n, d, i, j, g, f, flags);
      PutTwice(m, d, i, j, ZERO, Entry(f, With(flags, PRESENT)), n.owner,
        Displaced(m, d, i, j)[f := Leaf(HomeOf(d, i), i, j)]);
    }
  }

  lemma PutTwice(m: Memory, d: Frame, i: nat, j: nat, e: Entry, e': Entry, owner: map<Frame, Owner>,
                 owner': map<Frame, Owner>)
    requires Writable(m, d, i, j, e) && Shaped(Put(m, d, i, j, e, owner))
    ensures Put(m, d, i, j, e, owner).tables[d] == m.tables[d]
    ensures Put(Put(m, d, i, j, e, owner), d, i, j, e', owner') == Put(m, d, i, j, e', owner')
  {
    TableOf(m, d, i, d, i);
    var t := m.tables[d][i].frame;
    var n := Put(m, d, i, j, e, owner);
    assert n.tables[d] == m.tables[d];
    assert n.tables[t][j := e'] == m.tables[t][j := e'];
    assert n.tables[t := n.tables[t][j := e']] == m.tables[t := m.tables[t][j := e']];
  }

  lemma LoseAndBind(m: Memory, n: Memory, d: Frame, i: nat, j: nat, g: Frame, f: Frame, flags: bv12)
    requires Sound(m) && Sound(n) && Spot(d, i, j, m.dirs) && !Window(i, j) && Rebound(m, n, d, i, j, None)
    requires g in m.owner && m.owner[g].Leaf? && n.owner == m.owner[g := Loose]
    requires f in m.owner && m.owner[f] == Loose && Present(n.tables[d][i])
    requires i < KERNEL_HALF ==> Permits(n.tables[d][i], Entry(f, With(flags, PRESENT)))
    ensures Shaped(Owned(n, g, Leaked))
    ensures var r := Bound(Owned(n, g, Leaked), d, i, j, f, flags);
      Sound(r) && Rebound(m, r, d, i, j, Some(Entry(f, With(flags, PRESENT))))
      && r.owner == m.owner[g := Leaked][f := Leaf(HomeOf(d, i), i, j)]
  {
    hide Shaped, TablesOwned, LeavesOwned, Lookup, Present, With, Permits, Granting;
    var lost, e := Owned(n, g, Leaked), Entry(f, With(flags, PRESENT));
    OwnedKeepsSound(n, g, Leaked);
    ReboundThenSame(m, n, lost, d, i, j, None);
    BoundKeepsSound(lost, d, i, j, f, flags);
    ReboundTwice(m, lost, Bound(lost, d, i, j, f, flags), d, i, j, None, Some(e));
  }

  lemma ReboundTwice(m: Memory, n: Memory, r: Memory, d: Frame, i: nat, j: nat, x: Option<Entry>, y: Option<Entry>)
    requires Spot(d, i, j, m.dirs) && Rebound(m, n, d, i, j, x) && Rebound(n, r, d, i, j, y)
    ensures Rebound(m, r, d, i, j, y)
  {
  }

  /** A mapped page is cleared; its frame is loose again. */
  ghost function Unbound(m: Memory, d: Frame, i: nat, j: nat): (r: Memory)
    requires Shaped(m) && Spot(d, i, j, m.dirs) && Lookup(m, d, i, j).Some?
  {
    Put(m, d, i, j, ZERO, m.owner[Lookup(m, d, i, j).value.frame := Loose])
  }

  lemma UnboundLeaves(m: Memory, r: Memory, d: Frame, i: nat, j: nat)
    requires Shaped(m) && LeavesOwned(m) && Spot(d, i, j, m.dirs) && !Window(i, j)
    requires Rebound(m, r, d, i, j, None) && Lookup(m, d, i, j).Some?
    requires r.owner == m.owner[Lookup(m, d, i, j).value.frame := Loose]
    ensures LeavesOwned(r)
  {
  }

  lemma UnboundKeepsSound(m: Memory, d: Frame, i: nat, j: nat)
    requires Sound(m) && Spot(d, i, j, m.dirs) && !Window(i, j) && Lookup(m, d, i, j).Some?
    ensures Sound(Unbound(m, d, i, j)) && Rebound(m, Unbound(m, d, i, j), d, i, j, None)
  {
    var owner := m.owner[Lookup(m, d, i, j).value.frame := Loose];
    PresentStays(0, 0);
    PutRebinds(m, d, i, j, ZERO, owner);
    PutKeepsTables(m, d, i, j, ZERO, owner);
    UnboundLeaves(m, Unbound(m, d, i, j), d, i, j);
  }

  /** The same frames are leaves, of the same places. */
  ghost predicate SameLeafOwners(was: map<Frame, Owner>, now: map<Frame, Owner>) {
    && (forall t :: t in was && was[t].Leaf? ==> t in now && now[t] == was[t])
    && (forall t :: t in now && now[t].Leaf? ==> t in was && now[t] == was[t])
  }

  lemma SameTranslationsKeepLeaves(m: Memory, r: Memory)
    requires Shaped(m) && LeavesOwned(m) && SameTranslations(m, r) && SameLeafOwners(m.owner, r.owner)
    ensures LeavesOwned(r)
  {
    forall f | f in r.owner && r.owner[f].Leaf? ensures Place(r.owner[f], r.dirs) {
      assert m.owner[f].Leaf?;
    }
  }

  // ----- page tables coming and going, in the private half

  function Zeros(): (z: seq<Entry>)
    ensures |z| == ENTRIES && forall j :: 0 <= j < ENTRIES ==> !Present(z[j])
  {
    PresentStays(0, 0);
    seq(ENTRIES, _ => ZERO)
  }

  function HungTables(tables: map<Frame, seq<Entry>>, d: Frame, i: nat, t: Frame, flags: bv12)
    : (r: map<Frame, seq<Entry>>)
    requires d in tables && i < |tables[d]|
  {
    tables[d := tables[d][i := Entry(t, With(flags, PRESENT))]][t := Zeros()]
  }

  /** The loose frame `t` becomes the empty table of an absent entry. */
  ghost function Hung(m: Memory, d: Frame, i: nat, t: Frame, flags: bv12): (r: Memory)
    requires Shaped(m) && Slot(d, i, m.dirs)
  {
    Memory(HungTables(m.tables, d, i, t, flags), m.dirs, m.owner[t := Table(HomeOf(d, i), i)])
  }

  /** All directories have the same kernel half. */
  ghost predicate HalvesAgree(tables: map<Frame, seq<Entry>>, dirs: set<Frame>) {
    && (forall d :: d in dirs ==> d in tables && |tables[d]| == ENTRIES)
    && (forall d, e, i :: d in dirs && e in dirs && KERNEL_HALF <= i < SELF ==> tables[d][i] == tables[e][i])
  }

  /** A table of the kernel half that is created late is seen through one directory only: the kernel
      half stays shared if and only if there is no other directory yet. */
  lemma LateTablesSplitTheHalf(tables: map<Frame, seq<Entry>>, dirs: set<Frame>, d: Frame, i: nat, t: Frame,
                               flags: bv12)
    requires HalvesAgree(tables, dirs) && d in dirs && KERNEL_HALF <= i < SELF && !Present(tables[d][i]) && t !in tables
    ensures HalvesAgree(HungTables(tables, d, i, t, flags), dirs) <==> dirs == {d}
  {
    var now := HungTables(tables, d, i, t, flags);
    PresentStays(flags, PRESENT);
    if e :| e in dirs && e != d {
      assert now[d][i] != now[e][i];
    } else {
      assert dirs == {d};
    }
  }

  function TintedTables(tables: map<Frame, seq<Entry>>, d: Frame, i: nat, flags: bv12): (r: map<Frame, seq<Entry>>)
    requires d in tables && i < |tables[d]|
  {
    tables[d := tables[d][i := Entry(tables[d][i].frame, With(tables[d][i].flags, flags))]]
  }

  /** Flags that are added to an entry of the kernel half are added in one directory only: the halves
      stay alike if and only if there is no other directory or the entry had those flags already. */
  lemma LateRightsSplitTheHalf(tables: map<Frame, seq<Entry>>, dirs: set<Frame>, d: Frame, i: nat, flags: bv12)
    requires HalvesAgree(tables, dirs) && d in dirs && KERNEL_HALF <= i < SELF
    ensures HalvesAgree(TintedTables(tables, d, i, flags), dirs)
      <==> dirs == {d} || tables[d][i].flags & flags == flags
  {
    var now := TintedTables(tables, d, i, flags);
    RightsThere(tables[d][i].flags, flags);
    if e :| e in dirs && e != d {
      assert now[d][i] == now[e][i] <==> tables[d][i].flags & flags == flags;
    } else {
      assert dirs == {d};
    }
  }

  lemma RightsThere(flags: bv12, more: bv12)
    ensures With(flags, more) == flags <==> flags & more == more
  {
  }

  ghost predicate Hangable(m: Memory, d: Frame, i: nat, t: Frame) {
    && Shaped(m) && TablesOwned(m) && Slot(d, i, m.dirs) && !Present(m.tables[d][i])
    && t in m.owner && m.owner[t] == Loose
  }

  /** The table `t` is new, empty, and entry `i` of directory `d` leads to it; the rest is as before. */
  ghost predicate HungFrom(m: Memory, r: Memory, d: Frame, i: nat, t: Frame) {
    && r.dirs == m.dirs && r.owner == m.owner[t := Table(HomeOf(d, i), i)]
    && r.tables.Keys == m.tables.Keys + {t} && t !in m.tables && d in m.tables
    && (forall s :: s in m.tables && s != d ==> r.tables[s] == m.tables[s])
    && |r.tables[d]| == ENTRIES == |m.tables[d]| && i < SELF
    && (forall k: nat :: k < ENTRIES && k != i ==> r.tables[d][k] == m.tables[d][k])
    && Present(r.tables[d][i]) && r.tables[d][i].frame == t
    && |r.tables[t]| == ENTRIES && (forall j: nat :: j < ENTRIES ==> !Present(r.tables[t][j]))
  }

  lemma HungIsFrom(m: Memory, d: Frame, i: nat, t: Frame, flags: bv12)
    requires Hangable(m, d, i, t)
    ensures HungFrom(m, Hung(m, d, i, t, flags), d, i, t)
  {
    PresentStays(flags, 0);
  }

  lemma HungFromShape(m: Memory, r: Memory, d: Frame, i: nat, t: Frame)
    requires Hangable(m, d, i, t) && HungFrom(m, r, d, i, t)
    ensures Shaped(r)
  {
    HungFromTabular(m, r, d, i, t);
    forall d': Frame, j: nat | d' in r.dirs && Window(KERNEL_HALF, j)
      ensures Present(r.tables[r.tables[d'][KERNEL_HALF].frame][j])
    {
      HungFromWindow(m, r, d, i, t, d', j);
    }
  }

  lemma HungFromTabular(m: Memory, r: Memory, d: Frame, i: nat, t: Frame)
    requires Hangable(m, d, i, t) && HungFrom(m, r, d, i, t)
    ensures Tabular(r)
  {
    hide Present, WindowMapped, TablesOwned;
  }

  lemma HungFromWindow(m: Memory, r: Memory, d: Frame, i: nat, t: Frame, d': Frame, j: nat)
    requires Hangable(m, d, i, t) && HungFrom(m, r, d, i, t) && Tabular(r) && d' in r.dirs && Window(KERNEL_HALF, j)
    ensures Present(r.tables[r.tables[d'][KERNEL_HALF].frame][j])
  {
    hide Present;
    TableOf(m, d', KERNEL_HALF, d', KERNEL_HALF);
    assert Present(m.tables[m.tables[d'][KERNEL_HALF].frame][j]);
  }

  lemma HungFromTables(m: Memory, r: Memory, d: Frame, i: nat, t: Frame)
    requires Hangable(m, d, i, t) && HungFrom(m, r, d, i, t)
    ensures Shaped(r) && TablesOwned(r)
  {
    HungFromShape(m, r, d, i, t);
    HungFromEntries(m, r, d, i, t);
    HungFromPlaces(m, r, d, i, t);
  }

  lemma HungFromEntries(m: Memory, r: Memory, d: Frame, i: nat, t: Frame)
    requires Hangable(m, d, i, t) && HungFrom(m, r, d, i, t)
    ensures Shaped(r) && EntriesOwned(r)
  {
    hide Present, WindowMapped;
    HungFromShape(m, r, d, i, t);
  }

  lemma HungFromPlaces(m: Memory, r: Memory, d: Frame, i: nat, t: Frame)
    requires Hangable(m, d, i, t) && HungFrom(m, r, d, i, t)
    ensures Shaped(r) && OwnersPlaced(r)
  {
    hide Present, WindowMapped, EntriesOwned;
    HungFromShape(m, r, d, i, t);
  }

  lemma HungFromTranslations(m: Memory, r: Memory, d: Frame, i: nat, t: Frame)
    requires Hangable(m, d, i, t) && HungFrom(m, r, d, i, t)
    ensures SameTranslations(m, r)
  {
    HungFromShape(m, r, d, i, t);
    forall d': Frame, i': nat, j: nat | Spot(d', i', j, m.dirs) ensures Lookup(r, d', i', j) == Lookup(m, d', i', j) {
      if Present(m.tables[d'][i']) {
        TableOf(m, d', i', d', i');
      }
    }
  }

  lemma HungKeepsSound(m: Memory, d: Frame, i: nat, t: Frame, flags: bv12)
    requires Sound(m) && Hangable(m, d, i, t)
    ensures Sound(Hung(m, d, i, t, flags)) && SameTranslations(m, Hung(m, d, i, t, flags))
    ensures Present(Hung(m, d, i, t, flags).tables[d][i])
  {
    hide Granting, Present, With;
    var r := Hung(m, d, i, t, flags);
    HungIsFrom(m, d, i, t, flags);
    HungFromTables(m, r, d, i, t);
    HungFromTranslations(m, r, d, i, t);
    SameTranslationsKeepLeaves(m, r);
    HungFromGrants(m, r, d, i, t);
  }

  /** The new entry has no page behind it yet; the others are as before. */
  lemma HungFromGrants(m: Memory, r: Memory, d: Frame, i: nat, t: Frame)
    requires Hangable(m, d, i, t) && HungFrom(m, r, d, i, t) && Granting(m) && SameTranslations(m, r)
    ensures Granting(r)
  {
    hide Permits, TablesOwned;
    forall d': Frame, i': nat, j: nat | Spot(d', i', j, m.dirs) && i' < KERNEL_HALF && Lookup(m, d', i', j).Some?
      ensures Permits(r.tables[d'][i'], Lookup(m, d', i', j).value)
    {
      assert r.tables[d'][i'] == m.tables[d'][i'];
    }
    SameGrants(m, r);
  }

  /** More flags on a present directory entry. */
  ghost function Tinted(m: Memory, d: Frame, i: nat, flags: bv12): (r: Memory)
    requires Shaped(m) && Slot(d, i, m.dirs)
  {
    m.(tables := TintedTables(m.tables, d, i, flags))
  }

  /** Only the flags of one present directory entry differ. */
  ghost predicate SameFrames(m: Memory, r: Memory, d: Frame, i: nat) {
    && r.dirs == m.dirs && r.owner == m.owner && r.tables.Keys == m.tables.Keys
    && Slot(d, i, m.dirs) && d in m.tables && |m.tables[d]| == ENTRIES && |r.tables[d]| == ENTRIES
    && (forall t :: t in m.tables && t != d ==> r.tables[t] == m.tables[t])
    && (forall k: nat :: k < ENTRIES ==> r.tables[d][k].frame == m.tables[d][k].frame)
    && (forall k: nat :: k < ENTRIES ==> (Present(r.tables[d][k]) <==> Present(m.tables[d][k])))
  }

  lemma TintedSameFrames(m: Memory, d: Frame, i: nat, flags: bv12)
    requires Shaped(m) && Slot(d, i, m.dirs) && Present(m.tables[d][i])
    ensures SameFrames(m, Tinted(m, d, i, flags), d, i)
  {
    PresentStays(m.tables[d][i].flags, flags);
  }

  lemma SameFramesKeepShape(m: Memory, r: Memory, d: Frame, i: nat)
    requires Shaped(m) && TablesOwned(m) && SameFrames(m, r, d, i)
    ensures Shaped(r)
  {
    SameFramesTabular(m, r, d, i);
    forall d': Frame, j: nat | d' in r.dirs && Window(KERNEL_HALF, j)
      ensures Present(r.tables[r.tables[d'][KERNEL_HALF].frame][j])
    {
      SameFramesWindow(m, r, d, i, d', j);
    }
  }

  lemma SameFramesTabular(m: Memory, r: Memory, d: Frame, i: nat)
    requires Shaped(m) && SameFrames(m, r, d, i)
    ensures Tabular(r)
  {
    hide WindowMapped;
  }

  lemma SameFramesWindow(m: Memory, r: Memory, d: Frame, i: nat, d': Frame, j: nat)
    requires Shaped(m) && TablesOwned(m) && SameFrames(m, r, d, i) && Tabular(r)
    requires d' in r.dirs && Window(KERNEL_HALF, j)
    ensures Present(r.tables[r.tables[d'][KERNEL_HALF].frame][j])
  {
    hide Present;
    TableOf(m, d', KERNEL_HALF, d', KERNEL_HALF);
    assert Present(m.tables[m.tables[d'][KERNEL_HALF].frame][j]);
  }

  lemma SameFramesKeepTables(m: Memory, r: Memory, d: Frame, i: nat)
    requires Shaped(m) && TablesOwned(m) && SameFrames(m, r, d, i)
    ensures Shaped(r) && TablesOwned(r)
  {
    SameFramesKeepShape(m, r, d, i);
  }

  lemma SameFramesKeepTranslations(m: Memory, r: Memory, d: Frame, i: nat)
    requires Shaped(m) && TablesOwned(m) && SameFrames(m, r, d, i)
    ensures SameTranslations(m, r)
  {
    SameFramesKeepShape(m, r, d, i);
    forall d': Frame, i': nat, j: nat | Spot(d', i', j, m.dirs) ensures Lookup(r, d', i', j) == Lookup(m, d', i', j) {
      if Present(m.tables[d'][i']) {
        TableOf(m, d', i', d', i');
      }
    }
  }

  lemma TintedKeepsSound(m: Memory, d: Frame, i: nat, flags: bv12)
    requires Sound(m) && Slot(d, i, m.dirs) && Present(m.tables[d][i])
    ensures Sound(Tinted(m, d, i, flags)) && SameTranslations(m, Tinted(m, d, i, flags))
  {
    hide Granting, With, Present;
    TintedSameFrames(m, d, i, flags);
    SameFramesKeepTables(m, Tinted(m, d, i, flags), d, i);
    SameFramesKeepTranslations(m, Tinted(m, d, i, flags), d, i);
    SameTranslationsKeepLeaves(m, Tinted(m, d, i, flags));
    TintedGrants(m, d, i, flags);
  }

  lemma TintedGrants(m: Memory, d: Frame, i: nat, flags: bv12)
    requires Shaped(m) && Slot(d, i, m.dirs) && Granting(m) && SameTranslations(m, Tinted(m, d, i, flags))
    ensures Granting(Tinted(m, d, i, flags))
  {
    hide Permits, With, Present, Lookup;
    var r := Tinted(m, d, i, flags);
    forall d': Frame, i': nat, j: nat | Spot(d', i', j, m.dirs) && i' < KERNEL_HALF && Lookup(m, d', i', j).Some?
      ensures Permits(r.tables[d'][i'], Lookup(m, d', i', j).value)
    {
      if d' == d && i' == i {
        PermitsMore(m.tables[d][i], Lookup(m, d', i', j).value, m.tables[d][i].frame, flags);
      }
    }
    SameGrants(m, r);
  }

  /** A table without a present entry leaves the private half; its frame is loose again. */
  ghost function Pruned(m: Memory, d: Frame, i: nat): (r: Memory)
    requires Shaped(m) && Slot(d, i, m.dirs)
  {
    var t := m.tables[d][i].frame;
    Memory(m.tables[d := m.tables[d][i := ZERO]] - {t}, m.dirs, m.owner[t := Loose])
  }

  ghost predicate Prunable(m: Memory, d: Frame, i: nat) {
    && Shaped(m) && TablesOwned(m) && Slot(d, i, m.dirs) && i < KERNEL_HALF && Present(m.tables[d][i])
    && forall j: nat :: j < ENTRIES ==> Lookup(m, d, i, j) == None
  }

  lemma PrunedEntries(m: Memory, d: Frame, i: nat)
    requires Prunable(m, d, i)
    ensures forall d': Frame, i': nat :: Slot(d', i', m.dirs) && !(d' == d && i' == i) ==>
      && d' in Pruned(m, d, i).tables && |Pruned(m, d, i).tables[d']| == ENTRIES
      && Pruned(m, d, i).tables[d'][i'] == m.tables[d'][i']
      && (Present(m.tables[d'][i']) ==> m.tables[d'][i'].frame != m.tables[d][i].frame)
  {
    TableOf(m, d, i, d, i);
    forall d': Frame, i': nat | Slot(d', i', m.dirs) && !(d' == d && i' == i) && Present(m.tables[d'][i'])
      ensures m.tables[d'][i'].frame != m.tables[d][i].frame
    {
      TableOf(m, d, i, d', i');
    }
  }

  lemma PrunedKeepsShape(m: Memory, d: Frame, i: nat)
    requires Prunable(m, d, i)
    ensures Shaped(Pruned(m, d, i))
    ensures forall d': Frame, i': nat :: Slot(d', i', m.dirs) && !(d' == d && i' == i) ==>
      && Pruned(m, d, i).tables[d'][i'] == m.tables[d'][i']
      && (Present(m.tables[d'][i']) ==> m.tables[d'][i'].frame != m.tables[d][i].frame)
  {
    hide Present, Pruned, EntriesOwned, OwnersPlaced, DirectoriesOwned;
    var r := Pruned(m, d, i);
    PrunedTabular(m, d, i);
    PrunedEntries(m, d, i);
    forall d': Frame, j: nat | d' in r.dirs && Window(KERNEL_HALF, j)
      ensures Present(r.tables[r.tables[d'][KERNEL_HALF].frame][j])
    {
      PrunedWindow(m, d, i, d', j);
    }
  }

  lemma PrunedTabular(m: Memory, d: Frame, i: nat)
    requires Prunable(m, d, i)
    ensures Tabular(Pruned(m, d, i)) && Pruned(m, d, i).dirs == m.dirs
  {
    hide Present, WindowMapped, Lookup, EntriesOwned, OwnersPlaced, DirectoriesOwned;
    PresentStays(0, 0);
    TableOf(m, d, i, d, i);
    PrunedEntries(m, d, i);
  }

  lemma PrunedWindow(m: Memory, d: Frame, i: nat, d': Frame, j: nat)
    requires Prunable(m, d, i) && Tabular(Pruned(m, d, i)) && d' in m.dirs && Window(KERNEL_HALF, j)
    ensures Present(Pruned(m, d, i).tables[Pruned(m, d, i).tables[d'][KERNEL_HALF].frame][j])
  {
    hide Present, Lookup, EntriesOwned, OwnersPlaced, DirectoriesOwned;
    TableOf(m, d, i, d', KERNEL_HALF);
    TableOf(m, d', KERNEL_HALF, d', KERNEL_HALF);
    assert Present(m.tables[m.tables[d'][KERNEL_HALF].frame][j]);
  }

  lemma PrunedKeepsTables(m: Memory, d: Frame, i: nat)
    requires Prunable(m, d, i)
    ensures Shaped(Pruned(m, d, i)) && TablesOwned(Pruned(m, d, i)) && SameTranslations(m, Pruned(m, d, i))
  {
    PrunedKeepsShape(m, d, i);
    PresentStays(0, 0);
  }

  lemma PrunedKeepsSound(m: Memory, d: Frame, i: nat)
    requires Sound(m) && Prunable(m, d, i)
    ensures Sound(Pruned(m, d, i)) && SameTranslations(m, Pruned(m, d, i))
  {
    hide Granting, Present, Lookup;
    PrunedKeepsTables(m, d, i);
    SameTranslationsKeepLeaves(m, Pruned(m, d, i));
    PrunedGrants(m, d, i);
  }

  /** The entry that is cleared has no page behind it. */
  lemma PrunedGrants(m: Memory, d: Frame, i: nat)
    requires Prunable(m, d, i) && Granting(m) && SameTranslations(m, Pruned(m, d, i))
    ensures Granting(Pruned(m, d, i))
  {
    hide Permits, Present, Pruned, TablesOwned, Lookup;
    var r := Pruned(m, d, i);
    PrunedKeepsShape(m, d, i);
    forall d': Frame, i': nat, j: nat | Spot(d', i', j, m.dirs) && i' < KERNEL_HALF && Lookup(m, d', i', j).Some?
      ensures Permits(r.tables[d'][i'], Lookup(m, d', i', j).value)
    {
      assert Slot(d', i', m.dirs) && r.tables[d'][i'] == m.tables[d'][i'];
    }
    SameGrants(m, r);
  }

  // ----- address spaces coming and going

  /** A directory with an empty private half and the shared half of `source`. */
  function Blank(source: seq<Entry>, f: Frame): (pd: seq<Entry>)
    requires |source| == ENTRIES
    ensures |pd| == ENTRIES
    ensures forall i :: 0 <= i < ENTRIES ==>
      pd[i] == if i == SELF then Entry(f, 3) else if i < KERNEL_HALF then ZERO else source[i]
  {
    seq(ENTRIES, (i: int) requires 0 <= i < ENTRIES =>
      if i == SELF then Entry(f, 3) else if i < KERNEL_HALF then ZERO else source[i])
  }

  /** The loose frame `f` becomes a directory that shares the kernel half of `source`. */
  ghost function Cloned(m: Memory, f: Frame, source: Frame): (r: Memory)
    requires Shaped(m) && source in m.dirs
  {
    Memory(m.tables[f := Blank(m.tables[source], f)], m.dirs + {f}, m.owner[f := Directory])
  }

  lemma ClonedKeepsShape(m: Memory, f: Frame, source: Frame)
    requires Shaped(m) && TablesOwned(m) && source in m.dirs && f in m.owner && m.owner[f] == Loose
    ensures Shaped(Cloned(m, f, source))
  {
    hide Present;
    PresentStays(0, 0);
  }

  lemma ClonedKeepsTables(m: Memory, f: Frame, source: Frame)
    requires Shaped(m) && TablesOwned(m) && source in m.dirs && f in m.owner && m.owner[f] == Loose
    ensures Shaped(Cloned(m, f, source)) && TablesOwned(Cloned(m, f, source))
  {
    hide Cloned, EntriesOwned, OwnersPlaced, DirectoriesOwned;
    ClonedKeepsShape(m, f, source);
    ClonedDirectories(m, f, source);
    ClonedEntries(m, f, source);
    ClonedPlaces(m, f, source);
  }

  lemma ClonedDirectories(m: Memory, f: Frame, source: Frame)
    requires Shaped(m) && DirectoriesOwned(m) && source in m.dirs && f in m.owner && m.owner[f] == Loose
    ensures DirectoriesOwned(Cloned(m, f, source))
  {
  }

  lemma ClonedEntries(m: Memory, f: Frame, source: Frame)
    requires Shaped(m) && EntriesOwned(m) && source in m.dirs && f in m.owner && m.owner[f] == Loose
    requires Shaped(Cloned(m, f, source))
    ensures EntriesOwned(Cloned(m, f, source))
  {
    PresentStays(0, 0);
  }

  lemma ClonedPlaces(m: Memory, f: Frame, source: Frame)
    requires Shaped(m) && DirectoriesOwned(m) && OwnersPlaced(m) && source in m.dirs && f in m.owner &&
      m.owner[f] == Loose
    requires Shaped(Cloned(m, f, source))
    ensures OwnersPlaced(Cloned(m, f, source))
  {
    PresentStays(0, 0);
  }

  /** The new address space has no private page and every shared page, with the same directory
      entries; the others are as before. */
  ghost predicate Spawned(m: Memory, r: Memory, f: Frame, source: Frame) {
    && Shaped(m) && Shaped(r) && source in m.dirs && r.dirs == m.dirs + {f} && f !in m.dirs
    && (forall d: Frame, i: nat, j: nat :: Spot(d, i, j, m.dirs) ==> Lookup(r, d, i, j) == Lookup(m, d, i, j))
    && (forall i: nat, j: nat :: Spot(f, i, j, r.dirs) ==>
          Lookup(r, f, i, j) == if i < KERNEL_HALF then None else Lookup(m, source, i, j))
    && (forall i: nat :: KERNEL_HALF <= i < SELF ==> r.tables[f][i] == r.tables[source][i])
  }

  lemma ClonedSpawns(m: Memory, f: Frame, source: Frame)
    requires Shaped(m) && TablesOwned(m) && source in m.dirs && f in m.owner && m.owner[f] == Loose
    ensures Spawned(m, Cloned(m, f, source), f, source)
  {
    ClonedKeepsTables(m, f, source);
    PresentStays(0, 0);
  }

  lemma ClonedKeepsLeaves(m: Memory, r: Memory, f: Frame, source: Frame)
    requires Shaped(m) && LeavesOwned(m) && Spawned(m, r, f, source)
    requires f in m.owner && m.owner[f] == Loose && r.owner == m.owner[f := Directory]
    ensures LeavesOwned(r)
  {
    forall g | g in r.owner && r.owner[g].Leaf? ensures Place(r.owner[g], r.dirs) {
      assert Place(m.owner[g], m.dirs);
    }
    forall g, d | g in r.owner && r.owner[g].Leaf? && d in r.dirs && r.owner[g].home == HomeOf(d, r.owner[g].i)
      ensures Lookup(r, d, r.owner[g].i, r.owner[g].j).Some? &&
        Lookup(r, d, r.owner[g].i, r.owner[g].j).value.frame == g
    {
      assert Place(m.owner[g], m.dirs);
      assert d in m.dirs || m.owner[g].home == HomeOf(source, m.owner[g].i);
    }
  }

  lemma ClonedKeepsSound(m: Memory, f: Frame, source: Frame)
    requires Sound(m) && source in m.dirs && f in m.owner && m.owner[f] == Loose
    ensures Sound(Cloned(m, f, source)) && Spawned(m, Cloned(m, f, source), f, source)
  {
    ClonedKeepsTables(m, f, source);
    ClonedSpawns(m, f, source);
    ClonedKeepsLeaves(m, Cloned(m, f, source), f, source);
  }

  /** A directory with an empty private half is given up; its frame is loose again. */
  ghost function Dropped(m: Memory, d: Frame): (r: Memory) {
    Memory(m.tables - {d}, m.dirs - {d}, m.owner[d := Loose])
  }

  ghost predicate Droppable(m: Memory, d: Frame) {
    Shaped(m) && TablesOwned(m) && d in m.dirs && forall i: nat :: i < KERNEL_HALF ==> !Present(m.tables[d][i])
  }

  /** The address spaces other than `d` are as before. */
  ghost predicate Gone(m: Memory, r: Memory, d: Frame) {
    && Shaped(m) && Shaped(r) && r.dirs == m.dirs - {d}
    && forall d': Frame, i: nat, j: nat :: Spot(d', i, j, r.dirs) ==> Lookup(r, d', i, j) == Lookup(m, d', i, j)
  }

  lemma DroppedKeepsTables(m: Memory, d: Frame)
    requires Droppable(m, d)
    ensures Shaped(Dropped(m, d)) && TablesOwned(Dropped(m, d)) && Gone(m, Dropped(m, d), d)
  {
    hide Dropped, EntriesOwned, OwnersPlaced, DirectoriesOwned, Gone;
    DroppedKeepsShape(m, d);
    DroppedEntries(m, d);
    DroppedPlaces(m, d);
    DroppedIsGone(m, d);
  }

  lemma DroppedKeepsShape(m: Memory, d: Frame)
    requires Droppable(m, d)
    ensures Shaped(Dropped(m, d)) && DirectoriesOwned(Dropped(m, d))
  {
    hide OwnersPlaced;
  }

  lemma DroppedEntries(m: Memory, d: Frame)
    requires Droppable(m, d) && Shaped(Dropped(m, d))
    ensures EntriesOwned(Dropped(m, d))
  {
    hide OwnersPlaced;
  }

  lemma DroppedPlaces(m: Memory, d: Frame)
    requires Droppable(m, d) && Shaped(Dropped(m, d))
    ensures OwnersPlaced(Dropped(m, d))
  {
    hide EntriesOwned;
  }

  lemma DroppedIsGone(m: Memory, d: Frame)
    requires Droppable(m, d) && Shaped(Dropped(m, d))
    ensures Gone(m, Dropped(m, d), d)
  {
    hide OwnersPlaced;
  }

  lemma DroppedKeepsLeaves(m: Memory, r: Memory, d: Frame)
    requires Droppable(m, d) && LeavesOwned(m) && Gone(m, r, d) && r.owner == m.owner[d := Loose]
    ensures LeavesOwned(r)
  {
    hide EntriesOwned, OwnersPlaced;
    forall g | g in r.owner && r.owner[g].Leaf? ensures Place(r.owner[g], r.dirs) {
      assert Place(m.owner[g], m.dirs);
      assert m.owner[g].home == HomeOf(d, m.owner[g].i) ==> Lookup(m, d, m.owner[g].i, m.owner[g].j).Some?;
    }
  }

  lemma DroppedKeepsSound(m: Memory, d: Frame)
    requires Sound(m) && Droppable(m, d)
    ensures Sound(Dropped(m, d)) && Gone(m, Dropped(m, d), d)
  {
    DroppedKeepsTables(m, d);
    DroppedKeepsLeaves(m, Dropped(m, d), d);
  }
}
