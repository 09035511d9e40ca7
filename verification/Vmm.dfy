/**
  The virtual memory manager: page tables reached through the loaded directory, page
  frames taken from and given back to the frame allocator. `Mem` is the value the steps of
  PageTables talk about; every method says which steps it takes or what they add up to.
*/
module Vmm {
  import opened Common
  import opened Pmm
  import opened PageTables
  import opened PageRuns

  /** Who owns the frames that are not page tables. */
  ghost function NonTables(owner: map<Frame, Owner>): (r: map<Frame, Owner>) {
    map f | f in owner && !owner[f].Table? :: owner[f]
  }

  lemma NonTablesOwned(owner: map<Frame, Owner>, f: Frame, o: Owner)
    ensures NonTables(owner[f := o]) == if o.Table? then NonTables(owner) - {f} else NonTables(owner)[f := o]
    ensures NonTables(owner - {f}) == NonTables(owner) - {f}
    ensures f !in owner ==> f !in NonTables(owner)
  {
  }

  /** What Shaped says about one directory entry. */
  lemma EntryShape(m: Memory, d: Frame, i: nat)
    requires Shaped(m) && Slot(d, i, m.dirs)
    ensures d in m.tables && |m.tables[d]| == ENTRIES
    ensures Present(m.tables[d][i]) ==> m.tables[d][i].frame in m.tables && |m.tables[m.tables[d][i].frame]| == ENTRIES
    ensures i >= KERNEL_HALF ==> Present(m.tables[d][i])
  {
  }

  /** A mapped page outside the window is the leaf of its frame. */
  lemma LeafOf(m: Memory, d: Frame, i: nat, j: nat)
    requires Shaped(m) && LeavesOwned(m) && Spot(d, i, j, m.dirs) && !Window(i, j) && Lookup(m, d, i, j).Some?
    ensures var f := Lookup(m, d, i, j).value.frame; f in m.owner && m.owner[f] == Leaf(HomeOf(d, i), i, j)
  {
  }

  // ----- the tables the boot loader and vmm_init leave

  ghost predicate Bootable(used: set<Frame>, pd: Frame, shared: seq<Frame>) {
    && pd in used && pd != 0 && |shared| == SELF - KERNEL_HALF
    && (forall k :: 0 <= k < |shared| ==> shared[k] in used && shared[k] != 0 && shared[k] != pd)
    && (forall k, l :: 0 <= k < l < |shared| ==> shared[k] != shared[l])
  }

  function BootDirectory(pd: Frame, shared: seq<Frame>): (dir: seq<Entry>)
    requires |shared| == SELF - KERNEL_HALF
    ensures |dir| == ENTRIES
    ensures forall i :: 0 <= i < ENTRIES ==>
      dir[i] == if i == SELF then Entry(pd, 3) else if i < KERNEL_HALF then ZERO else Entry(shared[i - KERNEL_HALF], 3)
  {
    seq(ENTRIES, (i: int) requires 0 <= i < ENTRIES =>
      if i == SELF then Entry(pd, 3) else if i < KERNEL_HALF then ZERO else Entry(shared[i - KERNEL_HALF], 3))
  }

  function WindowTable(): (pt: seq<Entry>)
    ensures |pt| == ENTRIES && forall j :: 0 <= j < ENTRIES ==> pt[j] == if j < WINDOW then Entry(j, 3) else ZERO
  {
    seq(ENTRIES, (j: int) requires 0 <= j < ENTRIES => if j < WINDOW then Entry(j, 3) else ZERO)
  }

  function BootTables(pd: Frame, shared: seq<Frame>): (tables: map<Frame, seq<Entry>>)
    requires |shared| == SELF - KERNEL_HALF
    ensures forall t :: t in tables <==> t == pd || t in shared
    ensures forall t :: t in tables ==>
      tables[t] == if t == pd then BootDirectory(pd, shared) else if t == shared[0] then WindowTable() else Zeros()
  {
    map t | t in [pd] + shared ::
      if t == pd then BootDirectory(pd, shared) else if t == shared[0] then WindowTable() else Zeros()
  }

  ghost function BootOwner(used: set<Frame>, pd: Frame, shared: seq<Frame>): (owner: map<Frame, Owner>)
    ensures owner.Keys == used
    ensures forall f :: f in owner ==>
      if f == pd then owner[f] == Directory
      else if f in shared then
        exists k :: 0 <= k < |shared| && shared[k] == f && owner[f] == Table(Shared, KERNEL_HALF + k)
      else owner[f] == Reserved
  {
    map f | f in used ::
      if f == pd then Directory
      else if f in shared then (var k :| 0 <= k < |shared| && shared[k] == f; Table(Shared, KERNEL_HALF + k))
      else Reserved
  }

  lemma BootEntries()
    ensures forall f :: Present(Entry(f, 3))
    ensures !Present(ZERO)
  {
  }

  ghost function BootMemory(used: set<Frame>, pd: Frame, shared: seq<Frame>): (r: Memory)
    requires |shared| == SELF - KERNEL_HALF
  {
    Memory(BootTables(pd, shared), {pd}, BootOwner(used, pd, shared))
  }

  lemma BootShape(used: set<Frame>, pd: Frame, shared: seq<Frame>)
    requires Bootable(used, pd, shared)
    ensures Shaped(BootMemory(used, pd, shared))
  {
    hide Present;
    BootEntries();
    var m := BootMemory(used, pd, shared);
    assert m.tables[pd][KERNEL_HALF].frame == shared[0];
  }

  lemma BootOwners(used: set<Frame>, pd: Frame, shared: seq<Frame>)
    requires Bootable(used, pd, shared)
    ensures forall k :: 0 <= k < |shared| ==> BootOwner(used, pd, shared)[shared[k]] == Table(Shared, KERNEL_HALF + k)
    ensures var owner := BootOwner(used, pd, shared);
      forall f :: f in owner && owner[f].Table? ==>
        KERNEL_HALF <= owner[f].i < SELF && owner[f].home == Shared && shared[owner[f].i - KERNEL_HALF] == f
  {
  }

  lemma BootTablesOwned(used: set<Frame>, pd: Frame, shared: seq<Frame>)
    requires Bootable(used, pd, shared)
    ensures Shaped(BootMemory(used, pd, shared)) && TablesOwned(BootMemory(used, pd, shared))
  {
    hide DirectoriesOwned, EntriesOwned, OwnersPlaced, Shaped;
    BootShape(used, pd, shared);
    BootDirectories(used, pd, shared);
    BootEntriesOwned(used, pd, shared);
    BootPlaces(used, pd, shared);
  }

  lemma BootDirectories(used: set<Frame>, pd: Frame, shared: seq<Frame>)
    requires Bootable(used, pd, shared)
    ensures DirectoriesOwned(BootMemory(used, pd, shared))
  {
    hide Present, BootOwner, BootTables, BootDirectory, WindowTable, Zeros;
    BootOwners(used, pd, shared);
  }

  lemma BootEntriesOwned(used: set<Frame>, pd: Frame, shared: seq<Frame>)
    requires Bootable(used, pd, shared) && Shaped(BootMemory(used, pd, shared))
    ensures EntriesOwned(BootMemory(used, pd, shared))
  {
    hide Present, BootOwner, BootTables, BootDirectory, WindowTable, Zeros, Shaped;
    BootEntries();
    BootOwners(used, pd, shared);
  }

  lemma BootPlaces(used: set<Frame>, pd: Frame, shared: seq<Frame>)
    requires Bootable(used, pd, shared) && Shaped(BootMemory(used, pd, shared))
    ensures OwnersPlaced(BootMemory(used, pd, shared))
  {
    hide Present, BootOwner, BootTables, BootDirectory, WindowTable, Zeros, Shaped;
    BootEntries();
    BootOwners(used, pd, shared);
  }

  lemma BootTranslations(used: set<Frame>, pd: Frame, shared: seq<Frame>)
    requires Bootable(used, pd, shared)
    ensures var m := BootMemory(used, pd, shared); Shaped(m) && forall i: nat, j: nat :: Spot(pd, i, j, {pd}) ==>
      Lookup(m, pd, i, j) == if Window(i, j) then Some(Entry(j, 3)) else None
  {
    hide Present;
    BootEntries();
    BootShape(used, pd, shared);
    var m := BootMemory(used, pd, shared);
    forall i: nat, j: nat | Spot(pd, i, j, {pd})
      ensures Lookup(m, pd, i, j) == if Window(i, j) then Some(Entry(j, 3)) else None
    {
      if i >= KERNEL_HALF {
        assert m.tables[pd][i].frame == shared[i - KERNEL_HALF];
      }
    }
  }

  lemma BootIsSound(used: set<Frame>, pd: Frame, shared: seq<Frame>)
    requires Bootable(used, pd, shared)
    ensures var m := BootMemory(used, pd, shared);
      && Sound(m) && m.owner.Keys == used && (0 in used ==> m.owner[0] == Reserved)
      && (forall i: nat, j: nat :: Spot(pd, i, j, {pd}) ==>
            Lookup(m, pd, i, j) == if Window(i, j) then Some(Entry(j, 3)) else None)
      && (forall f :: f in m.owner ==> !m.owner[f].Leaf? && !m.owner[f].Loose? && !m.owner[f].Leaked?)
  {
    hide Present, BootTables, BootOwner, Shaped, TablesOwned, Lookup;
    BootTablesOwned(used, pd, shared);
    BootTranslations(used, pd, shared);
  }

  class Vmm {
    const pmm: Pmm
    var tables: map<Frame, seq<Entry>>
    var cr3: Frame
    /** Which frames are page directories, and what each allocated frame is for. */
    ghost var dirs: set<Frame>
    ghost var owner: map<Frame, Owner>

    ghost function Mem(): (r: Memory)
      reads this
    {
      Memory(tables, dirs, owner)
    }

    /** The bits set in the bitmap are exactly the owned frames. */
    ghost predicate Balanced()
      reads this, pmm.bitmap
    {
      pmm.Valid() && owner.Keys == pmm.Used() && 0 in owner && owner[0] == Reserved
    }

    ghost predicate Valid()
      reads this, pmm.bitmap
    {
      Sound(Mem()) && Balanced() && cr3 in dirs
    }

    /** The state vmm_init leaves: one directory, an empty private half, the tables of the shared
        half in place, and the boot window in the first of them. */
    constructor (pmm: Pmm, pd: Frame, shared: seq<Frame>)
      requires pmm.Valid() && 0 in pmm.Used() && Bootable(pmm.Used(), pd, shared)
      ensures Valid() && this.pmm == pmm && cr3 == pd && dirs == {pd}
      ensures forall i: nat, j: nat :: Spot(pd, i, j, dirs) ==>
        Lookup(Mem(), pd, i, j) == if Window(i, j) then Some(Entry(j, 3)) else None
      ensures forall f :: f in owner ==> !owner[f].Leaf? && !owner[f].Loose? && !owner[f].Leaked?
    {
      BootIsSound(pmm.Used(), pd, shared);
      this.pmm := pmm;
      tables := BootTables(pd, shared);
      cr3 := pd;
      dirs := {pd};
      owner := BootOwner(pmm.Used(), pd, shared);
      new;
    }

    /** pmm_alloc_page, with the new frame on the books. */
    method AllocFrame() returns (f: Frame)
      requires Valid()
      modifies this`owner, pmm.bitmap
      ensures Valid()
      ensures f == 0 ==> Mem() == old(Mem()) && NoneFree(owner.Keys, pmm.bits)
      ensures f != 0 ==> f !in old(owner) && f < pmm.bits && Mem() == Owned(old(Mem()), f, Loose)
      ensures f != 0 ==> SameTranslations(old(Mem()), Mem())
    {
      hide Shaped, TablesOwned, LeavesOwned;
      f := pmm.AllocPage();
      if f != 0 {
        OwnedKeepsSound(Mem(), f, Loose);
        owner := owner[f := Loose];
      }
    }

    /** pmm_free_page, for a frame that nothing refers to any more. */
    method FreeFrame(f: Frame)
      requires Valid() && f in owner && owner[f].Loose?
      modifies this`owner, pmm.bitmap
      ensures Valid() && Mem() == Released(old(Mem()), f) && SameTranslations(old(Mem()), Mem())
    {
      hide Shaped, TablesOwned, LeavesOwned;
      ReleasedKeepsSound(Mem(), f);
      pmm.FreePage(f);
      owner := owner - {f};
    }

    /** get_pte, read: the entry that translates page `j` of directory entry `i`. */
    method ReadPage(i: nat, j: nat) returns (e: Option<Entry>)
      requires Valid() && i < SELF && j < ENTRIES
      ensures e == Lookup(Mem(), cr3, i, j)
    {
      hide TablesOwned, LeavesOwned, Present;
      EntryShape(Mem(), cr3, i);
      var pde := tables[cr3][i];
      if !Present(pde) {
        return None;
      }
      var pte := tables[pde.frame][j];
      return if Present(pte) then Some(pte) else None;
    }

    /** The writes that make frame `t` the page table of directory entry `i`. */
    method HangTable(i: nat, t: Frame, flags: bv12)
      requires Valid() && Hangable(Mem(), cr3, i, t)
      modifies this`tables, this`owner
      ensures Valid() && SameTranslations(old(Mem()), Mem()) && Shaped(Mem()) && Present(tables[cr3][i])
      ensures owner == old(owner)[t := Table(HomeOf(cr3, i), i)] && tables[cr3][i] == Entry(t, With(flags, PRESENT))
    {
      hide Shaped, TablesOwned, LeavesOwned, Present, With;
      EntryShape(Mem(), cr3, i);
      ghost var m := Mem();
      HungKeepsSound(m, cr3, i, t, flags);
      tables := tables[cr3 := tables[cr3][i := Entry(t, With(flags, PRESENT))]][t := Zeros()];
      owner := owner[t := Table(HomeOf(cr3, i), i)];
      assert Mem() == Hung(m, cr3, i, t, flags);
    }

    /** The part of vmm_map that supplies a missing page table. */
    method NeedTable(i: nat, flags: bv12) returns (ok: bool)
      requires Valid() && i < SELF
      modifies this`tables, this`owner, pmm.bitmap
      ensures Valid() && SameTranslations(old(Mem()), Mem()) && NonTables(owner) == NonTables(old(owner))
      ensures old(owner).Keys <= owner.Keys && |owner| <= |old(owner)| + 1
      ensures !ok ==> Mem() == old(Mem()) && NoneFree(owner.Keys, pmm.bits)
      ensures old(Shaped(Mem())) && (ok ==> Shaped(Mem()) && Present(tables[cr3][i]))
      ensures ok ==> if old(Present(tables[cr3][i])) then tables[cr3][i] == old(tables[cr3][i])
                     else tables[cr3][i].flags == With(flags, PRESENT)
    {
      hide Shaped, TablesOwned, LeavesOwned, Present, With;
      EntryShape(Mem(), cr3, i);
      SameIsSame(Mem());
      if Present(tables[cr3][i]) {
        return true;
      }
      var t := AllocFrame();
      if t == 0 {
        return false;
      }
      ghost var m := Mem();
      NonTablesOwned(old(owner), t, Loose);
      NonTablesOwned(m.owner, t, Table(HomeOf(cr3, i), i));
      EntryShape(m, cr3, i);
      HangTable(i, t, flags);
      SameTwice(old(Mem()), m, Mem());
      return true;
    }

    /** The access bits vmm_map adds to a directory entry. */
    method Grant(i: nat, flags: bv12)
      requires Valid() && i < SELF && Shaped(Mem()) && Present(tables[cr3][i])
      modifies this`tables
      ensures Valid() && SameTranslations(old(Mem()), Mem()) && Present(tables[cr3][i])
      ensures tables[cr3][i] == old(Entry(tables[cr3][i].frame, With(tables[cr3][i].flags, flags)))
      ensures With(tables[cr3][i].flags, flags) == tables[cr3][i].flags
    {
      hide Shaped, TablesOwned, LeavesOwned, Present, With;
      EntryShape(Mem(), cr3, i);
      ghost var m := Mem();
      TintedKeepsSound(m, cr3, i, flags);
      PresentFlags(tables[cr3][i], flags);
      var pde := tables[cr3][i];
      tables := tables[cr3 := tables[cr3][i := Entry(pde.frame, With(pde.flags, flags))]];
      assert Mem() == Tinted(m, cr3, i, flags);
    }

    /** The entry write of vmm_map. */
    method WritePage(i: nat, j: nat, f: Frame, flags: bv12)
      requires Valid() && Spot(cr3, i, j, dirs) && !Window(i, j) && Shaped(Mem()) && Present(tables[cr3][i])
      requires f in owner && owner[f].Loose? && With(tables[cr3][i].flags, flags) == tables[cr3][i].flags
      modifies this`tables, this`owner
      ensures Valid() && Rebound(old(Mem()), Mem(), cr3, i, j, Some(Entry(f, With(flags, PRESENT))))
      ensures owner == Displaced(old(Mem()), cr3, i, j)[f := Leaf(HomeOf(cr3, i), i, j)] &&
        owner.Keys == old(owner).Keys
      ensures |owner| == |old(owner)|
      ensures tables[cr3] == old(tables[cr3])
    {
      hide Shaped, TablesOwned, LeavesOwned, Present, With;
      EntryShape(Mem(), cr3, i);
      ghost var m := Mem();
      PermitsMapping(tables[cr3][i], f, flags);
      RewrittenKeepsSound(m, cr3, i, j, f, flags);
      DisplacedKeys(m, cr3, i, j);
      var t := tables[cr3][i].frame;
      tables := tables[t := tables[t][j := Entry(f, With(flags, PRESENT))]];
      owner := Displaced(m, cr3, i, j)[f := Leaf(HomeOf(cr3, i), i, j)];
      assert |owner.Keys| == |m.owner.Keys|;
      assert Mem() == Rewritten(m, cr3, i, j, f, flags);
    }

    /** vmm_map: page `j` of directory entry `i` becomes a view of frame `f`. */
    method Map(i: nat, j: nat, f: Frame, flags: bv12) returns (failed: bool)
      requires Valid() && i < SELF && j < ENTRIES && !Window(i, j) && f in owner && owner[f].Loose?
      modifies this`tables, this`owner, pmm.bitmap
      ensures Valid()
      ensures failed ==> Mem() == old(Mem()) && NoneFree(owner.Keys, pmm.bits)
      ensures old(owner).Keys <= owner.Keys && |owner| <= |old(owner)| + 1
      ensures !failed ==> Rebound(old(Mem()), Mem(), cr3, i, j, Some(Entry(f, With(flags, PRESENT))))
      ensures old(Shaped(Mem())) && Shaped(Mem())
      ensures !failed ==> Lookup(Mem(), cr3, i, j).Some? && Maps(Lookup(Mem(), cr3, i, j).value, f, flags)
      ensures !failed ==> Grants(old(tables[cr3][i]), tables[cr3][i], flags)
      ensures !failed ==>
        NonTables(owner) == NonTables(Displaced(old(Mem()), cr3, i, j))[f := Leaf(HomeOf(cr3, i), i, j)]
    {
      hide Shaped, TablesOwned, LeavesOwned, Present, With, Maps, Grants;
      EntryShape(Mem(), cr3, i);
      ghost var was := tables[cr3][i];
      var ok := NeedTable(i, flags);
      if !ok {
        return true;
      }
      NonTablesAt(old(owner), owner, f);
      ghost var n := Mem();
      EntryShape(n, cr3, i);
      Grant(i, flags);
      ghost var g := Mem();
      EntryShape(g, cr3, i);
      GrantsExactly(was, n.tables[cr3][i], g.tables[cr3][i], flags);
      MapsExactly(f, flags);
      SameTwice(old(Mem()), n, g);
      WritePage(i, j, f, flags);
      SameThenRebound(old(Mem()), g, Mem(), cr3, i, j, Some(Entry(f, With(flags, PRESENT))));
      DisplacedNonTables(old(Mem()), cr3, i, j);
      DisplacedNonTables(g, cr3, i, j);
      NonTablesOwned(Displaced(g, cr3, i, j), f, Leaf(HomeOf(cr3, i), i, j));
      SameLookup(old(Mem()), g, cr3, i, j);
      return false;
    }

    /** The clearing of an entry, which leaves its frame to the caller. */
    method ClearPage(i: nat, j: nat)
      requires Valid() && Spot(cr3, i, j, dirs) && !Window(i, j) && Shaped(Mem()) && Lookup(Mem(), cr3, i, j).Some?
      modifies this`tables, this`owner
      ensures Valid() && Rebound(old(Mem()), Mem(), cr3, i, j, None) && Present(tables[cr3][i])
      ensures owner == old(owner)[old(Lookup(Mem(), cr3, i, j).value.frame) := Loose]
      ensures tables[cr3] == old(tables[cr3])
    {
      hide Shaped, TablesOwned, LeavesOwned, With;
      EntryShape(Mem(), cr3, i);
      ghost var m := Mem();
      LeafOf(m, cr3, i, j);
      TableOf(m, cr3, i, cr3, i);
      UnboundKeepsSound(m, cr3, i, j);
      var t := tables[cr3][i].frame;
      ghost var f := tables[t][j].frame;
      tables := tables[t := tables[t][j := ZERO]];
      owner := owner[f := Loose];
      assert Mem() == Unbound(m, cr3, i, j);
    }

    /** The loop that counts the entries still present in a table. */
    method CountPresent(t: Frame) returns (present: nat)
      requires t in tables && |tables[t]| == ENTRIES
      ensures present == 0 <==> forall j: nat :: j < ENTRIES ==> !Present(tables[t][j])
    {
      present := 0;
      for i := 0 to ENTRIES
        invariant present == 0 <==> forall j: nat :: j < i ==> !Present(tables[t][j])
      {
        if Present(tables[t][i]) {
          present := present + 1;
        }
      }
    }

    /** The release of a private page table with no entry present. */
    method ReleaseTable(i: nat)
      requires Valid() && Slot(cr3, i, dirs) && Shaped(Mem()) && Prunable(Mem(), cr3, i)
      modifies this`tables, this`owner, pmm.bitmap
      ensures Valid() && SameTranslations(old(Mem()), Mem()) && NonTables(owner) == NonTables(old(owner))
      ensures cr3 in tables && |tables[cr3]| == ENTRIES && tables[cr3][i] == ZERO
      ensures tables[cr3] == old(tables[cr3])[i := ZERO]
      ensures owner == old(owner) - {old(tables[cr3][i].frame)} && old(tables[cr3][i].frame) in old(owner)
      ensures old(owner[tables[cr3][i].frame]) == Table(HomeOf(cr3, i), i)
    {
      hide Shaped, TablesOwned, LeavesOwned, Present, With, Lookup;
      EntryShape(Mem(), cr3, i);
      ghost var m := Mem();
      PrunedKeepsSound(m, cr3, i);
      PrunedTable(m, cr3, i);
      var t := tables[cr3][i].frame;
      tables := tables[cr3 := tables[cr3][i := ZERO]] - {t};
      owner := owner[t := Loose];
      assert Mem() == Pruned(m, cr3, i);
      ghost var n := Mem();
      FreeFrame(t);
      SameTwice(m, n, Mem());
      NonTablesOwned(m.owner, t, Loose);
      NonTablesOwned(n.owner, t, Loose);
      assert owner == m.owner - {t};
    }

    /** vmm_unmap; the frame that was mapped is not released. */
    method Unmap(i: nat, j: nat) returns (failed: bool)
      requires Valid() && i < SELF && j < ENTRIES && !Window(i, j)
      modifies this`tables, this`owner, pmm.bitmap
      ensures Valid() && old(Shaped(Mem())) && (failed <==> old(Lookup(Mem(), cr3, i, j)).None?)
      ensures failed ==> Mem() == old(Mem())
      ensures !failed ==> Rebound(old(Mem()), Mem(), cr3, i, j, None)
      ensures !failed ==> NonTables(owner) == NonTables(old(owner))[old(Lookup(Mem(), cr3, i, j)).value.frame := Loose]
      ensures !failed && i < KERNEL_HALF ==>
        Shaped(Mem()) && (Present(tables[cr3][i]) <==> exists k: nat :: k < ENTRIES && Lookup(Mem(), cr3, i, k).Some?)
    {
      hide Shaped, TablesOwned, LeavesOwned, Present, With, Prunable;
      var pte := ReadPage(i, j);
      if pte.None? {
        return true;
      }
      NonTablesOwned(owner, pte.value.frame, Loose);
      ghost var m := Mem();
      ClearPage(i, j);
      ghost var n := Mem();
      EntryShape(n, cr3, i);
      var present := CountPresent(tables[cr3][i].frame);
      CountedPages(n, cr3, i);
      if present == 0 && i < KERNEL_HALF {
        EmptyIsPrunable(n, cr3, i);
        ReleaseTable(i);
        ReboundThenSame(m, n, Mem(), cr3, i, j, None);
        AbsentEntry(Mem(), cr3, i);
      }
      return false;
    }

    /** The search of vmm_alloc_pages_region: the lowest run of `n` unmapped pages from `lo` up to `hi`. */
    method FindRun(n: nat, lo: nat, hi: nat) returns (first: Option<nat>)
      requires Valid() && Shaped(Mem()) && n > 0 && hi <= PAGES
      ensures first.Some? ==> lo <= first.value && first.value + n <= hi && FreeRun(Mem(), cr3, first.value, n)
      ensures forall q :: lo <= q && q + n <= hi && (first.Some? ==> q < first.value) ==> !FreeRun(Mem(), cr3, q, n)
    {
      hide Shaped, TablesOwned, LeavesOwned, Lookup;
      var consecutive, start, page := 0, 0, lo;
      while page < hi
        invariant lo <= page && consecutive < n && consecutive <= page - lo && (page <= hi || page == lo)
        invariant consecutive > 0 ==> start == page - consecutive
        invariant forall k :: page - consecutive <= k < page && k < PAGES ==> Trans(Mem(), cr3, k) == None
        invariant forall q :: lo <= q < page - consecutive && q + n <= hi ==> !FreeRun(Mem(), cr3, q, n)
        decreases hi - page
      {
        PageIndices(page);
        var pte := ReadPage(Pde(page), Pte(page));
        assert pte == Trans(Mem(), cr3, page);
        if pte.None? {
          if consecutive == 0 {
            start := page;
          }
          consecutive := consecutive + 1;
        } else {
          MappedBreaksRuns(Mem(), cr3, page, n, hi);
          consecutive := 0;
        }
        page := page + 1;
        if consecutive == n {
          return Some(start);
        }
      }
      return None;
    }

    /** One turn of the rollback loops of vmm_alloc_pages_region. */
    method RollbackOne(page: nat, flags: bv12, ghost m: Memory, ghost first: nat, ghost frames: seq<Frame>)
      requires Valid() && Sound(m) && first <= page < first + |frames| <= PAGES
      requires Installed(m, Mem(), cr3, first, page, frames, flags) && FreeRun(m, cr3, first, |frames|)
      requires LaidOut(NonTables(m.owner), NonTables(owner), cr3, first, frames, page - first)
      modifies this`tables, this`owner, pmm.bitmap
      ensures Valid() && Installed(m, Mem(), cr3, first, page + 1, frames, flags)
      ensures LaidOut(NonTables(m.owner), NonTables(owner), cr3, first, frames, page + 1 - first)
    {
      hide Shaped, TablesOwned, LeavesOwned, Lookup, LaidOut, Installed, Rebound, SameTranslations, With, Present, Pde,
        Pte, NonTables;
      InstalledAt(m, Mem(), cr3, first, page, frames, flags);
      FreeInAll(m, cr3, page);
      PageIndices(page);
      ghost var n, f := Mem(), frames[page - first];
      var failed := Unmap(Pde(page), Pte(page));
      UninstallOne(m, n, Mem(), cr3, first, page, frames, flags);
      LoseOne(NonTables(m.owner), NonTables(n.owner), cr3, first, frames, page - first);
      ghost var u := Mem();
      LooseHere(owner, NonTables(n.owner), f);
      Lose(f, n.owner);
      InstalledThenSame(m, u, Mem(), cr3, first, page + 1, frames, flags);
    }

    /** The rollback loops of vmm_alloc_pages_region: the pages are unmapped again, and nobody
        releases their frames. */
    method Rollback(first: nat, end: nat, flags: bv12, ghost m: Memory, ghost frames: seq<Frame>)
      requires Valid() && Sound(m) && end == first + |frames| <= PAGES
      requires Installed(m, Mem(), cr3, first, first, frames, flags) && FreeRun(m, cr3, first, |frames|)
      requires LaidOut(NonTables(m.owner), NonTables(owner), cr3, first, frames, 0)
      modifies this`tables, this`owner, pmm.bitmap
      ensures Valid() && SameTranslations(m, Mem())
      ensures LaidOut(NonTables(m.owner), NonTables(owner), cr3, first, frames, |frames|)
    {
      hide Shaped, TablesOwned, LeavesOwned, Lookup, LaidOut, Installed, Rebound, SameTranslations, FreeRun, NonTables;
      var page := first;
      while page < end
        invariant first <= page <= end && Valid()
        invariant Installed(m, Mem(), cr3, first, page, frames, flags)
        invariant LaidOut(NonTables(m.owner), NonTables(owner), cr3, first, frames, page - first)
      {
        RollbackOne(page, flags, m, first, frames);
        page := page + 1;
      }
      AllUninstalled(m, Mem(), cr3, first, frames, flags);
    }

    /** Bookkeeping: the loose frame `f` is never released. */
    ghost method Lose(f: Frame, was: map<Frame, Owner>)
      requires Valid() && f in owner && owner[f].Loose? && NonTables(owner) == NonTables(was)[f := Loose]
      modifies this`owner
      ensures Valid() && Mem() == Owned(old(Mem()), f, Leaked) && SameTranslations(old(Mem()), Mem())
      ensures NonTables(owner) == NonTables(was)[f := Leaked]
    {
      hide Shaped, TablesOwned, LeavesOwned, Lookup;
      OwnedKeepsSound(Mem(), f, Leaked);
      NonTablesOwned(owner, f, Leaked);
      owner := owner[f := Leaked];
    }

    /** One turn of the mapping loop of vmm_alloc_pages_region; 0 means that memory ran out, with
        nothing changed. */
    method MapNext(page: nat, flags: bv12, ghost m: Memory, ghost first: nat, ghost n: nat, ghost frames: seq<Frame>)
      returns (f: Frame)
      requires Valid() && page == first + |frames| < first + n <= PAGES && Shaped(m) && cr3 in m.dirs
      requires FreeRun(m, cr3, first, n) && Installed(m, Mem(), cr3, first, first, frames, flags)
      requires LaidOut(NonTables(m.owner), NonTables(owner), cr3, first, frames, 0)
      modifies this`tables, this`owner, pmm.bitmap
      ensures Valid() && old(owner).Keys <= owner.Keys && |owner| <= |old(owner)| + 2
      ensures f == 0 ==> pmm.bits <= |old(owner)| + 1 && NonTables(owner) == NonTables(old(owner))
      ensures f == 0 ==> Installed(m, Mem(), cr3, first, first, frames, flags)
      ensures f != 0 ==> f !in old(owner) && Installed(m, Mem(), cr3, first, first, frames + [f], flags)
      ensures f != 0 ==> LaidOut(NonTables(m.owner), NonTables(owner), cr3, first, frames + [f], 0)
    {
      hide Shaped, TablesOwned, LeavesOwned, Lookup, LaidOut, Installed, Trans, FreeRun, Rebound, SameTranslations,
        NonTables, With, Present, NoneFree, Pde, Pte, HomeOf, Displaced;
      ghost var was := Mem();
      f := AllocFrame();
      ghost var taken := Mem();
      InstalledThenSame(m, was, taken, cr3, first, first, frames, flags);
      if f == 0 {
        FullHouse(owner, pmm.bits);
        return 0;
      }
      NonTablesOwned(was.owner, f, Loose);
      NextIsFree(m, taken, cr3, first, frames, flags, n);
      PageIndices(page);
      NoneDisplaced(taken, cr3, Pde(page), Pte(page));
      var failed := Map(Pde(page), Pte(page), f, flags);
      if failed {
        FullHouse(owner, pmm.bits);
        FreeFrame(f);
        UndoOwned(was, f);
        InstalledThenSame(m, taken, Mem(), cr3, first, first, frames, flags);
        return 0;
      }
      InstallOne(m, taken, Mem(), cr3, first, frames, flags, f);
      WrittenTwice(NonTables(was.owner), f, Loose, Leaf(HomeOf(cr3, Pde(page)), Pde(page), Pte(page)));
      LayOne(NonTables(m.owner), NonTables(was.owner), cr3, first, frames, f);
    }

    /** The mapping loop of vmm_alloc_pages_region, on a run known to be free. */
    method MapRun(first: nat, n: nat, flags: bv12) returns (ok: bool, ghost frames: seq<Frame>)
      requires Valid() && Shaped(Mem()) && first + n <= PAGES && FreeRun(Mem(), cr3, first, n)
      modifies this`tables, this`owner, pmm.bitmap
      ensures Valid() && forall f :: f in frames ==> f !in old(owner)
      ensures ok ==> |frames| == n && Installed(old(Mem()), Mem(), cr3, first, first, frames, flags)
      ensures ok ==> LaidOut(NonTables(old(owner)), NonTables(owner), cr3, first, frames, 0)
      ensures !ok ==> |frames| < n && SameTranslations(old(Mem()), Mem())
      ensures !ok ==> LaidOut(NonTables(old(owner)), NonTables(owner), cr3, first, frames, |frames|)
      ensures !ok ==> pmm.bits < |old(owner)| + 2 * n
    {
      hide Shaped, TablesOwned, LeavesOwned, Lookup, LaidOut, Installed, Trans, FreeRun, Rebound, SameTranslations,
        NonTables;
      ghost var m := Mem();
      frames := [];
      SameIsSame(m);
      NothingInstalled(m, m, cr3, first, flags);
      NothingLaid(NonTables(owner), cr3, first);
      var page := first;
      while page < first + n
        invariant first <= page <= first + n && page == first + |frames| && Valid()
        invariant Installed(m, Mem(), cr3, first, first, frames, flags)
        invariant LaidOut(NonTables(m.owner), NonTables(owner), cr3, first, frames, 0)
        invariant m.owner.Keys <= owner.Keys && |owner| <= |m.owner| + 2 * |frames|
        invariant forall f :: f in frames ==> f !in m.owner
      {
        var f := MapNext(page, flags, m, first, n, frames);
        if f == 0 {
          ShorterRun(m, cr3, first, |frames|, n);
          Rollback(first, page, flags, m, frames);
          return false, frames;
        }
        frames := frames + [f];
        page := page + 1;
      }
      return true, frames;
    }

    /** vmm_alloc_pages_region. The address is that of the lowest free run in the region; 0 means
        failure, and is also what a run that starts at address 0 is answered with. */
    method AllocPagesRegion(n: u32, flags: bv12, regionStart: u32, regionEnd: u32)
      returns (addr: u32, ghost frames: seq<Frame>)
      requires Valid() && regionEnd <= PAGES * PAGE_SIZE
      modifies this`tables, this`owner, pmm.bitmap
      ensures Valid() && old(Shaped(Mem())) && forall f :: f in frames ==> f !in old(owner)
      ensures addr != 0 ==> Allocated(old(Mem()), Mem(), cr3, addr, n, flags, regionStart, regionEnd, frames)
      ensures addr == 0 && AlignUp(regionStart) != 0 ==> SameTranslations(old(Mem()), Mem())
      ensures addr == 0 && AlignUp(regionStart) != 0 && frames != [] ==> |frames| < n
      ensures addr == 0 && AlignUp(regionStart) != 0 ==>
        LaidOut(NonTables(old(owner)), NonTables(owner), cr3, 0, frames, |frames|)
      ensures addr == 0 && !SameTranslations(old(Mem()), Mem()) ==>
        n <= PAGES && FreeRun(old(Mem()), cr3, 0, n) && Installed(old(Mem()), Mem(), cr3, 0, 0, frames, flags)
      ensures addr == 0 && AlignUp(regionStart) != 0 ==>
        NoRun(old(Mem()), cr3, n, regionStart, regionEnd) || pmm.bits < |old(owner)| + 2 * n
      ensures NoRun(old(Mem()), cr3, n, regionStart, regionEnd) ==> addr == 0 && frames == [] && Mem() == old(Mem())
    {
      hide Shaped, TablesOwned, LeavesOwned, Lookup, LaidOut, Installed, FreeRun, Trans, NonTables, SameTranslations;
      ghost var m := Mem();
      frames := [];
      SameIsSame(m);
      NothingLaid(NonTables(owner), cr3, 0);
      if n == 0 {
        return 0, [];
      }
      var start := AlignUp(regionStart);
      var end := regionEnd / PAGE_SIZE * PAGE_SIZE;
      if end < (start + n * PAGE_SIZE) % WORD {
        return 0, [];
      }
      var first := FindRun(n, start / PAGE_SIZE, end / PAGE_SIZE);
      if first.None? {
        return 0, [];
      }
      var ok;
      ok, frames := MapRun(first.value, n, flags);
      if !ok {
        LostAnywhere(NonTables(m.owner), NonTables(owner), cr3, first.value, 0, frames);
        return 0, frames;
      }
      addr := first.value * PAGE_SIZE;
    }

    /** vmm_alloc_pages_region_in: the same in the address space of `dir`. */
    method AllocPagesRegionIn(dir: Frame, n: u32, flags: bv12, regionStart: u32, regionEnd: u32)
      returns (addr: u32, ghost frames: seq<Frame>)
      requires Valid() && dir in dirs && regionEnd <= PAGES * PAGE_SIZE
      modifies this`cr3, this`tables, this`owner, pmm.bitmap
      ensures Valid() && cr3 == old(cr3) && old(Shaped(Mem())) && forall f :: f in frames ==> f !in old(owner)
      ensures addr != 0 ==> Allocated(old(Mem()), Mem(), dir, addr, n, flags, regionStart, regionEnd, frames)
      ensures addr == 0 && AlignUp(regionStart) != 0 ==> SameTranslations(old(Mem()), Mem())
      ensures addr == 0 && AlignUp(regionStart) != 0 && frames != [] ==> |frames| < n
      ensures addr == 0 && AlignUp(regionStart) != 0 ==>
        LaidOut(NonTables(old(owner)), NonTables(owner), dir, 0, frames, |frames|)
      ensures addr == 0 && !SameTranslations(old(Mem()), Mem()) ==>
        n <= PAGES && FreeRun(old(Mem()), dir, 0, n) && Installed(old(Mem()), Mem(), dir, 0, 0, frames, flags)
      ensures addr == 0 && AlignUp(regionStart) != 0 ==>
        NoRun(old(Mem()), dir, n, regionStart, regionEnd) || pmm.bits < |old(owner)| + 2 * n
      ensures NoRun(old(Mem()), dir, n, regionStart, regionEnd) ==> addr == 0 && frames == [] && Mem() == old(Mem())
    {
      hide Shaped, TablesOwned, LeavesOwned, Lookup, SameTranslations, NoRun, LaidOut, Installed, Allocated, FreeRun,
        NonTables;
      ghost var m := Mem();
      var saved := cr3;
      cr3 := dir;
      addr, frames := AllocPagesRegion(n, flags, regionStart, regionEnd);
      cr3 := saved;
    }

    /** One turn of the loops that release mapped pages: the entry is cleared, its frame given back. */
    method FreePage(i: nat, j: nat)
      requires Valid() && Spot(cr3, i, j, dirs) && !Window(i, j) && Shaped(Mem()) && Lookup(Mem(), cr3, i, j).Some?
      modifies this`tables, this`owner, pmm.bitmap
      ensures Valid() && Rebound(old(Mem()), Mem(), cr3, i, j, None)
      ensures owner == old(owner) - {old(Lookup(Mem(), cr3, i, j).value.frame)}
      ensures cr3 in old(tables) && cr3 in tables && tables[cr3] == old(tables[cr3])
    {
      hide Shaped, TablesOwned, LeavesOwned, With;
      ghost var m := Mem();
      EntryShape(m, cr3, i);
      var f := tables[tables[cr3][i].frame][j].frame;
      LeafOf(m, cr3, i, j);
      ClearPage(i, j);
      ghost var n := Mem();
      FreeFrame(f);
      EntryShape(n, cr3, i);
      ReboundThenSame(m, n, Mem(), cr3, i, j, None);
      assert owner == m.owner - {f};
    }

    /** One turn of vmm_free_pages, on a mapped page. */
    method FreeNext(page: nat, ghost m: Memory, ghost first: nat, ghost k: nat)
      requires Valid() && Sound(m) && page == first + k < PAGES && !Window(Pde(page), Pte(page))
      requires Cleared(m, Mem(), cr3, first, k) && OwnersLeft(m.owner, owner, RunOf(cr3, first, k))
      requires cr3 in m.dirs && Trans(m, cr3, page).Some?
      modifies this`tables, this`owner, pmm.bitmap
      ensures Valid() && Shaped(Mem()) && Cleared(m, Mem(), cr3, first, k + 1)
      ensures OwnersLeft(m.owner, owner, RunOf(cr3, first, k + 1))
    {
      hide Shaped, TablesOwned, LeavesOwned, Lookup, Trans, Cleared, OwnersLeft, RunOf, Rebound, SameTranslations,
        Present, Window, Pde, Pte;
      PageIndices(page);
      StillThere(m, Mem(), cr3, first, k);
      ReadIsTrans(Mem(), cr3, page);
      ghost var now, f := Mem(), Trans(m, cr3, page).value.frame;
      RunGrows(m, cr3, first, k, f);
      LeftAt(m.owner, owner, RunOf(cr3, first, k), f, now, cr3, page);
      OneLess(m.owner, owner, f, RunOf(cr3, first, k), RunOf(cr3, first, k + 1));
      FreePage(Pde(page), Pte(page));
      SameIsSame(Mem());
      ClearOne(m, now, Mem(), Mem(), cr3, first, k);
    }

    /** vmm_free_pages: releases pages up to the first one that is not mapped, which makes it fail;
        `k` is how many it released. */
    method FreePages(n: u32, virt: u32) returns (failed: bool, ghost k: nat)
      requires Valid() && Shaped(Mem()) && virt / PAGE_SIZE + n <= PAGES
      requires forall q :: virt / PAGE_SIZE <= q < virt / PAGE_SIZE + n ==> !Window(Pde(q), Pte(q))
      modifies this`tables, this`owner, pmm.bitmap
      ensures Valid() && k <= n && Cleared(old(Mem()), Mem(), cr3, virt / PAGE_SIZE, k)
      ensures OwnersLeft(old(owner), owner, RunOf(cr3, virt / PAGE_SIZE, k))
      ensures forall q :: virt / PAGE_SIZE <= q < virt / PAGE_SIZE + k ==> old(Trans(Mem(), cr3, q)).Some?
      ensures failed <==> n == 0 || k < n
      ensures k < n ==> old(Trans(Mem(), cr3, virt / PAGE_SIZE + k)).None?
    {
      hide Shaped, TablesOwned, LeavesOwned, Lookup, Trans, Cleared, OwnersLeft, RunOf, Window, Pde, Pte;
      k := 0;
      ghost var first, m := virt / PAGE_SIZE, Mem();
      NothingCleared(m, cr3, first);
      NoRunLeft(m.owner, cr3, first);
      if n == 0 {
        return true, 0;
      }
      var i := 0;
      while i < n
        invariant 0 <= i <= n && k == i && Valid() && Shaped(Mem())
        invariant Cleared(m, Mem(), cr3, first, k)
        invariant OwnersLeft(m.owner, owner, RunOf(cr3, first, k))
        invariant forall q :: first <= q < first + k ==> Trans(m, cr3, q).Some?
      {
        var page := virt / PAGE_SIZE + i;
        PageIndices(page);
        StillThere(m, Mem(), cr3, first, k);
        var pte := ReadPage(Pde(page), Pte(page));
        ReadIsTrans(Mem(), cr3, page);
        if pte.None? {
          return true, k;
        }
        FreeNext(page, m, first, k);
        i := i + 1;
        k := k + 1;
      }
      return false, k;
    }

    /** vmm_free_pages_in: the same in the address space of `dir`. */
    method FreePagesIn(dir: Frame, n: u32, virt: u32) returns (failed: bool, ghost k: nat)
      requires Valid() && dir in dirs && Shaped(Mem()) && virt / PAGE_SIZE + n <= PAGES
      requires forall q :: virt / PAGE_SIZE <= q < virt / PAGE_SIZE + n ==> !Window(Pde(q), Pte(q))
      modifies this`cr3, this`tables, this`owner, pmm.bitmap
      ensures Valid() && cr3 == old(cr3) && k <= n && Cleared(old(Mem()), Mem(), dir, virt / PAGE_SIZE, k)
      ensures OwnersLeft(old(owner), owner, RunOf(dir, virt / PAGE_SIZE, k))
      ensures forall q :: virt / PAGE_SIZE <= q < virt / PAGE_SIZE + k ==> old(Trans(Mem(), dir, q)).Some?
      ensures failed <==> n == 0 || k < n
      ensures k < n ==> old(Trans(Mem(), dir, virt / PAGE_SIZE + k)).None?
    {
      hide TablesOwned, LeavesOwned, Lookup, Trans, Cleared, OwnersLeft, RunOf;
      var saved := cr3;
      cr3 := dir;
      failed, k := FreePages(n, virt);
      cr3 := saved;
    }

    /** One turn of the inner loop of vmm_destroy. */
    method EmptyPage(i: nat, j: nat, ghost m: Memory)
      requires Valid() && Sound(m) && i < KERNEL_HALF && j < ENTRIES && Emptied(m, Mem(), cr3, i, j)
      requires OwnersLeft(m.owner, owner, PassedBy(cr3, i, j))
      modifies this`tables, this`owner, pmm.bitmap
      ensures Valid() && Emptied(m, Mem(), cr3, i, j + 1)
      ensures OwnersLeft(m.owner, owner, PassedBy(cr3, i, j + 1))
      ensures cr3 in old(tables) && cr3 in tables && tables[cr3] == old(tables[cr3])
    {
      hide Shaped, TablesOwned, LeavesOwned, Lookup, Emptied, OwnersLeft, PassedBy, Rebound;
      EmptiedShape(m, Mem(), cr3, i, j);
      EntryShape(Mem(), cr3, i);
      var pte := ReadPage(i, j);
      ghost var n := Mem();
      if pte.Some? {
        PassPage(m, cr3, i, j, pte.value.frame);
        MappedIsOwned(n, cr3, i, j);
        OneLess(m.owner, owner, pte.value.frame, PassedBy(cr3, i, j), PassedBy(cr3, i, j + 1));
        FreePage(i, j);
        EmptyOne(m, n, Mem(), cr3, i, j);
      } else {
        PassAbsentPage(m, cr3, i, j);
        SameLeft(m.owner, owner, PassedBy(cr3, i, j), PassedBy(cr3, i, j + 1));
        SkipAbsentPage(m, Mem(), cr3, i, j);
      }
    }

    /** The inner loop of vmm_destroy: the leaves under a present directory entry are released. */
    method EmptyTable(i: nat, ghost m: Memory)
      requires Valid() && Sound(m) && i < KERNEL_HALF && Emptied(m, Mem(), cr3, i, 0)
      requires OwnersLeft(m.owner, owner, PassedBy(cr3, i, 0))
      modifies this`tables, this`owner, pmm.bitmap
      ensures Valid() && Emptied(m, Mem(), cr3, i, ENTRIES)
      ensures OwnersLeft(m.owner, owner, PassedBy(cr3, i, ENTRIES))
      ensures cr3 in old(tables) && cr3 in tables && tables[cr3] == old(tables[cr3])
    {
      hide Shaped, TablesOwned, LeavesOwned, Lookup, Emptied, OwnersLeft, PassedBy, Rebound;
      EmptiedShape(m, Mem(), cr3, i, 0);
      EntryShape(Mem(), cr3, i);
      var j := 0;
      while j < ENTRIES
        invariant 0 <= j <= ENTRIES && Valid() && Emptied(m, Mem(), cr3, i, j)
        invariant OwnersLeft(m.owner, owner, PassedBy(cr3, i, j))
        invariant cr3 in old(tables) && cr3 in tables && tables[cr3] == old(tables[cr3])
      {
        EmptyPage(i, j, m);
        j := j + 1;
      }
    }

    /** One turn of the outer loop of vmm_destroy. */
    method EmptyEntryOf(i: nat, ghost m: Memory)
      requires Valid() && Sound(m) && i < KERNEL_HALF && Emptied(m, Mem(), cr3, i, 0)
      requires OwnersLeft(m.owner, owner, PassedBy(cr3, i, 0))
      modifies this`tables, this`owner, pmm.bitmap
      ensures Valid() && Emptied(m, Mem(), cr3, i + 1, 0)
      ensures OwnersLeft(m.owner, owner, PassedBy(cr3, i + 1, 0))
    {
      hide Shaped, TablesOwned, LeavesOwned, Lookup, Emptied, OwnersLeft, PassedBy, Rebound, Present, Prunable;
      EmptiedShape(m, Mem(), cr3, i, 0);
      EntryShape(Mem(), cr3, i);
      if !Present(tables[cr3][i]) {
        SkipAbsentEntry(m, Mem(), cr3, i);
        PassAbsentEntry(m, Mem(), cr3, i);
        return;
      }
      EmptyTable(i, m);
      ghost var n, t := Mem(), tables[cr3][i].frame;
      EmptiedIsPrunable(m, n, cr3, i);
      TableInBoth(m.owner, owner, PassedBy(cr3, i, ENTRIES), t);
      PassTable(m, cr3, i, t);
      OneLess(m.owner, owner, t, PassedBy(cr3, i, ENTRIES), PassedBy(cr3, i + 1, 0));
      ReleaseTable(i);
      EmptyEntry(m, n, Mem(), cr3, i);
    }

    /** vmm_destroy: everything in the private half of `dir` is released, page tables included;
        it refuses the loaded directory. */
    method Destroy(dir: Frame)
      requires Valid() && dir in dirs
      modifies this`cr3, this`tables, this`owner, pmm.bitmap
      ensures Valid() && cr3 == old(cr3)
      ensures dir == cr3 ==> Mem() == old(Mem())
      ensures dir != cr3 ==> Emptied(old(Mem()), Mem(), dir, KERNEL_HALF, 0)
      ensures dir != cr3 ==> OwnersLeft(old(owner), owner, PassedBy(dir, KERNEL_HALF, 0))
    {
      hide Shaped, TablesOwned, LeavesOwned, Emptied, OwnersLeft, PassedBy;
      if dir == cr3 {
        return;
      }
      ghost var m := Mem();
      NothingEmptied(m, dir);
      var saved := cr3;
      cr3 := dir;
      for i := 0 to KERNEL_HALF
        invariant Valid() && cr3 == dir && Emptied(m, Mem(), dir, i, 0)
        invariant OwnersLeft(m.owner, owner, PassedBy(dir, i, 0))
      {
        EmptyEntryOf(i, m);
      }
      cr3 := saved;
    }

    /** vmm_destroy followed by the release of the directory itself, as sched_destroy_process does:
        exactly the directory and what the address space owned are given back. */
    method ReleaseSpace(dir: Frame)
      requires Valid() && dir in dirs && dir != cr3
      modifies this`cr3, this`tables, this`owner, this`dirs, pmm.bitmap
      ensures Valid() && cr3 == old(cr3) && old(Shaped(Mem())) && Gone(old(Mem()), Mem(), dir)
      ensures OwnersLeft(old(owner) - {dir}, owner, PassedBy(dir, KERNEL_HALF, 0))
    {
      hide Shaped, TablesOwned, LeavesOwned, Emptied, OwnersLeft, PassedBy, Lookup;
      ghost var m := Mem();
      Destroy(dir);
      ghost var n := Mem();
      EmptiedIsDroppable(m, n, dir);
      DirectoryOwner(n, dir);
      DroppedKeepsSound(n, dir);
      EmptiedThenGone(m, n, Dropped(n, dir), dir);
      tables := tables - {dir};
      dirs := dirs - {dir};
      owner := owner[dir := Loose];
      assert Mem() == Dropped(n, dir);
      FreeFrame(dir);
      assert owner == n.owner - {dir};
      LeftWithout(m.owner, n.owner, PassedBy(dir, KERNEL_HALF, 0), dir);
      GoneThenSame(m, Dropped(n, dir), Mem(), dir);
    }

    /** The filling of a new directory. */
    method Adopt(dir: Frame)
      requires Valid() && dir in owner && owner[dir] == Loose
      modifies this`tables, this`owner, this`dirs
      ensures Valid() && old(Sound(Mem())) && Mem() == Cloned(old(Mem()), dir, cr3)
    {
      hide Shaped, TablesOwned, LeavesOwned, Lookup, Spawned;
      ghost var u := Mem();
      ClonedKeepsSound(u, dir, cr3);
      EntryShape(u, cr3, 0);
      tables := tables[dir := Blank(tables[cr3], dir)];
      dirs := dirs + {dir};
      owner := owner[dir := Directory];
      assert Mem() == Cloned(u, dir, cr3);
    }

    /** vmm_clone: a new directory, found through a temporary mapping, with an empty private half
        and the shared half of the loaded one. What it copies is not touched by the unmapping. */
    method Clone() returns (dir: Frame)
      requires Valid()
      modifies this`tables, this`owner, this`dirs, pmm.bitmap
      ensures Valid() && old(Shaped(Mem()))
      ensures dir == 0 ==> SameTranslations(old(Mem()), Mem()) && NonTables(owner) == NonTables(old(owner))
      ensures dir == 0 ==>
        NoRun(old(Mem()), cr3, 1, PAGE_SIZE, PAGES * PAGE_SIZE) || pmm.bits < |old(owner)| + 2
      ensures dir != 0 ==> dir !in old(owner) && Spawned(old(Mem()), Mem(), dir, cr3)
      ensures dir != 0 ==> NonTables(owner) == NonTables(old(owner))[dir := Directory]
    {
      hide Shaped, TablesOwned, LeavesOwned, Lookup, LaidOut, Installed, NonTables, Trans, FreeRun, Rebound,
        SameTranslations, Spawned, Pde, Pte;
      ghost var m, frames := Mem(), [];
      var addr;
      addr, frames := AllocPagesRegion(1, 3, PAGE_SIZE, PAGES * PAGE_SIZE);
      if addr == 0 {
        NoneLost(NonTables(m.owner), NonTables(owner), cr3, 0, frames);
        return 0;
      }
      var page := addr / PAGE_SIZE;
      ghost var n := Mem();
      PageIndices(page);
      OnePage(m, n, cr3, page, frames, 3);
      var pte := ReadPage(Pde(page), Pte(page));
      dir := pte.value.frame;
      OneLaid(NonTables(m.owner), NonTables(owner), cr3, page, frames);
      var failed := Unmap(Pde(page), Pte(page));
      OnePageGone(m, n, Mem(), cr3, page, frames, 3);
      ghost var u := Mem();
      LooseAgain(NonTables(m.owner), NonTables(n.owner), owner, dir,
        Leaf(HomeOf(cr3, Pde(page)), Pde(page), Pte(page)));
      ClonedKeepsSound(u, dir, cr3);
      NonTablesOwned(owner, dir, Directory);
      SameThenSpawned(m, u, Cloned(u, dir, cr3), dir, cr3);
      Adopt(dir);
    }
  }

  lemma EmptiedShape(m: Memory, r: Memory, d: Frame, i: nat, j: nat)
    requires Emptied(m, r, d, i, j)
    ensures Shaped(m) && Shaped(r) && r.dirs == m.dirs && d in m.dirs
    ensures i < KERNEL_HALF && j < ENTRIES ==> Lookup(r, d, i, j) == Lookup(m, d, i, j)
  {
  }

  lemma MappedIsOwned(m: Memory, d: Frame, i: nat, j: nat)
    requires Sound(m) && Spot(d, i, j, m.dirs) && i < KERNEL_HALF && Lookup(m, d, i, j).Some?
    ensures Lookup(m, d, i, j).value.frame in m.owner
  {
  }

  lemma EmptiedIsPrunable(m: Memory, r: Memory, d: Frame, i: nat)
    requires Emptied(m, r, d, i, ENTRIES) && i < KERNEL_HALF && Sound(r) && d in r.tables && |r.tables[d]| == ENTRIES
    requires Present(r.tables[d][i])
    ensures Prunable(r, d, i) && r.tables[d][i].frame in r.owner &&
      r.owner[r.tables[d][i].frame] == Table(Private(d), i)
  {
    forall j: nat | j < ENTRIES ensures Lookup(r, d, i, j) == None {
      assert Spot(d, i, j, m.dirs);
    }
  }

  lemma TableInBoth(was: map<Frame, Owner>, now: map<Frame, Owner>, gone: Owner -> bool, t: Frame)
    requires OwnersLeft(was, now, gone) && t in now
    ensures t in was && was[t] == now[t]
  {
  }

  lemma EmptiedIsDroppable(m: Memory, r: Memory, d: Frame)
    requires Emptied(m, r, d, KERNEL_HALF, 0) && Sound(r)
    ensures Droppable(r, d)
  {
  }

  lemma DirectoryOwner(m: Memory, d: Frame)
    requires Sound(m) && d in m.dirs
    ensures d in m.owner && m.owner[d] == Directory
  {
  }

  lemma EmptiedThenGone(m: Memory, n: Memory, r: Memory, d: Frame)
    requires Emptied(m, n, d, KERNEL_HALF, 0) && Gone(n, r, d)
    ensures Gone(m, r, d)
  {
  }

  lemma GoneThenSame(m: Memory, n: Memory, r: Memory, d: Frame)
    requires Gone(m, n, d) && SameTranslations(n, r)
    ensures Gone(m, r, d)
  {
  }

  lemma LeftWithout(was: map<Frame, Owner>, now: map<Frame, Owner>, gone: Owner -> bool, d: Frame)
    requires OwnersLeft(was, now, gone)
    ensures OwnersLeft(was - {d}, now - {d}, gone)
  {
  }

  lemma LooseHere(owner: map<Frame, Owner>, was: map<Frame, Owner>, f: Frame)
    requires NonTables(owner) == was[f := Loose]
    ensures f in owner && owner[f] == Loose
  {
    assert f in NonTables(owner);
  }

  lemma NoneLost(base: map<Frame, Owner>, now: map<Frame, Owner>, d: Frame, first: nat, frames: seq<Frame>)
    requires LaidOut(base, now, d, first, frames, |frames|) && frames == []
    ensures now == base
  {
  }

  /** A run of one page. */
  lemma OnePage(m: Memory, r: Memory, d: Frame, page: nat, frames: seq<Frame>, flags: bv12)
    requires Installed(m, r, d, page, page, frames, flags) && |frames| == 1 && FreeRun(m, d, page, 1)
    ensures page < PAGES && Shaped(r) && d in r.dirs && Pde(page) < SELF && !Window(Pde(page), Pte(page))
    ensures Lookup(r, d, Pde(page), Pte(page)) == Some(Entry(frames[0], With(flags, PRESENT)))
  {
    PageIndices(page);
    FreeIsNotWindow(m, d, page);
    assert Trans(r, d, page) == Some(Entry(frames[0], With(flags, PRESENT)));
  }

  lemma OnePageGone(m: Memory, n: Memory, r: Memory, d: Frame, page: nat, frames: seq<Frame>, flags: bv12)
    requires Sound(m) && Installed(m, n, d, page, page, frames, flags) && |frames| == 1 && FreeRun(m, d, page, 1)
    requires Rebound(n, r, d, Pde(page), Pte(page), None)
    ensures SameTranslations(m, r)
  {
    FreeInAll(m, d, page);
    UninstallOne(m, n, r, d, page, page, frames, flags);
    AllUninstalled(m, r, d, page, frames, flags);
  }

  lemma OneLaid(base: map<Frame, Owner>, now: map<Frame, Owner>, d: Frame, page: nat, frames: seq<Frame>)
    requires LaidOut(base, now, d, page, frames, 0) && |frames| == 1
    ensures frames[0] !in base && now == base[frames[0] := Leaf(HomeOf(d, Pde(page)), Pde(page), Pte(page))]
  {
    assert forall f :: f in frames <==> f == frames[0];
    assert Pde(page + 0) == Pde(page) && Pte(page + 0) == Pte(page);
  }

  lemma LooseAgain(base: map<Frame, Owner>, mid: map<Frame, Owner>, owner: map<Frame, Owner>, f: Frame, leaf: Owner)
    requires f !in base && mid == base[f := leaf] && NonTables(owner) == mid[f := Loose]
    ensures f in owner && owner[f] == Loose && NonTables(owner)[f := Directory] == base[f := Directory]
  {
    assert f in NonTables(owner);
  }

  lemma SameThenSpawned(m: Memory, n: Memory, r: Memory, f: Frame, source: Frame)
    requires SameTranslations(m, n) && Spawned(n, r, f, source)
    ensures Spawned(m, r, f, source)
  {
  }

  lemma NoRunLeft(owner: map<Frame, Owner>, d: Frame, first: nat)
    ensures OwnersLeft(owner, owner, RunOf(d, first, 0))
  {
  }

  lemma ReadIsTrans(m: Memory, d: Frame, q: nat)
    requires Shaped(m) && d in m.dirs && q < PAGES
    ensures Spot(d, Pde(q), Pte(q), m.dirs) && Trans(m, d, q) == Lookup(m, d, Pde(q), Pte(q))
  {
    PageIndices(q);
  }

  /** The page after the cleared ones translates as before. */
  lemma StillThere(m: Memory, r: Memory, d: Frame, first: nat, k: nat)
    requires Cleared(m, r, d, first, k) && first + k < PAGES
    ensures Shaped(m) && d in m.dirs && Trans(r, d, first + k) == Trans(m, d, first + k)
  {
  }

  lemma LeftAt(was: map<Frame, Owner>, now: map<Frame, Owner>, gone: Owner -> bool, f: Frame, m: Memory, d: Frame,
               q: nat)
    requires OwnersLeft(was, now, gone) && m.owner == now && Sound(m) && d in m.dirs && q < PAGES
    requires !Window(Pde(q), Pte(q)) && Trans(m, d, q).Some? && f == Trans(m, d, q).value.frame
    ensures f in now
  {
    PageIndices(q);
  }

  /** ALIGN_UP on a 32-bit address, which may wrap. */
  function AlignUp(a: u32): (w: u32) {
    (a + PAGE_SIZE - 1) % WORD / PAGE_SIZE * PAGE_SIZE
  }

  /** The next address that is a multiple of 4096, unless there is none below 2^32; then 0. */
  lemma AlignUpExactly(a: u32)
    ensures AlignUp(a) % 4096 == 0
    ensures a <= 0xFFFF_F000 ==> a <= AlignUp(a) < a + 4096
    ensures a > 0xFFFF_F000 ==> AlignUp(a) == 0
  {
  }

  /** The region has no run of `n` free pages. */
  ghost predicate NoRun(m: Memory, d: Frame, n: nat, regionStart: u32, regionEnd: u32)
    requires Shaped(m) && d in m.dirs && regionEnd <= PAGES * PAGE_SIZE
  {
    n == 0 || forall q :: AlignUp(regionStart) / PAGE_SIZE <= q && q + n <= regionEnd / PAGE_SIZE ==>
      !FreeRun(m, d, q, n)
  }

  /** The allocated pages lie inside the region, unless aligning its start wraps. */
  lemma AllocatedInside(m: Memory, r: Memory, d: Frame, addr: u32, n: nat, flags: bv12, regionStart: u32,
                        regionEnd: u32, frames: seq<Frame>)
    requires Shaped(m) && d in m.dirs && regionEnd <= PAGES * PAGE_SIZE && regionStart <= 0xFFFF_F000
    requires Allocated(m, r, d, addr, n, flags, regionStart, regionEnd, frames)
    ensures addr % 4096 == 0 && regionStart <= addr && addr + n * 4096 <= regionEnd
  {
    AlignUpExactly(regionStart);
  }

  /** What a successful allocation is: `n` pages from the lowest free run of the region lead to
      `n` distinct frames, and no other translation of any address space changes. */
  ghost predicate Allocated(m: Memory, r: Memory, d: Frame, addr: u32, n: nat, flags: bv12,
                            regionStart: u32, regionEnd: u32, frames: seq<Frame>)
    requires Shaped(m) && d in m.dirs && regionEnd <= PAGES * PAGE_SIZE
  {
    && n > 0 && |frames| == n && addr % PAGE_SIZE == 0
    && var first := addr / PAGE_SIZE;
    && AlignUp(regionStart) / PAGE_SIZE <= first && first + n <= regionEnd / PAGE_SIZE
    && FreeRun(m, d, first, n)
    && (forall q :: AlignUp(regionStart) / PAGE_SIZE <= q < first ==> !FreeRun(m, d, q, n))
    && Installed(m, r, d, first, first, frames, flags)
    && LaidOut(NonTables(m.owner), NonTables(r.owner), d, first, frames, 0)
  }

  /** With no frame free, as many frames are owned as there are. */
  lemma FullHouse(owner: map<Frame, Owner>, bits: nat)
    requires NoneFree(owner.Keys, bits)
    ensures bits <= |owner|
  {
    CountBelow(owner.Keys, bits);
    assert |owner.Keys| == |owner|;
  }

  lemma {:induction false} CountBelow(frames: set<nat>, bits: nat)
    requires NoneFree(frames, bits)
    ensures bits <= |frames|
  {
    if bits > 0 {
      CountBelow(frames - {bits - 1}, bits - 1);
    }
  }

  lemma NothingLaid(base: map<Frame, Owner>, d: Frame, first: nat)
    ensures LaidOut(base, base, d, first, [], 0)
  {
  }

  /** Where lost frames were mapped no longer matters. */
  lemma LostAnywhere(base: map<Frame, Owner>, now: map<Frame, Owner>, d: Frame, first: nat, first': nat,
                     frames: seq<Frame>)
    requires LaidOut(base, now, d, first, frames, |frames|)
    ensures LaidOut(base, now, d, first', frames, |frames|)
  {
  }

  lemma ShorterRun(m: Memory, d: Frame, first: nat, k: nat, n: nat)
    requires Shaped(m) && d in m.dirs && first + n <= PAGES && FreeRun(m, d, first, n) && k <= n
    ensures FreeRun(m, d, first, k)
  {
  }

  /** The page after the installed ones is still free. */
  lemma NextIsFree(m: Memory, r: Memory, d: Frame, first: nat, frames: seq<Frame>, flags: bv12, n: nat)
    requires Installed(m, r, d, first, first, frames, flags) && |frames| < n && first + n <= PAGES
    requires FreeRun(m, d, first, n)
    ensures var q := first + |frames|;
      Pde(q) < SELF && Lookup(r, d, Pde(q), Pte(q)) == None && !Window(Pde(q), Pte(q))
  {
    PageIndices(first + |frames|);
    assert Trans(r, d, first + |frames|) == None;
    FreeIsNotWindow(m, d, first + |frames|);
  }

  /** Taking a frame and giving it back. */
  lemma UndoOwned(m: Memory, f: Frame)
    requires f !in m.owner
    ensures Released(Owned(m, f, Loose), f) == m
  {
    assert m.owner[f := Loose] - {f} == m.owner;
  }

  /** A mapped page is in no free run. */
  lemma MappedBreaksRuns(m: Memory, d: Frame, page: nat, n: nat, hi: nat)
    requires Shaped(m) && d in m.dirs && page < PAGES && Trans(m, d, page).Some? && hi <= PAGES
    ensures forall q :: 0 <= q <= page < q + n && q + n <= hi ==> !FreeRun(m, d, q, n)
  {
  }

  lemma InstalledAt(m: Memory, r: Memory, d: Frame, first: nat, page: nat, frames: seq<Frame>, flags: bv12)
    requires Installed(m, r, d, first, page, frames, flags) && page < first + |frames|
    ensures page < PAGES && Shaped(r) && d in r.dirs && d in m.dirs
    ensures Trans(r, d, page) == Some(Entry(frames[page - first], With(flags, PRESENT)))
  {
  }

  /** A free page is free in every address space that shares it. */
  lemma FreeInAll(m: Memory, d: Frame, page: nat)
    requires Sound(m) && d in m.dirs && page < PAGES && Trans(m, d, page) == None
    ensures forall d' :: d' in m.dirs && Shares(d, d', page) ==> Trans(m, d', page) == None
    ensures !Window(Pde(page), Pte(page))
  {
    FreeIsNotWindow(m, d, page);
    forall d' | d' in m.dirs && Shares(d, d', page) ensures Trans(m, d', page) == None {
      SharedPages(m, d, d', page);
    }
  }

  /** A page table's entries are the translations through it. */
  lemma CountedPages(m: Memory, d: Frame, i: nat)
    requires Shaped(m) && Slot(d, i, m.dirs) && Present(m.tables[d][i])
    ensures forall k: nat :: k < ENTRIES ==> (Lookup(m, d, i, k).Some? <==> Present(m.tables[m.tables[d][i].frame][k]))
  {
  }

  lemma EmptyIsPrunable(m: Memory, d: Frame, i: nat)
    requires Sound(m) && Slot(d, i, m.dirs) && i < KERNEL_HALF && Present(m.tables[d][i])
    requires forall k: nat :: k < ENTRIES ==> Lookup(m, d, i, k) == None
    ensures Prunable(m, d, i)
  {
  }

  lemma AbsentEntry(m: Memory, d: Frame, i: nat)
    requires Shaped(m) && Slot(d, i, m.dirs) && m.tables[d][i] == ZERO
    ensures !Present(m.tables[d][i]) && forall k: nat :: k < ENTRIES ==> Lookup(m, d, i, k) == None
  {
  }

  lemma PrunedTable(m: Memory, d: Frame, i: nat)
    requires Prunable(m, d, i)
    ensures var t := m.tables[d][i].frame; t in m.owner && m.owner[t] == Table(HomeOf(d, i), i) && t != d
  {
    TableOf(m, d, i, d, i);
  }

  lemma PresentFlags(e: Entry, flags: bv12)
    ensures Present(e) ==> Present(Entry(e.frame, With(e.flags, flags)))
    ensures With(With(e.flags, flags), flags) == With(e.flags, flags)
  {
  }

  lemma NonTablesAt(was: map<Frame, Owner>, now: map<Frame, Owner>, f: Frame)
    requires NonTables(was) == NonTables(now) && f in was && !was[f].Table?
    ensures f in now && now[f] == was[f]
  {
    assert f in NonTables(was);
  }

  lemma DisplacedNonTables(m: Memory, d: Frame, i: nat, j: nat)
    requires Shaped(m) && Spot(d, i, j, m.dirs)
    ensures NonTables(Displaced(m, d, i, j))
      == if Lookup(m, d, i, j).None? then NonTables(m.owner)
         else NonTables(m.owner)[Lookup(m, d, i, j).value.frame := Leaked]
  {
    if Lookup(m, d, i, j).Some? {
      NonTablesOwned(m.owner, Lookup(m, d, i, j).value.frame, Leaked);
    }
  }

  lemma NoneDisplaced(m: Memory, d: Frame, i: nat, j: nat)
    requires Shaped(m) && Spot(d, i, j, m.dirs) && Lookup(m, d, i, j) == None
    ensures Displaced(m, d, i, j) == m.owner
  {
  }

  lemma WrittenTwice(owner: map<Frame, Owner>, f: Frame, o: Owner, o': Owner)
    ensures owner[f := o][f := o'] == owner[f := o']
  {
  }

  lemma SameLookup(m: Memory, r: Memory, d: Frame, i: nat, j: nat)
    requires SameTranslations(m, r) && Spot(d, i, j, m.dirs)
    ensures Lookup(r, d, i, j) == Lookup(m, d, i, j)
  {
  }

  lemma SameTwice(m: Memory, n: Memory, r: Memory)
    requires SameTranslations(m, n) && SameTranslations(n, r)
    ensures SameTranslations(m, r)
  {
  }

  lemma DisplacedKeys(m: Memory, d: Frame, i: nat, j: nat)
    requires Shaped(m) && LeavesOwned(m) && Spot(d, i, j, m.dirs) && !Window(i, j)
    ensures Displaced(m, d, i, j).Keys == m.owner.Keys
    ensures 0 in m.owner && m.owner[0].Reserved? ==> Displaced(m, d, i, j)[0].Reserved?
  {
  }
}
