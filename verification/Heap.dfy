/**
  The kernel heap as it runs: block headers written in memory, found by walking their links,
  on pages supplied by the virtual memory manager.
*/
module Heap {
  import opened Common
  import opened Blocks
  import opened Headers
  import opened PageTables
  import opened PageRuns
  import opened Vmm

  /** Every page of the heap is mapped. */
  ghost predicate Backed(m: Memory, d: Frame, blocks: seq<Block>) {
    && Shaped(m) && d in m.dirs && Addr(blocks, |blocks|) <= HEAP_LIMIT
    && forall q :: HEAP_START / PAGE_SIZE <= q < Addr(blocks, |blocks|) / PAGE_SIZE ==>
         Trans(m, d, q).Some? && ForKernel(Trans(m, d, q).value)
  }

  /** Present and writable, closed to user mode: the bits 1 and 2, and no other. */
  predicate ForKernel(e: Entry) {
    e.flags == 1 | 2
  }

  lemma KernelFlagsAre(f: Frame)
    ensures ForKernel(Entry(f, With(3, PRESENT)))
  {
  }

  /** The private halves of the address spaces `dirs` are the same in `r`. */
  ghost predicate SamePrivate(m: Memory, r: Memory, dirs: set<Frame>) {
    && Shaped(m) && Shaped(r) && dirs <= m.dirs && dirs <= r.dirs
    && forall d: Frame, i: nat, j: nat :: Spot(d, i, j, dirs) && i < KERNEL_HALF ==>
      Lookup(r, d, i, j) == Lookup(m, d, i, j)
  }

  lemma SameIsPrivate(m: Memory, r: Memory)
    requires SameTranslations(m, r)
    ensures SamePrivate(m, r, m.dirs)
  {
  }

  /** Pages of the shared half leave every private half alone. */
  lemma SharedInstallIsPrivate(m: Memory, r: Memory, d: Frame, first: nat, frames: seq<Frame>, flags: bv12)
    requires Installed(m, r, d, first, first, frames, flags) && first >= KERNEL_HALF * ENTRIES
    ensures SamePrivate(m, r, m.dirs)
  {
    forall d': Frame, i: nat, j: nat | Spot(d', i, j, m.dirs) && i < KERNEL_HALF
      ensures Lookup(r, d', i, j) == Lookup(m, d', i, j)
    {
      var q := i * ENTRIES + j;
      assert Pde(q) == i && Pte(q) == j && q < PAGES;
      assert Trans(r, d', q) == Trans(m, d', q);
    }
  }

  /** `o` is a leaf at a page of the shared half from `lo` up to `hi`. */
  predicate SharedLeaf(o: Owner, lo: nat, hi: nat) {
    o.Leaf? && o.home == Shared && lo <= o.i * ENTRIES + o.j < hi
  }

  /** A directory of `space`, or a leaf of its private half. */
  predicate PartOf(f: Frame, o: Owner, space: set<Frame>) {
    (o.Directory? && f in space) || (o.Leaf? && o.home.Private? && o.home.dir in space && o.i < KERNEL_HALF)
  }

  /** Every frame owned in `was` is owned alike in `now`; one owned only in `now` is mapped at a
      shared page from `lo` up to `hi`, or part of an address space of `space`, or it is lost, which
      `lossy` must allow. */
  ghost predicate Accounted(was: map<Frame, Owner>, now: map<Frame, Owner>, space: set<Frame>, lo: nat, hi: nat,
                            lossy: bool) {
    && (forall f :: f in was ==> f in now && now[f] == was[f])
    && (forall f :: f in now && f !in was ==>
          SharedLeaf(now[f], lo, hi) || PartOf(f, now[f], space) || (lossy && now[f].Leaked?))
  }

  lemma NothingToAccount(owner: map<Frame, Owner>, space: set<Frame>, lo: nat, hi: nat, lossy: bool)
    ensures Accounted(owner, owner, space, lo, hi, lossy)
  {
  }

  lemma NothingChanges(owner: map<Frame, Owner>)
    ensures forall lo: nat, hi: nat, lossy: bool :: Accounted(NonTables(owner), NonTables(owner), {}, lo, hi, lossy)
  {
  }

  lemma LaidIsAccounted(base: map<Frame, Owner>, now: map<Frame, Owner>, d: Frame, first: nat, frames: seq<Frame>)
    requires LaidOut(base, now, d, first, frames, 0) && first >= KERNEL_HALF * ENTRIES
    ensures Accounted(base, now, {}, first, first + |frames|, false)
  {
    forall f | f in now && f !in base ensures SharedLeaf(now[f], first, first + |frames|) {
      var k :| 0 <= k < |frames| && frames[k] == f;
      assert Pde(first + k) * ENTRIES + Pte(first + k) == first + k;
    }
  }

  lemma LostIsAccounted(base: map<Frame, Owner>, now: map<Frame, Owner>, d: Frame, first: nat, frames: seq<Frame>,
                        space: set<Frame>, lo: nat, hi: nat)
    requires LaidOut(base, now, d, first, frames, |frames|)
    ensures Accounted(base, now, space, lo, hi, true)
  {
  }

  /** An allocation that must start where its region does. */
  lemma ExactRegion(m: Memory, r: Memory, d: Frame, addr: u32, n: nat, flags: bv12, start: u32, end: u32,
                    frames: seq<Frame>)
    requires Shaped(m) && d in m.dirs && end <= PAGES * PAGE_SIZE
    requires Allocated(m, r, d, addr, n, flags, start, end, frames)
    requires start % PAGE_SIZE == 0 && end == start + n * PAGE_SIZE
    ensures addr == start
    ensures Installed(m, r, d, start / PAGE_SIZE, start / PAGE_SIZE, frames, flags) && |frames| == n
  {
  }

  lemma InstalledBacks(m: Memory, r: Memory, d: Frame, start: nat, n: nat, frames: seq<Frame>, flags: bv12,
                       blocks: seq<Block>, more: seq<Block>)
    requires Installed(m, r, d, start / PAGE_SIZE, start / PAGE_SIZE, frames, flags) && |frames| == n && flags == 3
    requires start >= HEAP_START && start % PAGE_SIZE == 0 && start + n * PAGE_SIZE <= HEAP_LIMIT
    requires Addr(more, |more|) == start + n * PAGE_SIZE
    requires if blocks == [] then start == HEAP_START else Backed(m, d, blocks) && Addr(blocks, |blocks|) == start
    ensures Backed(r, d, more)
  {
    hide ForKernel, With;
    forall q | HEAP_START / PAGE_SIZE <= q < Addr(more, |more|) / PAGE_SIZE
      ensures Trans(r, d, q).Some? && ForKernel(Trans(r, d, q).value)
    {
      if q < start / PAGE_SIZE {
        assert Trans(m, d, q).Some?;
      } else {
        KernelFlagsAre(frames[q - start / PAGE_SIZE]);
      }
    }
  }

  lemma SameBacks(m: Memory, r: Memory, d: Frame, blocks: seq<Block>)
    requires Backed(m, d, blocks) && SameTranslations(m, r)
    ensures Backed(r, d, blocks)
  {
    hide ForKernel;
    forall q | HEAP_START / PAGE_SIZE <= q < Addr(blocks, |blocks|) / PAGE_SIZE
      ensures Trans(r, d, q).Some? && ForKernel(Trans(r, d, q).value)
    {
      assert Trans(m, d, q).Some?;
      PageIndices(q);
    }
  }

  class Heap {
    const vmm: Vmm
    /** The address of the first header, or 0 before a successful heap_init. */
    var heapStart: nat
    var headers: map<nat, Header>
    /** The blocks the headers stand for. */
    ghost var blocks: seq<Block>

    /** All of Valid but that free neighbours are merged. */
    ghost predicate Wired()
      reads this, vmm, vmm.pmm.bitmap
    {
      && vmm.Valid()
      && if heapStart == 0 then blocks == []
         else
           && heapStart == HEAP_START && Shape(blocks) && Represents(headers, blocks)
           && Backed(vmm.Mem(), vmm.cr3, blocks)
    }

    ghost predicate Valid()
      reads this, vmm, vmm.pmm.bitmap
    {
      Wired() && Merged(blocks)
    }

    /** heap_init */
    constructor (vmm: Vmm)
      requires vmm.Valid()
      modifies vmm, vmm.pmm.bitmap
      ensures Valid() && this.vmm == vmm && vmm.cr3 == old(vmm.cr3)
      ensures blocks == [] || blocks == INITIAL
      ensures blocks != [] ==> blocks == [Block(24 * 4096 - 16, false)] && heapStart == 0xE000_0000
      ensures blocks == [] && vmm.pmm.bits >= |old(vmm.owner)| + 2 * INITIAL_PAGES ==>
        old(Shaped(vmm.Mem()) &&
          NoRun(vmm.Mem(), vmm.cr3, INITIAL_PAGES, HEAP_START, HEAP_START + INITIAL_PAGES * PAGE_SIZE))
    {
      hide Shaped, TablesOwned, LeavesOwned, Installed, LaidOut, SameTranslations;
      this.vmm := vmm;
      ghost var m := vmm.Mem();
      var start, frames := vmm.AllocPagesRegion(INITIAL_PAGES, 3, HEAP_START, HEAP_START + INITIAL_PAGES * PAGE_SIZE);
      heapStart := start;
      headers := if start == 0 then map[] else map[start := Header(INITIAL_PAGES * PAGE_SIZE - HEADER, false, 0, 0)];
      blocks := if start == 0 then [] else INITIAL;
      new;
      if start != 0 {
        ExactRegion(m, vmm.Mem(), vmm.cr3, start, INITIAL_PAGES, 3, HEAP_START, HEAP_START + INITIAL_PAGES * PAGE_SIZE,
          frames);
        InitialGeometry();
        InitialHeaders();
        InstalledBacks(m, vmm.Mem(), vmm.cr3, HEAP_START, INITIAL_PAGES, frames, 3, [], INITIAL);
      }
    }

    /** heap_split_block; used only where the subtraction does not wrap. */
    method Split(b: nat, size: nat, ghost i: nat)
      requires Wired() && i < |blocks| && b == Addr(blocks, i) && size % 4 == 0
      requires FreeAt(blocks, i) && size <= blocks[i].size && SafeFit(blocks[i].size, size)
      modifies this`headers, this`blocks
      ensures Wired() && blocks == SplitAt(old(blocks), i, size) && heapStart == old(heapStart)
    {
      hide Represents, Addr, Total, Shaped, HeaderAt, Shape, Backed, SplitAt, Vmm.Valid;
      Limit(blocks);
      NextIsThere(headers, blocks, i);
      SplitAtSmall(blocks, i, size);
      ghost var h := headers;
      var was := headers[b];
      if was.used || was.size <= size {
        return;
      }
      var rest := SplitRest(was.size, size);
      if rest < SPLIT_MIN {
        return;
      }
      SplitBig(h, blocks, i, size);
      SplitKeepsShape(blocks, i, size);
      SameEndBacked(vmm.Mem(), vmm.cr3, blocks, SplitAt(blocks, i, size));
      var new_ := (b + size + HEADER) % WORD;
      var next := was.next;
      headers := headers[new_ := Header(rest, false, b, next)];
      if next != 0 {
        headers := headers[next := headers[next].(prev := new_)];
      }
      headers := headers[b := was.(size := size, next := new_)];
      assert headers == SplitHeaders(h, b, size);
      blocks := SplitAt(blocks, i, size);
    }

    /** Writing the `used` flag of a header. */
    method SetUsed(b: nat, used: bool, ghost i: nat)
      requires Wired() && i < |blocks| && b == Addr(blocks, i)
      modifies this`headers, this`blocks
      ensures Wired() && blocks == old(blocks)[i := Block(old(blocks)[i].size, used)] && heapStart == old(heapStart)
    {
      hide Represents, Addr, Total, Shaped, HeaderAt, Shape, Backed, Vmm.Valid;
      MarkRepresents(headers, blocks, i, used);
      MarkKeepsShape(blocks, i, used);
      SameEndBacked(vmm.Mem(), vmm.cr3, blocks, blocks[i := Block(blocks[i].size, used)]);
      headers := headers[b := headers[b].(used := used)];
      blocks := blocks[i := Block(blocks[i].size, used)];
    }

    /** The writes of either half of heap_merge_free_blocks: the block at `b` joins the one at `p`. */
    method AbsorbBlock(p: nat, b: nat, ghost i: nat)
      requires Wired() && i + 1 < |blocks| && p == Addr(blocks, i) && b == Addr(blocks, i + 1)
      requires FreeAt(blocks, i) && FreeAt(blocks, i + 1)
      modifies this`headers, this`blocks
      ensures Wired() && blocks == Join(old(blocks), i) && heapStart == old(heapStart)
    {
      hide Represents, Addr, Total, Shaped, HeaderAt, Shape, Backed, Vmm.Valid, Join, LiveFrom;
      Limit(blocks);
      AbsorbRepresents(headers, blocks, i);
      JoinKeeps(blocks, i);
      AddrEnd(blocks);
      AddrEnd(Join(blocks, i));
      SameEndBacked(vmm.Mem(), vmm.cr3, blocks, Join(blocks, i));
      NextIsThere(headers, blocks, i + 1);
      Apart(blocks, i);
      ghost var h := headers;
      var next := headers[b].next;
      headers := headers[p := headers[p].(size := headers[p].size + headers[b].size + HEADER, next := next)];
      if next != 0 {
        headers := headers[next := headers[next].(prev := p)];
      }
      assert headers == Absorb(h, p, b);
      blocks := Join(blocks, i);
    }

    /** heap_merge_free_blocks; a null block is ignored, and so is a used one. */
    method MergeFreeBlocks(block: nat, ghost at: nat)
      requires Wired() && (block != 0 ==> at < |blocks| && block == Addr(blocks, at))
      modifies this`headers, this`blocks
      ensures Wired() && heapStart == old(heapStart)
      ensures block == 0 || old(blocks)[at].used ==> blocks == old(blocks)
      ensures block != 0 && !old(blocks)[at].used ==> blocks == MergeAt(old(blocks), at)
    {
      hide Represents, Addr, Total, Shaped, HeaderAt, Shape, Backed, Vmm.Valid, Join, LiveFrom;
      if block == 0 {
        return;
      }
      ghost var i := at;
      var b := block;
      NextIsThere(headers, blocks, i);
      if headers[b].used {
        return;
      }
      var prev := headers[b].prev;
      ReadPrev(headers, blocks, i);
      if prev != 0 {
        if !headers[prev].used {
          AbsorbBlock(prev, b, i - 1);
          JoinAddr(old(blocks), i - 1, i - 1);
          JoinBlocks(old(blocks), i - 1);
          b := prev;
          i := i - 1;
        }
      }
      ReadNext(headers, blocks, i);
      NextIsThere(headers, blocks, i);
      var next := headers[b].next;
      if next != 0 {
        if !headers[next].used {
          AbsorbBlock(b, next, i);
        }
      }
    }

    /** heap_free: an address that is no payload changes nothing. */
    method Free(ptr: nat)
      requires Valid()
      modifies this`headers, this`blocks
      ensures Valid() && blocks == FreeBlock(old(blocks), ptr)
    {
      hide Represents, Addr, Total, Shaped, HeaderAt, Shape, Backed, Vmm.Valid, MergeAt, LiveFrom, Merged;
      PayloadsAreHigh(blocks, ptr);
      if ptr == 0 {
        return;
      }
      var b := heapStart;
      ghost var i := 0;
      FirstIsStart(blocks);
      if b != 0 {
        EndOf(blocks);
      }
      while b != 0
        invariant Wired() && Merged(blocks) && blocks == old(blocks) && heapStart == old(heapStart)
        invariant b != 0 ==> i < |blocks| && b == Addr(blocks, i)
        invariant b == 0 ==> i == |blocks|
        invariant i <= |blocks| && FindFrom(blocks, ptr, i) == Find(blocks, ptr)
        decreases |blocks| - i
      {
        NextIsThere(headers, blocks, i);
        ReadNext(headers, blocks, i);
        if b + HEADER == ptr {
          VacateKeeps(blocks, i);
          SetUsed(b, false, i);
          MergeAtMerges(blocks, i);
          SameAddr(old(blocks), i, false);
          break;
        }
        b := headers[b].next;
        i := i + 1;
      }
      MergeFreeBlocks(b, i);
    }

    /** The walk of heap_expand to the last block. */
    method LastBlock() returns (b: nat)
      requires Wired() && heapStart != 0
      ensures blocks != [] && b == Addr(blocks, |blocks| - 1) && b in headers && headers[b].next == 0
      ensures b + HEADER + headers[b].size == Addr(blocks, |blocks|)
    {
      hide Represents, Addr, Total, Shaped, HeaderAt, Shape, Backed, Vmm.Valid, LiveFrom;
      EndOf(blocks);
      FirstIsStart(blocks);
      b := heapStart;
      ghost var i := 0;
      NextIsThere(headers, blocks, 0);
      ReadNext(headers, blocks, 0);
      while headers[b].next != 0
        invariant i < |blocks| && b == Addr(blocks, i) && b in headers
        invariant headers[b].next == NextOf(blocks, i) && headers[b].size == blocks[i].size
        decreases |blocks| - i
      {
        ReadNext(headers, blocks, i);
        b := headers[b].next;
        i := i + 1;
        NextIsThere(headers, blocks, i);
      }
      ReadNext(headers, blocks, i);
      NextAddr(blocks, i);
    }

    /** The writes of heap_expand, once the pages are there. */
    method Append(newBlock: nat, b: nat, pages: nat)
      requires vmm.Valid() && heapStart == HEAP_START && Shape(blocks) && Represents(headers, blocks) && pages > 0
      requires b == Addr(blocks, |blocks| - 1) && newBlock == Addr(blocks, |blocks|) &&
        newBlock + pages * PAGE_SIZE < HEAP_LIMIT
      requires Backed(vmm.Mem(), vmm.cr3, Grow(blocks, pages, false))
      modifies this`headers, this`blocks
      ensures Wired() && heapStart == old(heapStart) && blocks == Grow(old(blocks), pages, false)
    {
      hide Represents, Addr, Total, Shaped, HeaderAt, Shape, Backed, Vmm.Valid, LiveFrom, Grow;
      ExtendRepresents(headers, blocks, pages);
      GrowKeepsShape(blocks, pages, false);
      ghost var h := headers;
      headers := headers[newBlock := Header(pages * PAGE_SIZE - HEADER, false, b, 0)];
      headers := headers[b := headers[b].(next := newBlock)];
      assert headers == Extend(h, b, newBlock, pages * PAGE_SIZE - HEADER);
      blocks := Grow(blocks, pages, false);
    }

    /** heap_expand: `pages` more pages behind the last block, as one free block. */
    method Expand(pages: nat) returns (block: nat)
      requires Valid() && pages * PAGE_SIZE < WORD
      modifies this`headers, this`blocks, vmm, vmm.pmm.bitmap
      ensures Wired() && heapStart == old(heapStart)
      ensures Accounted(NonTables(old(vmm.owner)), NonTables(vmm.owner), {},
        Addr(old(blocks), |old(blocks)|) / PAGE_SIZE, Addr(blocks, |blocks|) / PAGE_SIZE, block == 0)
      ensures vmm.cr3 == old(vmm.cr3) && SamePrivate(old(vmm.Mem()), vmm.Mem(), old(vmm.dirs)) &&
        vmm.dirs == old(vmm.dirs)
      ensures block == 0 ==> blocks == old(blocks) && headers == old(headers)
      ensures block != 0 ==> old(blocks) != [] && pages > 0 && block == Addr(old(blocks), |old(blocks)|)
      ensures block != 0 ==> blocks == Grow(old(blocks), pages, false)
      ensures block != 0 ==> Addr(old(blocks), |old(blocks)|) + pages * PAGE_SIZE < HEAP_LIMIT
      ensures block == 0 && old(blocks) != [] && pages > 0
              && Addr(blocks, |blocks|) + pages * PAGE_SIZE < HEAP_LIMIT ==>
        OutOfMemory(old(vmm.Mem()), vmm.cr3, vmm.pmm.bits, blocks, pages)
    {
      hide Represents, Addr, Total, Shaped, HeaderAt, Shape, Backed, SameTranslations, Installed, LaidOut, LiveFrom,
        Merged, Grow, NoRun, TablesOwned, LeavesOwned, Accounted, NonTables;
      SameIsSame(vmm.Mem());
      SameIsPrivate(vmm.Mem(), vmm.Mem());
      NothingToAccount(NonTables(vmm.owner), {}, Addr(blocks, |blocks|) / PAGE_SIZE, Addr(blocks, |blocks|) / PAGE_SIZE,
        true);
      if heapStart == 0 || pages == 0 {
        return 0;
      }
      EndOf(blocks);
      var b := LastBlock();
      var regionStart := b + HEADER + headers[b].size;
      var regionEnd := (regionStart + pages * PAGE_SIZE) % WORD;
      if regionEnd >= HEAP_LIMIT {
        return 0;
      }
      ghost var m := vmm.Mem();
      AlignedStays(regionStart);
      WrappedRegion(m, vmm.cr3, pages, regionStart);
      var newBlock, frames := vmm.AllocPagesRegion(pages, 3, regionStart, regionEnd);
      if newBlock == 0 {
        SameBacks(m, vmm.Mem(), vmm.cr3, blocks);
        SameIsPrivate(m, vmm.Mem());
        LostIsAccounted(NonTables(m.owner), NonTables(vmm.owner), vmm.cr3, 0, frames, {}, regionStart / PAGE_SIZE,
                        regionStart / PAGE_SIZE);
        return 0;
      }
      ExactRegion(m, vmm.Mem(), vmm.cr3, newBlock, pages, 3, regionStart, regionEnd, frames);
      SharedInstallIsPrivate(m, vmm.Mem(), vmm.cr3, regionStart / PAGE_SIZE, frames, 3);
      GrowKeepsShape(blocks, pages, false);
      InstalledBacks(m, vmm.Mem(), vmm.cr3, regionStart, pages, frames, 3, blocks, Grow(blocks, pages, false));
      LaidIsAccounted(NonTables(m.owner), NonTables(vmm.owner), vmm.cr3, regionStart / PAGE_SIZE, frames);
      Append(newBlock, b, pages);
      return newBlock;
    }

    /** heap_alloc, for a request that does not hit the wrap in heap_split_block or in the rounding of
        its size. `memory` says whether the pages for an expansion could be had. */
    method Alloc(size: nat) returns (ptr: nat, ghost memory: bool)
      requires Valid() && size <= WORD - HEADER && SafeRequest(blocks, AlignUp4(size))
      modifies this`headers, this`blocks, vmm, vmm.pmm.bitmap
      ensures Accounted(NonTables(old(vmm.owner)), NonTables(vmm.owner), {},
        Addr(old(blocks), |old(blocks)|) / PAGE_SIZE, Addr(blocks, |blocks|) / PAGE_SIZE, ptr == 0)
      ensures Valid() && (blocks, ptr) == AllocBlock(old(blocks), size, memory)
      ensures if old(blocks) == [] then ptr == 0 && blocks == [] else AllocSays(old(blocks), size, memory, blocks, ptr)
      ensures vmm.cr3 == old(vmm.cr3) && SamePrivate(old(vmm.Mem()), vmm.Mem(), old(vmm.dirs)) &&
        vmm.dirs == old(vmm.dirs)
      ensures !memory && old(blocks) != [] ==>
        OutOfMemory(old(vmm.Mem()), vmm.cr3, vmm.pmm.bits, blocks, PagesFor(AlignUp4(size)))
    {
      hide Represents, Addr, Total, HeaderAt, Shape, Backed, LiveFrom, Merged, FirstFit, NoRun, TablesOwned,
        LeavesOwned, SamePrivate, SameTranslations, Lookup, Accounted, NonTables, Rounded, PagesAsked, PagesFor,
        AlignUp4, AllocSays;
      memory := true;
      WhatAllocSays(blocks, size);
      SameIsSame(vmm.Mem());
      SameIsPrivate(vmm.Mem(), vmm.Mem());
      NothingChanges(vmm.owner);
      if size == 0 {
        return 0, true;
      }
      RoundedExactly(size);
      var n := Rounded(size);
      var b := heapStart;
      ghost var i := 0;
      FirstIsStart(blocks);
      if b != 0 {
        EndOf(blocks);
      }
      FitFromStart(blocks, n);
      while b != 0
        invariant Wired() && Merged(blocks) && blocks == old(blocks) && heapStart == old(heapStart)
        invariant vmm.Mem() == old(vmm.Mem()) && vmm.cr3 == old(vmm.cr3)
        invariant b != 0 ==> i < |blocks| && b == Addr(blocks, i)
        invariant b == 0 ==> i == |blocks|
        invariant i <= |blocks| && FirstFitFrom(blocks, n, i) == FirstFit(blocks, n)
        decreases |blocks| - i
      {
        NextIsThere(headers, blocks, i);
        ReadNext(headers, blocks, i);
        if !headers[b].used && headers[b].size >= n {
          ServeKeepsMergedAt(blocks, i, n);
          Split(b, n, i);
          SplitAtAddr(old(blocks), i, n);
          SetUsed(b, true, i);
          return b + HEADER, true;
        }
        b := headers[b].next;
        i := i + 1;
      }
      var newBlock := Expand(PagesAsked(n));
      if newBlock == 0 {
        memory := Addr(blocks, |blocks|) + PagesFor(n) * PAGE_SIZE >= HEAP_LIMIT;
        return 0, memory;
      }
      GrownIsLast(old(blocks), PagesFor(n));
      SetUsed(newBlock, true, |old(blocks)|);
      return newBlock + HEADER, true;
    }
  }

  /** A region whose end wraps past 2^32 has no run of pages. */
  lemma WrappedRegion(m: Memory, d: Frame, pages: nat, start: u32)
    requires Shaped(m) && d in m.dirs && start % PAGE_SIZE == 0 && pages > 0 && pages * PAGE_SIZE < WORD
    requires (start + pages * PAGE_SIZE) % WORD < HEAP_LIMIT
    ensures start + pages * PAGE_SIZE >= WORD ==> NoRun(m, d, pages, start, (start + pages * PAGE_SIZE) % WORD)
  {
    AlignedStays(start);
  }

  lemma Apart(blocks: seq<Block>, i: nat)
    requires i + 1 < |blocks|
    ensures Addr(blocks, i) < Addr(blocks, i + 1) && (i + 2 < |blocks| ==> Addr(blocks, i + 1) < Addr(blocks, i + 2))
  {
    AddrGrows(blocks, i, i + 1);
    if i + 2 < |blocks| {
      AddrGrows(blocks, i + 1, i + 2);
    }
  }

  lemma ReadPrev(h: map<nat, Header>, blocks: seq<Block>, i: nat)
    requires Represents(h, blocks) && i < |blocks|
    ensures i == 0 <==> PrevOf(blocks, i) == 0
    ensures i > 0 ==> PrevOf(blocks, i) in h && h[PrevOf(blocks, i)].used == blocks[i - 1].used
  {
    assert i > 0 ==> HeaderAt(h, blocks, i - 1);
  }

  lemma ReadNext(h: map<nat, Header>, blocks: seq<Block>, i: nat)
    requires Represents(h, blocks) && i < |blocks|
    ensures i + 1 == |blocks| <==> NextOf(blocks, i) == 0
    ensures i + 1 < |blocks| ==> NextOf(blocks, i) in h && h[NextOf(blocks, i)].used == blocks[i + 1].used
  {
    assert i + 1 < |blocks| ==> HeaderAt(h, blocks, i + 1);
  }

  lemma WhatAllocSays(blocks: seq<Block>, size: nat)
    requires (blocks == [] || (Shape(blocks) && Merged(blocks))) && SafeRequest(blocks, AlignUp4(size))
    ensures forall memory :: var (r, ptr) := AllocBlock(blocks, size, memory);
      blocks != [] ==> AllocSays(blocks, size, memory, r, ptr)
  {
    hide AllocSays, AllocBlock;
    if blocks != [] {
      AllocIsExact(blocks, size, true);
      AllocIsExact(blocks, size, false);
    }
  }

  lemma FirstIsStart(blocks: seq<Block>)
    ensures Addr(blocks, 0) == HEAP_START
  {
  }

  lemma PayloadsAreHigh(blocks: seq<Block>, ptr: nat)
    ensures ptr == 0 ==> FreeBlock(blocks, ptr) == blocks
  {
  }

  /** What heap_free needs of the block it is about to merge. */
  lemma VacateKeeps(blocks: seq<Block>, i: nat)
    requires Shape(blocks) && Merged(blocks) && i < |blocks|
    ensures Shape(Vacate(blocks, i)) && MergedAround(Vacate(blocks, i), i)
  {
    MarkKeepsShape(blocks, i, false);
    var v := Vacate(blocks, i);
    forall k | 0 <= k < |v| - 1 && k != i && k + 1 != i ensures v[k].used || v[k + 1].used {
      MergedPair(blocks, k);
    }
  }

  lemma SameAddr(blocks: seq<Block>, i: nat, used: bool)
    requires i < |blocks|
    ensures Addr(blocks[i := Block(blocks[i].size, used)], i) == Addr(blocks, i)
  {
    AddrPrefix(blocks[i := Block(blocks[i].size, used)], blocks, i);
  }

  lemma AlignedStays(a: u32)
    requires a % PAGE_SIZE == 0
    ensures AlignUp(a) == a
  {
  }

  lemma WholePages(a: nat, pages: nat)
    requires a % PAGE_SIZE == 0
    ensures (a + pages * PAGE_SIZE) % PAGE_SIZE == 0 && (pages * PAGE_SIZE - HEADER) % 4 == 0
  {
  }

  lemma GrowKeepsShape(blocks: seq<Block>, pages: nat, used: bool)
    requires Shape(blocks) && pages > 0 && Addr(blocks, |blocks|) + pages * PAGE_SIZE < HEAP_LIMIT
    ensures Shape(Grow(blocks, pages, used)) && |Grow(blocks, pages, used)| == |blocks| + 1
    ensures Addr(Grow(blocks, pages, used), |blocks| + 1) == Addr(blocks, |blocks|) + pages * PAGE_SIZE
  {
    hide Addr, Total, LiveFrom;
    var r := Grow(blocks, pages, used);
    WholePages(Addr(blocks, |blocks|), pages);
    NextAddr(r, |blocks|);
    AddrPrefix(r, blocks, |blocks|);
  }

  lemma FitFromStart(blocks: seq<Block>, n: nat)
    ensures FirstFitFrom(blocks, n, 0) == FirstFit(blocks, n)
  {
  }

  lemma ServeKeepsMergedAt(blocks: seq<Block>, i: nat, size: nat)
    requires Merged(blocks) && i < |blocks| && Fits(blocks[i], size)
    requires FirstFitFrom(blocks, size, i) == FirstFit(blocks, size) && SafeRequest(blocks, size)
    ensures FirstFit(blocks, size) == Some(i) && SafeFit(blocks[i].size, size) && Merged(Serve(blocks, i, size))
  {
    ServeSplices(blocks, i, size);
    ServeKeepsMerged(blocks, i, size);
  }

  lemma SplitAtAddr(blocks: seq<Block>, i: nat, size: nat)
    requires i < |blocks| && size <= blocks[i].size && SafeFit(blocks[i].size, size)
    ensures var r := SplitAt(blocks, i, size); i < |r| && Addr(r, i) == Addr(blocks, i)
  {
    AddrPrefix(SplitAt(blocks, i, size), blocks, i);
  }

  /** An expansion's block, once used, leaves no two free neighbours. */
  lemma GrownIsLast(blocks: seq<Block>, pages: nat)
    requires Merged(blocks) && pages > 0
    ensures var r := Grow(blocks, pages, false); var n := |blocks|;
      && |r| == n + 1 && Addr(r, n) == Addr(blocks, n)
      && r[n := Block(r[n].size, true)] == Grow(blocks, pages, true) && Merged(Grow(blocks, pages, true))
      && Addr(Grow(blocks, pages, true), n + 1) == Addr(r, n + 1)
  {
    hide Addr, Total;
    GrowExtent(blocks, Block(pages * PAGE_SIZE - HEADER, false));
    GrowExtent(blocks, Block(pages * PAGE_SIZE - HEADER, true));
    var r, g := Grow(blocks, pages, false), Grow(blocks, pages, true);
    AddrPrefix(r, blocks, |blocks|);
    forall k | 0 <= k < |g| - 1 ensures g[k].used || g[k + 1].used {
      if k + 1 < |blocks| {
        MergedPair(blocks, k);
      }
    }
  }

  /** Why the heap could not be expanded by `pages` pages: too few free frames, or a page behind
      the heap that is already taken. */
  ghost predicate OutOfMemory(m: Memory, d: Frame, bits: nat, blocks: seq<Block>, pages: nat) {
    var end := Addr(blocks, |blocks|);
    && Shaped(m) && d in m.dirs && end + pages * PAGE_SIZE < HEAP_LIMIT
    && (NoRun(m, d, pages, end, end + pages * PAGE_SIZE) || bits < |m.owner| + 2 * pages)
  }

  lemma EndOf(blocks: seq<Block>)
    requires Shape(blocks)
    ensures blocks != [] && HEAP_START <= Addr(blocks, |blocks|) < HEAP_LIMIT && Addr(blocks, |blocks|) % PAGE_SIZE == 0
  {
  }

  lemma Limit(blocks: seq<Block>)
    requires Shape(blocks)
    ensures blocks != [] && Addr(blocks, |blocks|) < WORD
  {
  }

  lemma SplitAtSmall(blocks: seq<Block>, i: nat, size: nat)
    requires i < |blocks| && size <= blocks[i].size && SafeFit(blocks[i].size, size) && blocks[i].size < WORD
    ensures blocks[i].size <= size || SplitRest(blocks[i].size, size) < SPLIT_MIN ==> SplitAt(blocks, i, size) == blocks
    ensures size < blocks[i].size && SplitRest(blocks[i].size, size) >= SPLIT_MIN ==>
      blocks[i].size >= size + HEADER + SPLIT_MIN
  {
  }

  lemma SameEndBacked(m: Memory, d: Frame, blocks: seq<Block>, r: seq<Block>)
    requires Backed(m, d, blocks) && Addr(r, |r|) == Addr(blocks, |blocks|)
    ensures Backed(m, d, r)
  {
  }

  lemma InitialHeaders()
    ensures Represents(map[HEAP_START := Header(INITIAL_PAGES * PAGE_SIZE - HEADER, false, 0, 0)], INITIAL)
    ensures Addr(INITIAL, |INITIAL|) == HEAP_START + INITIAL_PAGES * PAGE_SIZE
  {
    LiveOne(INITIAL[0], HEAP_START);
    AddrEnd(INITIAL);
    assert INITIAL[..0] == [];
    assert HeaderAt(map[HEAP_START := Header(INITIAL_PAGES * PAGE_SIZE - HEADER, false, 0, 0)], INITIAL, 0);
  }

  lemma SplitKeepsShape(blocks: seq<Block>, i: nat, size: nat)
    requires Shape(blocks) && i < |blocks| && size % 4 == 0 && blocks[i].size >= size + HEADER + SPLIT_MIN
    ensures Shape(SplitAt(blocks, i, size)) && Total(SplitAt(blocks, i, size)) == Total(blocks)
    ensures Addr(SplitAt(blocks, i, size), |SplitAt(blocks, i, size)|) == Addr(blocks, |blocks|)
  {
    hide Total, Addr, Shape, LiveFrom;
    var b, c := Block(size, false), Block(blocks[i].size - size - HEADER, false);
    ShapeAt(blocks, i);
    assert blocks == blocks[..i] + [blocks[i]] + blocks[i + 1..];
    LiveOne(blocks[i], 0);
    LiveTwo(b, c, 0);
    SplicedShape(blocks[..i], [blocks[i]], [b, c], blocks[i + 1..]);
    AddrEnd(blocks);
    AddrEnd(SplitAt(blocks, i, size));
  }

  lemma MarkKeepsShape(blocks: seq<Block>, i: nat, used: bool)
    requires Shape(blocks) && i < |blocks|
    ensures var r := blocks[i := Block(blocks[i].size, used)];
      Shape(r) && Addr(r, |r|) == Addr(blocks, |blocks|)
  {
    hide Total, Addr, LiveFrom;
    var r := blocks[i := Block(blocks[i].size, used)];
    ShapeAt(blocks, i);
    SameSizes(blocks, r);
    AddrEnd(blocks);
    AddrEnd(r);
  }
}
