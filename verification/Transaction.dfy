/**
  The memory a process is made of: a heap block for its record, an address space with its code
  and stack pages, a heap block for each kernel stack. Each operation says what it adds to or
  takes from the live blocks, the directories and the owned frames.
*/
module Transaction {
  import opened Common
  import opened Blocks
  import opened Headers
  import opened PageTables
  import opened PageRuns
  import opened Vmm
  import opened Heap
  import Sched

  const CODE_START: nat := 0x40_0000
  const KERNEL_STACK_SIZE: nat := PAGE_SIZE
  const USER_STACK_PAGES: nat := 16
  const USER_STACK_TOP: nat := 0xBFFF_F000
  /** Present, writable, for user mode. */
  const USER_FLAGS: bv12 := 7

  const CODE_PAGE: nat := CODE_START / PAGE_SIZE
  const STACK_PAGE: nat := USER_STACK_TOP / PAGE_SIZE - USER_STACK_PAGES
  /** The pages of the private half. */
  const USER_PAGES: nat := KERNEL_HALF * ENTRIES

  // ----- requests in turn

  /** The requests `sizes`, one after the other as long as they succeed, meet neither the wrap in
      heap_split_block nor the one in the rounding of heap_alloc. */
  predicate SafeInTurn(blocks: seq<Block>, sizes: seq<nat>)
    decreases |sizes|
  {
    sizes == [] || (
      && sizes[0] <= WORD - HEADER && SafeRequest(blocks, AlignUp4(sizes[0]))
      && (AllocBlock(blocks, sizes[0], true).1 != 0 ==> SafeInTurn(AllocBlock(blocks, sizes[0], true).0, sizes[1..])))
  }

  /** The three requests of process creation: a copy of the code, the process block, a kernel stack. */
  predicate SafeCreation(blocks: seq<Block>, n: nat, processSize: nat) {
    SafeInTurn(blocks, [n] + [processSize, KERNEL_STACK_SIZE])
  }

  /** On a heap of multiples of sixteen, requests for multiples of sixteen are safe in turn. */
  lemma {:induction false} SixteensInTurn(blocks: seq<Block>, sizes: seq<nat>)
    requires Sixteens(blocks) && forall n :: n in sizes ==> n % 16 == 0 && n <= WORD - HEADER
    ensures SafeInTurn(blocks, sizes)
    decreases |sizes|
  {
    hide Sixteens, AllocBlock, AlignUp4, SafeRequest;
    if sizes != [] {
      assert sizes[0] in sizes && forall n :: n in sizes[1..] ==> n in sizes;
      SixteensAreSafe(blocks, sizes[0]);
      AllocKeepsSixteens(blocks, sizes[0], true);
      SixteensInTurn(AllocBlock(blocks, sizes[0], true).0, sizes[1..]);
    }
  }

  /** sizeof(process_t): a mailbox of 16 * 76 + 24 + 16 bytes, eight threads of 44, six words and a
      byte, padded; it is no multiple of sixteen. */
  const PROCESS_SIZE: nat := 1636

  /** A request that the free last block serves, with enough of it left over. */
  lemma LastServes(pre: seq<Block>, rest: nat, size: nat)
    requires (forall b :: b in pre ==> b.used) && size > 0 && rest >= AlignUp4(size) + HEADER + SPLIT_MIN
    ensures var blocks, n := pre + [Block(rest, false)], AlignUp4(size);
      && SafeRequest(blocks, n)
      && AllocBlock(blocks, size, true).0 == pre + [Block(n, true)] + [Block(rest - n - HEADER, false)]
  {
    hide Addr, Total;
    var blocks := pre + [Block(rest, false)];
    assert blocks[|pre|] == Block(rest, false);
    assert forall k :: 0 <= k < |pre| ==> blocks[k] in pre;
    assert FirstFit(blocks, AlignUp4(size)) == Some(|pre|);
    ServeSplices(blocks, |pre|, AlignUp4(size));
    assert blocks[..|pre|] == pre && blocks[|pre| + 1..] == [];
  }

  lemma OneTurn(blocks: seq<Block>, n: nat, rest: seq<nat>)
    requires n <= WORD - HEADER && SafeRequest(blocks, AlignUp4(n))
    requires rest == [] || SafeInTurn(AllocBlock(blocks, n, true).0, rest)
    ensures SafeInTurn(blocks, [n] + rest)
  {
    hide AllocBlock, SafeRequest, AlignUp4;
    assert ([n] + rest)[1..] == rest;
  }

  /** On the heap as it comes up, the first process of up to 90000 bytes of code meets no wrap. */
  lemma FirstProcessIsSafe(n: nat)
    requires 0 < n <= 90_000
    ensures SafeCreation(INITIAL, n, PROCESS_SIZE)
  {
    hide AllocBlock, SafeRequest, SafeInTurn;
    var size: nat := INITIAL_PAGES * PAGE_SIZE - HEADER;
    var a, b := Block(AlignUp4(n), true), Block(PROCESS_SIZE, true);
    assert INITIAL == [] + [Block(size, false)] && [] + [a] == [a];
    LastServes([], size, n);
    LastServes([a], size - a.size - HEADER, PROCESS_SIZE);
    LastServes([a] + [b], size - a.size - b.size - 2 * HEADER, KERNEL_STACK_SIZE);
    OneTurn([a] + [b] + [Block(size - a.size - b.size - 2 * HEADER, false)], KERNEL_STACK_SIZE, []);
    OneTurn([a] + [Block(size - a.size - HEADER, false)], PROCESS_SIZE, [KERNEL_STACK_SIZE] + []);
    assert [PROCESS_SIZE] + ([KERNEL_STACK_SIZE] + []) == [PROCESS_SIZE, KERNEL_STACK_SIZE];
    OneTurn(INITIAL, n, [PROCESS_SIZE, KERNEL_STACK_SIZE]);
  }

  // ----- the state of memory, and what has changed since an earlier one

  datatype Snapshot = Snapshot(mem: Memory, cr3: Frame, blocks: seq<Block>)

  ghost function Snap(heap: Heap): (s: Snapshot)
    reads heap, heap.vmm
  {
    Snapshot(heap.vmm.Mem(), heap.vmm.cr3, heap.blocks)
  }

  /** The page behind the heap. */
  function EndPage(blocks: seq<Block>): (q: nat) {
    Addr(blocks, |blocks|) / PAGE_SIZE
  }

  /** Since `s` the live blocks have become `live`, the directories `space` have been added, every
      frame owned then is owned alike, the others belong to `space` or to new pages of the heap, or
      are lost if `lossy`; and every private half there was is as it was. */
  ghost predicate Since(s: Snapshot, r: Snapshot, live: map<nat, nat>, space: set<Frame>, lossy: bool) {
    && r.cr3 == s.cr3 && Live(r.blocks) == live
    && s.mem.dirs !! space && r.mem.dirs == s.mem.dirs + space
    && SamePrivate(s.mem, r.mem, s.mem.dirs)
    && EndPage(s.blocks) <= EndPage(r.blocks)
    && Accounted(NonTables(s.mem.owner), NonTables(r.mem.owner), space, EndPage(s.blocks), EndPage(r.blocks), lossy)
  }

  /** Only pages and frames of the private half of `dir` were added, and perhaps frames lost. */
  ghost predicate Within(s: Snapshot, r: Snapshot, dir: Frame, lossy: bool) {
    && r.cr3 == s.cr3 && r.blocks == s.blocks && r.mem.dirs == s.mem.dirs
    && SamePrivate(s.mem, r.mem, s.mem.dirs - {dir})
    && forall lo: nat, hi: nat :: Accounted(NonTables(s.mem.owner), NonTables(r.mem.owner), {dir}, lo, hi, lossy)
  }

  /** Only leaves of the private half of `dir` were given back. */
  ghost predicate Thinned(s: Snapshot, r: Snapshot, dir: Frame) {
    && r.cr3 == s.cr3 && r.blocks == s.blocks && r.mem.dirs == s.mem.dirs
    && SamePrivate(s.mem, r.mem, s.mem.dirs - {dir})
    && (forall f :: f in r.mem.owner ==> f in s.mem.owner && r.mem.owner[f] == s.mem.owner[f])
    && (forall f :: f in s.mem.owner && !PartOf(f, s.mem.owner[f], {dir}) ==> f in r.mem.owner)
  }

  /** The directory `dir` and all frames of its private half were given back. */
  ghost predicate Vanished(s: Snapshot, r: Snapshot, dir: Frame) {
    && r.cr3 == s.cr3 && r.blocks == s.blocks && dir in s.mem.dirs && r.mem.dirs == s.mem.dirs - {dir}
    && SamePrivate(s.mem, r.mem, s.mem.dirs - {dir})
    && (forall f :: f in NonTables(s.mem.owner) && f != dir && !PartOf(f, s.mem.owner[f], {dir}) ==> f in r.mem.owner)
    && (forall f :: f in r.mem.owner ==>
          f in s.mem.owner && r.mem.owner[f] == s.mem.owner[f] && f != dir && !PartOf(f, s.mem.owner[f], {dir}))
  }

  lemma Unchanged(s: Snapshot)
    requires Shaped(s.mem)
    ensures Since(s, s, Live(s.blocks), {}, false)
  {
    hide Live;
    SameIsSame(s.mem);
    SameIsPrivate(s.mem, s.mem);
  }

  lemma AccountedTwice(a: map<Frame, Owner>, b: map<Frame, Owner>, c: map<Frame, Owner>, space: set<Frame>,
                       more: set<Frame>, lo: nat, mid: nat, hi: nat, lossy: bool, losing: bool)
    requires Accounted(a, b, space, lo, mid, lossy) && Accounted(b, c, more, mid, hi, losing) && lo <= mid <= hi
    ensures Accounted(a, c, space + more, lo, hi, lossy || losing)
  {
    forall f | f in c && f !in a
      ensures SharedLeaf(c[f], lo, hi) || PartOf(f, c[f], space + more) || ((lossy || losing) && c[f].Leaked?)
    {
      if f in b {
        assert SharedLeaf(b[f], lo, mid) || PartOf(f, b[f], space) || (lossy && b[f].Leaked?);
      }
    }
  }

  lemma PrivateTwice(m: Memory, n: Memory, r: Memory, dirs: set<Frame>, more: set<Frame>)
    requires SamePrivate(m, n, dirs) && SamePrivate(n, r, more) && dirs <= more
    ensures SamePrivate(m, r, dirs)
  {
  }

  lemma SinceTwice(s: Snapshot, m: Snapshot, r: Snapshot, live: map<nat, nat>, after: map<nat, nat>, space: set<Frame>,
                   more: set<Frame>, lossy: bool, losing: bool)
    requires Since(s, m, live, space, lossy) && Since(m, r, after, more, losing)
    ensures Since(s, r, after, space + more, lossy || losing)
  {
    hide SamePrivate, Accounted, Live, EndPage, NonTables;
    PrivateTwice(s.mem, m.mem, r.mem, s.mem.dirs, m.mem.dirs);
    AccountedTwice(NonTables(s.mem.owner), NonTables(m.mem.owner), NonTables(r.mem.owner), space, more,
      EndPage(s.blocks), EndPage(m.blocks), EndPage(r.blocks), lossy, losing);
  }

  /** The same when no directory is added. */
  lemma SinceThen(s: Snapshot, m: Snapshot, r: Snapshot, live: map<nat, nat>, after: map<nat, nat>, space: set<Frame>,
                  lossy: bool, losing: bool)
    requires Since(s, m, live, space, lossy) && Since(m, r, after, {}, losing)
    ensures Since(s, r, after, space, lossy || losing)
  {
    hide Since;
    SinceTwice(s, m, r, live, after, space, {}, lossy, losing);
    assert space + {} == space;
  }

  lemma ThenWithin(s: Snapshot, m: Snapshot, r: Snapshot, live: map<nat, nat>, dir: Frame, lossy: bool, losing: bool)
    requires Since(s, m, live, {dir}, lossy) && Within(m, r, dir, losing)
    ensures Since(s, r, live, {dir}, lossy || losing)
  {
    hide SamePrivate, Accounted, Live, EndPage, NonTables;
    PrivateTwice(s.mem, m.mem, r.mem, s.mem.dirs, m.mem.dirs - {dir});
    AccountedTwice(NonTables(s.mem.owner), NonTables(m.mem.owner), NonTables(r.mem.owner), {dir}, {dir},
      EndPage(s.blocks), EndPage(m.blocks), EndPage(r.blocks), lossy, losing);
    assert {dir} + {dir} == {dir};
  }

  /** Nothing owned in `s` belongs to the address space of a directory that is not there yet. */
  lemma Strangers(s: Snapshot, m: Snapshot, live: map<nat, nat>, dir: Frame, lossy: bool)
    requires Since(s, m, live, {dir}, lossy) && Sound(s.mem) && Sound(m.mem)
    ensures forall f :: f in NonTables(s.mem.owner) ==> f != dir && !PartOf(f, s.mem.owner[f], {dir})
  {
    hide EntriesOwned, OwnersPlaced, SamePrivate, Live, EndPage;
    assert dir in m.mem.dirs && dir !in s.mem.dirs;
    forall f | f in NonTables(s.mem.owner) ensures f != dir && !PartOf(f, s.mem.owner[f], {dir}) {
      assert f in NonTables(m.mem.owner) && m.mem.owner[f] == s.mem.owner[f];
      if s.mem.owner[f].Leaf? {
        assert Place(s.mem.owner[f], s.mem.dirs);
      }
    }
  }

  lemma ThenThinned(s: Snapshot, m: Snapshot, r: Snapshot, live: map<nat, nat>, dir: Frame, lossy: bool)
    requires Since(s, m, live, {dir}, lossy) && Thinned(m, r, dir) && Sound(s.mem) && Sound(m.mem)
    ensures Since(s, r, live, {dir}, lossy)
  {
    hide SamePrivate, Live, EndPage, Sound;
    PrivateTwice(s.mem, m.mem, r.mem, s.mem.dirs, m.mem.dirs - {dir});
    Strangers(s, m, live, dir, lossy);
    forall f | f in NonTables(s.mem.owner) ensures f in NonTables(r.mem.owner) {
      assert f in NonTables(m.mem.owner) && m.mem.owner[f] == s.mem.owner[f];
    }
    forall f | f in NonTables(r.mem.owner) && f !in NonTables(s.mem.owner)
      ensures SharedLeaf(r.mem.owner[f], EndPage(s.blocks), EndPage(r.blocks)) || PartOf(f, r.mem.owner[f], {dir})
        || (lossy && r.mem.owner[f].Leaked?)
    {
      assert f in NonTables(m.mem.owner);
    }
  }

  lemma ThenVanished(s: Snapshot, m: Snapshot, r: Snapshot, live: map<nat, nat>, dir: Frame, lossy: bool)
    requires Since(s, m, live, {dir}, lossy) && Vanished(m, r, dir) && Sound(s.mem) && Sound(m.mem)
    ensures Since(s, r, live, {}, lossy)
  {
    hide SamePrivate, Live, EndPage, Sound;
    PrivateTwice(s.mem, m.mem, r.mem, s.mem.dirs, m.mem.dirs - {dir});
    Strangers(s, m, live, dir, lossy);
    forall f | f in NonTables(s.mem.owner) ensures f in NonTables(r.mem.owner) {
      assert f in NonTables(m.mem.owner) && m.mem.owner[f] == s.mem.owner[f];
    }
    forall f | f in NonTables(r.mem.owner) && f !in NonTables(s.mem.owner)
      ensures SharedLeaf(r.mem.owner[f], EndPage(s.blocks), EndPage(r.blocks)) || (lossy && r.mem.owner[f].Leaked?)
    {
      assert f in NonTables(m.mem.owner);
    }
    assert r.mem.dirs == s.mem.dirs + {};
  }

  // ----- the pages of one address space

  /** Present, writable, open to user mode: the bits 1, 2 and 4, and no other. */
  predicate ForUser(e: Entry) {
    e.flags == 1 | 2 | 4
  }

  lemma UserFlagsAre(f: Frame)
    ensures ForUser(Entry(f, With(USER_FLAGS, PRESENT)))
  {
  }

  /** The access the processor gives to page `q`, which both levels have to allow: from user mode,
      for reading and writing. */
  ghost predicate Accessible(m: Memory, dir: Frame, q: nat)
    requires Shaped(m) && dir in m.dirs && q < PAGES
  {
    && Trans(m, dir, q).Some? && Pde(q) < ENTRIES && Present(m.tables[dir][Pde(q)])
    && Trans(m, dir, q).value.flags & m.tables[dir][Pde(q)].flags & 7 == 7
  }

  /** In a sound memory the directory entry takes nothing away. */
  lemma UserPagesAreAccessible(m: Memory, dir: Frame, q: nat)
    requires Sound(m) && dir in m.dirs && q < USER_PAGES && Trans(m, dir, q).Some? && ForUser(Trans(m, dir, q).value)
    ensures Accessible(m, dir, q)
  {
    hide TablesOwned, LeavesOwned, Permits, ForUser, Present;
    PageIndices(q);
    assert Spot(dir, Pde(q), Pte(q), m.dirs);
    BothLevels(m.tables[dir][Pde(q)], Trans(m, dir, q).value);
  }

  /** The `n` pages from `first` on can be read and written in user mode. */
  ghost predicate Open(m: Memory, dir: Frame, first: nat, n: nat) {
    && Shaped(m) && dir in m.dirs && first + n <= PAGES
    && forall q :: first <= q < first + n ==> Accessible(m, dir, q)
  }

  lemma PopulatedIsOpen(m: Memory, dir: Frame, code: nat)
    requires Sound(m) && Populated(m, dir, code, USER_STACK_PAGES) && CODE_PAGE + code < STACK_PAGE
    ensures Open(m, dir, 0x400, code) && Open(m, dir, 0xB_FFEF, 16)
  {
    hide Sound, ForUser, Accessible, Trans;
    forall q | 0x400 <= q < 0x400 + code || 0xB_FFEF <= q < 0xB_FFEF + 16 ensures Accessible(m, dir, q) {
      UserPagesAreAccessible(m, dir, q);
    }
  }

  lemma FilledIsOpen(m: Memory, r: Memory, dir: Frame, first: nat, n: nat)
    requires Sound(r) && Filled(m, r, dir, first, n) && first + n <= USER_PAGES
    ensures Open(r, dir, first, n)
  {
    hide Sound, ForUser, Accessible, Trans;
    forall q | first <= q < first + n ensures Accessible(r, dir, q) {
      UserPagesAreAccessible(r, dir, q);
    }
  }

  lemma BothLevels(pde: Entry, e: Entry)
    requires Permits(pde, e) && ForUser(e)
    ensures e.flags & pde.flags & 7 == 7
  {
  }

  /** Of its private half the address space of `dir` has `code` pages at the code address, `stack`
      pages at the stack address, all of them for user mode, and no other. */
  ghost predicate Populated(m: Memory, dir: Frame, code: nat, stack: nat) {
    && Shaped(m) && dir in m.dirs
    && forall q :: 0 <= q < USER_PAGES ==>
         if CODE_PAGE <= q < CODE_PAGE + code || STACK_PAGE <= q < STACK_PAGE + stack
         then Trans(m, dir, q).Some? && ForUser(Trans(m, dir, q).value)
         else Trans(m, dir, q).None?
  }

  /** The run of `n` pages from `first` on, none of them mapped before, joins the private half of
      `dir`, for user mode. */
  ghost predicate Filled(m: Memory, r: Memory, dir: Frame, first: nat, n: nat) {
    && Shaped(m) && Shaped(r) && dir in m.dirs && dir in r.dirs
    && forall q :: 0 <= q < USER_PAGES ==>
         if first <= q < first + n
         then Trans(m, dir, q).None? && Trans(r, dir, q).Some? && ForUser(Trans(r, dir, q).value)
         else Trans(r, dir, q) == Trans(m, dir, q)
  }

  lemma PrivatePopulated(m: Memory, r: Memory, dirs: set<Frame>, dir: Frame, code: nat, stack: nat)
    requires Populated(m, dir, code, stack) && SamePrivate(m, r, dirs) && dir in dirs
    ensures Populated(r, dir, code, stack)
  {
    forall q | 0 <= q < USER_PAGES ensures Trans(r, dir, q) == Trans(m, dir, q) {
      PageIndices(q);
      assert Spot(dir, Pde(q), Pte(q), dirs);
    }
  }

  lemma FilledPopulated(m: Memory, r: Memory, dir: Frame, code: nat)
    requires Populated(m, dir, code, 0) && Filled(m, r, dir, STACK_PAGE, USER_STACK_PAGES)
    ensures Populated(r, dir, code, USER_STACK_PAGES)
  {
  }

  lemma CodePopulated(m: Memory, r: Memory, dir: Frame, code: nat)
    requires Populated(m, dir, 0, 0) && Filled(m, r, dir, CODE_PAGE, code)
    ensures Populated(r, dir, code, 0)
  {
  }

  lemma SpawnedPopulated(m: Memory, r: Memory, dir: Frame, source: Frame)
    requires Spawned(m, r, dir, source)
    ensures Populated(r, dir, 0, 0)
  {
    forall q | 0 <= q < USER_PAGES ensures Trans(r, dir, q).None? {
      PageIndices(q);
      assert Spot(dir, Pde(q), Pte(q), r.dirs);
    }
  }

  lemma InstalledFills(m: Memory, r: Memory, dir: Frame, first: nat, frames: seq<Frame>)
    requires Installed(m, r, dir, first, first, frames, USER_FLAGS) && FreeRun(m, dir, first, |frames|)
    ensures Filled(m, r, dir, first, |frames|)
  {
    hide With, ForUser;
    forall k | 0 <= k < |frames| ensures ForUser(Entry(frames[k], With(USER_FLAGS, PRESENT))) {
      UserFlagsAre(frames[k]);
    }
  }

  // ----- what the pages of the heap see of it

  lemma SpawnedBacks(m: Memory, r: Memory, f: Frame, source: Frame, d: Frame, blocks: seq<Block>)
    requires Backed(m, d, blocks) && Spawned(m, r, f, source)
    ensures Backed(r, d, blocks)
  {
    hide ForKernel;
    forall q | HEAP_START / PAGE_SIZE <= q < Addr(blocks, |blocks|) / PAGE_SIZE
      ensures Trans(r, d, q).Some? && ForKernel(Trans(r, d, q).value)
    {
      assert Trans(m, d, q).Some?;
      PageIndices(q);
    }
  }

  lemma GoneBacks(m: Memory, r: Memory, gone: Frame, d: Frame, blocks: seq<Block>)
    requires Backed(m, d, blocks) && Gone(m, r, gone) && d != gone
    ensures Backed(r, d, blocks)
  {
    hide ForKernel;
    forall q | HEAP_START / PAGE_SIZE <= q < Addr(blocks, |blocks|) / PAGE_SIZE
      ensures Trans(r, d, q).Some? && ForKernel(Trans(r, d, q).value)
    {
      assert Trans(m, d, q).Some?;
      PageIndices(q);
    }
  }

  lemma InstalledBacksStill(m: Memory, r: Memory, dir: Frame, first: nat, frames: seq<Frame>, flags: bv12, d: Frame,
                            blocks: seq<Block>)
    requires Backed(m, d, blocks) && Installed(m, r, dir, first, first, frames, flags) && first + |frames| <= USER_PAGES
    ensures Backed(r, d, blocks)
  {
    hide ForKernel;
    forall q | HEAP_START / PAGE_SIZE <= q < Addr(blocks, |blocks|) / PAGE_SIZE
      ensures Trans(r, d, q).Some? && ForKernel(Trans(r, d, q).value)
    {
      assert Trans(m, d, q).Some?;
    }
  }

  lemma ClearedBacks(m: Memory, r: Memory, dir: Frame, first: nat, k: nat, d: Frame, blocks: seq<Block>)
    requires Backed(m, d, blocks) && Cleared(m, r, dir, first, k) && first + k <= USER_PAGES
    ensures Backed(r, d, blocks)
  {
    hide ForKernel;
    forall q | HEAP_START / PAGE_SIZE <= q < Addr(blocks, |blocks|) / PAGE_SIZE
      ensures Trans(r, d, q).Some? && ForKernel(Trans(r, d, q).value)
    {
      assert Trans(m, d, q).Some?;
    }
  }

  /** A change to pages that only `dir` sees leaves the other private halves alone. */
  lemma OtherPrivate(m: Memory, r: Memory, dir: Frame, first: nat, k: nat)
    requires Shaped(m) && Shaped(r) && r.dirs == m.dirs && dir in m.dirs
    requires forall d: Frame, q: nat :: d in m.dirs && q < PAGES && !(first <= q < first + k && Shares(dir, d, q)) ==>
      Trans(r, d, q) == Trans(m, d, q)
    ensures SamePrivate(m, r, m.dirs - {dir})
  {
    forall d: Frame, i: nat, j: nat | Spot(d, i, j, m.dirs - {dir}) && i < KERNEL_HALF
      ensures Lookup(r, d, i, j) == Lookup(m, d, i, j)
    {
      var q := i * ENTRIES + j;
      assert Pde(q) == i && Pte(q) == j && q < PAGES && !Shares(dir, d, q);
      assert Trans(r, d, q) == Trans(m, d, q);
    }
  }

  lemma InstalledIsPrivate(m: Memory, r: Memory, dir: Frame, first: nat, frames: seq<Frame>, flags: bv12)
    requires Installed(m, r, dir, first, first, frames, flags)
    ensures SamePrivate(m, r, m.dirs - {dir})
  {
    OtherPrivate(m, r, dir, first, |frames|);
  }

  lemma ClearedIsPrivate(m: Memory, r: Memory, dir: Frame, first: nat, k: nat)
    requires Cleared(m, r, dir, first, k)
    ensures SamePrivate(m, r, m.dirs - {dir})
  {
    OtherPrivate(m, r, dir, first, k);
  }

  lemma SpawnedIsPrivate(m: Memory, r: Memory, f: Frame, source: Frame)
    requires Spawned(m, r, f, source)
    ensures SamePrivate(m, r, m.dirs) && r.dirs == m.dirs + {f} && f !in m.dirs
  {
  }

  lemma GoneIsPrivate(m: Memory, r: Memory, dir: Frame)
    requires Gone(m, r, dir)
    ensures SamePrivate(m, r, m.dirs - {dir}) && r.dirs == m.dirs - {dir}
  {
  }

  lemma FewerPrivate(m: Memory, r: Memory, dirs: set<Frame>, fewer: set<Frame>)
    requires SamePrivate(m, r, dirs) && fewer <= dirs
    ensures SamePrivate(m, r, fewer)
  {
  }

  lemma LaidWithin(base: map<Frame, Owner>, now: map<Frame, Owner>, dir: Frame, first: nat, frames: seq<Frame>)
    requires LaidOut(base, now, dir, first, frames, 0) && first + |frames| <= USER_PAGES
    ensures forall lo: nat, hi: nat :: Accounted(base, now, {dir}, lo, hi, false)
  {
    forall f | f in now && f !in base ensures PartOf(f, now[f], {dir}) {
      var k :| 0 <= k < |frames| && frames[k] == f;
    }
  }

  lemma LostWithin(base: map<Frame, Owner>, now: map<Frame, Owner>, dir: Frame, first: nat, frames: seq<Frame>)
    requires LaidOut(base, now, dir, first, frames, |frames|)
    ensures forall lo: nat, hi: nat :: Accounted(base, now, {dir}, lo, hi, true)
  {
  }

  lemma LostOnly(base: map<Frame, Owner>, now: map<Frame, Owner>, dir: Frame, first: nat, frames: seq<Frame>)
    requires LaidOut(base, now, dir, first, frames, |frames|)
    ensures forall lo: nat, hi: nat :: Accounted(base, now, {}, lo, hi, true)
  {
  }

  lemma RunIsPart(was: map<Frame, Owner>, now: map<Frame, Owner>, dir: Frame, first: nat, k: nat)
    requires OwnersLeft(was, now, RunOf(dir, first, k)) && first + k <= USER_PAGES
    ensures forall f :: f in now ==> f in was && now[f] == was[f]
    ensures forall f :: f in was && !PartOf(f, was[f], {dir}) ==> f in now
  {
  }

  lemma PassedIsPart(m: Memory, now: map<Frame, Owner>, dir: Frame)
    requires OwnersLeft(m.owner - {dir}, now, PassedBy(dir, KERNEL_HALF, 0)) && Sound(m) && dir in m.dirs
    ensures forall f :: f in NonTables(m.owner) && f != dir && !PartOf(f, m.owner[f], {dir}) ==> f in now
    ensures forall f :: f in now ==> f in m.owner && now[f] == m.owner[f] && f != dir && !PartOf(f, m.owner[f], {dir})
  {
    hide Granting, EntriesOwned, OwnersPlaced, Tabular, WindowMapped, Lookup, Present;
    forall f | f in now ensures !PartOf(f, m.owner[f], {dir}) {
      assert !Passed(m.owner[f], dir, KERNEL_HALF, 0);
    }
  }

  // ----- why a request is refused

  /** A request that was refused, and the state of memory it was made in. */
  datatype Refusal =
    | HeapRefused(at: Snapshot, size: nat)
    | CloneRefused(at: Snapshot)
    | PagesRefused(at: Snapshot, dir: Frame, n: nat, start: nat)

  /** It could not be met: no block is free and large enough, and the heap has no room or no pages to
      grow; or the region has no free run, or the frames do not suffice for the pages and as many
      page tables. */
  ghost predicate Refused(why: Refusal, bits: nat) {
    match why
    case HeapRefused(s, size) =>
      && SafeRequest(s.blocks, AlignUp4(size)) && AllocBlock(s.blocks, size, false).1 == 0
      && (s.blocks == [] || AllocBlock(s.blocks, size, true).1 == 0
          || OutOfMemory(s.mem, s.cr3, bits, s.blocks, PagesFor(AlignUp4(size))))
    case CloneRefused(s) =>
      && Shaped(s.mem) && s.cr3 in s.mem.dirs
      && (NoRun(s.mem, s.cr3, 1, PAGE_SIZE, PAGES * PAGE_SIZE) || bits < |s.mem.owner| + 2)
    case PagesRefused(s, dir, n, start) =>
      && Shaped(s.mem) && dir in s.mem.dirs && start + n * PAGE_SIZE <= PAGES * PAGE_SIZE
      && (NoRun(s.mem, dir, n, start, start + n * PAGE_SIZE) || bits < |s.mem.owner| + 2 * n)
  }

  /** What there was in `s` is still there in `m`: live blocks, directories, private halves, frames. */
  ghost predicate Upon(s: Snapshot, m: Snapshot) {
    && m.cr3 == s.cr3 && s.mem.dirs <= m.mem.dirs && SamePrivate(s.mem, m.mem, s.mem.dirs)
    && (forall p :: p in Live(s.blocks) ==> p in Live(m.blocks) && Live(m.blocks)[p] == Live(s.blocks)[p])
    && (forall f :: f in NonTables(s.mem.owner) ==>
          f in NonTables(m.mem.owner) && m.mem.owner[f] == s.mem.owner[f])
  }

  /** A request was refused that was made after `s`, on top of what there was. */
  ghost predicate RefusedUpon(s: Snapshot, why: Refusal, bits: nat) {
    Refused(why, bits) && Upon(s, why.at)
  }

  lemma UponItself(s: Snapshot)
    requires Shaped(s.mem)
    ensures Upon(s, s)
  {
    hide Live;
    SameIsSame(s.mem);
    SameIsPrivate(s.mem, s.mem);
  }

  lemma UponTwice(s: Snapshot, m: Snapshot, r: Snapshot)
    requires Upon(s, m) && Upon(m, r)
    ensures Upon(s, r)
  {
    hide Live, SamePrivate;
    PrivateTwice(s.mem, m.mem, r.mem, s.mem.dirs, m.mem.dirs);
  }

  lemma SinceUpon(s: Snapshot, m: Snapshot, live: map<nat, nat>, space: set<Frame>, lossy: bool)
    requires Since(s, m, live, space, lossy)
    requires forall p :: p in Live(s.blocks) ==> p in live && live[p] == Live(s.blocks)[p]
    ensures Upon(s, m)
  {
    hide Live, SamePrivate, EndPage;
  }

  // ----- the operations

  /** `live` with one more block, at `ptr`, of at least `size` bytes. */
  ghost predicate OneMore(live: map<nat, nat>, after: map<nat, nat>, ptr: nat, size: nat) {
    ptr != 0 && ptr !in live && ptr in after && after[ptr] >= size && after == live[ptr := after[ptr]]
  }

  /** A heap that never came up serves nothing, and an address handed out means that memory was there. */
  lemma AllocAnswers(blocks: seq<Block>, size: nat, memory: bool)
    requires SafeRequest(blocks, AlignUp4(size))
    ensures var (r, ptr) := AllocBlock(blocks, size, memory);
      && (blocks == [] && r == [] ==> ptr == 0) && (ptr == 0 ==> r == blocks)
      && (ptr != 0 ==> (r, ptr) == AllocBlock(blocks, size, true))
      && (ptr == 0 ==> AllocBlock(blocks, size, false).1 == 0)
  {
    hide Addr, Serve, Grow;
    GrowsByOne(blocks, PagesFor(AlignUp4(size)));
  }

  lemma GrowsByOne(blocks: seq<Block>, pages: nat)
    requires pages > 0
    ensures |Grow(blocks, pages, true)| == |blocks| + 1
  {
  }

  lemma AllocEnds(blocks: seq<Block>, size: nat, memory: bool)
    requires Geometry(blocks) && SafeRequest(blocks, AlignUp4(size))
    ensures EndPage(blocks) <= EndPage(AllocBlock(blocks, size, memory).0)
  {
    hide Total, Addr, Serve, Geometry;
    var n := AlignUp4(size);
    var i := FirstFit(blocks, n);
    if size != 0 && i.Some? {
      ServeKeepsGeometry(blocks, i.value, n);
      AddrEnd(blocks);
      AddrEnd(Serve(blocks, i.value, n));
    }
    GrowExtent(blocks, Block(PagesFor(n) * PAGE_SIZE - HEADER, true));
  }

  lemma FreeEnds(blocks: seq<Block>, ptr: nat)
    requires blocks == [] || Geometry(blocks)
    ensures EndPage(FreeBlock(blocks, ptr)) == EndPage(blocks) && Live(FreeBlock(blocks, ptr)) == Live(blocks) - {ptr}
  {
    hide Total, Addr, Live, FreeBlock, Geometry;
    if blocks == [] {
      NothingToFree(ptr);
    } else {
      FreeRemovesOne(blocks, ptr);
      AddrEnd(blocks);
      AddrEnd(FreeBlock(blocks, ptr));
    }
  }

  lemma NothingToFree(ptr: nat)
    ensures FreeBlock([], ptr) == [] && Live([]) - {ptr} == Live([])
  {
  }

  /** What a valid heap is, for proofs that keep that closed. */
  lemma Handles(heap: Heap)
    requires heap.Valid()
    ensures heap.blocks == [] || Geometry(heap.blocks)
    ensures heap.heapStart == 0 <==> heap.blocks == []
    ensures Sound(heap.vmm.Mem()) && Shaped(heap.vmm.Mem()) && heap.vmm.cr3 in heap.vmm.dirs
  {
  }

  /** heap_alloc */
  method Take(heap: Heap, size: nat) returns (ptr: nat, ghost why: Refusal)
    requires heap.Valid() && size <= WORD - HEADER && SafeRequest(heap.blocks, AlignUp4(size))
    modifies heap, heap.vmm, heap.vmm.pmm.bitmap
    ensures heap.Valid() && Since(old(Snap(heap)), Snap(heap), Live(heap.blocks), {}, ptr == 0)
    ensures ptr == 0 ==> heap.blocks == old(heap.blocks)
    ensures ptr != 0 ==> (heap.blocks, ptr) == AllocBlock(old(heap.blocks), size, true)
    ensures ptr != 0 ==> OneMore(Live(old(heap.blocks)), Live(heap.blocks), ptr, size)
    ensures ptr == 0 ==> why.at == old(Snap(heap)) && Refused(why, heap.vmm.pmm.bits)
  {
    hide Heap.Valid, Live, SamePrivate, SafeRequest, AllocBlock, Accounted, AlignUp4, Geometry, Addr, OutOfMemory,
      PagesFor;
    Handles(heap);
    why := HeapRefused(Snap(heap), size);
    ghost var was := heap.blocks;
    ghost var memory;
    ptr, memory := heap.Alloc(size);
    Handles(heap);
    AllocAnswers(was, size, memory);
    if was != [] {
      AllocAddsOne(was, size, memory);
      AllocEnds(was, size, memory);
    }
  }

  /** heap_free */
  method Give(heap: Heap, ptr: nat)
    requires heap.Valid()
    modifies heap
    ensures heap.Valid() && Since(old(Snap(heap)), Snap(heap), Live(old(heap.blocks)) - {ptr}, {}, false)
    ensures heap.blocks == FreeBlock(old(heap.blocks), ptr)
  {
    hide Heap.Valid, Live, EndPage, SamePrivate, FreeBlock, Geometry;
    Handles(heap);
    FreeEnds(heap.blocks, ptr);
    SameIsSame(heap.vmm.Mem());
    SameIsPrivate(heap.vmm.Mem(), heap.vmm.Mem());
    heap.Free(ptr);
  }

  /** vmm_clone, beside a heap. */
  method Spawn(heap: Heap) returns (dir: Frame, ghost why: Refusal)
    requires heap.Valid()
    modifies heap.vmm, heap.vmm.pmm.bitmap
    ensures heap.Valid() && heap.vmm.cr3 == old(heap.vmm.cr3)
    ensures dir == 0 ==> Since(old(Snap(heap)), Snap(heap), Live(heap.blocks), {}, false)
    ensures dir != 0 ==> Since(old(Snap(heap)), Snap(heap), Live(heap.blocks), {dir}, false)
    ensures dir != 0 ==> Populated(heap.vmm.Mem(), dir, 0, 0) && dir != heap.vmm.cr3
    ensures dir == 0 ==> why.at == old(Snap(heap)) && Refused(why, heap.vmm.pmm.bits)
  {
    hide Represents, Backed, SamePrivate, Lookup, Shape, Merged, Live, EndPage, Accounted, Populated, Sound;
    ghost var m, d := heap.vmm.Mem(), heap.vmm.cr3;
    why := CloneRefused(Snap(heap));
    Handles(heap);
    dir := heap.vmm.Clone();
    ghost var r := heap.vmm.Mem();
    if dir == 0 {
      NothingToAccount(NonTables(m.owner), {}, EndPage(heap.blocks), EndPage(heap.blocks), false);
      SameIsPrivate(m, r);
    } else {
      SpawnedAccounted(NonTables(m.owner), NonTables(r.owner), dir, EndPage(heap.blocks));
      SpawnedIsPrivate(m, r, dir, d);
      SpawnedPopulated(m, r, dir, d);
    }
    if heap.heapStart != 0 {
      if dir == 0 {
        SameBacks(m, r, d, heap.blocks);
      } else {
        SpawnedBacks(m, r, dir, d, d, heap.blocks);
      }
    }
  }

  lemma SpawnedAccounted(was: map<Frame, Owner>, now: map<Frame, Owner>, dir: Frame, at: nat)
    requires dir !in was && now == was[dir := Directory]
    ensures Accounted(was, now, {dir}, at, at, false)
  {
  }

  /** vmm_alloc_pages_region_in for `n` pages at `start`, exactly, in the private half of `dir`. */
  method MapAt(heap: Heap, dir: Frame, n: u32, start: u32) returns (ok: bool, ghost why: Refusal)
    requires heap.Valid() && dir in heap.vmm.dirs
    requires start % PAGE_SIZE == 0 && 0 < start && start + n * PAGE_SIZE <= USER_PAGES * PAGE_SIZE
    modifies heap.vmm, heap.vmm.pmm.bitmap
    ensures heap.Valid() && Within(old(Snap(heap)), Snap(heap), dir, !ok)
    ensures ok ==> Filled(old(heap.vmm.Mem()), heap.vmm.Mem(), dir, start / PAGE_SIZE, n)
    ensures !ok ==> SameTranslations(old(heap.vmm.Mem()), heap.vmm.Mem())
    ensures !ok ==> Since(old(Snap(heap)), Snap(heap), Live(heap.blocks), {}, true)
    ensures !ok ==> why.at == old(Snap(heap)) && Refused(why, heap.vmm.pmm.bits)
  {
    hide Live, Represents, Backed, SamePrivate, TablesOwned, LeavesOwned, Lookup, SameTranslations, Shape, Merged,
      Installed, LaidOut, Accounted, Filled, NonTables;
    ghost var m, d := heap.vmm.Mem(), heap.vmm.cr3;
    why := PagesRefused(Snap(heap), dir, n, start);
    AlignedStays(start);
    var addr, frames := heap.vmm.AllocPagesRegionIn(dir, n, USER_FLAGS, start, start + n * PAGE_SIZE);
    ghost var r := heap.vmm.Mem();
    if addr == 0 {
      SameIsPrivate(m, r);
      FewerPrivate(m, r, m.dirs, m.dirs - {dir});
      LostWithin(NonTables(m.owner), NonTables(r.owner), dir, 0, frames);
      LostOnly(NonTables(m.owner), NonTables(r.owner), dir, 0, frames);
    } else {
      ExactRegion(m, r, dir, addr, n, USER_FLAGS, start, start + n * PAGE_SIZE, frames);
      InstalledIsPrivate(m, r, dir, start / PAGE_SIZE, frames, USER_FLAGS);
      InstalledFills(m, r, dir, start / PAGE_SIZE, frames);
      LaidWithin(NonTables(m.owner), NonTables(r.owner), dir, start / PAGE_SIZE, frames);
    }
    if heap.heapStart != 0 {
      if addr == 0 {
        SameBacks(m, r, d, heap.blocks);
      } else {
        InstalledBacksStill(m, r, dir, start / PAGE_SIZE, frames, USER_FLAGS, d, heap.blocks);
      }
    }
    ok := addr != 0;
  }

  /** vmm_free_pages_in, for pages in the private half of `dir`. */
  method UnmapAt(heap: Heap, dir: Frame, n: u32, start: u32)
    requires heap.Valid() && dir in heap.vmm.dirs && dir != heap.vmm.cr3
    requires start % PAGE_SIZE == 0 && start + n * PAGE_SIZE <= USER_PAGES * PAGE_SIZE
    modifies heap.vmm, heap.vmm.pmm.bitmap
    ensures heap.Valid() && Thinned(old(Snap(heap)), Snap(heap), dir)
  {
    hide Represents, Backed, SamePrivate, TablesOwned, LeavesOwned, Lookup, SameTranslations, Shape, Merged, Cleared,
      OwnersLeft, RunOf;
    ghost var m, d := heap.vmm.Mem(), heap.vmm.cr3;
    NoWindowBelow(start / PAGE_SIZE, n);
    var failed, k := heap.vmm.FreePagesIn(dir, n, start);
    ClearedIsPrivate(m, heap.vmm.Mem(), dir, start / PAGE_SIZE, k);
    RunIsPart(m.owner, heap.vmm.owner, dir, start / PAGE_SIZE, k);
    if heap.heapStart != 0 {
      ClearedBacks(m, heap.vmm.Mem(), dir, start / PAGE_SIZE, k, d, heap.blocks);
    }
  }

  lemma NoWindowBelow(first: nat, n: nat)
    requires first + n <= USER_PAGES
    ensures forall q :: first <= q < first + n ==> !Window(Pde(q), Pte(q))
  {
  }

  /** vmm_destroy and the release of the directory, beside a heap. */
  method Drop(heap: Heap, dir: Frame)
    requires heap.Valid() && dir in heap.vmm.dirs && dir != heap.vmm.cr3
    modifies heap.vmm, heap.vmm.pmm.bitmap
    ensures heap.Valid() && Vanished(old(Snap(heap)), Snap(heap), dir)
  {
    hide Represents, Backed, SamePrivate, Lookup, Shape, Merged, Gone, OwnersLeft, Sound, NonTables, PassedBy;
    ghost var m, d := heap.vmm.Mem(), heap.vmm.cr3;
    Handles(heap);
    heap.vmm.ReleaseSpace(dir);
    GoneIsPrivate(m, heap.vmm.Mem(), dir);
    PassedIsPart(m, heap.vmm.owner, dir);
    if heap.heapStart != 0 {
      GoneBacks(m, heap.vmm.Mem(), dir, d, heap.blocks);
    }
  }

  /** The bookkeeping of a snapshot is exact, and its loaded directory is a directory. */
  ghost predicate Settled(s: Snapshot) {
    Sound(s.mem) && s.cr3 in s.mem.dirs
  }

  lemma HeapIsSettled(heap: Heap)
    requires heap.Valid()
    ensures Settled(Snap(heap)) && Since(Snap(heap), Snap(heap), Live(heap.blocks), {}, false)
  {
    hide Heap.Valid, Sound, Live, Since;
    Handles(heap);
    Unchanged(Snap(heap));
  }

  /** The address space `dir`, new since `s`, is not the loaded one. */
  lemma NewIsNotLoaded(s: Snapshot, heap: Heap, live: map<nat, nat>, dir: Frame, lossy: bool)
    requires Settled(s) && Since(s, Snap(heap), live, {dir}, lossy)
    ensures dir in heap.vmm.dirs && dir != heap.vmm.cr3 && Live(heap.blocks) == live
  {
    hide Live;
  }

  lemma BlockUpon(s: Snapshot, m: Snapshot, ptr: nat, size: nat, space: set<Frame>, lossy: bool)
    requires Since(s, m, Live(m.blocks), space, lossy) && OneMore(Live(s.blocks), Live(m.blocks), ptr, size)
    ensures Upon(s, m)
  {
    hide Live, Since;
    SinceUpon(s, m, Live(m.blocks), space, lossy);
  }

  lemma BackToBefore(live: map<nat, nat>, after: map<nat, nat>, ptr: nat, size: nat)
    requires OneMore(live, after, ptr, size)
    ensures after - {ptr} == live
  {
  }

  /** The memory of sched_create_process: a process block and an address space, or nothing. */
  method CreateSpace(heap: Heap, processSize: nat) returns (process: nat, dir: Frame, ghost why: Refusal)
    requires heap.Valid() && processSize <= WORD - HEADER && SafeRequest(heap.blocks, AlignUp4(processSize))
    modifies heap, heap.vmm, heap.vmm.pmm.bitmap
    ensures heap.Valid()
    ensures dir == 0 ==> Since(old(Snap(heap)), Snap(heap), Live(old(heap.blocks)), {}, true)
    ensures dir != 0 ==> Since(old(Snap(heap)), Snap(heap), Live(heap.blocks), {dir}, false)
    ensures dir != 0 ==> OneMore(Live(old(heap.blocks)), Live(heap.blocks), process, processSize)
    ensures dir != 0 ==> (heap.blocks, process) == AllocBlock(old(heap.blocks), processSize, true)
    ensures dir != 0 ==> Populated(heap.vmm.Mem(), dir, 0, 0)
    ensures dir == 0 ==> RefusedUpon(old(Snap(heap)), why, heap.vmm.pmm.bits)
  {
    hide Heap.Valid, Live, Since, OneMore, Populated, AllocBlock, SafeRequest, AlignUp4, Refused, Upon;
    ghost var s, live := Snap(heap), Live(heap.blocks);
    Handles(heap);
    process, why := Take(heap, processSize);
    if process == 0 {
      UponItself(s);
      return 0, 0, why;
    }
    ghost var m := Snap(heap);
    BlockUpon(s, m, process, processSize, {}, false);
    dir, why := Spawn(heap);
    ghost var after := Snap(heap);
    if dir == 0 {
      SinceThen(s, m, after, Live(m.blocks), Live(m.blocks), {}, false, false);
      Give(heap, process);
      BackToBefore(live, Live(m.blocks), process, processSize);
      SinceThen(s, after, Snap(heap), Live(m.blocks), live, {}, false, false);
      Lossier(s, Snap(heap), live, {});
    } else {
      SinceTwice(s, m, after, Live(m.blocks), Live(m.blocks), {}, {dir}, false, false);
      assert {} + {dir} == {dir};
    }
  }

  lemma Lossier(s: Snapshot, r: Snapshot, live: map<nat, nat>, space: set<Frame>)
    requires Since(s, r, live, space, false)
    ensures Since(s, r, live, space, true)
  {
    hide Live, EndPage, SamePrivate, NonTables;
  }

  /** The code pages of the new address space `dir`, or none of them. */
  method MapCode(heap: Heap, dir: Frame, pages: u32, ghost s: Snapshot, ghost live: map<nat, nat>)
    returns (ok: bool, ghost why: Refusal)
    requires heap.Valid() && Settled(s) && Since(s, Snap(heap), live, {dir}, false) &&
      Populated(heap.vmm.Mem(), dir, 0, 0)
    requires CODE_PAGE + pages <= USER_PAGES
    modifies heap.vmm, heap.vmm.pmm.bitmap
    ensures heap.Valid() && Since(s, Snap(heap), live, {dir}, !ok)
    ensures ok ==> Populated(heap.vmm.Mem(), dir, pages, 0)
    ensures !ok ==> why.at == old(Snap(heap)) && Refused(why, heap.vmm.pmm.bits)
  {
    hide Heap.Valid, Live, Since, Populated, Filled, SameTranslations, Within, Settled, Refused;
    ghost var m := Snap(heap);
    NewIsNotLoaded(s, heap, live, dir, false);
    ok, why := MapAt(heap, dir, pages, CODE_START);
    ThenWithin(s, m, Snap(heap), live, dir, false, !ok);
    if ok {
      CodePopulated(m.mem, heap.vmm.Mem(), dir, pages);
    }
  }

  /** The memory of sched_create_thread in a new process: a kernel stack and the pages of a user
      stack, or neither. */
  method CreateStacks(heap: Heap, dir: Frame, ghost code: nat, ghost s: Snapshot, ghost live: map<nat, nat>)
    returns (stack0: nat, ghost why: Refusal)
    requires heap.Valid() && Settled(s) && Since(s, Snap(heap), live, {dir}, false) &&
      Populated(heap.vmm.Mem(), dir, code, 0)
    requires SafeRequest(heap.blocks, AlignUp4(KERNEL_STACK_SIZE))
    modifies heap, heap.vmm, heap.vmm.pmm.bitmap
    ensures heap.Valid()
    ensures stack0 == 0 ==> Since(s, Snap(heap), live, {dir}, true)
    ensures stack0 != 0 ==> Since(s, Snap(heap), Live(heap.blocks), {dir}, false)
    ensures stack0 != 0 ==> OneMore(live, Live(heap.blocks), stack0, KERNEL_STACK_SIZE)
    ensures stack0 != 0 ==> Populated(heap.vmm.Mem(), dir, code, USER_STACK_PAGES)
    ensures stack0 == 0 ==> RefusedUpon(old(Snap(heap)), why, heap.vmm.pmm.bits)
  {
    hide Heap.Valid, Live, Since, OneMore, Populated, Filled, SameTranslations, Within, Settled, AllocBlock,
      SafeRequest, AlignUp4, Refused, Upon;
    ghost var m := Snap(heap);
    Handles(heap);
    SinceLive(s, m, live, {dir}, false);
    NewIsNotLoaded(s, heap, live, dir, false);
    stack0, why := Take(heap, KERNEL_STACK_SIZE);
    ghost var n := Snap(heap);
    SinceThen(s, m, n, live, Live(n.blocks), {dir}, false, stack0 == 0);
    if stack0 == 0 {
      UponItself(m);
      return 0, why;
    }
    BlockUpon(m, n, stack0, KERNEL_STACK_SIZE, {}, false);
    SincePopulated(m, n, Live(n.blocks), dir, code, 0);
    NewIsNotLoaded(s, heap, Live(n.blocks), dir, false);
    var ok;
    ok, why := MapAt(heap, dir, USER_STACK_PAGES, USER_STACK_TOP - USER_STACK_PAGES * PAGE_SIZE);
    ghost var u := Snap(heap);
    ThenWithin(s, n, u, Live(n.blocks), dir, false, !ok);
    if !ok {
      Give(heap, stack0);
      BackToBefore(live, Live(n.blocks), stack0, KERNEL_STACK_SIZE);
      SinceThen(s, u, Snap(heap), Live(n.blocks), live, {dir}, true, false);
      return 0, why;
    }
    FilledPopulated(n.mem, u.mem, dir, code);
  }

  lemma SincePopulated(m: Snapshot, n: Snapshot, live: map<nat, nat>, dir: Frame, code: nat, stack: nat)
    requires Since(m, n, live, {}, false) && Populated(m.mem, dir, code, stack)
    ensures Populated(n.mem, dir, code, stack)
  {
    hide Live, EndPage, NonTables, SamePrivate;
    PrivatePopulated(m.mem, n.mem, m.mem.dirs, dir, code, stack);
  }

  // ----- one more thread of a process that is running

  /** The first page of the user stack of the thread in slot `slot`; the page below it stays unmapped. */
  function StackPage(slot: nat): (q: nat)
    requires slot < Sched.THREADS_PER_PROCESS
  {
    STACK_PAGE - slot * (USER_STACK_PAGES + 1)
  }

  /** The stacks of two slots have an unmapped page between them, and all of them are in the private
      half, above the code address. */
  lemma StacksApart(a: nat, b: nat)
    requires a < b < Sched.THREADS_PER_PROCESS
    ensures CODE_PAGE < StackPage(b) && StackPage(b) + USER_STACK_PAGES < StackPage(a)
    ensures StackPage(a) + USER_STACK_PAGES < USER_PAGES
  {
    hide StackPage;
    StackPageIs(a);
    StackPageIs(b);
  }

  lemma StackPageIs(slot: nat)
    requires slot < Sched.THREADS_PER_PROCESS
    ensures (StackPage(slot) + 16) * 4096 == 0xBFFF_F000 - slot * 17 * 4096
  {
  }

  /** One kernel stack more, and in the address space of `dir` the pages of one user stack, if it is
      for user mode. Frames are owned as before but for those of the new pages. */
  ghost predicate StacksGained(s: Snapshot, r: Snapshot, dir: Frame, slot: nat, user: bool, stack0: nat)
    requires slot < Sched.THREADS_PER_PROCESS
  {
    && r.cr3 == s.cr3 && r.mem.dirs == s.mem.dirs && OneMore(Live(s.blocks), Live(r.blocks), stack0, 4096)
    && SamePrivate(s.mem, r.mem, s.mem.dirs - {dir}) && EndPage(s.blocks) <= EndPage(r.blocks)
    && Accounted(NonTables(s.mem.owner), NonTables(r.mem.owner), {dir}, EndPage(s.blocks), EndPage(r.blocks), false)
    && Filled(s.mem, r.mem, dir, StackPage(slot), if user then USER_STACK_PAGES else 0)
  }

  lemma KernelStackGained(s: Snapshot, n: Snapshot, dir: Frame, slot: nat, stack0: nat)
    requires slot < Sched.THREADS_PER_PROCESS && Since(s, n, Live(n.blocks), {}, false) && dir in s.mem.dirs
    requires OneMore(Live(s.blocks), Live(n.blocks), stack0, KERNEL_STACK_SIZE)
    ensures StacksGained(s, n, dir, slot, false, stack0)
  {
    hide Live, OneMore, EndPage, NonTables, StackPage;
    FewerPrivate(s.mem, n.mem, s.mem.dirs, s.mem.dirs - {dir});
    forall q | 0 <= q < USER_PAGES ensures Trans(n.mem, dir, q) == Trans(s.mem, dir, q) {
      PageIndices(q);
      assert Spot(dir, Pde(q), Pte(q), s.mem.dirs);
    }
  }

  lemma UserStackGained(s: Snapshot, n: Snapshot, r: Snapshot, dir: Frame, slot: nat, stack0: nat)
    requires slot < Sched.THREADS_PER_PROCESS && StacksGained(s, n, dir, slot, false, stack0)
    requires Within(n, r, dir, false)
    requires Filled(n.mem, r.mem, dir, StackPage(slot), USER_STACK_PAGES)
    ensures StacksGained(s, r, dir, slot, true, stack0)
  {
    hide Live, OneMore, EndPage, NonTables, StackPage, SamePrivate, Accounted, Trans;
    PrivateTwice(s.mem, n.mem, r.mem, s.mem.dirs - {dir}, n.mem.dirs - {dir});
    AccountedTwice(NonTables(s.mem.owner), NonTables(n.mem.owner), NonTables(r.mem.owner), {dir}, {dir},
      EndPage(s.blocks), EndPage(n.blocks), EndPage(r.blocks), false, false);
    assert {dir} + {dir} == {dir};
  }

  /** sched_create_thread up to both stacks, for the process that is loaded; all or nothing. */
  method AddStacks(heap: Heap, slot: nat, user: bool) returns (stack0: nat, ghost why: Refusal)
    requires heap.Valid() && slot < Sched.THREADS_PER_PROCESS && SafeRequest(heap.blocks, AlignUp4(KERNEL_STACK_SIZE))
    modifies heap, heap.vmm, heap.vmm.pmm.bitmap
    ensures heap.Valid()
    ensures stack0 == 0 ==> Since(old(Snap(heap)), Snap(heap), Live(old(heap.blocks)), {}, true)
    ensures stack0 != 0 ==> StacksGained(old(Snap(heap)), Snap(heap), old(heap.vmm.cr3), slot, user, stack0)
    ensures stack0 == 0 ==> RefusedUpon(old(Snap(heap)), why, heap.vmm.pmm.bits)
  {
    hide Heap.Valid, Live, Since, OneMore, Filled, Within, SameTranslations, StackPage, StacksGained, AllocBlock,
      SafeRequest, AlignUp4, Refused, Upon;
    ghost var s, dir := Snap(heap), heap.vmm.cr3;
    Loaded(heap);
    Handles(heap);
    stack0, why := Take(heap, KERNEL_STACK_SIZE);
    ghost var n := Snap(heap);
    if stack0 == 0 {
      UponItself(s);
      return 0, why;
    }
    BlockUpon(s, n, stack0, KERNEL_STACK_SIZE, {}, false);
    SinceKeepsSpace(s, n, Live(n.blocks));
    KernelStackGained(s, n, dir, slot, stack0);
    if !user {
      return stack0, why;
    }
    StackPageFits(slot);
    var ok;
    ok, why := MapAt(heap, heap.vmm.cr3, USER_STACK_PAGES, StackPage(slot) * PAGE_SIZE);
    ghost var u := Snap(heap);
    if ok {
      UserStackGained(s, n, u, dir, slot, stack0);
      return stack0, why;
    }
    SinceThen(s, n, u, Live(n.blocks), Live(n.blocks), {}, false, true);
    Give(heap, stack0);
    BackToBefore(Live(s.blocks), Live(n.blocks), stack0, KERNEL_STACK_SIZE);
    SinceThen(s, u, Snap(heap), Live(n.blocks), Live(s.blocks), {}, true, false);
    return 0, why;
  }

  lemma Loaded(heap: Heap)
    requires heap.Valid()
    ensures heap.vmm.cr3 in heap.vmm.dirs
  {
  }

  lemma SinceKeepsSpace(s: Snapshot, n: Snapshot, live: map<nat, nat>)
    requires Since(s, n, live, {}, false)
    ensures n.cr3 == s.cr3 && n.mem.dirs == s.mem.dirs && Live(n.blocks) == live
  {
  }

  lemma StackPageFits(slot: nat)
    requires slot < Sched.THREADS_PER_PROCESS
    ensures 0 < StackPage(slot) && StackPage(slot) + USER_STACK_PAGES <= USER_PAGES
    ensures StackPage(slot) * PAGE_SIZE % PAGE_SIZE == 0 && StackPage(slot) * PAGE_SIZE / PAGE_SIZE == StackPage(slot)
  {
  }

  /** The release of the code pages when no thread could be made. */
  method UnmapCode(heap: Heap, dir: Frame, pages: u32, ghost s: Snapshot, ghost live: map<nat, nat>)
    requires heap.Valid() && Settled(s) && Since(s, Snap(heap), live, {dir}, true) && CODE_PAGE + pages <= USER_PAGES
    modifies heap.vmm, heap.vmm.pmm.bitmap
    ensures heap.Valid() && Since(s, Snap(heap), live, {dir}, true)
  {
    hide Heap.Valid, Live, Since, Thinned, Sound;
    ghost var m := Snap(heap);
    NewIsNotLoaded(s, heap, live, dir, true);
    Handles(heap);
    UnmapAt(heap, dir, pages, CODE_START);
    ThenThinned(s, m, Snap(heap), live, dir, true);
  }

  /** The memory of sched_destroy_process, for a process without threads. */
  method DestroySpace(heap: Heap, dir: Frame, process: nat, ghost s: Snapshot, ghost live: map<nat, nat>,
                      ghost lossy: bool)
    requires heap.Valid() && Settled(s) && Since(s, Snap(heap), live, {dir}, lossy)
    modifies heap, heap.vmm, heap.vmm.pmm.bitmap
    ensures heap.Valid() && Since(s, Snap(heap), live - {process}, {}, lossy)
  {
    hide Heap.Valid, Live, Since, Vanished, Sound;
    ghost var m := Snap(heap);
    NewIsNotLoaded(s, heap, live, dir, lossy);
    Handles(heap);
    Drop(heap, dir);
    ghost var n := Snap(heap);
    ThenVanished(s, m, n, live, dir, lossy);
    Give(heap, process);
    SinceLive(s, n, live, {}, lossy);
    SinceThen(s, n, Snap(heap), live, live - {process}, {}, lossy, false);
  }

  lemma SinceLive(s: Snapshot, r: Snapshot, live: map<nat, nat>, space: set<Frame>, lossy: bool)
    requires Since(s, r, live, space, lossy)
    ensures Live(r.blocks) == live
  {
    hide Live;
  }

  // ----- the memory of sys_nprocess_impl ahead of the process itself

  /** `live` with two more blocks. */
  ghost predicate TwoMore(live: map<nat, nat>, after: map<nat, nat>, a: nat, n: nat, b: nat, k: nat) {
    && a != 0 && b != 0 && a != b && a !in live && b !in live && a in after && b in after
    && after[a] >= n && after[b] >= k && after == live[a := after[a]][b := after[b]]
  }

  lemma OneAfterAnother(live: map<nat, nat>, one: map<nat, nat>, two: map<nat, nat>, a: nat, n: nat, b: nat, k: nat)
    requires OneMore(live, one, a, n) && OneMore(one, two, b, k)
    ensures TwoMore(live, two, a, n, b, k) && OneMore(live, two - {a}, b, k)
  {
    assert two - {a} == live[b := two[b]];
  }

  /** Three blocks taken, the first one given back. */
  lemma FirstGoesBack(live: map<nat, nat>, two: map<nat, nat>, three: map<nat, nat>, a: nat, n: nat, b: nat, k: nat,
                      c: nat, l: nat)
    requires TwoMore(live, two, a, n, b, k) && OneMore(two, three, c, l)
    ensures TwoMore(live, three - {a}, b, k, c, l)
  {
    assert three - {a} == live[b := three[b]][c := three[c]];
  }

  lemma BothGoBack(live: map<nat, nat>, two: map<nat, nat>, a: nat, n: nat, b: nat, k: nat)
    requires TwoMore(live, two, a, n, b, k)
    ensures two - {a} - {b} == live
  {
  }

  /** What fits a heap block fits below the user stack. */
  lemma CodeFits(blocks: seq<Block>, live: map<nat, nat>, ptr: nat, n: nat)
    requires (blocks == [] || Geometry(blocks)) && OneMore(live, Live(blocks), ptr, n)
    ensures n + PAGE_SIZE < WORD && CODE_PAGE + (n + PAGE_SIZE - 1) / PAGE_SIZE < STACK_PAGE
  {
    hide LiveFrom;
    LiveFits(blocks, HEAP_START, ptr);
    LiveRange(blocks, HEAP_START);
    AddrEnd(blocks);
  }

  lemma TurnByTurn(blocks: seq<Block>, n: nat, rest: seq<nat>)
    requires SafeInTurn(blocks, [n] + rest)
    ensures n <= WORD - HEADER && SafeRequest(blocks, AlignUp4(n))
    ensures AllocBlock(blocks, n, true).1 != 0 ==> SafeInTurn(AllocBlock(blocks, n, true).0, rest)
  {
    hide SafeRequest, AllocBlock, AlignUp4;
    assert ([n] + rest)[1..] == rest;
  }

  /** A copy of the code, a process block and an address space, or none of them. */
  method Reserve(heap: Heap, n: nat, processSize: nat)
    returns (data: nat, process: nat, dir: Frame, ghost why: Refusal)
    requires heap.Valid() && SafeCreation(heap.blocks, n, processSize)
    modifies heap, heap.vmm, heap.vmm.pmm.bitmap
    ensures heap.Valid()
    ensures dir == 0 ==> Since(old(Snap(heap)), Snap(heap), Live(old(heap.blocks)), {}, true)
    ensures dir != 0 ==> Since(old(Snap(heap)), Snap(heap), Live(heap.blocks), {dir}, false)
    ensures dir != 0 ==> TwoMore(Live(old(heap.blocks)), Live(heap.blocks), data, n, process, processSize)
    ensures dir != 0 ==> Populated(heap.vmm.Mem(), dir, 0, 0)
    ensures dir != 0 ==> SafeRequest(heap.blocks, AlignUp4(KERNEL_STACK_SIZE))
    ensures dir != 0 ==> n + PAGE_SIZE < WORD && CODE_PAGE + (n + PAGE_SIZE - 1) / PAGE_SIZE < STACK_PAGE
    ensures dir == 0 ==> RefusedUpon(old(Snap(heap)), why, heap.vmm.pmm.bits)
  {
    hide Heap.Valid, Live, Since, OneMore, TwoMore, Populated, SafeInTurn, SafeRequest, AllocBlock, AlignUp4, Geometry,
      Refused, Upon;
    ghost var s, live := Snap(heap), Live(heap.blocks);
    TurnByTurn(heap.blocks, n, [processSize, KERNEL_STACK_SIZE]);
    Handles(heap);
    data, why := Take(heap, n);
    if data == 0 {
      UponItself(s);
      return 0, 0, 0, why;
    }
    ghost var m := Snap(heap);
    BlockUpon(s, m, data, n, {}, false);
    Handles(heap);
    CodeFits(heap.blocks, live, data, n);
    assert [processSize, KERNEL_STACK_SIZE] == [processSize] + [KERNEL_STACK_SIZE];
    TurnByTurn(heap.blocks, processSize, [KERNEL_STACK_SIZE]);
    process, dir, why := CreateSpace(heap, processSize);
    ghost var r := Snap(heap);
    if dir == 0 {
      UponTwice(s, m, why.at);
      SinceThen(s, m, r, Live(m.blocks), Live(m.blocks), {}, false, true);
      Give(heap, data);
      SinceLive(m, r, Live(m.blocks), {}, true);
      BackToBefore(live, Live(m.blocks), data, n);
      SinceThen(s, r, Snap(heap), Live(m.blocks), live, {}, true, false);
    } else {
      SinceTwice(s, m, r, Live(m.blocks), Live(r.blocks), {}, {dir}, false, false);
      assert {} + {dir} == {dir};
      OneAfterAnother(live, Live(m.blocks), Live(r.blocks), data, n, process, processSize);
      assert [KERNEL_STACK_SIZE] == [KERNEL_STACK_SIZE] + [];
      ProcessIsThere(Live(m.blocks), Live(r.blocks), process, processSize);
      TurnByTurn(heap.blocks, KERNEL_STACK_SIZE, []);
    }
  }

  lemma ProcessIsThere(live: map<nat, nat>, after: map<nat, nat>, ptr: nat, size: nat)
    requires OneMore(live, after, ptr, size)
    ensures ptr != 0
  {
  }
}
