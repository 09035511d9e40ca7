/**
  The allocator of physical page frames. A frame is named by its number, its address
  divided by the page size.
*/
module Pmm {
  import opened Common
  import opened Bitmaps

  type u64 = w: int | 0 <= w < 0x1_0000_0000_0000_0000

  /** One entry of the memory map the BIOS reports. */
  datatype Region = Region(base: u64, length: u64, kind: u32)

  const USABLE: u32 := 1
  const TOP: nat := 0xFFFF_FFFF
  const KERNEL_BASE: nat := 0xC000_0000
  const LOW_FRAMES: nat := 16

  /** Where a region ends; the 64-bit sum may wrap. */
  function End(e: Region): (end: nat)
    ensures end <= TOP
  {
    Min((e.base + e.length) % 0x1_0000_0000_0000_0000, TOP)
  }

  /** The frames that lie entirely inside a region. */
  function FirstFrame(e: Region): (n: nat) {
    (e.base + PAGE_SIZE - 1) / PAGE_SIZE
  }

  function EndFrame(e: Region): (n: nat) {
    End(e) / PAGE_SIZE
  }

  predicate Counts(e: Region) {
    e.base < TOP
  }

  predicate Holds(e: Region, f: nat) {
    e.kind == USABLE && Counts(e) && FirstFrame(e) <= f < EndFrame(e)
  }

  /** Frame `f`, all 4096 bytes of it, lies in a usable region that starts below 4 GB. */
  predicate Inside(e: Region, f: nat) {
    && e.kind == 1 && e.base < 0xFFFF_FFFF
    && e.base <= f * 4096 && (f + 1) * 4096 <= Min((e.base + e.length) % 0x1_0000_0000_0000_0000, 0xFFFF_FFFF)
  }

  lemma HeldInside(e: Region, f: nat)
    ensures Holds(e, f) <==> Inside(e, f)
  {
  }

  /** `bits` counts the whole frames below the end of the highest region that starts below 4 GB. */
  ghost predicate CountsFrames(bits: nat, regions: seq<Region>) {
    && (forall e :: e in regions && e.base < 0xFFFF_FFFF ==>
          Min((e.base + e.length) % 0x1_0000_0000_0000_0000, 0xFFFF_FFFF) < (bits + 1) * 4096)
    && (bits > 0 ==>
          exists e :: e in regions && e.base < 0xFFFF_FFFF &&
            bits * 4096 <= Min((e.base + e.length) % 0x1_0000_0000_0000_0000, 0xFFFF_FFFF))
  }

  /** The end of the highest region that starts below 4 GB. */
  function PhysTop(regions: seq<Region>): (top: nat)
    ensures top <= TOP
    ensures forall e :: e in regions && Counts(e) ==> End(e) <= top
  {
    if regions == [] then 0
    else
      var rest := PhysTop(regions[..|regions| - 1]);
      var e := regions[|regions| - 1];
      if Counts(e) then Max(rest, End(e)) else rest
  }

  lemma {:induction false} TopIsReached(regions: seq<Region>)
    ensures PhysTop(regions) > 0 ==> exists e :: e in regions && Counts(e) && End(e) == PhysTop(regions)
    decreases |regions|
  {
    if regions != [] {
      TopIsReached(regions[..|regions| - 1]);
      assert regions[|regions| - 1] in regions;
    }
  }

  lemma TopCounts(regions: seq<Region>)
    ensures CountsFrames(PhysTop(regions) / PAGE_SIZE, regions)
  {
    hide PhysTop;
    TopIsReached(regions);
    var bits := PhysTop(regions) / PAGE_SIZE;
    if bits > 0 {
      var e :| e in regions && Counts(e) && End(e) == PhysTop(regions);
      assert bits * 4096 <= Min((e.base + e.length) % 0x1_0000_0000_0000_0000, 0xFFFF_FFFF);
    }
  }

  /** The bitmap has room for the frames of every region that counts. */
  lemma EndFits(regions: seq<Region>, i: nat)
    requires i < |regions| && Counts(regions[i])
    ensures EndFrame(regions[i]) <= PhysTop(regions) / PAGE_SIZE
    ensures (EndFrame(regions[i]) + 7) / 8 <= (PhysTop(regions) / PAGE_SIZE + 7) / 8
  {
    hide PhysTop, End;
    assert regions[i] in regions;
    Smaller(End(regions[i]), PhysTop(regions), PAGE_SIZE);
    Smaller(EndFrame(regions[i]) + 7, PhysTop(regions) / PAGE_SIZE + 7, 8);
  }

  lemma Smaller(a: nat, b: nat, unit: nat)
    requires a <= b && (unit == PAGE_SIZE || unit == 8)
    ensures a / unit <= b / unit
  {
  }

  /** Frame `f` has a byte from `start` on and before `end`. */
  predicate Overlaps(f: nat, start: nat, end: nat) {
    f * 4096 < end && (f + 1) * 4096 > start
  }

  lemma OverlapsExactly(f: nat, start: nat, end: nat)
    ensures Overlaps(f, start, end) <==> start / PAGE_SIZE <= f < (end + PAGE_SIZE - 1) / PAGE_SIZE
  {
  }

  /** No region of the list holds frame `f`. */
  ghost predicate NotIn(regions: seq<Region>, f: nat) {
    forall e :: e in regions ==> !Holds(e, f)
  }

  lemma OneMore(regions: seq<Region>, i: nat)
    requires i < |regions|
    ensures forall f: nat :: NotIn(regions[..i + 1], f) <==> NotIn(regions[..i], f) && !Holds(regions[i], f)
  {
    assert regions[..i + 1] == regions[..i] + [regions[i]];
  }

  ghost predicate NoneFree(used: set<nat>, bits: nat) {
    forall f: nat :: f < bits ==> f in used
  }

  class Pmm {
    const bitmap: array<bv8>
    const bits: nat

    ghost predicate Valid()
    {
      bits <= 0x10_0000 && (bits + 7) / 8 <= bitmap.Length
    }

    /** The frames in use: those whose bit is set. */
    function Used(): (used: set<nat>)
      requires Valid()
      reads bitmap
    {
      Bits(bitmap[..], bits)
    }

    /** pmm_init. The kernel image and the bitmap behind it lie at KERNEL_BASE and up. */
    constructor (regions: seq<Region>, kernelStart: u32, kernelEnd: u32)
      requires KERNEL_BASE <= kernelStart <= kernelEnd && kernelEnd < WORD - 0x3_0000
      ensures Valid() && fresh(bitmap) && CountsFrames(bits, regions)
      ensures forall f: nat :: f < bits ==>
        (f !in Used() <==> (exists e :: e in regions && Inside(e, f)) && f >= 16
                           && !Overlaps(f, kernelStart - 0xC000_0000, kernelEnd + (bits + 7) / 8 - 0xC000_0000))
    {
      var physTop := 0;
      for i := 0 to |regions|
        invariant physTop == PhysTop(regions[..i])
      {
        assert regions[..i + 1][..i] == regions[..i];
        if Counts(regions[i]) {
          physTop := Max(physTop, End(regions[i]));
        }
      }
      assert regions[..|regions|] == regions;
      var n := physTop / PAGE_SIZE;
      var bytes := (n + 7) / 8;
      var bmp := new bv8[Max(bytes, LOW_FRAMES / 8)];
      bitmap, bits := bmp, n;
      new;
      for i := 0 to bytes
        invariant forall k :: 0 <= k < i ==> bitmap[k] == 0xFF
      {
        bitmap[i] := 0xFF;
      }
      AllSet(bitmap[..], n);
      ReleaseUsable(regions, n);
      Reserve((kernelStart - KERNEL_BASE) / PAGE_SIZE,
              (kernelEnd + bytes - KERNEL_BASE + PAGE_SIZE - 1) / PAGE_SIZE, n);
      Reserve(0, LOW_FRAMES, LOW_FRAMES);
      TopCounts(regions);
      forall e, f: nat | e in regions ensures Holds(e, f) <==> Inside(e, f) {
        HeldInside(e, f);
      }
      ghost var start, end: nat := kernelStart - 0xC000_0000, kernelEnd + (n + 7) / 8 - 0xC000_0000;
      forall f: nat {:trigger Overlaps(f, start, end)}
        ensures Overlaps(f, start, end) <==> start / PAGE_SIZE <= f < (end + PAGE_SIZE - 1) / PAGE_SIZE
      {
        OverlapsExactly(f, start, end);
      }
    }

    /** The loop over the memory map that marks usable frames as free. */
    method ReleaseUsable(regions: seq<Region>, n: nat)
      requires n == PhysTop(regions) / PAGE_SIZE && (n + 7) / 8 <= bitmap.Length
      requires forall f: nat :: f < n ==> Bit(bitmap[..], f)
      modifies bitmap
      ensures forall f: nat :: f < n ==> (Bit(bitmap[..], f) <==> NotIn(regions, f))
    {
      for i := 0 to |regions|
        invariant forall f: nat :: f < n ==> (Bit(bitmap[..], f) <==> NotIn(regions[..i], f))
      {
        OneMore(regions, i);
        if regions[i].kind == USABLE && Counts(regions[i]) {
          EndFits(regions, i);
          Release(FirstFrame(regions[i]), EndFrame(regions[i]));
        }
      }
      assert regions[..|regions|] == regions;
    }

    /** The loop that marks the frames from `lo` up to `hi` as free. */
    method Release(lo: nat, hi: nat)
      requires (hi + 7) / 8 <= bitmap.Length
      modifies bitmap
      ensures forall i: nat :: i / 8 < bitmap.Length ==>
        (Bit(bitmap[..], i) <==> !(lo <= i < hi) && Bit(old(bitmap[..]), i))
    {
      var page := lo;
      while page < hi
        invariant lo <= page
        invariant forall i: nat :: i / 8 < bitmap.Length ==>
          (Bit(bitmap[..], i) <==> !(lo <= i < hi && i < page) && Bit(old(bitmap[..]), i))
        decreases hi - page
      {
        ClearBit(bitmap, page);
        page := page + 1;
      }
    }

    /** The loops that mark the frames from `lo` up to `hi` as used, as far as `limit`. */
    method Reserve(lo: nat, hi: nat, limit: nat)
      requires (limit + 7) / 8 <= bitmap.Length
      modifies bitmap
      ensures forall i: nat :: i / 8 < bitmap.Length ==>
        (Bit(bitmap[..], i) <==> (lo <= i < hi && i < limit) || Bit(old(bitmap[..]), i))
    {
      var page := lo;
      while page < hi && page < limit
        invariant lo <= page
        invariant forall i: nat :: i / 8 < bitmap.Length ==>
          (Bit(bitmap[..], i) <==> (lo <= i < hi && i < limit && i < page) || Bit(old(bitmap[..]), i))
        decreases hi - page
      {
        SetBit(bitmap, page);
        page := page + 1;
      }
    }

    /** pmm_alloc_page: the lowest free frame, or 0. It also answers 0, whatever else is free,
        when frame 0 itself is free. */
    method AllocPage() returns (f: nat)
      requires Valid()
      modifies bitmap
      ensures f == 0 <==> 0 !in old(Used()) || NoneFree(old(Used()), bits)
      ensures f == 0 ==> Used() == old(Used())
      ensures f != 0 ==> f < bits && f !in old(Used()) && Used() == old(Used()) + {f}
      ensures forall g :: 0 <= g < f ==> g in old(Used())
    {
      if bits == 0 {
        return 0;
      }
      f := FindFreeBit(bitmap, bits);
      if f == 0 {
        return 0;
      }
      SetBit(bitmap, f);
    }

    /** pmm_free_page */
    method FreePage(f: nat)
      requires Valid() && f < bits
      modifies bitmap
      ensures Used() == old(Used()) - {f}
    {
      ClearBit(bitmap, f);
    }
  }

  lemma AllSet(bytes: seq<bv8>, bits: nat)
    requires (bits + 7) / 8 <= |bytes| && forall k :: 0 <= k < (bits + 7) / 8 ==> bytes[k] == 0xFF
    ensures forall i: nat :: i < bits ==> Bit(bytes, i)
  {
    forall i: nat | i < bits ensures Bit(bytes, i) {
      FullByte(bytes[i / 8]);
    }
  }
}
