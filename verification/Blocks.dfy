/**
  The kernel heap as a sequence of blocks in address order. Each block is a header of
  sixteen bytes and a payload behind it.
*/
module Blocks {
  import opened Common

  const HEAP_START: nat := 0xE000_0000
  const HEAP_LIMIT: nat := 0xFFC0_0000
  const HEADER: nat := 16
  const SPLIT_MIN: nat := 32
  const INITIAL_PAGES: nat := 24

  datatype Block = Block(size: nat, used: bool)

  /** The bytes a list of blocks takes up. */
  function Total(blocks: seq<Block>): (n: nat)
    ensures n >= HEADER * |blocks|
  {
    if blocks == [] then 0 else Total(blocks[..|blocks| - 1]) + HEADER + blocks[|blocks| - 1].size
  }

  /** The address of block `i`; for `i == |blocks|`, the end of the heap. */
  function Addr(blocks: seq<Block>, i: nat): (a: nat)
    requires i <= |blocks|
    ensures a >= HEAP_START
  {
    HEAP_START + Total(blocks[..i])
  }

  function Payload(blocks: seq<Block>, i: nat): (a: nat)
    requires i < |blocks|
  {
    Addr(blocks, i) + HEADER
  }

  lemma NextAddr(blocks: seq<Block>, i: nat)
    requires i < |blocks|
    ensures Addr(blocks, i + 1) == Addr(blocks, i) + HEADER + blocks[i].size
  {
    assert blocks[..i + 1][..i] == blocks[..i];
  }

  lemma {:induction false} AddrGrows(blocks: seq<Block>, i: nat, j: nat)
    requires i < j <= |blocks|
    ensures Addr(blocks, i) + HEADER + blocks[i].size <= Addr(blocks, j)
    decreases j - i
  {
    NextAddr(blocks, i);
    if i + 1 < j {
      AddrGrows(blocks, i + 1, j);
    }
  }

  /** Payloads of different blocks do not overlap, nor does a payload reach into a header. */
  lemma PayloadsApart(blocks: seq<Block>, i: nat, j: nat)
    requires i < j < |blocks|
    ensures Payload(blocks, i) + blocks[i].size <= Addr(blocks, j)
    ensures Payload(blocks, j) + blocks[j].size <= Addr(blocks, |blocks|)
  {
    AddrGrows(blocks, i, j);
    AddrGrows(blocks, j, |blocks|);
  }

  lemma {:induction false} TotalAppend(a: seq<Block>, b: seq<Block>)
    ensures Total(a + b) == Total(a) + Total(b)
    decreases |b|
  {
    if b == [] {
      assert a + b == a;
    } else {
      var k := |b| - 1;
      assert (a + b)[..|a + b| - 1] == a + b[..k];
      TotalAppend(a, b[..k]);
    }
  }

  /** No two neighbours are both free. */
  ghost predicate Merged(blocks: seq<Block>) {
    forall i :: 0 <= i < |blocks| - 1 ==> blocks[i].used || blocks[i + 1].used
  }

  ghost predicate Geometry(blocks: seq<Block>) {
    && blocks != [] && Merged(blocks)
    && (forall b :: b in blocks ==> b.size % 4 == 0)
    && Addr(blocks, |blocks|) % PAGE_SIZE == 0 && Addr(blocks, |blocks|) < HEAP_LIMIT
  }

  // ----- what is allocated

  /** The live payloads, by address, with their sizes; the first block lies at address `at`. */
  function LiveFrom(blocks: seq<Block>, at: nat): (live: map<nat, nat>)
    ensures forall p :: p in live ==> at + HEADER <= p <= at + Total(blocks)
    decreases |blocks|
  {
    if blocks == [] then map[]
    else
      var k := |blocks| - 1;
      var rest := LiveFrom(blocks[..k], at);
      if blocks[k].used then rest[at + Total(blocks[..k]) + HEADER := blocks[k].size] else rest
  }

  function Live(blocks: seq<Block>): (live: map<nat, nat>) {
    LiveFrom(blocks, HEAP_START)
  }

  lemma {:induction false} LiveAppend(a: seq<Block>, b: seq<Block>, at: nat)
    ensures LiveFrom(a + b, at) == LiveFrom(a, at) + LiveFrom(b, at + Total(a))
    decreases |b|
  {
    if b == [] {
      assert a + b == a;
    } else {
      var k := |b| - 1;
      assert (a + b)[..|a + b| - 1] == a + b[..k];
      LiveAppend(a, b[..k], at);
      TotalAppend(a, b[..k]);
    }
  }

  /** A piece of the list replaced by another of the same extent. */
  lemma LiveSpliced(pre: seq<Block>, mid: seq<Block>, mid': seq<Block>, post: seq<Block>, at: nat)
    requires Total(mid) == Total(mid')
    ensures Total(pre + mid + post) == Total(pre + mid' + post)
    ensures LiveFrom(pre + mid + post, at)
      == LiveFrom(pre, at) + LiveFrom(mid, at + Total(pre)) + LiveFrom(post, at + Total(pre) + Total(mid))
    ensures LiveFrom(pre + mid' + post, at)
      == LiveFrom(pre, at) + LiveFrom(mid', at + Total(pre)) + LiveFrom(post, at + Total(pre) + Total(mid))
  {
    TotalAppend(pre, mid);
    TotalAppend(pre + mid, post);
    TotalAppend(pre, mid');
    TotalAppend(pre + mid', post);
    LiveAppend(pre, mid, at);
    LiveAppend(pre + mid, post, at);
    LiveAppend(pre, mid', at);
    LiveAppend(pre + mid', post, at);
  }

  lemma LiveOne(b: Block, at: nat)
    ensures Total([b]) == HEADER + b.size
    ensures LiveFrom([b], at) == if b.used then map[at + HEADER := b.size] else map[]
  {
    assert [b][..0] == [];
  }

  lemma LiveTwo(b: Block, c: Block, at: nat)
    ensures Total([b, c]) == HEADER + b.size + HEADER + c.size
    ensures LiveFrom([b, c], at) == LiveFrom([b], at) + LiveFrom([c], at + HEADER + b.size)
  {
    assert [b, c] == [b] + [c];
    LiveOne(b, at);
    LiveOne(c, at);
    TotalAppend([b], [c]);
    LiveAppend([b], [c], at);
  }

  // ----- heap_alloc

  /** heap_split_block's test, in the unsigned 32-bit arithmetic of the code. */
  function SplitRest(b: nat, size: nat): (n: nat) {
    (b - size - HEADER) % WORD
  }

  /** The blocks in which a split by that arithmetic does what it is meant to. */
  predicate SafeFit(b: nat, size: nat) {
    b == size || b >= size + HEADER
  }

  /** The lowest free block that is large enough. */
  predicate Fits(b: Block, size: nat) {
    !b.used && b.size >= size
  }

  function FirstFit(blocks: seq<Block>, size: nat): (i: Option<nat>)
    ensures i.Some? ==> i.value < |blocks| && Fits(blocks[i.value], size)
    ensures forall k :: 0 <= k < (if i.Some? then i.value else |blocks|) ==> !Fits(blocks[k], size)
  {
    FirstFitFrom(blocks, size, 0)
  }

  function FirstFitFrom(blocks: seq<Block>, size: nat, from: nat): (i: Option<nat>)
    requires from <= |blocks|
    ensures i.Some? ==> from <= i.value < |blocks| && Fits(blocks[i.value], size)
    ensures forall k :: from <= k < (if i.Some? then i.value else |blocks|) ==> !Fits(blocks[k], size)
    decreases |blocks| - from
  {
    if from == |blocks| then None
    else if Fits(blocks[from], size) then Some(from)
    else FirstFitFrom(blocks, size, from + 1)
  }

  /** The request `size` can be served without hitting the arithmetic of heap_split_block. */
  predicate SafeRequest(blocks: seq<Block>, size: nat) {
    var i := FirstFit(blocks, size); i.Some? ==> SafeFit(blocks[i.value].size, size)
  }

  /** The free block `i`, cut down to `size` when enough is left over. */
  function SplitAt(blocks: seq<Block>, i: nat, size: nat): (r: seq<Block>)
    requires i < |blocks| && size <= blocks[i].size && SafeFit(blocks[i].size, size)
  {
    if blocks[i].size >= size + HEADER + SPLIT_MIN
    then blocks[..i] + [Block(size, false), Block(blocks[i].size - size - HEADER, false)] + blocks[i + 1..]
    else blocks
  }

  function Occupy(blocks: seq<Block>, i: nat): (r: seq<Block>)
    requires i < |blocks|
  {
    blocks[i := Block(blocks[i].size, true)]
  }

  /** A request served from block `i`. */
  function Serve(blocks: seq<Block>, i: nat, size: nat): (r: seq<Block>)
    requires i < |blocks| && size <= blocks[i].size && SafeFit(blocks[i].size, size)
  {
    Occupy(SplitAt(blocks, i, size), i)
  }

  /** A piece of the list replaced by another of the same extent leaves the heap in shape. */
  lemma SplicedGeometry(pre: seq<Block>, mid: seq<Block>, mid': seq<Block>, post: seq<Block>)
    requires Geometry(pre + mid + post) && Total(mid) == Total(mid') && mid' != []
    requires Merged(pre + mid' + post) && forall b :: b in mid' ==> b.size % 4 == 0
    ensures Geometry(pre + mid' + post)
  {
    hide Total, LiveFrom, Merged, Addr;
    LiveSpliced(pre, mid, mid', post, HEAP_START);
    AddrEnd(pre + mid + post);
    AddrEnd(pre + mid' + post);
    assert forall b :: b in pre + mid' + post ==> b in pre + mid + post || b in mid';
  }

  lemma AddrEnd(blocks: seq<Block>)
    ensures Addr(blocks, |blocks|) == HEAP_START + Total(blocks)
  {
    assert blocks[..|blocks|] == blocks;
  }

  lemma AddrBehind(pre: seq<Block>, post: seq<Block>)
    ensures Addr(pre + post, |pre|) == HEAP_START + Total(pre)
  {
    assert (pre + post)[..|pre|] == pre;
  }

  /** What a free block turns into when it serves a request. */
  function Served(b: Block, size: nat): (mid: seq<Block>)
    requires size <= b.size && SafeFit(b.size, size)
    ensures mid != [] && mid[0].used && mid[0].size >= size
  {
    if b.size >= size + HEADER + SPLIT_MIN then [Block(size, true), Block(b.size - size - HEADER, false)]
    else [Block(b.size, true)]
  }

  lemma ServeSplices(blocks: seq<Block>, i: nat, size: nat)
    requires i < |blocks| && size <= blocks[i].size && SafeFit(blocks[i].size, size)
    ensures blocks == blocks[..i] + [blocks[i]] + blocks[i + 1..]
    ensures Serve(blocks, i, size) == blocks[..i] + Served(blocks[i], size) + blocks[i + 1..]
  {
  }

  lemma ServedExtent(b: Block, size: nat, at: nat)
    requires size <= b.size && SafeFit(b.size, size) && !b.used
    ensures Total(Served(b, size)) == Total([b]) == HEADER + b.size
    ensures LiveFrom([b], at) == map[] && LiveFrom(Served(b, size), at) == map[at + HEADER := Served(b, size)[0].size]
  {
    var mid := Served(b, size);
    LiveOne(b, at);
    LiveOne(mid[0], at);
    if |mid| == 2 {
      LiveTwo(mid[0], mid[1], at);
      LiveOne(mid[1], at + HEADER + size);
      assert mid == [mid[0], mid[1]];
    } else {
      assert mid == [mid[0]];
    }
  }

  lemma ServeKeepsMerged(blocks: seq<Block>, i: nat, size: nat)
    requires Merged(blocks) && i < |blocks| && !blocks[i].used && size <= blocks[i].size &&
      SafeFit(blocks[i].size, size)
    ensures Merged(blocks[..i] + Served(blocks[i], size) + blocks[i + 1..])
  {
    var mid := Served(blocks[i], size);
    var r := blocks[..i] + mid + blocks[i + 1..];
    forall k | 0 <= k < |r| - 1 ensures r[k].used || r[k + 1].used {
      if k + 1 < i {
        assert blocks[k].used || blocks[k + 1].used;
      } else if k >= i + |mid| - 1 {
        var l := k - |mid| + 1;
        assert blocks[l].used || blocks[l + 1].used;
      }
    }
  }

  lemma ServeKeepsGeometry(blocks: seq<Block>, i: nat, size: nat)
    requires Geometry(blocks) && i < |blocks| && !blocks[i].used && size <= blocks[i].size &&
      SafeFit(blocks[i].size, size)
    requires size % 4 == 0
    ensures Geometry(Serve(blocks, i, size)) && Addr(Serve(blocks, i, size), i) == Addr(blocks, i)
    ensures Total(Serve(blocks, i, size)) == Total(blocks)
  {
    hide Served, Total, LiveFrom, Geometry, Serve;
    var pre, mid, post := blocks[..i], Served(blocks[i], size), blocks[i + 1..];
    GeometryAt(blocks, i);
    ServeSplices(blocks, i, size);
    ServedExtent(blocks[i], size, Addr(blocks, i));
    ServeKeepsMerged(blocks, i, size);
    assert forall b :: b in mid ==> b.size % 4 == 0 by {
      ServedAligned(blocks[i], size);
    }
    SplicedGeometry(pre, [blocks[i]], mid, post);
    LiveSpliced(pre, [blocks[i]], mid, post, HEAP_START);
    AddrBehind(pre, mid + post);
    assert pre + (mid + post) == pre + mid + post;
  }

  lemma GeometryAt(blocks: seq<Block>, i: nat)
    requires Geometry(blocks) && i < |blocks|
    ensures Merged(blocks) && blocks[i].size % 4 == 0
  {
    assert blocks[i] in blocks;
  }

  lemma LiveRange(blocks: seq<Block>, at: nat)
    ensures forall p :: p in LiveFrom(blocks, at) ==> at + HEADER <= p <= at + Total(blocks)
  {
  }

  lemma ServedAligned(b: Block, size: nat)
    requires size <= b.size && SafeFit(b.size, size) && size % 4 == 0 && b.size % 4 == 0
    ensures forall c :: c in Served(b, size) ==> c.size % 4 == 0
  {
  }

  /** Serving a request adds one live payload, large enough, and changes no other. */
  lemma ServeAddsOne(blocks: seq<Block>, i: nat, size: nat)
    requires i < |blocks| && !blocks[i].used && size <= blocks[i].size && SafeFit(blocks[i].size, size)
    ensures Payload(blocks, i) !in Live(blocks)
    ensures var r := Serve(blocks, i, size);
      i < |r| && r[i].size >= size && Live(r) == Live(blocks)[Payload(blocks, i) := r[i].size]
  {
    hide Served, Total, LiveFrom, Serve;
    var pre, mid, post := blocks[..i], Served(blocks[i], size), blocks[i + 1..];
    ServeSplices(blocks, i, size);
    ServedExtent(blocks[i], size, Addr(blocks, i));
    LiveSpliced(pre, [blocks[i]], mid, post, HEAP_START);
    assert Serve(blocks, i, size)[i] == mid[0];
    var a := HEAP_START + Total(pre);
    LiveRange(pre, HEAP_START);
    LiveRange(post, a + Total([blocks[i]]));
    assert LiveFrom(pre, HEAP_START) + map[] == LiveFrom(pre, HEAP_START);
  }

  // ----- growing

  function Grow(blocks: seq<Block>, pages: nat, used: bool): (r: seq<Block>)
    requires pages > 0
  {
    blocks + [Block(pages * PAGE_SIZE - HEADER, used)]
  }

  /** A new last block, taken at once: it becomes one more live payload. */
  lemma GrowKeepsGeometry(blocks: seq<Block>, pages: nat)
    requires Geometry(blocks) && pages > 0 && Addr(blocks, |blocks|) + pages * PAGE_SIZE < HEAP_LIMIT
    ensures Geometry(Grow(blocks, pages, true))
    ensures var n := |blocks|; var r := Grow(blocks, pages, true);
      && Payload(r, n) == Addr(blocks, n) + HEADER && Payload(r, n) !in Live(blocks)
      && Live(r) == Live(blocks)[Payload(r, n) := pages * PAGE_SIZE - HEADER]
  {
    hide Total, LiveFrom, Addr, Merged;
    var b := Block(pages * PAGE_SIZE - HEADER, true);
    GrowExtent(blocks, b);
    PagesAligned(Addr(blocks, |blocks|), pages);
    GrowKeepsMerged(blocks, b);
    GrowLive(blocks, b);
  }

  lemma GrowExtent(blocks: seq<Block>, b: Block)
    ensures Addr(blocks + [b], |blocks|) == Addr(blocks, |blocks|) == HEAP_START + Total(blocks)
    ensures Addr(blocks + [b], |blocks + [b]|) == Addr(blocks, |blocks|) + HEADER + b.size
  {
    hide Total, Addr;
    TotalAppend(blocks, [b]);
    LiveOne(b, 0);
    AddrBehind(blocks, [b]);
    AddrEnd(blocks);
    AddrEnd(blocks + [b]);
  }

  lemma GrowLive(blocks: seq<Block>, b: Block)
    requires b.used
    ensures var p := HEAP_START + Total(blocks) + HEADER;
      p !in Live(blocks) && Live(blocks + [b]) == Live(blocks)[p := b.size]
  {
    hide Total, LiveFrom;
    LiveAppend(blocks, [b], HEAP_START);
    LiveOne(b, HEAP_START + Total(blocks));
    LiveRange(blocks, HEAP_START);
  }

  lemma PagesAligned(a: nat, pages: nat)
    requires a % PAGE_SIZE == 0 && pages > 0
    ensures (a + HEADER + (pages * PAGE_SIZE - HEADER)) % PAGE_SIZE == 0 && (pages * PAGE_SIZE - HEADER) % 4 == 0
  {
  }

  lemma GrowKeepsMerged(blocks: seq<Block>, b: Block)
    requires Merged(blocks) && b.used
    ensures Merged(blocks + [b])
  {
    var r := blocks + [b];
    forall k | 0 <= k < |r| - 1 ensures r[k].used || r[k + 1].used {
      if k + 1 < |blocks| {
        assert blocks[k].used || blocks[k + 1].used;
      }
    }
  }

  // ----- heap_free

  function Vacate(blocks: seq<Block>, i: nat): (r: seq<Block>)
    requires i < |blocks|
  {
    blocks[i := Block(blocks[i].size, false)]
  }

  /** Blocks `i` and `i + 1` become one, as used as block `i` was. */
  function Join(blocks: seq<Block>, i: nat): (r: seq<Block>)
    requires i + 1 < |blocks|
    ensures |r| == |blocks| - 1
  {
    blocks[..i] + [Block(blocks[i].size + blocks[i + 1].size + HEADER, blocks[i].used)] + blocks[i + 2..]
  }

  predicate FreeAt(blocks: seq<Block>, i: int) {
    0 <= i < |blocks| && !blocks[i].used
  }

  /** heap_merge_free_blocks, first half: with the block before. */
  function MergeBefore(blocks: seq<Block>, i: nat): (r: (seq<Block>, nat))
    requires i < |blocks|
    ensures r.1 < |r.0|
  {
    if FreeAt(blocks, i - 1) then (Join(blocks, i - 1), i - 1) else (blocks, i)
  }

  /** heap_merge_free_blocks, second half: with the block behind. */
  function MergeBehind(blocks: seq<Block>, i: nat): (r: seq<Block>)
    requires i < |blocks|
  {
    if FreeAt(blocks, i + 1) then Join(blocks, i) else blocks
  }

  function MergeAt(blocks: seq<Block>, i: nat): (r: seq<Block>)
    requires i < |blocks|
  {
    MergeBehind(MergeBefore(blocks, i).0, MergeBefore(blocks, i).1)
  }

  /** The block with this payload address. */
  function Find(blocks: seq<Block>, ptr: nat): (i: Option<nat>)
    ensures i.Some? ==> i.value < |blocks| && Payload(blocks, i.value) == ptr
    ensures i.None? ==> forall k :: 0 <= k < |blocks| ==> Payload(blocks, k) != ptr
  {
    FindFrom(blocks, ptr, 0)
  }

  function FindFrom(blocks: seq<Block>, ptr: nat, from: nat): (i: Option<nat>)
    requires from <= |blocks|
    ensures i.Some? ==> i.value < |blocks| && Payload(blocks, i.value) == ptr
    ensures i.None? ==> forall k :: from <= k < |blocks| ==> Payload(blocks, k) != ptr
    decreases |blocks| - from
  {
    if from == |blocks| then None
    else if Payload(blocks, from) == ptr then Some(from)
    else FindFrom(blocks, ptr, from + 1)
  }

  function FreeBlock(blocks: seq<Block>, ptr: nat): (r: seq<Block>) {
    var i := Find(blocks, ptr);
    if i.None? then blocks else MergeAt(Vacate(blocks, i.value), i.value)
  }

  /** No two neighbours are both free, except perhaps block `i` and one of its own. */
  ghost predicate MergedAround(blocks: seq<Block>, i: nat) {
    && i < |blocks| && !blocks[i].used
    && forall k :: 0 <= k < |blocks| - 1 && k != i && k + 1 != i ==> blocks[k].used || blocks[k + 1].used
  }

  /** Everything Geometry says but that neighbours are merged. */
  ghost predicate Shape(blocks: seq<Block>) {
    && blocks != [] && (forall b :: b in blocks ==> b.size % 4 == 0)
    && Addr(blocks, |blocks|) % PAGE_SIZE == 0 && Addr(blocks, |blocks|) < HEAP_LIMIT
  }

  lemma SplicedShape(pre: seq<Block>, mid: seq<Block>, mid': seq<Block>, post: seq<Block>)
    requires Shape(pre + mid + post) && Total(mid) == Total(mid') && mid' != []
    requires forall b :: b in mid' ==> b.size % 4 == 0
    ensures Shape(pre + mid' + post) && Total(pre + mid' + post) == Total(pre + mid + post)
  {
    hide Total, LiveFrom, Addr;
    LiveSpliced(pre, mid, mid', post, HEAP_START);
    AddrEnd(pre + mid + post);
    AddrEnd(pre + mid' + post);
    assert forall b :: b in pre + mid' + post ==> b in pre + mid + post || b in mid';
  }

  /** Joining two free neighbours changes neither the extent nor what is live. */
  lemma JoinKeeps(blocks: seq<Block>, i: nat)
    requires Shape(blocks) && FreeAt(blocks, i) && FreeAt(blocks, i + 1)
    ensures Shape(Join(blocks, i)) && Live(Join(blocks, i)) == Live(blocks) && Total(Join(blocks, i)) == Total(blocks)
  {
    hide Total, LiveFrom, Shape;
    var b, c := blocks[i], blocks[i + 1];
    var pre, post := blocks[..i], blocks[i + 2..];
    var joined := Block(b.size + c.size + HEADER, false);
    assert blocks == pre + [b, c] + post;
    assert Join(blocks, i) == pre + [joined] + post;
    var at := HEAP_START + Total(pre);
    LiveTwo(b, c, at);
    LiveOne(b, at);
    LiveOne(c, at + HEADER + b.size);
    LiveOne(joined, at);
    ShapeAt(blocks, i);
    ShapeAt(blocks, i + 1);
    SplicedShape(pre, [b, c], [joined], post);
    LiveSpliced(pre, [b, c], [joined], post, HEAP_START);
  }

  lemma ShapeAt(blocks: seq<Block>, i: nat)
    requires Shape(blocks) && i < |blocks|
    ensures blocks[i].size % 4 == 0
  {
    assert blocks[i] in blocks;
  }

  lemma JoinMerges(blocks: seq<Block>, i: nat, j: nat)
    requires MergedAround(blocks, j) && i + 1 < |blocks| && !blocks[i].used && !blocks[i + 1].used &&
      (j == i || j == i + 1)
    ensures MergedAround(Join(blocks, i), i)
  {
    var r := Join(blocks, i);
    forall k | 0 <= k < |r| - 1 && k != i && k + 1 != i ensures r[k].used || r[k + 1].used {
      var l := if k < i then k else k + 1;
      assert blocks[l].used || blocks[l + 1].used;
    }
  }

  /** Merging around a free block leaves no two free neighbours. */
  lemma MergeAtMerges(blocks: seq<Block>, i: nat)
    requires Shape(blocks) && MergedAround(blocks, i)
    ensures Geometry(MergeAt(blocks, i)) && Live(MergeAt(blocks, i)) == Live(blocks) &&
      Total(MergeAt(blocks, i)) == Total(blocks)
  {
    hide Total, LiveFrom, Addr, Live, Join;
    var (one, k) := MergeBefore(blocks, i);
    if FreeAt(blocks, i - 1) {
      JoinKeeps(blocks, i - 1);
      JoinMerges(blocks, i - 1, i);
    }
    if FreeAt(one, k + 1) {
      JoinKeeps(one, k);
      JoinMerges(one, k, k);
    }
    FirstHalfMerges(blocks, i);
    SecondHalfMerges(one, k);
  }

  lemma FirstHalfMerges(blocks: seq<Block>, i: nat)
    requires MergedAround(blocks, i)
    ensures var (one, k) := MergeBefore(blocks, i); MergedAround(one, k) && !FreeAt(one, k - 1)
  {
    var (one, k) := MergeBefore(blocks, i);
    if FreeAt(blocks, i - 1) {
      JoinMerges(blocks, i - 1, i);
      assert i >= 2 ==> blocks[i - 2].used;
    }
  }

  lemma SecondHalfMerges(blocks: seq<Block>, i: nat)
    requires MergedAround(blocks, i) && !FreeAt(blocks, i - 1)
    ensures Merged(MergeBehind(blocks, i))
  {
    var r := MergeBehind(blocks, i);
    if FreeAt(blocks, i + 1) {
      JoinMerges(blocks, i, i);
      assert i + 2 < |blocks| ==> blocks[i + 1].used || blocks[i + 2].used;
      assert i > 0 ==> r[i - 1] == blocks[i - 1];
    }
    forall k | 0 <= k < |r| - 1 ensures r[k].used || r[k + 1].used {
      assert k != i && k + 1 != i ==> r[k].used || r[k + 1].used;
    }
  }

  /** Marking a block free removes its payload from the live ones. */
  lemma VacateRemoves(blocks: seq<Block>, i: nat)
    requires Geometry(blocks) && i < |blocks|
    ensures Shape(Vacate(blocks, i)) && MergedAround(Vacate(blocks, i), i) && Total(Vacate(blocks, i)) == Total(blocks)
    ensures Live(Vacate(blocks, i)) == Live(blocks) - {Payload(blocks, i)}
  {
    hide Total, LiveFrom, Addr, Merged, MergedAround, Shape;
    var b, c := blocks[i], Block(blocks[i].size, false);
    var pre, post := blocks[..i], blocks[i + 1..];
    var at := HEAP_START + Total(pre);
    assert blocks == pre + [b] + post && Vacate(blocks, i) == pre + [c] + post;
    LiveOne(b, at);
    LiveOne(c, at);
    GeometryAt(blocks, i);
    GeometryHasShape(blocks);
    VacateMergedAround(blocks, i);
    SplicedShape(pre, [b], [c], post);
    LiveSpliced(pre, [b], [c], post, HEAP_START);
    LiveRange(pre, HEAP_START);
    LiveRange(post, at + Total([b]));
    OneKeyLess(LiveFrom(pre, HEAP_START), LiveFrom([b], at), LiveFrom(post, at + Total([b])), at + HEADER);
    PayloadBehind(blocks, i);
  }

  lemma GeometryHasShape(blocks: seq<Block>)
    requires Geometry(blocks)
    ensures Shape(blocks)
  {
  }

  lemma VacateMergedAround(blocks: seq<Block>, i: nat)
    requires Merged(blocks) && i < |blocks|
    ensures MergedAround(Vacate(blocks, i), i)
  {
    var v := Vacate(blocks, i);
    forall k | 0 <= k < |v| - 1 && k != i && k + 1 != i ensures v[k].used || v[k + 1].used {
      assert blocks[k].used || blocks[k + 1].used;
    }
  }

  lemma PayloadBehind(blocks: seq<Block>, i: nat)
    requires i < |blocks|
    ensures Payload(blocks, i) == HEAP_START + Total(blocks[..i]) + HEADER
  {
  }

  lemma OneKeyLess(a: map<nat, nat>, m: map<nat, nat>, b: map<nat, nat>, p: nat)
    requires p !in a && p !in b && m.Keys <= {p}
    ensures a + map[] + b == a + m + b - {p}
  {
  }

  /** heap_free removes exactly the payload it is given; what is no live payload changes nothing. */
  lemma FreeRemovesOne(blocks: seq<Block>, ptr: nat)
    requires Geometry(blocks)
    ensures Geometry(FreeBlock(blocks, ptr)) && Total(FreeBlock(blocks, ptr)) == Total(blocks)
    ensures Live(FreeBlock(blocks, ptr)) == Live(blocks) - {ptr}
  {
    hide Total, Live, Merged, Addr;
    var i := Find(blocks, ptr);
    if i.Some? {
      VacateRemoves(blocks, i.value);
      MergeAtMerges(Vacate(blocks, i.value), i.value);
    } else {
      LiveIsFound(blocks, ptr);
    }
  }

  /** Every live payload belongs to a block. */
  lemma {:induction false} LiveIsFound(blocks: seq<Block>, ptr: nat)
    requires forall k :: 0 <= k < |blocks| ==> Payload(blocks, k) != ptr
    ensures ptr !in Live(blocks)
    decreases |blocks|
  {
    if blocks != [] {
      var k := |blocks| - 1;
      forall l | 0 <= l < k ensures Payload(blocks[..k], l) != ptr {
        assert blocks[..k][..l] == blocks[..l];
        assert Payload(blocks, l) != ptr;
      }
      LiveIsFound(blocks[..k], ptr);
      assert Payload(blocks, k) != ptr;
    }
  }

  /** A live payload lies inside the heap. */
  lemma {:induction false} LiveFits(blocks: seq<Block>, at: nat, ptr: nat)
    requires ptr in LiveFrom(blocks, at)
    ensures ptr + LiveFrom(blocks, at)[ptr] <= at + Total(blocks)
    decreases |blocks|
  {
    var k := |blocks| - 1;
    if ptr in LiveFrom(blocks[..k], at) {
      LiveFits(blocks[..k], at, ptr);
    }
  }

  // ----- whole runs

  /** With nothing live the heap is one free block. */
  lemma NothingLiveOneBlock(blocks: seq<Block>)
    requires Geometry(blocks) && Live(blocks) == map[]
    ensures blocks == [Block(Addr(blocks, |blocks|) - HEAP_START - HEADER, false)]
  {
    forall k | 0 <= k < |blocks| ensures !blocks[k].used {
      UsedIsLive(blocks, k);
    }
    if |blocks| > 1 {
      MergedPair(blocks, 0);
    }
    assert blocks == [blocks[0]];
    LiveOne(blocks[0], HEAP_START);
    AddrEnd(blocks);
  }

  lemma MergedPair(blocks: seq<Block>, i: nat)
    requires Merged(blocks) && i + 1 < |blocks|
    ensures blocks[i].used || blocks[i + 1].used
  {
  }

  lemma UsedIsLive(blocks: seq<Block>, k: nat)
    requires k < |blocks|
    ensures blocks[k].used ==> Payload(blocks, k) in Live(blocks) && Live(blocks)[Payload(blocks, k)] == blocks[k].size
  {
    hide Total, LiveFrom;
    var pre, post := blocks[..k], blocks[k + 1..];
    assert blocks == pre + [blocks[k]] + post;
    LiveOne(blocks[k], HEAP_START + Total(pre));
    LiveSpliced(pre, [blocks[k]], [blocks[k]], post, HEAP_START);
    LiveRange(post, HEAP_START + Total(pre) + Total([blocks[k]]));
  }

  function AlignUp4(size: nat): (n: nat) {
    (size + 3) / 4 * 4
  }

  function PagesFor(size: nat): (n: nat)
    ensures n > 0 && n * PAGE_SIZE >= size + HEADER
  {
    (size + HEADER + PAGE_SIZE - 1) / PAGE_SIZE
  }

  /** The two roundings of heap_alloc, in 32-bit arithmetic. */
  function Rounded(size: u32): (n: u32) {
    (size + 3) % WORD / 4 * 4
  }

  function PagesAsked(n: u32): (pages: nat) {
    ((n + HEADER) % WORD + PAGE_SIZE - 1) % WORD / PAGE_SIZE
  }

  /** What heap_alloc asks for is large enough, or nothing at all, unless the size is within a
      header of 2^32. */
  lemma RoundingIsExact(size: u32)
    ensures var n := Rounded(size); var pages := PagesAsked(n);
      n >= size && (pages == 0 || pages * PAGE_SIZE >= n + HEADER) <==> size <= WORD - HEADER
  {
  }

  /** Up to there the roundings are those without wrap; a number of pages that wraps to 0 fails as
      the same number without wrap does. */
  lemma RoundedExactly(size: u32)
    requires size <= WORD - HEADER
    ensures Rounded(size) == AlignUp4(size) < WORD && Rounded(size) % 4 == 0
    ensures PagesAsked(Rounded(size)) * PAGE_SIZE < WORD
    ensures var pages := PagesAsked(Rounded(size));
      pages == PagesFor(AlignUp4(size)) || (pages == 0 && PagesFor(AlignUp4(size)) * PAGE_SIZE >= WORD)
  {
    assert Rounded(size) <= WORD - HEADER;
    PagesExactly(Rounded(size));
  }

  lemma PagesExactly(n: u32)
    requires n <= WORD - HEADER
    ensures PagesAsked(n) * PAGE_SIZE < WORD
    ensures PagesAsked(n) == PagesFor(n) || (PagesAsked(n) == 0 && PagesFor(n) * PAGE_SIZE >= WORD)
  {
    var end: nat := n + HEADER;
    if end + PAGE_SIZE - 1 < WORD {
      assert end % WORD == end;
    } else {
      assert PagesFor(n) == 0x10_0000;
      assert (end % WORD + PAGE_SIZE - 1) % WORD < PAGE_SIZE;
    }
  }

  /** heap_alloc: the blocks and the address handed out; `memory` says whether pages can be had. */
  function AllocBlock(blocks: seq<Block>, size: nat, memory: bool): (r: (seq<Block>, nat))
    requires SafeRequest(blocks, AlignUp4(size))
  {
    var n := AlignUp4(size);
    var i := FirstFit(blocks, n);
    if size == 0 then (blocks, 0)
    else if i.Some? then (Serve(blocks, i.value, n), Payload(blocks, i.value))
    else if !memory || Addr(blocks, |blocks|) + PagesFor(n) * PAGE_SIZE >= HEAP_LIMIT then (blocks, 0)
    else (Grow(blocks, PagesFor(n), true), Addr(blocks, |blocks|) + HEADER)
  }

  /** heap_alloc adds one live payload of at least the size asked for, and changes no other; a
      failure changes nothing. */
  lemma AllocAddsOne(blocks: seq<Block>, size: nat, memory: bool)
    requires Geometry(blocks) && SafeRequest(blocks, AlignUp4(size))
    ensures var (r, ptr) := AllocBlock(blocks, size, memory);
      && Geometry(r) && (ptr == 0 ==> r == blocks)
      && (ptr != 0 ==> ptr !in Live(blocks) && ptr in Live(r) && Live(r)[ptr] >= size && ptr % 4 == 0
                       && Live(r) == Live(blocks)[ptr := Live(r)[ptr]])
  {
    hide Total, Live, Addr, Geometry, Serve, Grow;
    var n := AlignUp4(size);
    var i := FirstFit(blocks, n);
    if size != 0 && i.Some? {
      ServeKeepsGeometry(blocks, i.value, n);
      ServeAddsOne(blocks, i.value, n);
      PayloadAligned(blocks, i.value);
    } else if size != 0 && memory && Addr(blocks, |blocks|) + PagesFor(n) * PAGE_SIZE < HEAP_LIMIT {
      GrowKeepsGeometry(blocks, PagesFor(n));
      EndAligned(blocks);
    }
  }

  // ----- how much heap_alloc takes, and from where

  /** The bytes of the free blocks, headers included. */
  function Spare(blocks: seq<Block>): (n: nat) {
    if blocks == [] then 0
    else Spare(blocks[..|blocks| - 1]) + if blocks[|blocks| - 1].used then 0 else 16 + blocks[|blocks| - 1].size
  }

  lemma {:induction false} SpareAppend(a: seq<Block>, b: seq<Block>)
    ensures Spare(a + b) == Spare(a) + Spare(b)
    decreases |b|
  {
    if b == [] {
      assert a + b == a;
    } else {
      var k := |b| - 1;
      assert (a + b)[..|a + b| - 1] == a + b[..k];
      SpareAppend(a, b[..k]);
    }
  }

  lemma SpareOne(b: Block)
    ensures Spare([b]) == if b.used then 0 else 16 + b.size
  {
    assert [b][..0] == [];
  }

  predicate Takes(b: Block, n: nat) {
    !b.used && b.size >= n
  }

  /** Block `i` is the first free one of `n` bytes or more. */
  ghost predicate IsFirst(blocks: seq<Block>, n: nat, i: nat) {
    i < |blocks| && Takes(blocks[i], n) && forall k :: 0 <= k < i ==> !Takes(blocks[k], n)
  }

  /** The payload is at the start of block `i`; it has `n` bytes if what the block has beyond that
      makes a header and 32 bytes, else all of them; everything else that was free still is. */
  ghost predicate TakenFrom(blocks: seq<Block>, n: nat, i: nat, r: seq<Block>, ptr: nat)
    requires i < |blocks|
  {
    && ptr == 0xE000_0000 + Total(blocks[..i]) + 16 && ptr in Live(r)
    && Live(r)[ptr] == (if blocks[i].size >= n + 48 then n else blocks[i].size)
    && Live(r)[ptr] < n + 48
    && Spare(r) + 16 + Live(r)[ptr] == Spare(blocks) && Total(r) == Total(blocks)
  }

  /** The payload is in whole new pages behind the heap, less than a page more than it needs. */
  ghost predicate TakenBehind(blocks: seq<Block>, n: nat, r: seq<Block>, ptr: nat) {
    && ptr == 0xE000_0000 + Total(blocks) + 16 && ptr in Live(r)
    && n <= Live(r)[ptr] < n + 4096 && (16 + Live(r)[ptr]) % 4096 == 0
    && Spare(r) == Spare(blocks) && Total(r) == Total(blocks) + 16 + Live(r)[ptr]
  }

  /** The heap would reach its limit if it grew by the pages that `n` bytes and a header need. */
  predicate NoRoom(blocks: seq<Block>, n: nat) {
    0xE000_0000 + Total(blocks) + (n + 16 + 4095) / 4096 * 4096 >= 0xFFC0_0000
  }

  /** What heap_alloc is for, case by case, for the size rounded up to words. */
  ghost predicate AllocSays(blocks: seq<Block>, size: nat, memory: bool, r: seq<Block>, ptr: nat) {
    var n := (size + 3) / 4 * 4;
    var none := forall k :: 0 <= k < |blocks| ==> !Takes(blocks[k], n);
    && (size == 0 || (none && (!memory || NoRoom(blocks, n))) ==> ptr == 0 && r == blocks)
    && (size > 0 && none && memory && !NoRoom(blocks, n) ==> TakenBehind(blocks, n, r, ptr))
    && (size > 0 ==> forall i: nat :: IsFirst(blocks, n, i) ==> TakenFrom(blocks, n, i, r, ptr))
  }

  lemma ServedSpare(b: Block, size: nat)
    requires size <= b.size && SafeFit(b.size, size) && !b.used
    ensures Spare(Served(b, size)) + 16 + Served(b, size)[0].size == Spare([b])
    ensures Served(b, size)[0].size == (if b.size >= size + 48 then size else b.size) < size + 48
  {
    SpareOne(b);
    if b.size >= size + 48 {
      var used, free := Block(size, true), Block(b.size - size - 16, false);
      SpareOne(used);
      SpareOne(free);
      SpareAppend([used], [free]);
      assert Served(b, size) == [used] + [free];
    } else {
      SpareOne(Block(b.size, true));
    }
  }

  lemma SpareSpliced(pre: seq<Block>, mid: seq<Block>, post: seq<Block>)
    ensures Spare(pre + mid + post) == Spare(pre) + Spare(mid) + Spare(post)
  {
    SpareAppend(pre, mid);
    SpareAppend(pre + mid, post);
  }

  lemma ServeTakes(blocks: seq<Block>, i: nat, n: nat)
    requires Geometry(blocks) && i < |blocks| && Takes(blocks[i], n) && SafeFit(blocks[i].size, n) && n % 4 == 0
    ensures TakenFrom(blocks, n, i, Serve(blocks, i, n), Payload(blocks, i))
  {
    hide Served, Total, Live, Geometry, Serve, Spare;
    var mid := Served(blocks[i], n);
    ServeKeepsGeometry(blocks, i, n);
    ServeAddsOne(blocks, i, n);
    ServeSplices(blocks, i, n);
    assert Serve(blocks, i, n)[i] == mid[0];
    ServedSpare(blocks[i], n);
    SpareSpliced(blocks[..i], [blocks[i]], blocks[i + 1..]);
    SpareSpliced(blocks[..i], mid, blocks[i + 1..]);
  }

  lemma GrowTakes(blocks: seq<Block>, n: nat)
    requires Geometry(blocks) && !NoRoom(blocks, n)
    ensures TakenBehind(blocks, n, Grow(blocks, PagesFor(n), true), Addr(blocks, |blocks|) + HEADER)
  {
    hide Total, Live, Geometry, Spare;
    var b := Block(PagesFor(n) * PAGE_SIZE - HEADER, true);
    AddrEnd(blocks);
    GrowKeepsGeometry(blocks, PagesFor(n));
    SpareAppend(blocks, [b]);
    SpareOne(b);
    TotalAppend(blocks, [b]);
    LiveOne(b, 0);
    PagesAreWhole(PagesFor(n));
  }

  lemma PagesAreWhole(pages: nat)
    requires pages > 0
    ensures (16 + (pages * PAGE_SIZE - HEADER)) % 4096 == 0
  {
  }

  lemma AllocIsExact(blocks: seq<Block>, size: nat, memory: bool)
    requires Geometry(blocks) && SafeRequest(blocks, AlignUp4(size))
    ensures var (r, ptr) := AllocBlock(blocks, size, memory); AllocSays(blocks, size, memory, r, ptr)
  {
    hide Total, Live, Geometry, Serve, Grow, TakenFrom, TakenBehind;
    var n := AlignUp4(size);
    var i := FirstFit(blocks, n);
    AddrEnd(blocks);
    if size > 0 && i.Some? {
      assert Takes(blocks[i.value], n);
      ServeTakes(blocks, i.value, n);
    } else if size > 0 && memory && !NoRoom(blocks, n) {
      GrowTakes(blocks, n);
    }
  }

  lemma EndAligned(blocks: seq<Block>)
    requires Geometry(blocks)
    ensures Addr(blocks, |blocks|) % 4 == 0
  {
    hide Addr, Merged;
    PageIsWords(Addr(blocks, |blocks|));
  }

  lemma PageIsWords(a: nat)
    requires a % PAGE_SIZE == 0
    ensures a % 4 == 0
  {
  }

  lemma {:induction false} PayloadAligned(blocks: seq<Block>, i: nat)
    requires Geometry(blocks) && i < |blocks|
    ensures Payload(blocks, i) % 4 == 0
  {
    TotalAligned(blocks[..i]);
  }

  lemma {:induction false} TotalAligned(blocks: seq<Block>)
    requires forall b :: b in blocks ==> b.size % 4 == 0
    ensures Total(blocks) % 4 == 0
    decreases |blocks|
  {
    if blocks != [] {
      var last, rest := blocks[|blocks| - 1], blocks[..|blocks| - 1];
      assert last in blocks && forall b :: b in rest ==> b in blocks;
      TotalAligned(rest);
      SumAligned(Total(rest), last.size);
    }
  }

  lemma SumAligned(a: nat, b: nat)
    requires a % 4 == 0 && b % 4 == 0
    ensures (a + HEADER + b) % 4 == 0
  {
  }

  datatype Request = Alloc(size: nat, memory: bool) | Free(ptr: nat)

  /** All block sizes are multiples of sixteen. */
  ghost predicate Sixteens(blocks: seq<Block>) {
    forall b :: b in blocks ==> Sixteen(b)
  }

  predicate Sixteen(b: Block) {
    b.size % 16 == 0
  }

  /** Then every request for a multiple of sixteen is safe from the wrap in heap_split_block. */
  lemma SixteensAreSafe(blocks: seq<Block>, size: nat)
    requires Sixteens(blocks) && size % 16 == 0
    ensures AlignUp4(size) == size && SafeRequest(blocks, size)
  {
    var i := FirstFit(blocks, size);
    if i.Some? {
      assert blocks[i.value] in blocks;
    }
  }

  lemma AllocKeepsSixteens(blocks: seq<Block>, size: nat, memory: bool)
    requires Sixteens(blocks) && size % 16 == 0 && SafeRequest(blocks, AlignUp4(size))
    ensures Sixteens(AllocBlock(blocks, size, memory).0)
  {
    hide Sixteens, Serve, Grow, Total, Addr, FirstFit, AlignUp4, PagesFor;
    SixteensAreSafe(blocks, size);
    var i := FirstFit(blocks, size);
    if size != 0 && i.Some? {
      ServeKeepsSixteens(blocks, i.value, size);
    }
    GrowKeepsSixteens(blocks, PagesFor(size));
  }

  lemma ServeKeepsSixteens(blocks: seq<Block>, i: nat, size: nat)
    requires Sixteens(blocks) && size % 16 == 0 && i < |blocks| && size <= blocks[i].size &&
      SafeFit(blocks[i].size, size)
    ensures Sixteens(Serve(blocks, i, size))
  {
    assert blocks[i] in blocks;
    ServeSplices(blocks, i, size);
  }

  lemma GrowKeepsSixteens(blocks: seq<Block>, pages: nat)
    requires Sixteens(blocks) && pages > 0
    ensures Sixteens(Grow(blocks, pages, true))
  {
  }

  lemma FreeKeepsSixteens(blocks: seq<Block>, ptr: nat)
    requires Sixteens(blocks)
    ensures Sixteens(FreeBlock(blocks, ptr))
  {
    var i := Find(blocks, ptr);
    if i.Some? {
      assert blocks[i.value] in blocks;
      var v := Vacate(blocks, i.value);
      MergeKeepsSixteens(v, i.value);
    }
  }

  lemma JoinKeepsSixteens(blocks: seq<Block>, i: nat)
    requires Sixteens(blocks) && i + 1 < |blocks|
    ensures Sixteens(Join(blocks, i))
  {
    hide Sixteen;
    assert blocks[i] in blocks && blocks[i + 1] in blocks;
    JoinedSixteen(blocks[i], blocks[i + 1]);
  }

  lemma JoinedSixteen(b: Block, c: Block)
    requires Sixteen(b) && Sixteen(c)
    ensures Sixteen(Block(b.size + c.size + HEADER, b.used))
  {
  }

  lemma MergeKeepsSixteens(blocks: seq<Block>, i: nat)
    requires Sixteens(blocks) && i < |blocks|
    ensures Sixteens(MergeAt(blocks, i))
  {
    hide Join, Sixteens;
    var (one, k) := MergeBefore(blocks, i);
    if FreeAt(blocks, i - 1) {
      JoinKeepsSixteens(blocks, i - 1);
    }
    if FreeAt(one, k + 1) {
      JoinKeepsSixteens(one, k);
    }
  }

  /** A run of requests whose sizes are multiples of sixteen. */
  ghost predicate Orderly(requests: seq<Request>) {
    forall q :: q in requests && q.Alloc? ==> q.size % 16 == 0
  }

  ghost function Answer(blocks: seq<Block>, q: Request): (r: seq<Block>)
    requires Geometry(blocks) && Sixteens(blocks) && (q.Alloc? ==> q.size % 16 == 0)
    ensures Geometry(r) && Sixteens(r)
  {
    match q
    case Alloc(size, memory) =>
      SixteensAreSafe(blocks, size);
      AllocAddsOne(blocks, size, memory);
      AllocKeepsSixteens(blocks, size, memory);
      AllocBlock(blocks, size, memory).0
    case Free(ptr) =>
      FreeRemovesOne(blocks, ptr);
      FreeKeepsSixteens(blocks, ptr);
      FreeBlock(blocks, ptr)
  }

  ghost function Serviced(blocks: seq<Block>, requests: seq<Request>): (r: seq<Block>)
    requires Geometry(blocks) && Sixteens(blocks) && Orderly(requests)
    ensures Geometry(r) && Sixteens(r)
    decreases |requests|
  {
    if requests == [] then blocks else Serviced(Answer(blocks, requests[0]), requests[1..])
  }

  /** The state heap_init leaves. */
  const INITIAL: seq<Block> := [Block(INITIAL_PAGES * PAGE_SIZE - HEADER, false)]

  lemma InitialGeometry()
    ensures Geometry(INITIAL) && Sixteens(INITIAL) && Live(INITIAL) == map[]
  {
    LiveOne(INITIAL[0], HEAP_START);
    AddrEnd(INITIAL);
  }

  /** Freeing a list of addresses, in the order given. */
  function FreeAll(blocks: seq<Block>, ptrs: seq<nat>): (r: seq<Block>)
    decreases |ptrs|
  {
    if ptrs == [] then blocks else FreeAll(FreeBlock(blocks, ptrs[0]), ptrs[1..])
  }

  lemma {:induction false} FreeAllRemoves(blocks: seq<Block>, ptrs: seq<nat>)
    requires Geometry(blocks)
    ensures Geometry(FreeAll(blocks, ptrs)) && Total(FreeAll(blocks, ptrs)) == Total(blocks)
    ensures forall p :: p in Live(FreeAll(blocks, ptrs)) <==> p in Live(blocks) && p !in ptrs
    decreases |ptrs|
  {
    hide Geometry, Total, Live, FreeBlock;
    if ptrs != [] {
      FreeRemovesOne(blocks, ptrs[0]);
      FreeAllRemoves(FreeBlock(blocks, ptrs[0]), ptrs[1..]);
      assert forall p :: p in ptrs <==> p == ptrs[0] || p in ptrs[1..];
    }
  }

  /** After any orderly run, expansions included, freeing whatever is live, in any order, leaves one
      free block that covers the whole heap. */
  lemma EverythingIsRecovered(requests: seq<Request>, ptrs: seq<nat>)
    requires Orderly(requests)
    ensures Geometry(INITIAL) && Sixteens(INITIAL)
    ensures var blocks := Serviced(INITIAL, requests);
      (forall p :: p in Live(blocks) ==> p in ptrs) ==>
        FreeAll(blocks, ptrs) == [Block(Total(blocks) - HEADER, false)]
  {
    hide Geometry, Sixteens, Total, Live, Serviced, FreeAll, Addr;
    InitialGeometry();
    var blocks := Serviced(INITIAL, requests);
    if forall p :: p in Live(blocks) ==> p in ptrs {
      FreeAllRemoves(blocks, ptrs);
      assert Live(FreeAll(blocks, ptrs)) == map[];
      NothingLiveOneBlock(FreeAll(blocks, ptrs));
      AddrEnd(FreeAll(blocks, ptrs));
    }
  }
}
