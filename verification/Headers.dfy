/**
  Block headers in memory: linked lists of addresses that stand for sequences of blocks.
*/
module Headers {
  import opened Common
  import opened Blocks

  /** A null pointer is 0. */
  datatype Header = Header(size: nat, used: bool, prev: nat, next: nat)

  function PrevOf(blocks: seq<Block>, i: nat): (a: nat)
    requires i < |blocks|
  {
    if i == 0 then 0 else Addr(blocks, i - 1)
  }

  function NextOf(blocks: seq<Block>, i: nat): (a: nat)
    requires i < |blocks|
  {
    if i + 1 == |blocks| then 0 else Addr(blocks, i + 1)
  }

  ghost predicate HeaderAt(h: map<nat, Header>, blocks: seq<Block>, i: nat)
    requires i < |blocks|
  {
    && Addr(blocks, i) in h && blocks[i].size < WORD
    && h[Addr(blocks, i)] == Header(blocks[i].size, blocks[i].used, PrevOf(blocks, i), NextOf(blocks, i))
  }

  /** The headers from HEAP_START on are those of the blocks, mutually linked, back to back. */
  ghost predicate Represents(h: map<nat, Header>, blocks: seq<Block>) {
    blocks != [] && forall i :: 0 <= i < |blocks| ==> HeaderAt(h, blocks, i)
  }

  lemma AddrPrefix(a: seq<Block>, b: seq<Block>, k: nat)
    requires k <= |a| && k <= |b| && a[..k] == b[..k]
    ensures Addr(a, k) == Addr(b, k)
  {
  }

  lemma AddrSuffix(a: seq<Block>, b: seq<Block>, k: nat, l: nat)
    requires k <= |a| && l <= |b| && a[k..] == b[l..] && Total(a) == Total(b)
    ensures Addr(a, k) == Addr(b, l)
  {
    hide Total;
    TotalAppend(a[..k], a[k..]);
    TotalAppend(b[..l], b[l..]);
    assert a[..k] + a[k..] == a && b[..l] + b[l..] == b;
  }

  // ----- heap_split_block

  /** What the code writes, in its unsigned 32-bit arithmetic. */
  function SplitHeaders(h: map<nat, Header>, b: nat, size: nat): (r: map<nat, Header>)
    requires b in h && (h[b].next != 0 ==> h[b].next in h)
  {
    if h[b].used || h[b].size <= size then h
    else
      var rest := SplitRest(h[b].size, size);
      if rest < SPLIT_MIN then h
      else
        var new_ := (b + size + HEADER) % WORD;
        var linked := h[new_ := Header(rest, false, b, h[b].next)];
        var back := if h[b].next != 0 then linked[h[b].next := linked[h[b].next].(prev := new_)] else linked;
        back[b := Header(size, h[b].used, h[b].prev, new_)]
  }

  lemma NextIsThere(h: map<nat, Header>, blocks: seq<Block>, i: nat)
    requires Represents(h, blocks) && i < |blocks|
    ensures Addr(blocks, i) in h && Addr(blocks, i) >= HEAP_START && blocks[i].size < WORD
    ensures h[Addr(blocks, i)] == Header(blocks[i].size, blocks[i].used, PrevOf(blocks, i), NextOf(blocks, i))
    ensures h[Addr(blocks, i)].next != 0 ==> h[Addr(blocks, i)].next in h
    ensures h[Addr(blocks, i)].prev != 0 ==> h[Addr(blocks, i)].prev in h
  {
    assert HeaderAt(h, blocks, i);
    assert i + 1 < |blocks| ==> HeaderAt(h, blocks, i + 1);
    assert i > 0 ==> HeaderAt(h, blocks, i - 1);
  }

  /** The addresses after a split, in terms of those before. */
  lemma SplitAddr(blocks: seq<Block>, i: nat, size: nat, k: nat)
    requires i < |blocks| && blocks[i].size >= size + HEADER + SPLIT_MIN && k <= |blocks| + 1
    ensures var r := SplitAt(blocks, i, size);
      |r| == |blocks| + 1 && Addr(r, k) ==
        if k <= i then Addr(blocks, k) else if k == i + 1 then Addr(blocks, i) + HEADER + size else Addr(blocks, k - 1)
  {
    var r := SplitAt(blocks, i, size);
    if k <= i {
      AddrPrefix(r, blocks, k);
    } else if k == i + 1 {
      AddrPrefix(r, blocks, i);
      NextAddr(r, i);
    } else {
      SplitTotal(blocks, i, size);
      assert r[k..] == blocks[k - 1..];
      AddrSuffix(r, blocks, k, k - 1);
    }
  }

  lemma SplitPieces(blocks: seq<Block>, i: nat, size: nat)
    requires i < |blocks| && blocks[i].size >= size + HEADER + SPLIT_MIN
    ensures blocks == blocks[..i] + [blocks[i]] + blocks[i + 1..]
    ensures SplitAt(blocks, i, size)
      == blocks[..i] + [Block(size, false), Block(blocks[i].size - size - HEADER, false)] + blocks[i + 1..]
  {
  }

  lemma SplitTotal(blocks: seq<Block>, i: nat, size: nat)
    requires i < |blocks| && blocks[i].size >= size + HEADER + SPLIT_MIN
    ensures Total(SplitAt(blocks, i, size)) == Total(blocks)
  {
    hide Total, LiveFrom, SplitAt;
    var b, c := Block(size, false), Block(blocks[i].size - size - HEADER, false);
    SplitPieces(blocks, i, size);
    LiveOne(blocks[i], 0);
    LiveTwo(b, c, 0);
    LiveSpliced(blocks[..i], [blocks[i]], [b, c], blocks[i + 1..], 0);
  }

  lemma SplitBig(h: map<nat, Header>, blocks: seq<Block>, i: nat, size: nat)
    requires Represents(h, blocks) && Addr(blocks, |blocks|) < WORD && i < |blocks| && !blocks[i].used
    requires blocks[i].size >= size + HEADER + SPLIT_MIN
    ensures Represents(h, blocks) && Addr(blocks, i) in h
    ensures (h[Addr(blocks, i)].next != 0 ==> h[Addr(blocks, i)].next in h)
    ensures Represents(SplitHeaders(h, Addr(blocks, i), size), SplitAt(blocks, i, size))
  {
    hide Total, Addr, SplitAt;
    NextIsThere(h, blocks, i);
    var a := Addr(blocks, i);
    AddrGrows(blocks, i, |blocks|);
    var r, g := SplitAt(blocks, i, size), SplitHeaders(h, a, size);
    SplitAddr(blocks, i, size, i);
    SplitAddr(blocks, i, size, i + 1);
    SplitBlocks(blocks, i, size);
    NoWrap(blocks[i].size, size, a);
    forall k | 0 <= k < |r| ensures HeaderAt(g, r, k) {
      SplitAddr(blocks, i, size, k);
      SplitAddr(blocks, i, size, k + 1);
      if k > 0 {
        SplitAddr(blocks, i, size, k - 1);
      }
      var l := if k <= i then k else k - 1;
      assert HeaderAt(h, blocks, l);
      if l < i {
        AddrGrows(blocks, l, i);
      } else if l > i {
        AddrGrows(blocks, i, l);
        if l > i + 1 {
          AddrGrows(blocks, i + 1, l);
        }
      }
      if i + 1 < |blocks| {
        NextAddr(blocks, i);
      }
    }
  }

  lemma NoWrap(b: nat, size: nat, a: nat)
    requires b >= size + HEADER + SPLIT_MIN && a + HEADER + b < WORD
    ensures SplitRest(b, size) == b - size - HEADER && (a + size + HEADER) % WORD == a + size + HEADER
  {
  }

  lemma SplitBlocks(blocks: seq<Block>, i: nat, size: nat)
    requires i < |blocks| && blocks[i].size >= size + HEADER + SPLIT_MIN
    ensures var r := SplitAt(blocks, i, size);
      && |r| == |blocks| + 1 && r[i] == Block(size, false) && r[i + 1] == Block(blocks[i].size - size - HEADER, false)
      && (forall k :: 0 <= k < i ==> r[k] == blocks[k])
      && (forall k :: i + 1 < k < |r| ==> r[k] == blocks[k - 1])
  {
  }

  /** Along the list that the split leaves, the blocks before the split one are as before. */
  lemma {:induction false} SamePrefix(h: map<nat, Header>, blocks: seq<Block>, i: nat, size: nat, bs: seq<Block>,
                                      k: nat)
    requires Represents(h, blocks) && Addr(blocks, |blocks|) < WORD && k <= i < |blocks| && !blocks[i].used
    requires size < blocks[i].size < size + HEADER
    requires Addr(blocks, i) in h && (h[Addr(blocks, i)].next != 0 ==> h[Addr(blocks, i)].next in h)
    requires Represents(SplitHeaders(h, Addr(blocks, i), size), bs)
    ensures k < |bs| && Addr(bs, k) == Addr(blocks, k)
  {
    if k > 0 {
      SamePrefix(h, blocks, i, size, bs, k - 1);
      OtherHeader(h, blocks, i, size, k - 1);
      assert HeaderAt(h, blocks, k - 1) && HeaderAt(SplitHeaders(h, Addr(blocks, i), size), bs, k - 1);
      NextAddr(blocks, k - 1);
      NextAddr(bs, k - 1);
    }
  }

  /** A split does not touch the size or the next link of an earlier block. */
  lemma OtherHeader(h: map<nat, Header>, blocks: seq<Block>, i: nat, size: nat, k: nat)
    requires Represents(h, blocks) && Addr(blocks, |blocks|) < WORD && k < i < |blocks|
    requires !blocks[i].used && size < blocks[i].size
    requires Addr(blocks, i) in h && (h[Addr(blocks, i)].next != 0 ==> h[Addr(blocks, i)].next in h)
    ensures Addr(blocks, k) in h && SplitHeaders(h, Addr(blocks, i), size)[Addr(blocks, k)] == h[Addr(blocks, k)]
  {
    hide Addr, Total;
    assert HeaderAt(h, blocks, k) && HeaderAt(h, blocks, i);
    AddrGrows(blocks, k, i);
    AddrGrows(blocks, i, |blocks|);
    if i + 1 < |blocks| {
      NextAddr(blocks, i);
    }
  }

  /** When the chosen block exceeds the request by 1 to 15 bytes, the unsigned subtraction wraps,
      the split goes ahead all the same, and the list no longer ends where the heap does. */
  lemma WrappedSplitBreaks(h: map<nat, Header>, blocks: seq<Block>, i: nat, size: nat, bs: seq<Block>)
    requires Represents(h, blocks) && Addr(blocks, |blocks|) < WORD && i < |blocks| && !blocks[i].used
    requires size < blocks[i].size < size + HEADER
    requires Addr(blocks, i) in h && (h[Addr(blocks, i)].next != 0 ==> h[Addr(blocks, i)].next in h)
    requires Represents(SplitHeaders(h, Addr(blocks, i), size), bs)
    ensures Addr(bs, |bs|) >= WORD
  {
    var g := SplitHeaders(h, Addr(blocks, i), size);
    SamePrefix(h, blocks, i, size, bs, i);
    AddrGrows(blocks, i, |blocks|);
    NextIsThere(h, blocks, i);
    WrappedHeaders(h, blocks, i, size);
    assert HeaderAt(g, bs, i);
    NextAddr(bs, i);
    assert HeaderAt(g, bs, i + 1);
    AddrGrows(bs, i + 1, |bs|);
  }

  lemma WrappedHeaders(h: map<nat, Header>, blocks: seq<Block>, i: nat, size: nat)
    requires Represents(h, blocks) && Addr(blocks, |blocks|) < WORD && i < |blocks| && !blocks[i].used
    requires size < blocks[i].size < size + HEADER
    requires Addr(blocks, i) in h && (h[Addr(blocks, i)].next != 0 ==> h[Addr(blocks, i)].next in h)
    ensures var a := Addr(blocks, i); var g := SplitHeaders(h, a, size);
      var rest := WORD - (size + HEADER - blocks[i].size);
      && a in g && g[a].size == size && g[a].next == a + size + HEADER
      && a + size + HEADER in g && g[a + size + HEADER].size == rest
  {
    hide Addr, Total;
    assert HeaderAt(h, blocks, i);
    AddrGrows(blocks, i, |blocks|);
    assert SplitRest(blocks[i].size, size) == WORD - (size + HEADER - blocks[i].size);
    if i + 1 < |blocks| {
      NextAddr(blocks, i);
    }
  }

  /** The list still tiles the memory from HEAP_START up to `end`. */
  ghost predicate Tiles(h: map<nat, Header>, end: nat) {
    exists blocks :: Represents(h, blocks) && Addr(blocks, |blocks|) == end
  }

  /** heap_split_block keeps the heap in one piece if and only if the free block it is given does
      not exceed the request by 1 to 15 bytes. */
  lemma SplitIsSafeExactly(h: map<nat, Header>, blocks: seq<Block>, i: nat, size: nat)
    requires Represents(h, blocks) && Addr(blocks, |blocks|) < WORD && i < |blocks| && !blocks[i].used
    requires Addr(blocks, i) in h && (h[Addr(blocks, i)].next != 0 ==> h[Addr(blocks, i)].next in h)
    ensures Tiles(SplitHeaders(h, Addr(blocks, i), size), Addr(blocks, |blocks|)) <==>
      !(size < blocks[i].size < size + HEADER)
  {
    hide Addr, Total, HeaderAt;
    var a, end := Addr(blocks, i), Addr(blocks, |blocks|);
    var g := SplitHeaders(h, a, size);
    if size < blocks[i].size < size + HEADER {
      forall bs | Represents(g, bs) ensures Addr(bs, |bs|) != end {
        WrappedSplitBreaks(h, blocks, i, size, bs);
      }
    } else if blocks[i].size >= size + HEADER + SPLIT_MIN {
      SplitBig(h, blocks, i, size);
      var r := SplitAt(blocks, i, size);
      SplitAddr(blocks, i, size, |blocks| + 1);
      assert Represents(g, r) && Addr(r, |r|) == end;
    } else {
      SplitSmall(h, blocks, i, size);
      assert Represents(g, blocks);
    }
  }

  lemma SplitSmall(h: map<nat, Header>, blocks: seq<Block>, i: nat, size: nat)
    requires Represents(h, blocks) && Addr(blocks, |blocks|) < WORD && i < |blocks| && !blocks[i].used
    requires Addr(blocks, i) in h && (h[Addr(blocks, i)].next != 0 ==> h[Addr(blocks, i)].next in h)
    requires blocks[i].size <= size || size + HEADER <= blocks[i].size < size + HEADER + SPLIT_MIN
    ensures SplitHeaders(h, Addr(blocks, i), size) == h
  {
    hide Addr, Total;
    assert HeaderAt(h, blocks, i);
    AddrGrows(blocks, i, |blocks|);
  }

  /** The very first request can hit the wrap: 98280 bytes of a fresh heap of 24 pages. */
  lemma FreshHeapCanBreak()
    ensures var h := map[HEAP_START := Header(INITIAL_PAGES * PAGE_SIZE - HEADER, false, 0, 0)];
      Represents(h, INITIAL) && FirstFit(INITIAL, 98280) == Some(0)
      && !Tiles(SplitHeaders(h, HEAP_START, 98280), Addr(INITIAL, |INITIAL|))
  {
    var h := map[HEAP_START := Header(INITIAL_PAGES * PAGE_SIZE - HEADER, false, 0, 0)];
    LiveOne(INITIAL[0], HEAP_START);
    AddrEnd(INITIAL);
    assert INITIAL[..0] == [];
    assert HeaderAt(h, INITIAL, 0);
    assert Fits(INITIAL[0], 98280);
    SplitIsSafeExactly(h, INITIAL, 0, 98280);
  }

  // ----- marking, merging, growing

  function Mark(h: map<nat, Header>, a: nat, used: bool): (r: map<nat, Header>)
    requires a in h
  {
    h[a := h[a].(used := used)]
  }

  lemma MarkRepresents(h: map<nat, Header>, blocks: seq<Block>, i: nat, used: bool)
    requires Represents(h, blocks) && i < |blocks|
    ensures Addr(blocks, i) in h
    ensures var r := blocks[i := Block(blocks[i].size, used)];
      Represents(Mark(h, Addr(blocks, i), used), r) && Total(r) == Total(blocks)
  {
    assert HeaderAt(h, blocks, i);
    var r, g := blocks[i := Block(blocks[i].size, used)], Mark(h, Addr(blocks, i), used);
    forall k | 0 <= k <= |r| ensures Addr(r, k) == Addr(blocks, k) {
      SameSizes(r[..k], blocks[..k]);
    }
    forall k | 0 <= k < |r| ensures HeaderAt(g, r, k) {
      assert HeaderAt(h, blocks, k);
      if k < i {
        AddrGrows(blocks, k, i);
      } else if k > i {
        AddrGrows(blocks, i, k);
      }
    }
    AddrEnd(r);
    AddrEnd(blocks);
  }

  lemma {:induction false} SameSizes(a: seq<Block>, b: seq<Block>)
    requires |a| == |b| && forall k :: 0 <= k < |a| ==> a[k].size == b[k].size
    ensures Total(a) == Total(b)
    decreases |a|
  {
    if a != [] {
      SameSizes(a[..|a| - 1], b[..|b| - 1]);
    }
  }

  /** The writes that make the block at `b` part of the one before it, at `p`. */
  function Absorb(h: map<nat, Header>, p: nat, b: nat): (r: map<nat, Header>)
    requires p in h && b in h && (h[b].next != 0 ==> h[b].next in h)
  {
    var wider := h[p := h[p].(size := h[p].size + h[b].size + HEADER, next := h[b].next)];
    if h[b].next != 0 then wider[h[b].next := wider[h[b].next].(prev := p)] else wider
  }

  lemma JoinAddr(blocks: seq<Block>, i: nat, k: nat)
    requires i + 1 < |blocks| && k <= |blocks| - 1
    ensures Addr(Join(blocks, i), k) == if k <= i then Addr(blocks, k) else Addr(blocks, k + 1)
  {
    var r := Join(blocks, i);
    if k <= i {
      AddrPrefix(r, blocks, k);
    } else {
      JoinTotal(blocks, i);
      assert r[k..] == blocks[k + 1..];
      AddrSuffix(r, blocks, k, k + 1);
    }
  }

  lemma JoinTotal(blocks: seq<Block>, i: nat)
    requires i + 1 < |blocks|
    ensures Total(Join(blocks, i)) == Total(blocks)
  {
    hide Total, LiveFrom, Join;
    var b, c := blocks[i], blocks[i + 1];
    var joined := Block(b.size + c.size + HEADER, b.used);
    JoinSplices(blocks, i);
    LiveOne(joined, 0);
    LiveTwo(b, c, 0);
    LiveSpliced(blocks[..i], [b, c], [joined], blocks[i + 2..], 0);
  }

  lemma JoinSplices(blocks: seq<Block>, i: nat)
    requires i + 1 < |blocks|
    ensures blocks == blocks[..i] + [blocks[i], blocks[i + 1]] + blocks[i + 2..]
    ensures Join(blocks, i)
      == blocks[..i] + [Block(blocks[i].size + blocks[i + 1].size + HEADER, blocks[i].used)] + blocks[i + 2..]
  {
  }

  lemma JoinBlocks(blocks: seq<Block>, i: nat)
    requires i + 1 < |blocks|
    ensures var r := Join(blocks, i);
      && r[i] == Block(blocks[i].size + blocks[i + 1].size + HEADER, blocks[i].used)
      && (forall k :: 0 <= k < i ==> r[k] == blocks[k])
      && (forall k :: i < k < |r| ==> r[k] == blocks[k + 1])
  {
  }

  lemma AbsorbRepresents(h: map<nat, Header>, blocks: seq<Block>, i: nat)
    requires Represents(h, blocks) && Addr(blocks, |blocks|) < WORD && i + 1 < |blocks|
    ensures Addr(blocks, i) in h && Addr(blocks, i + 1) in h
    ensures h[Addr(blocks, i + 1)].next != 0 ==> h[Addr(blocks, i + 1)].next in h
    ensures Represents(Absorb(h, Addr(blocks, i), Addr(blocks, i + 1)), Join(blocks, i))
  {
    hide Addr, Total, Join;
    NextIsThere(h, blocks, i);
    NextIsThere(h, blocks, i + 1);
    var r, g := Join(blocks, i), Absorb(h, Addr(blocks, i), Addr(blocks, i + 1));
    AddrGrows(blocks, i, i + 1);
    AddrGrows(blocks, i + 1, |blocks|);
    NextAddr(blocks, i);
    JoinBlocks(blocks, i);
    forall k | 0 <= k < |r| ensures HeaderAt(g, r, k) {
      JoinAddr(blocks, i, k);
      JoinAddr(blocks, i, k + 1);
      if k > 0 {
        JoinAddr(blocks, i, k - 1);
      }
      var l := if k <= i then k else k + 1;
      assert HeaderAt(h, blocks, l);
      if l < i {
        AddrGrows(blocks, l, i);
      } else if l > i {
        AddrGrows(blocks, i, l);
        if l > i + 2 {
          AddrGrows(blocks, i + 2, l);
        }
      }
      if i + 2 < |blocks| {
        AddrGrows(blocks, i + 1, i + 2);
      }
    }
  }

  /** The writes that put a new last block of `size` bytes behind the one at `last`. */
  function Extend(h: map<nat, Header>, last: nat, a: nat, size: nat): (r: map<nat, Header>)
    requires last in h
  {
    var longer := h[a := Header(size, false, last, 0)];
    longer[last := longer[last].(next := a)]
  }

  lemma ExtendRepresents(h: map<nat, Header>, blocks: seq<Block>, pages: nat)
    requires Represents(h, blocks) && pages > 0 && Addr(blocks, |blocks|) + pages * PAGE_SIZE < WORD
    ensures Addr(blocks, |blocks| - 1) in h
    ensures Represents(Extend(h, Addr(blocks, |blocks| - 1), Addr(blocks, |blocks|), pages * PAGE_SIZE - HEADER),
                       Grow(blocks, pages, false))
    ensures Addr(Grow(blocks, pages, false), |blocks|) == Addr(blocks, |blocks|)
    ensures Addr(Grow(blocks, pages, false), |blocks| + 1) == Addr(blocks, |blocks|) + pages * PAGE_SIZE
  {
    hide Total;
    var n := |blocks|;
    var size := pages * PAGE_SIZE - HEADER;
    assert HeaderAt(h, blocks, n - 1);
    AddrGrows(blocks, n - 1, n);
    var r, g := Grow(blocks, pages, false), Extend(h, Addr(blocks, n - 1), Addr(blocks, n), size);
    forall k | 0 <= k <= n ensures Addr(r, k) == Addr(blocks, k) {
      AddrPrefix(r, blocks, k);
    }
    NextAddr(r, n);
    forall k | 0 <= k < |r| ensures HeaderAt(g, r, k) {
      if k < n {
        assert HeaderAt(h, blocks, k);
        AddrGrows(blocks, k, n);
        if k < n - 1 {
          AddrGrows(blocks, k, n - 1);
        }
      }
    }
  }
}
