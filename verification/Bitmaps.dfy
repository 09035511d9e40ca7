/**
  The bitmap of physical page frames. Bit `i` is bit `i % 8` of byte `i / 8`; `Used` is
  the set of the bits that are set.
*/
module Bitmaps {

  /** 1 << k on a byte. */
  function Mask(k: nat): (mask: bv8)
    requires k < 8
  {
    if k == 0 then 1 else if k == 1 then 2 else if k == 2 then 4 else if k == 3 then 8
    else if k == 4 then 16 else if k == 5 then 32 else if k == 6 then 64 else 128
  }

  predicate BitOf(b: bv8, k: nat)
    requires k < 8
  {
    b & Mask(k) != 0
  }

  /** Bit `k` is the one a shift by `k` brings to the lowest place. */
  lemma BitIsShifted(b: bv8, k: nat)
    requires k < 8
    ensures BitOf(b, k) <==> (b >> k) & 1 == 1
  {
    assert k == 0 || k == 1 || k == 2 || k == 3 || k == 4 || k == 5 || k == 6 || k == 7;
  }

  lemma SetBitOf(b: bv8, k: nat, j: nat)
    requires k < 8 && j < 8
    ensures BitOf(b | Mask(k), j) <==> j == k || BitOf(b, j)
  {
  }

  lemma ClearBitOf(b: bv8, k: nat, j: nat)
    requires k < 8 && j < 8
    ensures BitOf(b & !Mask(k), j) <==> j != k && BitOf(b, j)
  {
  }

  lemma FullByte(b: bv8)
    ensures b == 0xFF <==> forall k :: 0 <= k < 8 ==> BitOf(b, k)
  {
    if forall k :: 0 <= k < 8 ==> BitOf(b, k) {
      assert BitOf(b, 0) && BitOf(b, 1) && BitOf(b, 2) && BitOf(b, 3);
      assert BitOf(b, 4) && BitOf(b, 5) && BitOf(b, 6) && BitOf(b, 7);
    }
  }

  /** Bit `i` of a run of bytes. */
  predicate Bit(bytes: seq<bv8>, i: nat)
    requires i / 8 < |bytes|
  {
    BitOf(bytes[i / 8], i % 8)
  }

  /** The bits below `bits` that are set. */
  function Bits(bytes: seq<bv8>, bits: nat): (used: set<nat>)
    requires bits <= 8 * |bytes|
    ensures forall i: nat :: i in used <==> i < bits && Bit(bytes, i)
  {
    set i: nat | i < bits && Bit(bytes, i)
  }

  lemma BitAfterWrite(bytes: seq<bv8>, k: nat, b: bv8, i: nat)
    requires k / 8 < |bytes| && i / 8 < |bytes|
    requires forall j :: 0 <= j < 8 && j != k % 8 ==> (BitOf(b, j) <==> BitOf(bytes[k / 8], j))
    ensures i != k ==> (Bit(bytes[k / 8 := b], i) <==> Bit(bytes, i))
    ensures i == k ==> (Bit(bytes[k / 8 := b], i) <==> BitOf(b, k % 8))
  {
    if i / 8 == k / 8 && i != k {
      assert i % 8 != k % 8;
    }
  }

  /** bitmap_set_bit */
  method SetBit(bmp: array<bv8>, bit: nat)
    requires bit / 8 < bmp.Length
    modifies bmp
    ensures forall i: nat :: i / 8 < bmp.Length ==> (Bit(bmp[..], i) <==> i == bit || Bit(old(bmp[..]), i))
  {
    ghost var was, b := bmp[..], bmp[bit / 8] | Mask(bit % 8);
    forall j | 0 <= j < 8 ensures BitOf(b, j) <==> j == bit % 8 || BitOf(bmp[bit / 8], j) {
      SetBitOf(bmp[bit / 8], bit % 8, j);
    }
    bmp[bit / 8] := bmp[bit / 8] | Mask(bit % 8);
    assert bmp[..] == was[bit / 8 := b];
    forall i: nat | i / 8 < bmp.Length ensures Bit(bmp[..], i) <==> i == bit || Bit(was, i) {
      BitAfterWrite(was, bit, b, i);
    }
  }

  /** bitmap_clear_bit */
  method ClearBit(bmp: array<bv8>, bit: nat)
    requires bit / 8 < bmp.Length
    modifies bmp
    ensures forall i: nat :: i / 8 < bmp.Length ==> (Bit(bmp[..], i) <==> i != bit && Bit(old(bmp[..]), i))
  {
    ghost var was, b := bmp[..], bmp[bit / 8] & !Mask(bit % 8);
    forall j | 0 <= j < 8 ensures BitOf(b, j) <==> j != bit % 8 && BitOf(bmp[bit / 8], j) {
      ClearBitOf(bmp[bit / 8], bit % 8, j);
    }
    bmp[bit / 8] := bmp[bit / 8] & !Mask(bit % 8);
    assert bmp[..] == was[bit / 8 := b];
    forall i: nat | i / 8 < bmp.Length ensures Bit(bmp[..], i) <==> i != bit && Bit(was, i) {
      BitAfterWrite(was, bit, b, i);
    }
  }

  /** bitmap_test_bit */
  predicate TestBit(bmp: array<bv8>, bit: nat)
    requires bit / 8 < bmp.Length
    reads bmp
    ensures TestBit(bmp, bit) <==> Bit(bmp[..], bit)
  {
    bmp[bit / 8] & Mask(bit % 8) != 0
  }

  /** bitmap_find_free_bit: the lowest clear bit, or 0 when there is none; a clear bit 0 is
      therefore reported like a full bitmap. */
  method FindFreeBit(bmp: array<bv8>, bits: nat) returns (r: nat)
    requires (bits + 7) / 8 <= bmp.Length
    ensures r == 0 || (r < bits && !Bit(bmp[..], r))
    ensures forall i :: 0 <= i < r ==> Bit(bmp[..], i)
    ensures r == 0 ==> (bits > 0 && !Bit(bmp[..], 0)) || forall i :: 0 <= i < bits ==> Bit(bmp[..], i)
  {
    if bits == 0 {
      return 0;
    }
    var bytes := (bits + 7) / 8;
    var i := 0;
    while i < bytes
      invariant 0 <= i <= bytes
      invariant forall k :: 0 <= k < 8 * i && k < bits ==> Bit(bmp[..], k)
    {
      if bmp[i] == 0xFF {
        FullByte(bmp[i]);
      } else {
        var bit := 0;
        while bit < 8
          invariant 0 <= bit <= 8
          invariant forall j :: 0 <= j < bit ==> BitOf(bmp[i], j)
          invariant forall k :: 0 <= k < 8 * i + bit && k < bits ==> Bit(bmp[..], k)
          invariant 8 * i + bit <= bits
        {
          var index := i * 8 + bit;
          if index >= bits {
            return 0;
          }
          assert index / 8 == i && index % 8 == bit;
          if bmp[i] & Mask(bit) == 0 {
            return index;
          }
          bit := bit + 1;
        }
        FullByte(bmp[i]);
      }
      i := i + 1;
    }
    return 0;
  }
}
