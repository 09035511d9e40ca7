/**
  The ring buffer over raw byte storage: slots of fixed size, reached through indices
  that wrap, stand for a sequence of elements.
*/
module RingBuffers {
  import opened Common

  /** Where slot `j` starts. Kept apart so that multiplication is reasoned about once. */
  function Offset(j: nat, elemSize: nat): (n: nat) {
    j * elemSize
  }

  lemma OffsetNext(j: nat, elemSize: nat)
    ensures Offset(j + 1, elemSize) == Offset(j, elemSize) + elemSize
  {
  }

  lemma {:induction false} OffsetMonotone(j: nat, k: nat, elemSize: nat)
    requires j <= k
    ensures Offset(j, elemSize) <= Offset(k, elemSize)
    decreases k - j
  {
    if j < k {
      OffsetNext(j, elemSize);
      OffsetMonotone(j + 1, k, elemSize);
    }
  }

  /** The bytes of slot `j`. */
  function Slot(bytes: seq<byte>, j: nat, elemSize: nat): (slot: seq<byte>)
    requires Offset(j, elemSize) + elemSize <= |bytes|
  {
    bytes[Offset(j, elemSize)..Offset(j, elemSize) + elemSize]
  }

  /** Different slots do not share a byte. */
  lemma SlotsApart(j: nat, k: nat, elemSize: nat)
    requires j != k
    ensures Offset(j, elemSize) + elemSize <= Offset(k, elemSize) ||
      Offset(k, elemSize) + elemSize <= Offset(j, elemSize)
  {
    if j < k {
      OffsetNext(j, elemSize);
      OffsetMonotone(j + 1, k, elemSize);
    } else {
      OffsetNext(k, elemSize);
      OffsetMonotone(k + 1, j, elemSize);
    }
  }

  lemma SlotFits(j: nat, capacity: nat, elemSize: nat)
    requires j < capacity
    ensures Offset(j, elemSize) + elemSize <= Offset(capacity, elemSize)
  {
    OffsetNext(j, elemSize);
    OffsetMonotone(j + 1, capacity, elemSize);
  }

  /** The slot that holds element `i` of a buffer whose oldest element is in slot `head`. */
  function Wrap(head: nat, i: nat, capacity: nat): (j: nat)
    requires head < capacity && i <= capacity
    ensures j < capacity
  {
    if head + i < capacity then head + i else head + i - capacity
  }

  /** The elements, oldest first. */
  function Elements(bytes: seq<byte>, head: nat, count: nat, capacity: nat, elemSize: nat): (es: seq<seq<byte>>)
    requires |bytes| == Offset(capacity, elemSize) && head < capacity && count <= capacity
    ensures |es| == count
  {
    seq(count, (i: int) requires 0 <= i < count =>
      SlotFits(Wrap(head, i, capacity), capacity, elemSize);
      Slot(bytes, Wrap(head, i, capacity), elemSize))
  }

  class RingBuffer {
    const buf: array<byte>
    const elemSize: nat
    const capacity: nat
    var head: nat
    var tail: nat
    var count: nat

    ghost predicate Valid()
      reads this
    {
      && buf.Length == Offset(capacity, elemSize)
      && count <= capacity
      && (capacity == 0 ==> head == tail == 0)
      && (capacity > 0 ==> head < capacity && tail == Wrap(head, count, capacity))
    }

    ghost function Contents(): (es: seq<seq<byte>>)
      requires Valid()
      reads this, buf
      ensures |es| == count
    {
      if capacity == 0 then [] else Elements(buf[..], head, count, capacity, elemSize)
    }

    /** ring_buffer_init over zeroed storage. */
    constructor (elemSize: nat, capacity: nat)
      ensures Valid() && Contents() == [] && this.elemSize == elemSize && this.capacity == capacity
      ensures fresh(buf)
    {
      this.elemSize := elemSize;
      this.capacity := capacity;
      buf := new byte[Offset(capacity, elemSize)](_ => 0);
      head, tail, count := 0, 0, 0;
    }

    /** ring_buffer_full */
    predicate Full()
      reads this
    {
      count >= capacity
    }

    /** ring_buffer_empty */
    predicate Empty()
      reads this
    {
      count == 0
    }

    /** ring_buffer_push: refused exactly when the buffer is full. */
    method Push(elem: seq<byte>) returns (refused: bool)
      requires Valid() && |elem| == elemSize
      modifies this`tail, this`count, buf
      ensures Valid()
      ensures refused <==> old(|Contents()|) == capacity
      ensures Contents() == if refused then old(Contents()) else old(Contents()) + [elem]
    {
      if Full() {
        return true;
      }
      ghost var was := buf[..];
      SlotFits(tail, capacity, elemSize);
      CopyIn(buf, Offset(tail, elemSize), elem);
      PushedElements(was, buf[..], head, count, capacity, elemSize, elem);
      NextTail(head, count, capacity);
      tail := (tail + 1) % capacity;
      count := count + 1;
      return false;
    }

    /** ring_buffer_peek: the oldest element, or a refusal when there is none. */
    method Peek() returns (refused: bool, out: seq<byte>)
      requires Valid()
      ensures refused <==> Contents() == []
      ensures !refused ==> out == Contents()[0]
    {
      if Empty() {
        return true, [];
      }
      SlotFits(head, capacity, elemSize);
      out := CopyOut(buf, Offset(head, elemSize), elemSize);
      refused := false;
    }

    /** ring_buffer_pop */
    method Pop() returns (refused: bool, out: seq<byte>)
      requires Valid()
      modifies this`head, this`count
      ensures Valid()
      ensures refused <==> old(Contents()) == []
      ensures refused ==> Contents() == old(Contents())
      ensures !refused ==> old(Contents()) == [out] + Contents()
    {
      refused, out := Peek();
      if refused {
        return;
      }
      PoppedElements(buf[..], head, count, capacity, elemSize);
      head := (head + 1) % capacity;
      count := count - 1;
    }
  }

  /** memcpy into an array. */
  method CopyIn(dst: array<byte>, at: nat, src: seq<byte>)
    requires at + |src| <= dst.Length
    modifies dst
    ensures dst[..] == old(dst[..])[..at] + src + old(dst[..])[at + |src|..]
  {
    for i := 0 to |src|
      invariant dst[..at + i] == old(dst[..at]) + src[..i]
      invariant dst[at + i..] == old(dst[at + i..])
    {
      dst[at + i] := src[i];
    }
    assert src[..|src|] == src;
    assert dst[..] == dst[..at + |src|] + dst[at + |src|..];
  }

  /** memcpy out of an array. */
  method CopyOut(src: array<byte>, at: nat, n: nat) returns (out: seq<byte>)
    requires at + n <= src.Length
    ensures out == src[at..at + n]
  {
    out := [];
    for i := 0 to n
      invariant out == src[at..at + i]
    {
      out := out + [src[at + i]];
    }
  }

  lemma NextTail(head: nat, count: nat, capacity: nat)
    requires head < capacity && count < capacity
    ensures (Wrap(head, count, capacity) + 1) % capacity == Wrap(head, count + 1, capacity)
  {
    var tail := Wrap(head, count, capacity);
    assert (tail + 1) % capacity == if tail + 1 == capacity then 0 else tail + 1;
  }

  lemma SlotUntouched(was: seq<byte>, bytes: seq<byte>, j: nat, k: nat, elemSize: nat, elem: seq<byte>)
    requires |bytes| == |was| && j != k && |elem| == elemSize
    requires Offset(j, elemSize) + elemSize <= |was| && Offset(k, elemSize) + elemSize <= |was|
    requires bytes == was[..Offset(k, elemSize)] + elem + was[Offset(k, elemSize) + elemSize..]
    ensures Slot(bytes, j, elemSize) == Slot(was, j, elemSize)
  {
    SlotsApart(j, k, elemSize);
  }

  lemma PushedElements(was: seq<byte>, bytes: seq<byte>, head: nat, count: nat, capacity: nat, elemSize: nat,
                       elem: seq<byte>)
    requires |was| == |bytes| == Offset(capacity, elemSize) && head < capacity && count < capacity && |elem| == elemSize
    requires var at := Offset(Wrap(head, count, capacity), elemSize);
      at + elemSize <= |was| && bytes == was[..at] + elem + was[at + elemSize..]
    ensures Elements(bytes, head, count + 1, capacity, elemSize)
      == Elements(was, head, count, capacity, elemSize) + [elem]
  {
    var k := Wrap(head, count, capacity);
    forall i | 0 <= i < count
      ensures Elements(bytes, head, count + 1, capacity, elemSize)[i]
        == Elements(was, head, count, capacity, elemSize)[i]
    {
      var j := Wrap(head, i, capacity);
      SlotFits(j, capacity, elemSize);
      SlotUntouched(was, bytes, j, k, elemSize, elem);
    }
    assert Slot(bytes, k, elemSize) == elem;
  }

  lemma NextSlot(head: nat, capacity: nat)
    requires head < capacity
    ensures (head + 1) % capacity == if head + 1 == capacity then 0 else head + 1
  {
  }

  lemma PoppedElements(bytes: seq<byte>, head: nat, count: nat, capacity: nat, elemSize: nat)
    requires |bytes| == Offset(capacity, elemSize) && head < capacity && 0 < count <= capacity
    ensures var next := (head + 1) % capacity;
      next < capacity
      && Wrap(next, count - 1, capacity) == Wrap(head, count, capacity)
      && Elements(bytes, head, count, capacity, elemSize)
         == [Elements(bytes, head, count, capacity, elemSize)[0]] + Elements(bytes, next, count - 1, capacity, elemSize)
  {
    hide Offset, Slot;
    NextSlot(head, capacity);
    var next := (head + 1) % capacity;
    forall i | 0 <= i < count - 1 ensures Wrap(next, i, capacity) == Wrap(head, i + 1, capacity) {
    }
  }
}
