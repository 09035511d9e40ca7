/**
  The initial ram disk: the image make-initrd writes, byte for byte, and the reader that walks
  it in memory. Each undoes the other.
*/
module Initrd {
  import opened Common
  import opened Bytes

  const MAGIC: u32 := 0x47554D4D
  const VERSION: u32 := 1
  const DIRECTORY: u32 := 1
  const FILE: u32 := 2
  const HEADER_SIZE: nat := 16
  const ENTRY_SIZE: nat := 20

  /** One collected entry; the name without its terminator. */
  datatype Item = Item(kind: u32, permissions: u32, name: seq<byte>, content: seq<byte>)

  /** What the collecting loop produces: directories have no content, names are C strings. */
  ghost predicate Collected(items: seq<Item>) {
    forall x :: x in items ==>
      && (x.kind == DIRECTORY || x.kind == FILE) && (x.kind == DIRECTORY ==> x.content == [])
      && x.name != [] && 0 !in x.name
  }

  function RecordSize(x: Item): (n: nat) {
    ENTRY_SIZE + |x.name| + 1
  }

  function TableSize(items: seq<Item>): (n: nat) {
    if items == [] then 0 else TableSize(items[..|items| - 1]) + RecordSize(items[|items| - 1])
  }

  function DataSize(items: seq<Item>): (n: nat) {
    if items == [] then 0 else DataSize(items[..|items| - 1]) + |items[|items| - 1].content|
  }

  function DataOffset(items: seq<Item>): (n: nat) {
    HEADER_SIZE + TableSize(items)
  }

  function ImageSize(items: seq<Item>): (n: nat) {
    DataOffset(items) + DataSize(items)
  }

  /** The offset recorded for item `i`; 0 for a directory. */
  function OffsetOf(items: seq<Item>, i: nat): (n: nat)
    requires i < |items|
  {
    if items[i].kind == FILE then DataOffset(items) + DataSize(items[..i]) else 0
  }

  function Record(x: Item, offset: u32): (bytes: seq<byte>)
    requires |x.name| + 1 < WORD && |x.content| < WORD
    ensures |bytes| == RecordSize(x)
  {
    Le32(x.kind) + Le32(x.permissions) + Le32(|x.name| + 1) + Le32(offset) + Le32(|x.content|) + x.name + [0]
  }

  ghost predicate Small(items: seq<Item>) {
    ImageSize(items) < WORD && |items| < WORD
  }

  lemma {:induction false} PrefixSmaller(items: seq<Item>, n: nat)
    requires n <= |items|
    ensures TableSize(items[..n]) <= TableSize(items) && DataSize(items[..n]) <= DataSize(items)
    ensures n < |items| ==>
      && TableSize(items[..n]) + RecordSize(items[n]) <= TableSize(items)
      && DataSize(items[..n]) + |items[n].content| <= DataSize(items)
    decreases |items| - n
  {
    if n < |items| {
      assert items[..n + 1][..n] == items[..n];
      PrefixSmaller(items, n + 1);
    } else {
      assert items[..n] == items;
    }
  }

  lemma ItemFits(items: seq<Item>, i: nat)
    requires Small(items) && i < |items|
    ensures |items[i].name| + 1 < WORD && |items[i].content| < WORD && OffsetOf(items, i) < WORD
  {
    PrefixSmaller(items, i);
  }

  /** The first `n` records of the table. */
  function Table(items: seq<Item>, n: nat): (bytes: seq<byte>)
    requires Small(items) && n <= |items|
    ensures |bytes| == TableSize(items[..n])
  {
    if n == 0 then []
    else
      ItemFits(items, n - 1);
      assert items[..n][..n - 1] == items[..n - 1];
      Table(items, n - 1) + Record(items[n - 1], OffsetOf(items, n - 1))
  }

  /** The contents of the first `n` items, back to back. */
  function Data(items: seq<Item>, n: nat): (bytes: seq<byte>)
    requires n <= |items|
    ensures |bytes| == DataSize(items[..n])
  {
    if n == 0 then []
    else
      assert items[..n][..n - 1] == items[..n - 1];
      Data(items, n - 1) + items[n - 1].content
  }

  function Header(items: seq<Item>): (bytes: seq<byte>)
    requires Small(items)
    ensures |bytes| == HEADER_SIZE
  {
    Le32(MAGIC) + Le32(VERSION) + Le32(|items|) + Le32(DataOffset(items))
  }

  /** The image as a whole. */
  function Image(items: seq<Item>): (bytes: seq<byte>)
    requires Small(items)
    ensures |bytes| == ImageSize(items)
  {
    assert items[..|items|] == items;
    Header(items) + Table(items, |items|) + Data(items, |items|)
  }

  // ----- the writer

  /** An entry dictionary of make-initrd: what was collected, and the offset filled in later. */
  datatype Entry = Entry(item: Item, offset: nat)

  predicate Lists(entries: seq<Entry>, items: seq<Item>) {
    |entries| == |items| && forall k :: 0 <= k < |items| ==> entries[k].item == items[k]
  }

  /** The loop that adds up the table size. */
  method SizeTable(entries: seq<Entry>, ghost items: seq<Item>) returns (tableSize: nat)
    requires Lists(entries, items)
    ensures tableSize == TableSize(items)
  {
    tableSize := 0;
    for i := 0 to |entries|
      invariant tableSize == TableSize(items[..i])
    {
      assert items[..i + 1][..i] == items[..i];
      tableSize := tableSize + ENTRY_SIZE + (|entries[i].item.name| + 1);
    }
    assert items[..|items|] == items;
  }

  /** The loop that gives each file its offset. */
  method AssignOffsets(unplaced: seq<Entry>, dataOffset: nat, ghost items: seq<Item>) returns (entries: seq<Entry>)
    requires Collected(items) && Lists(unplaced, items) && dataOffset == DataOffset(items)
    requires forall k :: 0 <= k < |items| ==> unplaced[k].offset == 0
    ensures Lists(entries, items) && forall k :: 0 <= k < |items| ==> entries[k].offset == OffsetOf(items, k)
  {
    hide TableSize;
    entries := unplaced;
    var currentOffset := dataOffset;
    for i := 0 to |entries|
      invariant Lists(entries, items) && |entries| == |unplaced| && currentOffset == dataOffset + DataSize(items[..i])
      invariant forall k :: 0 <= k < |items| ==> entries[k].offset == if k < i then OffsetOf(items, k) else 0
    {
      assert items[..i + 1][..i] == items[..i];
      CollectedAt(items, i);
      if entries[i].item.kind == FILE {
        entries := entries[i := entries[i].(offset := currentOffset)];
        currentOffset := currentOffset + |entries[i].item.content|;
      }
    }
  }

  /** The loop that writes the records of the table. */
  method WriteTable(entries: seq<Entry>, head: seq<byte>, ghost items: seq<Item>) returns (output: seq<byte>)
    requires Small(items) && Lists(entries, items)
    requires forall k :: 0 <= k < |items| ==> entries[k].offset == OffsetOf(items, k)
    ensures output == head + Table(items, |items|)
  {
    hide Small, Le32, OffsetOf, TableSize;
    output := head;
    for i := 0 to |entries|
      invariant output == head + Table(items, i)
    {
      ItemFits(items, i);
      var x := entries[i].item;
      output := output + Le32(x.kind) + Le32(x.permissions) + Le32(|x.name| + 1) + Le32(entries[i].offset)
        + Le32(|x.content|);
      output := output + (x.name + [0]);
      assert output == head + Table(items, i) + Record(x, OffsetOf(items, i));
      assert output == head + (Table(items, i) + Record(x, OffsetOf(items, i)));
    }
  }

  /** The loop that writes the contents of the files. */
  method WriteData(entries: seq<Entry>, head: seq<byte>, ghost items: seq<Item>) returns (output: seq<byte>)
    requires Collected(items) && Lists(entries, items)
    ensures output == head + Data(items, |items|)
  {
    hide DataSize;
    output := head;
    for i := 0 to |entries|
      invariant output == head + Data(items, i)
    {
      CollectedAt(items, i);
      if entries[i].item.kind == FILE {
        output := output + entries[i].item.content;
      }
      assert output == head + Data(items, i) + items[i].content;
      assert output == head + (Data(items, i) + items[i].content);
    }
  }

  /** make-initrd from the collected entries on. */
  method WriteImage(items: seq<Item>) returns (output: seq<byte>)
    requires Collected(items) && Small(items)
    ensures output == Image(items)
  {
    hide Collected, Le32, Table, Data, TableSize, DataSize;
    var entries := seq(|items|, (i: int) requires 0 <= i < |items| => Entry(items[i], 0));
    var tableSize := SizeTable(entries, items);
    var dataOffset := HEADER_SIZE + tableSize;
    entries := AssignOffsets(entries, dataOffset, items);
    output := Le32(MAGIC) + Le32(VERSION) + Le32(|entries|) + Le32(dataOffset);
    output := WriteTable(entries, output, items);
    output := WriteData(entries, output, items);
  }

  lemma CollectedAt(items: seq<Item>, i: nat)
    requires Collected(items) && i < |items|
    ensures items[i].kind != FILE ==> items[i].content == []
    ensures items[i].name != [] && 0 !in items[i].name
  {
    assert items[i] in items;
  }
}
