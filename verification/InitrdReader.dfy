/**
  The reader of the initial ram disk: pointer walks over whatever memory holds, and what
  they find when memory holds an image that make-initrd wrote.
*/
module InitrdReader {
  import opened Common
  import opened Bytes
  import opened Initrd

  /** Memory, byte by byte. */
  type Mem = nat -> byte

  /** Pointer arithmetic is 32 bits wide. */
  function Plus(a: nat, b: nat): (n: nat) {
    (a + b) % WORD
  }

  /** A little-endian load of a packed field. */
  function Load(mem: Mem, a: nat): (w: u32) {
    FromLe32([mem(a), mem(a + 1), mem(a + 2), mem(a + 3)])
  }

  /** Four bytes, the lowest first. */
  function WordIn(mem: Mem, a: nat): (w: nat) {
    mem(a) + 0x100 * mem(a + 1) + 0x1_0000 * mem(a + 2) + 0x100_0000 * mem(a + 3)
  }

  /** initrd_t; null pointers are 0. */
  datatype Reader = Reader(base: nat, header: nat, entries: nat, data: nat)

  function EntryCount(mem: Mem, rd: Reader): (w: u32) {
    Load(mem, rd.header + 8)
  }

  function NameSize(mem: Mem, e: nat): (w: u32) {
    Load(mem, e + 8)
  }

  /** initrd_create; null data leaves the structure alone. */
  method Create(out: Reader, mem: Mem, data: nat) returns (rd: Reader)
    ensures data == 0 ==> rd == out
    ensures data != 0 ==> rd == Reader(data, data, Plus(data, HEADER_SIZE), Plus(data, Load(mem, data + 12)))
  {
    if data == 0 {
      return out;
    }
    rd := Reader(data, data, Plus(data, HEADER_SIZE), Plus(data, Load(mem, data + 12)));
  }

  /** initrd_check, the other way round. */
  predicate Good(mem: Mem, rd: Reader) {
    rd.header != 0 && rd.entries != 0 && Load(mem, rd.header) == MAGIC
  }

  /** Where the walk over `n` records ends. */
  function EntryAt(mem: Mem, entries: nat, n: nat): (a: nat) {
    if n == 0 then entries
    else
      var e := EntryAt(mem, entries, n - 1);
      Plus(Plus(e, NameSize(mem, e)), ENTRY_SIZE)
  }

  /** initrd_get_entry */
  method GetEntry(mem: Mem, rd: Reader, n: nat) returns (entry: Option<nat>)
    ensures entry == if Good(mem, rd) && n < EntryCount(mem, rd) then Some(EntryAt(mem, rd.entries, n)) else None
  {
    if !Good(mem, rd) {
      return None;
    }
    if n >= EntryCount(mem, rd) {
      return None;
    }
    var e := rd.entries;
    for i := 0 to n
      invariant e == EntryAt(mem, rd.entries, i)
    {
      e := Plus(Plus(e, NameSize(mem, e)), ENTRY_SIZE);
    }
    return Some(e);
  }

  /** Memory at `p` holds the C string `text`. */
  ghost predicate HoldsString(mem: Mem, p: nat, text: seq<byte>) {
    0 !in text && Holds(mem, p, text + [0])
  }

  ghost predicate Holds(mem: Mem, a: nat, bytes: seq<byte>) {
    forall k :: 0 <= k < |bytes| ==> Peek(mem, a, k) == bytes[k]
  }

  /** The byte `k` places behind `a`. */
  function Peek(mem: Mem, a: nat, k: nat): (b: byte) {
    mem(a + k)
  }

  /** The `n` bytes at `a` and at `b` agree. */
  ghost predicate Same(mem: Mem, a: nat, b: nat, n: nat) {
    forall k :: 0 <= k < n ==> Peek(mem, a, k) == Peek(mem, b, k)
  }

  /** strlen */
  method Strlen(mem: Mem, p: nat, ghost text: seq<byte>) returns (len: nat)
    requires HoldsString(mem, p, text)
    ensures len == |text|
  {
    StringBytes(mem, p, text);
    len := 0;
    while Peek(mem, p, len) != 0
      invariant len <= |text|
      decreases |text| - len
    {
      len := len + 1;
    }
  }

  lemma StringBytes(mem: Mem, p: nat, text: seq<byte>)
    requires HoldsString(mem, p, text)
    ensures Peek(mem, p, |text|) == 0
    ensures forall k :: 0 <= k < |text| ==> Peek(mem, p, k) == text[k] && Peek(mem, p, k) != 0
  {
    assert (text + [0])[|text|] == 0;
    forall k | 0 <= k < |text| ensures Peek(mem, p, k) == text[k] && Peek(mem, p, k) != 0 {
      assert (text + [0])[k] == text[k] && text[k] in text;
    }
  }

  /** memcmp, as far as being zero goes. */
  method SameBytes(mem: Mem, a: nat, b: nat, n: nat) returns (same: bool)
    ensures same <==> Same(mem, a, b, n)
  {
    for i := 0 to n
      invariant Same(mem, a, b, i)
    {
      if Peek(mem, a, i) != Peek(mem, b, i) {
        return false;
      }
    }
    return true;
  }

  /** The record at `e` carries this name. */
  ghost predicate Named(mem: Mem, e: nat, name: seq<byte>) {
    NameSize(mem, e) == (|name| + 1) % WORD && Holds(mem, Plus(e, ENTRY_SIZE), name)
  }

  /** The entry is the first of `count` records with this name, or there is none. */
  ghost predicate FirstNamed(mem: Mem, entries: nat, count: nat, name: seq<byte>, entry: Option<nat>) {
    if entry.None? then forall i :: 0 <= i < count ==> !Named(mem, EntryAt(mem, entries, i), name)
    else
      exists i ::
        0 <= i < count && entry.value == EntryAt(mem, entries, i) && Named(mem, EntryAt(mem, entries, i), name)
           && forall k :: 0 <= k < i ==> !Named(mem, EntryAt(mem, entries, k), name)
  }

  /** initrd_find_entry: the first record with the name that `path` points to. */
  method FindEntry(mem: Mem, rd: Reader, path: nat, ghost text: seq<byte>) returns (entry: Option<nat>)
    requires path != 0 ==> HoldsString(mem, path, text)
    ensures !Good(mem, rd) || path == 0 || text == [] ==> entry == None
    ensures Good(mem, rd) && path != 0 && text != [] ==>
      FirstNamed(mem, rd.entries, EntryCount(mem, rd), text, entry)
  {
    hide Named, HoldsString, Same, EntryAt, Good;
    if !Good(mem, rd) || path == 0 {
      return None;
    }
    var len := Strlen(mem, path, text);
    if len == 0 {
      return None;
    }
    for i := 0 to EntryCount(mem, rd)
      invariant forall k :: 0 <= k < i ==> !Named(mem, EntryAt(mem, rd.entries, k), text)
    {
      var e := GetEntry(mem, rd, i);
      WrongSize(mem, EntryAt(mem, rd.entries, i), text);
      if e.None? || NameSize(mem, e.value) != (len + 1) % WORD {
        continue;
      }
      var same := SameBytes(mem, Plus(e.value, ENTRY_SIZE), path, len);
      SameIsNamed(mem, e.value, path, text);
      if same {
        return e;
      }
    }
    return None;
  }

  lemma WrongSize(mem: Mem, e: nat, text: seq<byte>)
    ensures NameSize(mem, e) != (|text| + 1) % WORD ==> !Named(mem, e, text)
  {
  }

  lemma SameIsNamed(mem: Mem, e: nat, path: nat, text: seq<byte>)
    requires HoldsString(mem, path, text) && NameSize(mem, e) == (|text| + 1) % WORD
    ensures Named(mem, e, text) <==> Same(mem, Plus(e, ENTRY_SIZE), path, |text|)
  {
    StringBytes(mem, path, text);
  }

  /** initrd_get_len */
  method GetLen(mem: Mem, entry: Option<nat>) returns (len: nat)
    ensures len == if entry.None? then 0 else Load(mem, entry.value + 16)
    ensures entry.Some? ==> len == WordIn(mem, entry.value + 16)
  {
    return if entry.None? then 0 else Load(mem, entry.value + 16);
  }

  /** initrd_get_data */
  method GetData(mem: Mem, rd: Reader, entry: Option<nat>) returns (p: nat)
    ensures p == if !Good(mem, rd) || entry.None? then 0 else Plus(rd.base, Load(mem, entry.value + 12))
    ensures Good(mem, rd) && entry.Some? ==> p == (rd.base + WordIn(mem, entry.value + 12)) % 0x1_0000_0000
  {
    if !Good(mem, rd) || entry.None? {
      return 0;
    }
    return Plus(rd.base, Load(mem, entry.value + 12));
  }

  // ----- memory that holds an image

  lemma HoldsParts(mem: Mem, a: nat, x: seq<byte>, y: seq<byte>)
    requires Holds(mem, a, x + y)
    ensures Holds(mem, a, x) && Holds(mem, a + |x|, y)
  {
    forall k | 0 <= k < |x| ensures Peek(mem, a, k) == x[k] {
      assert (x + y)[k] == x[k];
    }
    forall k | 0 <= k < |y| ensures Peek(mem, a + |x|, k) == y[k] {
      assert Peek(mem, a, |x| + k) == (x + y)[|x| + k] == y[k];
    }
  }

  lemma LoadsWord(mem: Mem, a: nat, w: u32)
    requires Holds(mem, a, Le32(w))
    ensures Load(mem, a) == w
  {
    var bytes := Le32(w);
    assert Peek(mem, a, 0) == bytes[0] && Peek(mem, a, 1) == bytes[1] && Peek(mem, a, 2) == bytes[2] &&
      Peek(mem, a, 3) == bytes[3];
    assert [mem(a), mem(a + 1), mem(a + 2), mem(a + 3)] == bytes;
    Le32RoundTrip(w);
  }

  /** The fields of a record in memory. */
  lemma HoldsRecord(mem: Mem, a: nat, x: Item, offset: u32)
    requires |x.name| + 1 < WORD && |x.content| < WORD && Holds(mem, a, Record(x, offset))
    ensures Load(mem, a) == x.kind && Load(mem, a + 4) == x.permissions && NameSize(mem, a) == |x.name| + 1
    ensures Load(mem, a + 12) == offset && Load(mem, a + 16) == |x.content|
    ensures Holds(mem, a + ENTRY_SIZE, x.name + [0])
  {
    hide Holds, Le32, Load, NameSize;
    var w0, w1, w2, w3, w4 := Le32(x.kind), Le32(x.permissions), Le32(|x.name| + 1), Le32(offset), Le32(|x.content|);
    var rest := x.name + [0];
    assert Record(x, offset) == w0 + (w1 + (w2 + (w3 + (w4 + rest))));
    HoldsParts(mem, a, w0, w1 + (w2 + (w3 + (w4 + rest))));
    HoldsParts(mem, a + 4, w1, w2 + (w3 + (w4 + rest)));
    HoldsParts(mem, a + 8, w2, w3 + (w4 + rest));
    HoldsParts(mem, a + 12, w3, w4 + rest);
    HoldsParts(mem, a + 16, w4, rest);
    LoadsWord(mem, a, x.kind);
    LoadsWord(mem, a + 4, x.permissions);
    LoadsWord(mem, a + 8, |x.name| + 1);
    LoadsWord(mem, a + 12, offset);
    LoadsWord(mem, a + 16, |x.content|);
    NameSizeIs(mem, a);
  }

  lemma NameSizeIs(mem: Mem, a: nat)
    ensures NameSize(mem, a) == Load(mem, a + 8)
  {
  }

  lemma {:induction false} TableHolds(mem: Mem, a: nat, items: seq<Item>, n: nat, i: nat)
    requires Small(items) && i < n <= |items| && Holds(mem, a, Table(items, n))
    ensures |items[i].name| + 1 < WORD && |items[i].content| < WORD && OffsetOf(items, i) < WORD
    ensures Holds(mem, a + TableSize(items[..i]), Record(items[i], OffsetOf(items, i)))
    decreases n
  {
    hide Holds, TableSize, Record, OffsetOf;
    ItemFits(items, i);
    ItemFits(items, n - 1);
    HoldsParts(mem, a, Table(items, n - 1), Record(items[n - 1], OffsetOf(items, n - 1)));
    if i < n - 1 {
      TableHolds(mem, a, items, n - 1, i);
    }
  }

  lemma {:induction false} DataHolds(mem: Mem, a: nat, items: seq<Item>, n: nat, i: nat)
    requires i < n <= |items| && Holds(mem, a, Data(items, n))
    ensures Holds(mem, a + DataSize(items[..i]), items[i].content)
    decreases n
  {
    hide Holds, DataSize;
    HoldsParts(mem, a, Data(items, n - 1), items[n - 1].content);
    if i < n - 1 {
      DataHolds(mem, a, items, n - 1, i);
    }
  }

  /** The image of `items` lies at `base`, clear of address 0 and of the end of memory. */
  ghost predicate Loaded(mem: Mem, base: nat, items: seq<Item>) {
    Collected(items) && Small(items) && 0 < base && base + ImageSize(items) < WORD && Holds(mem, base, Image(items))
  }

  function ReaderOf(base: nat, items: seq<Item>): (rd: Reader) {
    Reader(base, base, base + HEADER_SIZE, base + DataOffset(items))
  }

  /** The three parts of a loaded image, and its header. */
  lemma LoadedParts(mem: Mem, base: nat, items: seq<Item>)
    requires Loaded(mem, base, items)
    ensures Load(mem, base) == MAGIC && Load(mem, base + 4) == VERSION
    ensures Load(mem, base + 8) == |items| && Load(mem, base + 12) == DataOffset(items)
    ensures Holds(mem, base + HEADER_SIZE, Table(items, |items|))
    ensures Holds(mem, base + DataOffset(items), Data(items, |items|))
  {
    hide Holds, Le32, Load, Table, Data, TableSize, DataSize, Collected;
    assert items[..|items|] == items;
    var h, t, d := Header(items), Table(items, |items|), Data(items, |items|);
    assert Image(items) == h + (t + d);
    HoldsParts(mem, base, h, t + d);
    HoldsParts(mem, base + HEADER_SIZE, t, d);
    var w0, w1, w2, w3 := Le32(MAGIC), Le32(VERSION), Le32(|items|), Le32(DataOffset(items));
    assert h == w0 + (w1 + (w2 + w3));
    HoldsParts(mem, base, w0, w1 + (w2 + w3));
    HoldsParts(mem, base + 4, w1, w2 + w3);
    HoldsParts(mem, base + 8, w2, w3);
    LoadsWord(mem, base, MAGIC);
    LoadsWord(mem, base + 4, VERSION);
    LoadsWord(mem, base + 8, |items|);
    LoadsWord(mem, base + 12, DataOffset(items));
  }

  /** initrd_create and initrd_check accept a loaded image. */
  lemma LoadedIsGood(mem: Mem, base: nat, items: seq<Item>)
    requires Loaded(mem, base, items)
    ensures Reader(base, base, Plus(base, HEADER_SIZE), Plus(base, Load(mem, base + 12))) == ReaderOf(base, items)
    ensures base != 0 && Good(mem, ReaderOf(base, items)) && EntryCount(mem, ReaderOf(base, items)) == |items|
  {
    hide Holds, Load, Table, Data, TableSize, DataSize, Collected;
    LoadedParts(mem, base, items);
    PrefixSmaller(items, 0);
  }

  /** Record `i` is found by walking, and reads back as it was collected. */
  lemma EntryRoundTrip(mem: Mem, base: nat, items: seq<Item>, i: nat)
    requires Loaded(mem, base, items) && i < |items|
    ensures var e := EntryAt(mem, base + HEADER_SIZE, i);
      && e == base + HEADER_SIZE + TableSize(items[..i]) && e + RecordSize(items[i]) < WORD
      && Load(mem, e) == items[i].kind && Load(mem, e + 4) == items[i].permissions
      && NameSize(mem, e) == |items[i].name| + 1 && Holds(mem, e + ENTRY_SIZE, items[i].name + [0])
      && Load(mem, e + 12) == OffsetOf(items, i) && Load(mem, e + 16) == |items[i].content|
  {
    hide Holds, Load, TableSize, Loaded, NameSize, OffsetOf, Record;
    RecordIsHeld(mem, base, items, i);
    WalkReaches(mem, base, items, i);
  }

  /** Where record `i` lies, and what lies there. */
  lemma RecordIsHeld(mem: Mem, base: nat, items: seq<Item>, i: nat)
    requires Loaded(mem, base, items) && i < |items|
    ensures var e := base + HEADER_SIZE + TableSize(items[..i]);
      && e + RecordSize(items[i]) < WORD
      && Load(mem, e) == items[i].kind && Load(mem, e + 4) == items[i].permissions
      && NameSize(mem, e) == |items[i].name| + 1 && Holds(mem, e + ENTRY_SIZE, items[i].name + [0])
      && Load(mem, e + 12) == OffsetOf(items, i) && Load(mem, e + 16) == |items[i].content|
  {
    hide Holds, Load, Table, Data, TableSize, DataSize, Collected, NameSize, OffsetOf, Image, Le32, Record;
    LoadedParts(mem, base, items);
    TableHolds(mem, base + HEADER_SIZE, items, |items|, i);
    HoldsRecord(mem, base + HEADER_SIZE + TableSize(items[..i]), items[i], OffsetOf(items, i));
    PrefixSmaller(items, i + 1);
    TableNext(items, i);
  }

  /** One step of the walk, where nothing wraps. */
  lemma WalkStep(mem: Mem, entries: nat, i: nat)
    requires EntryAt(mem, entries, i) + NameSize(mem, EntryAt(mem, entries, i)) + ENTRY_SIZE < WORD
    ensures EntryAt(mem, entries, i + 1)
      == EntryAt(mem, entries, i) + NameSize(mem, EntryAt(mem, entries, i)) + ENTRY_SIZE
  {
    hide NameSize, Plus;
    var e := EntryAt(mem, entries, i);
    PlusSmall(e, NameSize(mem, e));
    PlusSmall(e + NameSize(mem, e), ENTRY_SIZE);
  }

  lemma PlusSmall(a: nat, b: nat)
    requires a + b < WORD
    ensures Plus(a, b) == a + b
  {
  }

  lemma FirstEntry(mem: Mem, entries: nat)
    ensures EntryAt(mem, entries, 0) == entries
  {
  }

  /** The walk over the name sizes reaches record `i`. */
  lemma {:induction false} WalkReaches(mem: Mem, base: nat, items: seq<Item>, i: nat)
    requires Loaded(mem, base, items) && i < |items|
    ensures EntryAt(mem, base + HEADER_SIZE, i) == base + HEADER_SIZE + TableSize(items[..i])
    decreases i
  {
    hide Holds, Load, TableSize, Loaded, NameSize, OffsetOf, Record, EntryAt;
    if i > 0 {
      WalkReaches(mem, base, items, i - 1);
      RecordIsHeld(mem, base, items, i - 1);
      TableNext(items, i - 1);
      WalkStep(mem, base + HEADER_SIZE, i - 1);
    } else {
      FirstEntry(mem, base + HEADER_SIZE);
      NoTable(items);
    }
  }

  lemma TableNext(items: seq<Item>, i: nat)
    requires i < |items|
    ensures TableSize(items[..i + 1]) == TableSize(items[..i]) + RecordSize(items[i])
    ensures DataSize(items[..i + 1]) == DataSize(items[..i]) + |items[i].content|
  {
    assert items[..i + 1][..i] == items[..i];
  }

  lemma NoTable(items: seq<Item>)
    ensures TableSize(items[..0]) == 0 && DataSize(items[..0]) == 0
  {
  }

  /** The data pointer of a file entry leads to the bytes of the file. */
  lemma DataRoundTrip(mem: Mem, base: nat, items: seq<Item>, i: nat)
    requires Loaded(mem, base, items) && i < |items| && items[i].kind == FILE
    ensures var p := Plus(base, Load(mem, EntryAt(mem, base + HEADER_SIZE, i) + 12));
      p == base + DataOffset(items) + DataSize(items[..i]) && Holds(mem, p, items[i].content)
  {
    hide Holds, Load, Table, Data, TableSize, DataSize, Collected;
    EntryRoundTrip(mem, base, items, i);
    LoadedParts(mem, base, items);
    DataHolds(mem, base + DataOffset(items), items, |items|, i);
    PrefixSmaller(items, i);
  }

  /** A name is found at a record if and only if it is that record's name. */
  lemma NamedExactly(mem: Mem, base: nat, items: seq<Item>, i: nat, name: seq<byte>)
    requires Loaded(mem, base, items) && i < |items| && 0 !in name && |name| + 1 < WORD
    ensures Named(mem, EntryAt(mem, base + HEADER_SIZE, i), name) <==> items[i].name == name
  {
    hide Holds, Load, TableSize, DataSize, Loaded, Named, EntryAt, NameSize;
    EntryRoundTrip(mem, base, items, i);
    NamedAt(mem, EntryAt(mem, base + HEADER_SIZE, i), items[i].name, name);
  }

  lemma NamedAt(mem: Mem, e: nat, x: seq<byte>, name: seq<byte>)
    requires NameSize(mem, e) == |x| + 1 && Holds(mem, e + ENTRY_SIZE, x + [0])
    requires e + ENTRY_SIZE < WORD && |name| + 1 < WORD
    ensures Named(mem, e, name) <==> x == name
  {
    HoldsParts(mem, e + ENTRY_SIZE, x, [0]);
    if Named(mem, e, name) {
      SameContents(mem, e + ENTRY_SIZE, x, name);
    }
  }

  lemma SameContents(mem: Mem, a: nat, x: seq<byte>, y: seq<byte>)
    requires |x| == |y| && Holds(mem, a, x) && Holds(mem, a, y)
    ensures x == y
  {
    forall k | 0 <= k < |x| ensures x[k] == y[k] {
      assert Peek(mem, a, k) == x[k];
    }
  }

  /** What kmain does to read a file: in a loaded image with distinct names exactly the item of that
      name is found, with the length and the bytes of its content; nothing when there is none. */
  method Lookup(mem: Mem, base: nat, ghost items: seq<Item>, path: nat, ghost text: seq<byte>)
    returns (entry: Option<nat>, len: nat, data: nat)
    requires Loaded(mem, base, items) && path != 0 && HoldsString(mem, path, text) && text != [] && |text| + 1 < WORD
    requires forall i, k :: 0 <= i < k < |items| ==> items[i].name != items[k].name
    ensures entry.None? <==> forall i :: 0 <= i < |items| ==> items[i].name != text
    ensures forall i :: 0 <= i < |items| && items[i].name == text ==>
      && entry == Some(EntryAt(mem, base + HEADER_SIZE, i)) && len == |items[i].content|
      && (items[i].kind == FILE ==> Holds(mem, data, items[i].content))
    ensures entry.None? ==> len == 0 && data == 0
  {
    hide Named, FirstNamed, Holds, HoldsString, Loaded, EntryAt, Load, Good, EntryCount, TableSize, DataSize;
    TextHasNoNul(mem, path, text);
    LoadedIsGood(mem, base, items);
    var rd := Create(Reader(0, 0, 0, 0), mem, base);
    entry := FindEntry(mem, rd, path, text);
    len := GetLen(mem, entry);
    data := GetData(mem, rd, entry);
    FoundExactly(mem, base, items, text, entry);
    forall i | 0 <= i < |items| && items[i].name == text
      ensures len == |items[i].content| && (items[i].kind == FILE ==> Holds(mem, data, items[i].content))
    {
      EntryRoundTrip(mem, base, items, i);
      if items[i].kind == FILE {
        DataRoundTrip(mem, base, items, i);
      }
    }
  }

  lemma FoundExactly(mem: Mem, base: nat, items: seq<Item>, text: seq<byte>, entry: Option<nat>)
    requires Loaded(mem, base, items) && 0 !in text && |text| + 1 < WORD
    requires forall i, k :: 0 <= i < k < |items| ==> items[i].name != items[k].name
    requires FirstNamed(mem, base + HEADER_SIZE, |items|, text, entry)
    ensures entry.None? <==> forall i :: 0 <= i < |items| ==> items[i].name != text
    ensures forall i :: 0 <= i < |items| && items[i].name == text ==> entry == Some(EntryAt(mem, base + HEADER_SIZE, i))
  {
    hide Named, Loaded, EntryAt;
    forall i | 0 <= i < |items|
      ensures Named(mem, EntryAt(mem, base + HEADER_SIZE, i), text) <==> items[i].name == text
    {
      NamedExactly(mem, base, items, i, text);
    }
    if entry.Some? {
      var i :| 0 <= i < |items| && entry.value == EntryAt(mem, base + HEADER_SIZE, i)
               && Named(mem, EntryAt(mem, base + HEADER_SIZE, i), text);
      assert items[i].name == text;
      assert forall k :: 0 <= k < |items| && items[k].name == text ==> k == i;
    }
  }

  lemma TextHasNoNul(mem: Mem, p: nat, text: seq<byte>)
    requires HoldsString(mem, p, text)
    ensures 0 !in text
  {
  }

  /** Only directories among the items from `a` up to `b`. */
  ghost predicate NoFiles(items: seq<Item>, a: nat, b: nat) {
    forall k :: a <= k < b && k < |items| ==> items[k].kind == DIRECTORY
  }

  lemma {:induction false} NoFilesNoData(items: seq<Item>, a: nat, b: nat)
    requires Collected(items) && a <= b <= |items| && NoFiles(items, a, b)
    ensures DataSize(items[..b]) == DataSize(items[..a])
    decreases b
  {
    if a < b {
      NoFilesNoData(items, a, b - 1);
      assert items[..b][..b - 1] == items[..b - 1];
      assert items[b - 1] in items;
    }
  }

  /** The recorded offsets tile the image: the first file starts at the data offset, each file ends
      where the next one starts, the last one ends with the image. */
  lemma RegionsTile(items: seq<Item>, i: nat, j: nat)
    requires Collected(items) && i < |items| && items[i].kind == FILE && i < j <= |items|
    ensures NoFiles(items, 0, i) ==> OffsetOf(items, i) == DataOffset(items)
    ensures NoFiles(items, i + 1, j) && j < |items| && items[j].kind == FILE ==>
      OffsetOf(items, i) + |items[i].content| == OffsetOf(items, j)
    ensures NoFiles(items, i + 1, |items|) ==> OffsetOf(items, i) + |items[i].content| == ImageSize(items)
  {
    hide TableSize, DataSize;
    TableNext(items, i);
    NoTable(items);
    assert items[..|items|] == items;
    if NoFiles(items, 0, i) {
      NoFilesNoData(items, 0, i);
    }
    if NoFiles(items, i + 1, j) {
      NoFilesNoData(items, i + 1, j);
    }
    if NoFiles(items, i + 1, |items|) {
      NoFilesNoData(items, i + 1, |items|);
    }
  }

  // ----- the format, byte by byte

  /** Where record `i` lies: behind a header of 16 bytes and records of 20 bytes and a name each. */
  function RecordStart(items: seq<Item>, i: nat): (a: nat)
    requires i <= |items|
  {
    if i == 0 then 16 else RecordStart(items, i - 1) + 20 + |items[i - 1].name| + 1
  }

  /** Where the content of item `i` lies: behind all records and the contents before it. */
  function ContentStart(items: seq<Item>, i: nat): (a: nat)
    requires i <= |items|
  {
    if i == 0 then RecordStart(items, |items|) else ContentStart(items, i - 1) + |items[i - 1].content|
  }

  lemma {:induction false} StartsAre(items: seq<Item>, i: nat)
    requires i <= |items|
    ensures RecordStart(items, i) == HEADER_SIZE + TableSize(items[..i])
    decreases i
  {
    if i > 0 {
      StartsAre(items, i - 1);
      TableNext(items, i - 1);
    } else {
      NoTable(items);
    }
  }

  lemma {:induction false} ContentsAre(items: seq<Item>, i: nat)
    requires i <= |items|
    ensures ContentStart(items, i) == DataOffset(items) + DataSize(items[..i])
    decreases i
  {
    if i > 0 {
      ContentsAre(items, i - 1);
      TableNext(items, i - 1);
    } else {
      NoTable(items);
      StartsAre(items, |items|);
      assert items[..|items|] == items;
    }
  }

  /** What a word of the header or of a record is, whoever reads it. */
  lemma LoadIsWord(mem: Mem, a: nat)
    ensures Load(mem, a) == WordIn(mem, a)
  {
  }

  /** The reader takes what it is given for an image if and only if the magic number is there. */
  lemma GoodExactly(mem: Mem, rd: Reader)
    ensures Good(mem, rd) <==> rd.header != 0 && rd.entries != 0 && WordIn(mem, rd.header) == 0x4755_4D4D
    ensures EntryCount(mem, rd) == WordIn(mem, rd.header + 8)
  {
    hide Load, WordIn;
    LoadIsWord(mem, rd.header);
    LoadIsWord(mem, rd.header + 8);
  }

  /** One record of the walk: its 20 bytes and its name, in 32-bit arithmetic. */
  lemma WalkExactly(mem: Mem, entries: nat, n: nat)
    ensures EntryAt(mem, entries, 0) == entries
    ensures var e := EntryAt(mem, entries, n);
      EntryAt(mem, entries, n + 1) == (e + WordIn(mem, e + 8) + 20) % 0x1_0000_0000
  {
    hide Load, WordIn;
    LoadIsWord(mem, EntryAt(mem, entries, n) + 8);
    SumWraps(EntryAt(mem, entries, n), NameSize(mem, EntryAt(mem, entries, n)), 20);
  }

  lemma SumWraps(a: nat, b: nat, c: nat)
    ensures Plus(Plus(a, b), c) == (a + b + c) % 0x1_0000_0000
  {
  }

  /** The header of an image, field by field. */
  lemma HeaderLayout(mem: Mem, base: nat, items: seq<Item>)
    requires Loaded(mem, base, items)
    ensures WordIn(mem, base) == 0x4755_4D4D && WordIn(mem, base + 4) == 1
    ensures WordIn(mem, base + 8) == |items| && WordIn(mem, base + 12) == RecordStart(items, |items|)
  {
    hide Loaded, Load, WordIn, DataSize, TableSize;
    LoadedParts(mem, base, items);
    StartsAre(items, |items|);
    assert items[..|items|] == items;
    LoadIsWord(mem, base);
    LoadIsWord(mem, base + 4);
    LoadIsWord(mem, base + 8);
    LoadIsWord(mem, base + 12);
  }

  /** Record `i` of an image, field by field. */
  lemma RecordLayout(mem: Mem, base: nat, items: seq<Item>, i: nat)
    requires Loaded(mem, base, items) && i < |items|
    ensures var e, x := base + RecordStart(items, i), items[i];
      && WordIn(mem, e) == x.kind && WordIn(mem, e + 4) == x.permissions && WordIn(mem, e + 8) == |x.name| + 1
      && WordIn(mem, e + 12) == (if x.kind == 2 then ContentStart(items, i) else 0)
      && WordIn(mem, e + 16) == |x.content| && Holds(mem, e + 20, x.name + [0])
  {
    hide Loaded, Load, WordIn, DataSize, TableSize, Holds, DataOffset, RecordSize, RecordStart, ContentStart;
    var e := base + RecordStart(items, i);
    StartsAre(items, i);
    ContentsAre(items, i);
    RecordIsHeld(mem, base, items, i);
    LoadIsWord(mem, e);
    LoadIsWord(mem, e + 4);
    LoadIsWord(mem, e + 8);
    LoadIsWord(mem, e + 12);
    LoadIsWord(mem, e + 16);
  }

  /** The content of file `i` lies where its record says. */
  lemma ContentLayout(mem: Mem, base: nat, items: seq<Item>, i: nat)
    requires Loaded(mem, base, items) && i < |items| && items[i].kind == 2
    ensures Holds(mem, base + ContentStart(items, i), items[i].content)
  {
    hide Loaded, Load, DataSize, Holds, DataOffset, ContentStart, EntryAt, Plus;
    ContentsAre(items, i);
    DataRoundTrip(mem, base, items, i);
  }
}
