/**
 * Chunk records of the C++ generation (src/director/chunk.cpp): the list
 * chunk's offset table and item views, the config chunk's checksum and
 * unprotection, and the initial map and memory map records.
 */
module DirectorChunk {
  import opened Bytes
  import opened Wrappers
  import opened Stream
  import DirectorUtil

  // ------------------------------------------------------------ list chunks

  /** Where item i ends, relative to the list: the next item's offset, or `itemsLen` for the last one. */
  function ItemEnd(table: seq<nat>, itemsLen: nat, i: nat): nat
    requires i < |table|
  {
    if i == |table| - 1 then itemsLen else table[i + 1]
  }

  /**
   * The view `readItems` makes of item i: it starts at the item's offset
   * from the list and is as long as the size_t difference to where the item
   * ends, which wraps around when the next offset is smaller.
   */
  function ItemView(data: seq<byte>, listOffset: nat, table: seq<nat>, itemsLen: nat, i: nat): (v: ByteView)
    requires i < |table|
    ensures v.buffer == data && v.start == listOffset + table[i]
    ensures table[i] <= ItemEnd(table, itemsLen, i) < table[i] + 0x1_0000_0000_0000_0000 ==>
      v.size == ItemEnd(table, itemsLen, i) - table[i]
  {
    ByteView(data, listOffset + table[i], U64(ItemEnd(table, itemsLen, i) - table[i]))
  }

  /** The total size of a run of views. */
  function SizeSum(items: seq<ByteView>): nat
  {
    if |items| == 0 then 0 else SizeSum(items[..|items| - 1]) + items[|items| - 1].size
  }

  lemma SizeSumSnoc(items: seq<ByteView>, n: nat)
    requires n < |items|
    ensures SizeSum(items[..n + 1]) == SizeSum(items[..n]) + items[n].size
  {
    assert items[..n + 1][..n] == items[..n];
  }

  /** A prefix of the views is never longer than all of them. */
  lemma {:induction false} SizeSumPrefix(items: seq<ByteView>, n: nat)
    requires n <= |items|
    ensures SizeSum(items[..n]) <= SizeSum(items)
    decreases |items| - n
  {
    if n < |items| {
      SizeSumSnoc(items, n);
      SizeSumPrefix(items, n + 1);
      assert items[..|items|] == items;
    } else {
      assert items[..n] == items;
    }
  }

  /** A table whose offsets never decrease. */
  predicate Ascending(table: seq<nat>)
  {
    forall i, j :: 0 <= i <= j < |table| ==> table[i] <= table[j]
  }

  /** The offsets `updateOffsets` writes: item i starts where the items before it end, in uint32. */
  function PrefixOffsets(items: seq<ByteView>): (r: seq<nat>)
    ensures |r| == |items|
  {
    seq(|items|, i requires 0 <= i < |items| => U32(SizeSum(items[..i])))
  }

  /**
   * Read back from an ascending table that stays within `itemsLen`, the
   * items are as long together as the list from the first offset to
   * `itemsLen`: each item ends where the next one starts.
   */
  lemma {:induction false} ItemsTile(data: seq<byte>, listOffset: nat, table: seq<nat>, itemsLen: nat, items: seq<ByteView>)
    requires |table| > 0 && Ascending(table) && table[|table| - 1] <= itemsLen
    requires itemsLen <= UINT32_MAX
    requires |items| == |table|
    requires forall i :: 0 <= i < |items| ==> items[i] == ItemView(data, listOffset, table, itemsLen, i)
    ensures forall i :: 0 <= i < |items| ==> items[i].start + items[i].size == listOffset + ItemEnd(table, itemsLen, i)
    ensures SizeSum(items) == itemsLen - table[0]
  {
    forall i | 0 <= i < |items|
      ensures items[i].start + items[i].size == listOffset + ItemEnd(table, itemsLen, i)
    {
      var v := ItemView(data, listOffset, table, itemsLen, i);
      assert table[i] <= ItemEnd(table, itemsLen, i);
    }
    var n := 0;
    while n < |items|
      invariant 0 <= n <= |items|
      invariant SizeSum(items[..n]) == (if n == 0 then 0 else ItemEnd(table, itemsLen, n - 1) - table[0])
    {
      SizeSumSnoc(items, n);
      n := n + 1;
    }
    assert items[..|items|] == items;
  }

  /** Prefix totals grow with the prefix. */
  lemma SizeSumMonotone(items: seq<ByteView>, i: nat, j: nat)
    requires i <= j <= |items|
    ensures SizeSum(items[..i]) <= SizeSum(items[..j])
  {
    SizeSumPrefix(items[..j], i);
    assert items[..j][..i] == items[..i];
  }

  /** Without wrap-around, the offset `updateOffsets` gives item i is the total of the items before it. */
  lemma PrefixOffsetAt(items: seq<ByteView>, i: nat)
    requires i < |items| && SizeSum(items) <= UINT32_MAX
    ensures PrefixOffsets(items)[i] == SizeSum(items[..i])
  {
    SizeSumPrefix(items, i);
    U32InRange(SizeSum(items[..i]));
  }

  /** The offsets `updateOffsets` writes never decrease while the items fit in a uint32 list. */
  lemma UpdatedOffsetsAscend(items: seq<ByteView>)
    requires SizeSum(items) <= UINT32_MAX
    ensures Ascending(PrefixOffsets(items))
  {
    forall i, j | 0 <= i <= j < |items|
      ensures PrefixOffsets(items)[i] <= PrefixOffsets(items)[j]
    {
      PrefixOffsetAt(items, i);
      PrefixOffsetAt(items, j);
      SizeSumMonotone(items, i, j);
    }
  }

  /** Item i of the laid-out list spans exactly its own size. */
  lemma UpdatedItemSpan(items: seq<ByteView>, i: nat)
    requires i < |items| && SizeSum(items) <= UINT32_MAX
    ensures ItemEnd(PrefixOffsets(items), SizeSum(items), i) - PrefixOffsets(items)[i] == items[i].size
  {
    PrefixOffsetAt(items, i);
    SizeSumSnoc(items, i);
    if i < |items| - 1 {
      PrefixOffsetAt(items, i + 1);
    } else {
      assert items[..i + 1] == items;
    }
  }

  /**
   * The round trip of `updateOffsets`: when the items fit in a uint32 list,
   * the offsets it writes ascend, and reading them back gives every item
   * its own size again.
   */
  lemma UpdatedOffsetsReadBack(items: seq<ByteView>)
    requires SizeSum(items) <= UINT32_MAX
    ensures Ascending(PrefixOffsets(items))
    ensures forall i :: 0 <= i < |items| ==>
      ItemEnd(PrefixOffsets(items), SizeSum(items), i) - PrefixOffsets(items)[i] == items[i].size
  {
    UpdatedOffsetsAscend(items);
    forall i | 0 <= i < |items|
      ensures ItemEnd(PrefixOffsets(items), SizeSum(items), i) - PrefixOffsets(items)[i] == items[i].size
    {
      UpdatedItemSpan(items, i);
    }
  }

  /** The text in a length-prefixed item: a length byte, then that many bytes read as a C string. */
  function PascalText(bytes: seq<byte>): (r: string)
    ensures |bytes| == 0 ==> r == ""
    ensures |bytes| > 0 && 1 + bytes[0] > |bytes| ==> r == ""
  {
    if |bytes| == 0 || 1 + bytes[0] > |bytes| then "" else CString(bytes[1..1 + bytes[0]])
  }

  /** A string of up to 255 non-NUL bytes, written after its length, reads back unchanged. */
  lemma PascalTextRoundTrip(s: seq<byte>, rest: seq<byte>)
    requires |s| < 256 && forall i :: 0 <= i < |s| ==> s[i] != 0
    ensures PascalText([|s|] + s + rest) == CharsOf(s)
  {
    var b := [|s|] + s + rest;
    assert b[1..1 + |s|] == s;
    CStringOfPlainText(s);
  }

  /** A list chunk: an offset table followed by the items it cuts the list into. */
  class ListChunk {
    var dataOffset: nat
    var offsetTable: seq<nat>
    var itemsLen: nat
    var itemEndianness: bool
    var items: seq<ByteView>

    constructor ()
      ensures dataOffset == 0 && offsetTable == [] && itemsLen == 0 && items == []
    {
      dataOffset := 0;
      offsetTable := [];
      itemsLen := 0;
      itemEndianness := BigEndian;
      items := [];
    }

    /** There is an item for every entry of the offset table, as after `readItems`. */
    predicate Valid()
      reads this`items, this`offsetTable
    {
      |items| == |offsetTable|
    }

    method ReadHeader(stream: ReadStream)
      modifies this`dataOffset, stream`pos
      ensures dataOffset == UintOrZero(stream.data, old(stream.pos), 4, stream.endianness)
      ensures stream.pos == old(stream.pos) + 4
    {
      dataOffset := stream.ReadUint32();
    }

    /** The table at `dataOffset`: a uint16 count, then that many uint32 offsets. */
    method ReadOffsetTable(stream: ReadStream)
      modifies this`offsetTable, stream`pos
      ensures |offsetTable| == UintOrZero(stream.data, dataOffset, 2, stream.endianness)
      ensures forall i :: 0 <= i < |offsetTable| ==>
        offsetTable[i] == UintOrZero(stream.data, dataOffset + 2 + 4 * i, 4, stream.endianness)
      ensures stream.pos == dataOffset + 2 + 4 * |offsetTable|
    {
      stream.Seek(dataOffset);
      var len := stream.ReadUint16();
      var table := [];
      var i := 0;
      while i < len
        invariant 0 <= i <= len && |table| == i
        invariant stream.pos == dataOffset + 2 + 4 * i
        invariant forall k :: 0 <= k < i ==>
          table[k] == UintOrZero(stream.data, dataOffset + 2 + 4 * k, 4, stream.endianness)
      {
        var offset := stream.ReadUint32();
        table := table + [offset];
        i := i + 1;
      }
      offsetTable := table;
    }

    /** `itemsLen`, then one view per table entry, measured from just after `itemsLen`. */
    method ReadItems(stream: ReadStream)
      modifies this`itemsLen, this`itemEndianness, this`items, stream`pos
      ensures itemsLen == UintOrZero(stream.data, old(stream.pos), 4, stream.endianness)
      ensures itemEndianness == stream.endianness
      ensures |items| == |offsetTable|
      ensures forall i :: 0 <= i < |items| ==>
        items[i] == ItemView(stream.data, old(stream.pos) + 4, offsetTable, itemsLen, i)
    {
      var len := stream.ReadUint32();
      var listOffset := stream.pos;
      var views := [];
      var i := 0;
      while i < |offsetTable|
        invariant 0 <= i <= |offsetTable| && |views| == i
        invariant forall k :: 0 <= k < i ==>
          views[k] == ItemView(stream.data, listOffset, offsetTable, len, k)
      {
        var offset := offsetTable[i];
        var nextOffset := if i == |offsetTable| - 1 then len else offsetTable[i + 1];
        stream.Seek(listOffset + offset);
        var view := stream.ReadByteView(U64(nextOffset as int - offset));
        views := views + [view];
        i := i + 1;
      }
      itemsLen := len;
      itemEndianness := stream.endianness;
      items := views;
    }

    method Read(stream: ReadStream)
      modifies this`dataOffset, this`offsetTable, this`itemsLen, this`itemEndianness, this`items, stream`pos
      ensures Valid()
      ensures dataOffset == UintOrZero(stream.data, old(stream.pos), 4, stream.endianness)
      ensures |offsetTable| == UintOrZero(stream.data, dataOffset, 2, stream.endianness)
      ensures forall i :: 0 <= i < |offsetTable| ==>
        offsetTable[i] == UintOrZero(stream.data, dataOffset + 2 + 4 * i, 4, stream.endianness)
      ensures itemsLen == UintOrZero(stream.data, dataOffset + 2 + 4 * |offsetTable|, 4, stream.endianness)
      ensures forall i :: 0 <= i < |items| ==>
        items[i] == ItemView(stream.data, dataOffset + 6 + 4 * |offsetTable|, offsetTable, itemsLen, i)
    {
      ReadHeader(stream);
      ReadOffsetTable(stream);
      ReadItems(stream);
    }

    /** Item `index` as a string; "" for an index past the table. */
    method ReadString(index: nat) returns (r: Option<string>)
      requires Valid()
      ensures index >= |offsetTable| ==> r == Some("")
      ensures index < |offsetTable| ==> (r.Some? <==> items[index].Inside())
      ensures index < |offsetTable| && r.Some? ==> r.value == CString(items[index].Contents().value)
    {
      if index >= |offsetTable| {
        return Some("");
      }
      var bytes := items[index].Contents();
      if bytes.None? {
        return None;
      }
      var stream := new ReadStream(bytes.value, itemEndianness);
      assert bytes.value[0..|bytes.value|] == bytes.value;
      var s := stream.ReadString(stream.Size());
      r := Some(s);
    }

    /** Item `index` as a length-prefixed string; "" for an index past the table or an empty item. */
    method ReadPascalString(index: nat) returns (r: Option<string>)
      requires Valid()
      ensures index >= |offsetTable| ==> r == Some("")
      ensures index < |offsetTable| ==> (r.Some? <==> items[index].Inside())
      ensures index < |offsetTable| && r.Some? ==> r.value == PascalText(items[index].Contents().value)
    {
      if index >= |offsetTable| {
        return Some("");
      }
      var bytes := items[index].Contents();
      if bytes.None? {
        return None;
      }
      var stream := new ReadStream(bytes.value, itemEndianness);
      if stream.Size() == 0 {
        return Some("");
      }
      var s := stream.ReadPascalString();
      r := Some(s);
    }

    /** The uint16 at the start of item `index`; 0 for an index past the table. */
    method ReadUint16(index: nat) returns (r: Option<nat>)
      requires Valid()
      ensures index >= |offsetTable| ==> r == Some(0)
      ensures index < |offsetTable| ==> (r.Some? <==> items[index].Inside())
      ensures index < |offsetTable| && r.Some? ==> r.value == UintOrZero(items[index].Contents().value, 0, 2, itemEndianness)
    {
      if index >= |offsetTable| {
        return Some(0);
      }
      var bytes := items[index].Contents();
      if bytes.None? {
        return None;
      }
      var stream := new ReadStream(bytes.value, itemEndianness);
      var v := stream.ReadUint16();
      r := Some(v);
    }

    /** The uint32 at the start of item `index`; 0 for an index past the table. */
    method ReadUint32(index: nat) returns (r: Option<nat>)
      requires Valid()
      ensures index >= |offsetTable| ==> r == Some(0)
      ensures index < |offsetTable| ==> (r.Some? <==> items[index].Inside())
      ensures index < |offsetTable| && r.Some? ==> r.value == UintOrZero(items[index].Contents().value, 0, 4, itemEndianness)
    {
      if index >= |offsetTable| {
        return Some(0);
      }
      var bytes := items[index].Contents();
      if bytes.None? {
        return None;
      }
      var stream := new ReadStream(bytes.value, itemEndianness);
      var v := stream.ReadUint32();
      r := Some(v);
    }

    /** Lays the items out back to back: each offset is the uint32 total of the items before it. */
    method UpdateOffsets()
      requires Valid()
      modifies this`offsetTable, this`itemsLen
      ensures offsetTable == PrefixOffsets(items)
      ensures itemsLen == U32(SizeSum(items))
    {
      var offset := 0;
      var i := 0;
      while i < |offsetTable|
        invariant 0 <= i <= |offsetTable| == |items|
        invariant offset == U32(SizeSum(items[..i]))
        invariant forall k :: 0 <= k < i ==> offsetTable[k] == U32(SizeSum(items[..k]))
      {
        offsetTable := offsetTable[i := offset];
        SizeSumSnoc(items, i);
        ModAdd(SizeSum(items[..i]), items[i].size);
        offset := U32(offset + items[i].size);
        i := i + 1;
      }
      assert items[..i] == items;
      itemsLen := offset;
    }

    function HeaderSize(): nat { 4 }

    function OffsetTableSize(): (r: nat)
      reads this`offsetTable
      ensures r == 2 + 4 * |offsetTable|
    {
      2 + 4 * |offsetTable|
    }

    method ItemsSize() returns (r: nat)
      requires Valid()
      modifies this`offsetTable, this`itemsLen
      ensures offsetTable == PrefixOffsets(items) && itemsLen == U32(SizeSum(items))
      ensures r == 4 + itemsLen
    {
      UpdateOffsets();
      r := 4 + itemsLen;
    }

    /**
     * The number of bytes `write` emits: the header, the offset table and
     * the items after `updateOffsets` has laid them out. Unless the items
     * overflow a uint32 list, that is the items' own total plus the tables.
     */
    method Size() returns (r: nat)
      requires Valid()
      modifies this`offsetTable, this`itemsLen
      ensures offsetTable == PrefixOffsets(items) && itemsLen == U32(SizeSum(items))
      ensures r == HeaderSize() + 2 + 4 * |items| + 4 + itemsLen
      ensures SizeSum(items) <= UINT32_MAX ==> r == 10 + 4 * |items| + SizeSum(items)
    {
      var len := 0;
      len := len + HeaderSize();
      len := len + OffsetTableSize();
      var itemsSize := ItemsSize();
      len := len + itemsSize;
      r := len;
    }
  }

  /** Adding after a uint32 conversion wraps to the same value as adding first. */
  lemma ModAdd(a: int, b: int)
    ensures U32(U32(a) + b) == U32(a + b)
  {
    var m := 0x1_0000_0000;
    var q := a / m;
    assert a == q * m + U32(a);
    assert a + b == U32(a) + b + q * m;
  }

  // ----------------------------------------------------------- config chunks

  /**
   * The fields of a config chunk (DRCF/VWCF). The uint8 fields are bytes and
   * the uint16 comment style a nat; the others hold the signed values the
   * reader produced.
   */
  datatype Config = Config(
    len: int, fileVersion: int, movieTop: int, movieLeft: int, movieBottom: int, movieRight: int,
    minMember: int, maxMember: int, field9: int, field10: int,
    preD7field11: int, D7stageColorG: byte, D7stageColorB: byte,
    commentFont: int, commentSize: int, commentStyle: nat,
    preD7stageColor: int, D7stageColorIsRGB: byte, D7stageColorR: byte,
    bitDepth: int, field17: byte, field18: byte, field19: int, directorVersion: int,
    field21: int, field22: int, field23: int, field24: int, field25: int, field26: byte,
    frameRate: int, platform: int, protection: int, field29: int)

  /** The product version the config's internal version number stands for (an int16 passed as unsigned). */
  function Version(c: Config): nat
  {
    DirectorUtil.HumanVersion(U32(c.directorVersion))
  }

  /** The 'ralf' tag the checksum is finally XORed with. */
  const RALF: nat := 0x7261_6C66

  /** One arithmetic step on the running uint32 checksum. */
  datatype Step = Times(x: int) | Over(x: int) | Plus(x: int) | Minus(x: int)

  /**
   * A step as C evaluates it: the int operand is converted to unsigned and
   * the result wraps around modulo 2^32; dividing by zero is undefined.
   */
  function Apply(check: nat, s: Step): (r: Option<nat>)
    ensures r.None? <==> s.Over? && U32(s.x) == 0
    ensures r.Some? && check < 0x1_0000_0000 ==> r.value < 0x1_0000_0000
  {
    match s
    case Times(x) => Some(Mul32(check, x))
    case Over(x) => if U32(x) == 0 then None else Some(check / U32(x))
    case Plus(x) => Some(U32(check + x))
    case Minus(x) => Some(U32(check - x))
  }

  /** `check *= x` on a uint32: the product of the two as uint32 values, wrapped. */
  function Mul32(check: nat, x: int): (r: nat)
    ensures r < 0x1_0000_0000
  {
    U32(check * U32(x))
  }

  /** A list of steps, applied first to last. */
  datatype Steps = Done | Then(step: Step, rest: Steps)

  /** The steps applied in order, starting from `check`; None once one of them is undefined. */
  function Run(check: nat, steps: Steps): (r: Option<nat>)
    ensures r.Some? && check < 0x1_0000_0000 ==> r.value < 0x1_0000_0000
    decreases steps
  {
    match steps
    case Done => Some(check)
    case Then(s, rest) =>
      match Apply(check, s)
      case None => None
      case Some(v) => Run(v, rest)
  }

  /** Some step of the list divides by zero. */
  predicate DividesByZero(steps: Steps)
  {
    match steps
    case Done => false
    case Then(s, rest) => (s.Over? && U32(s.x) == 0) || DividesByZero(rest)
  }

  /** A run is undefined exactly when one of its steps divides by zero, whatever the starting value. */
  lemma {:induction false} RunUndefined(check: nat, steps: Steps)
    ensures Run(check, steps).None? <==> DividesByZero(steps)
    decreases steps
  {
    match steps
    case Done =>
    case Then(s, rest) =>
      match Apply(check, s)
      case None =>
      case Some(v) => RunUndefined(v, rest);
  }

  /** The colour operand of step 11: before Director 7 a field of its own, later the stage colour's G and B bytes as an int16 in the file's byte order. */
  function Operand11(c: Config, littleEndian: bool): int
  {
    if Version(c) < 700 then c.preD7field11
    else if littleEndian then Signed(c.D7stageColorB * 0x100 + c.D7stageColorG, 0x1_0000)
    else Signed(c.D7stageColorG * 0x100 + c.D7stageColorB, 0x1_0000)
  }

  /** Step 14's operand: the high byte of the comment style before Director 8, the whole style from then on. */
  function Operand14(c: Config): int
  {
    if Version(c) < 800 then (c.commentStyle / 0x100) % 0x100 else c.commentStyle
  }

  /** Step 15's operand: the pre-Director-7 stage colour or the later red byte. */
  function Operand15(c: Config): int
  {
    if Version(c) < 700 then c.preD7stageColor else c.D7stageColorR
  }

  /** Steps 2 to 28 of the checksum, each field offset by its step number. */
  function ChecksumSteps(c: Config, littleEndian: bool): Steps
  {
    Steps2To10(c, Steps11To19(c, littleEndian, Steps20To28(c)))
  }

  /** Steps 2 to 10, followed by `next`: the only steps that divide. */
  function Steps2To10(c: Config, next: Steps): Steps
  {
    Then(Times(c.fileVersion + 2),
    Then(Over(c.movieTop + 3),
    Then(Times(c.movieLeft + 4),
    Then(Over(c.movieBottom + 5),
    Then(Times(c.movieRight + 6),
    Then(Minus(c.minMember + 7),
    Then(Times(c.maxMember + 8),
    Then(Minus(c.field9 + 9),
    Then(Minus(c.field10 + 10),
    next)))))))))
  }

  /** Steps 11 to 19, followed by `next`: the version-dependent operands. */
  function Steps11To19(c: Config, littleEndian: bool, next: Steps): Steps
  {
    Then(Plus(Operand11(c, littleEndian) + 11),
    Then(Times(c.commentFont + 12),
    Then(Plus(c.commentSize + 13),
    Then(Times(Operand14(c) + 14),
    Then(Plus(Operand15(c) + 15),
    Then(Plus(c.bitDepth + 16),
    Then(Plus(c.field17 + 17),
    Then(Times(c.field18 + 18),
    Then(Plus(c.field19 + 19),
    next)))))))))
  }

  /** Steps 20 to 28. */
  function Steps20To28(c: Config): Steps
  {
    Then(Times(c.directorVersion + 20),
    Then(Plus(c.field21 + 21),
    Then(Plus(c.field22 + 22),
    Then(Plus(c.field23 + 23),
    Then(Plus(c.field24 + 24),
    Then(Times(c.field25 + 25),
    Then(Plus(c.frameRate + 26),
    Then(Times(c.platform + 27),
    Then(Times(c.protection * 0xE06 + 0xFF45_0000),
    Done)))))))))
  }

  /** Bitwise exclusive or of the low `bits` bits of a and b. */
  function Xor(a: nat, b: nat, bits: nat): nat
  {
    if bits == 0 then 0
    else (if a % 2 == b % 2 then 0 else 1) + 2 * Xor(a / 2, b / 2, bits - 1)
  }

  lemma {:induction false} XorBound(a: nat, b: nat, bits: nat)
    ensures Xor(a, b, bits) < Pow2(bits)
  {
    if bits > 0 {
      XorBound(a / 2, b / 2, bits - 1);
    }
  }

  function Pow2(n: nat): (r: nat)
    ensures r >= 1
  {
    if n == 0 then 1 else 2 * Pow2(n - 1)
  }

  /** C's `^` on two uint32 values. */
  function Xor32(a: nat, b: nat): (r: nat)
    ensures r < 0x1_0000_0000
  {
    XorBound(a, b, 32);
    Pow2Is32();
    Xor(a, b, 32)
  }

  lemma Pow2Is32()
    ensures Pow2(32) == 0x1_0000_0000
  {
    assert Pow2(1) == 0x2;
    assert Pow2(2) == 0x4;
    assert Pow2(3) == 0x8;
    assert Pow2(4) == 0x10;
    assert Pow2(5) == 0x20;
    assert Pow2(6) == 0x40;
    assert Pow2(7) == 0x80;
    assert Pow2(8) == 0x100;
    assert Pow2(9) == 0x200;
    assert Pow2(10) == 0x400;
    assert Pow2(11) == 0x800;
    assert Pow2(12) == 0x1000;
    assert Pow2(13) == 0x2000;
    assert Pow2(14) == 0x4000;
    assert Pow2(15) == 0x8000;
    assert Pow2(16) == 0x10000;
    assert Pow2(17) == 0x20000;
    assert Pow2(18) == 0x40000;
    assert Pow2(19) == 0x80000;
    assert Pow2(20) == 0x100000;
    assert Pow2(21) == 0x200000;
    assert Pow2(22) == 0x400000;
    assert Pow2(23) == 0x800000;
    assert Pow2(24) == 0x1000000;
    assert Pow2(25) == 0x2000000;
    assert Pow2(26) == 0x4000000;
    assert Pow2(27) == 0x8000000;
    assert Pow2(28) == 0x10000000;
    assert Pow2(29) == 0x20000000;
    assert Pow2(30) == 0x40000000;
    assert Pow2(31) == 0x80000000;
    assert Pow2(32) == 0x100000000;
  }

  lemma {:induction false} Pow2Add(m: nat, n: nat)
    ensures Pow2(m + n) == Pow2(m) * Pow2(n)
  {
    if m > 0 {
      Pow2Add(m - 1, n);
      assert Pow2(m + n) == 2 * Pow2(m - 1 + n);
    }
  }

  /** XOR with the same value twice gives back the low bits, so the last step loses nothing. */
  lemma {:induction false} XorTwice(a: nat, b: nat, bits: nat)
    requires a < Pow2(bits)
    ensures Xor(Xor(a, b, bits), b, bits) == a
  {
    if bits > 0 {
      var x := Xor(a, b, bits);
      XorTwice(a / 2, b / 2, bits - 1);
      XorBound(a / 2, b / 2, bits - 1);
      assert x % 2 == (if a % 2 == b % 2 then 0 else 1);
      assert x / 2 == Xor(a / 2, b / 2, bits - 1);
    }
  }

  /**
   * The config checksum: len + 1, then the steps, then XOR with 'ralf'; None
   * when a step divides by zero, where the source's result is undefined.
   */
  function Checksum(c: Config, littleEndian: bool): (r: Option<nat>)
    ensures r.Some? ==> r.value < 0x1_0000_0000
  {
    match Run(U32(c.len + 1), ChecksumSteps(c, littleEndian))
    case None => None
    case Some(v) => Some(Xor32(v, RALF))
  }

  /** The checksum is defined unless movieTop + 3 or movieBottom + 5 is 0 as a uint32, the two divisors. */
  lemma ChecksumUndefined(c: Config, littleEndian: bool)
    ensures Checksum(c, littleEndian).None? <==> U32(c.movieTop + 3) == 0 || U32(c.movieBottom + 5) == 0
  {
    var t := ChecksumSteps(c, littleEndian);
    RunUndefined(U32(c.len + 1), t);
    // The steps from the third one on, one variable per step; only the second and the fourth divide.
    var t1 := t.rest;
    var t2 := t1.rest;
    var t3 := t2.rest;
    var t4 := t3.rest;
    var t5 := t4.rest;
    var t6 := t5.rest;
    var t7 := t6.rest;
    var t8 := t7.rest;
    var t9 := t8.rest;
    var t10 := t9.rest;
    var t11 := t10.rest;
    var t12 := t11.rest;
    var t13 := t12.rest;
    var t14 := t13.rest;
    var t15 := t14.rest;
    var t16 := t15.rest;
    var t17 := t16.rest;
    var t18 := t17.rest;
    var t19 := t18.rest;
    var t20 := t19.rest;
    var t21 := t20.rest;
    var t22 := t21.rest;
    var t23 := t22.rest;
    var t24 := t23.rest;
    var t25 := t24.rest;
    var t26 := t25.rest;
    var t27 := t26.rest;
    assert t27 == Done;
    assert !DividesByZero(t27);
    assert !DividesByZero(t26);
    assert !DividesByZero(t25);
    assert !DividesByZero(t24);
    assert !DividesByZero(t23);
    assert !DividesByZero(t22);
    assert !DividesByZero(t21);
    assert !DividesByZero(t20);
    assert !DividesByZero(t19);
    assert !DividesByZero(t18);
    assert !DividesByZero(t17);
    assert !DividesByZero(t16);
    assert !DividesByZero(t15);
    assert !DividesByZero(t14);
    assert !DividesByZero(t13);
    assert !DividesByZero(t12);
    assert !DividesByZero(t11);
    assert !DividesByZero(t10);
    assert !DividesByZero(t9);
    assert !DividesByZero(t8);
    assert !DividesByZero(t7);
    assert !DividesByZero(t6);
    assert !DividesByZero(t5);
    assert !DividesByZero(t4);
    assert DividesByZero(t3) <==> U32(c.movieBottom + 5) == 0;
    assert DividesByZero(t1) <==> U32(c.movieTop + 3) == 0 || U32(c.movieBottom + 5) == 0;
  }

  /** Before Director 7 the checksum does not depend on the file's byte order. */
  lemma ChecksumEndianFreeBeforeD7(c: Config)
    requires Version(c) < 700
    ensures Checksum(c, LittleEndian) == Checksum(c, BigEndian)
  {
    assert ChecksumSteps(c, LittleEndian) == ChecksumSteps(c, BigEndian);
  }

  /** From Director 7 on, a little-endian file reads the stage colour's G and B bytes the other way round. */
  lemma ChecksumSwapsColourBytes(c: Config)
    requires Version(c) >= 700
    ensures Checksum(c, LittleEndian) ==
      Checksum(c.(D7stageColorG := c.D7stageColorB, D7stageColorB := c.D7stageColorG), BigEndian)
  {
    var d := c.(D7stageColorG := c.D7stageColorB, D7stageColorB := c.D7stageColorG);
    assert Version(d) == Version(c);
    assert Operand11(c, LittleEndian) == Operand11(d, BigEndian);
    assert ChecksumSteps(c, LittleEndian) == ChecksumSteps(d, BigEndian);
  }

  /** What `unprotect` leaves: fileVersion set to directorVersion and protection moved off a multiple of 23. */
  function Unprotected(c: Config): (r: Config)
    ensures r.fileVersion == c.directorVersion
    ensures r.protection % 23 != 0
    ensures r.protection == c.protection || (c.protection % 23 == 0 && r.protection == c.protection + 1)
    ensures r == c.(fileVersion := c.directorVersion, protection := r.protection)
  {
    c.(fileVersion := c.directorVersion, protection := if c.protection % 23 == 0 then c.protection + 1 else c.protection)
  }

  /** Unprotecting twice is unprotecting once. */
  lemma UnprotectIdempotent(c: Config)
    ensures Unprotected(Unprotected(c)) == Unprotected(c)
  {
  }

  /** A config chunk, with the byte order of the file it belongs to. */
  class ConfigChunk {
    var config: Config
    var checksum: nat
    const fileLittleEndian: bool

    constructor (config: Config, checksum: nat, fileLittleEndian: bool)
      ensures this.config == config && this.checksum == checksum && this.fileLittleEndian == fileLittleEndian
    {
      this.config := config;
      this.checksum := checksum;
      this.fileLittleEndian := fileLittleEndian;
    }

    /** The stored checksum agrees with the computed one; `read` warns when it does not. */
    predicate ChecksumMatches()
      reads this
    {
      Checksum(config, fileLittleEndian) == Some(checksum)
    }

    /** The running uint32 `check`, step by step. */
    method ComputeChecksum() returns (r: Option<nat>)
      ensures r == Checksum(config, fileLittleEndian)
    {
      var c := config;
      ghost var rest := Steps11To19(c, fileLittleEndian, Steps20To28(c));
      var check := U32(c.len + 1);
      var divided := RunSteps2To10(c, check, rest);
      if divided.None? {
        return None;
      }
      check := RunSteps11To19(c, fileLittleEndian, divided.value, Steps20To28(c));
      check := RunSteps20To28(c, check);
      check := Xor32(check, RALF);
      r := Some(check);
    }

    /** Steps 2 to 10 of the running check; None when a divisor is zero. */
    static method RunSteps2To10(c: Config, check0: nat, ghost next: Steps) returns (r: Option<nat>)
      ensures Run(check0, Steps2To10(c, next)) == if r.None? then None else Run(r.value, next)
    {
      var check := check0;
      ghost var steps := Steps2To10(c, next);
      ghost var todo := steps;
      ghost var start := check0;
      check := Mul32(check, c.fileVersion + 2);
      todo := todo.rest;
      assert Run(start, steps) == Run(check, todo);
      if U32(c.movieTop + 3) == 0 {
        return None;
      }
      check := check / U32(c.movieTop + 3);
      todo := todo.rest;
      assert Run(start, steps) == Run(check, todo);
      check := Mul32(check, c.movieLeft + 4);
      todo := todo.rest;
      assert Run(start, steps) == Run(check, todo);
      if U32(c.movieBottom + 5) == 0 {
        return None;
      }
      check := check / U32(c.movieBottom + 5);
      todo := todo.rest;
      assert Run(start, steps) == Run(check, todo);
      check := Mul32(check, c.movieRight + 6);
      todo := todo.rest;
      assert Run(start, steps) == Run(check, todo);
      check := U32(check - (c.minMember + 7));
      todo := todo.rest;
      assert Run(start, steps) == Run(check, todo);
      check := Mul32(check, c.maxMember + 8);
      todo := todo.rest;
      assert Run(start, steps) == Run(check, todo);
      check := U32(check - (c.field9 + 9));
      todo := todo.rest;
      assert Run(start, steps) == Run(check, todo);
      check := U32(check - (c.field10 + 10));
      todo := todo.rest;
      assert Run(start, steps) == Run(check, todo);
      assert todo == next;
      r := Some(check);
    }

    /** Steps 11 to 19 of the running check. */
    static method RunSteps11To19(c: Config, littleEndian: bool, check0: nat, ghost next: Steps) returns (r: nat)
      ensures Run(check0, Steps11To19(c, littleEndian, next)) == Run(r, next)
    {
      var check := check0;
      ghost var steps := Steps11To19(c, littleEndian, next);
      ghost var todo := steps;
      ghost var start := check0;
      var operand11 := Operand11(c, littleEndian);
      check := U32(check + (operand11 + 11));
      todo := todo.rest;
      assert Run(start, steps) == Run(check, todo);
      check := Mul32(check, c.commentFont + 12);
      todo := todo.rest;
      assert Run(start, steps) == Run(check, todo);
      check := U32(check + (c.commentSize + 13));
      todo := todo.rest;
      assert Run(start, steps) == Run(check, todo);
      var operand14 := Operand14(c);
      check := Mul32(check, operand14 + 14);
      todo := todo.rest;
      assert Run(start, steps) == Run(check, todo);
      var operand15 := Operand15(c);
      check := U32(check + (operand15 + 15));
      todo := todo.rest;
      assert Run(start, steps) == Run(check, todo);
      check := U32(check + (c.bitDepth + 16));
      todo := todo.rest;
      assert Run(start, steps) == Run(check, todo);
      check := U32(check + (c.field17 + 17));
      todo := todo.rest;
      assert Run(start, steps) == Run(check, todo);
      check := Mul32(check, c.field18 + 18);
      todo := todo.rest;
      assert Run(start, steps) == Run(check, todo);
      check := U32(check + (c.field19 + 19));
      todo := todo.rest;
      assert Run(start, steps) == Run(check, todo);
      assert todo == next;
      r := check;
    }

    /** Steps 20 to 28 of the running check. */
    static method RunSteps20To28(c: Config, check0: nat) returns (r: nat)
      ensures Run(check0, Steps20To28(c)) == Some(r)
    {
      var check := check0;
      ghost var steps := Steps20To28(c);
      ghost var todo := steps;
      ghost var start := check0;
      check := Mul32(check, c.directorVersion + 20);
      todo := todo.rest;
      assert Run(start, steps) == Run(check, todo);
      check := U32(check + (c.field21 + 21));
      todo := todo.rest;
      assert Run(start, steps) == Run(check, todo);
      check := U32(check + (c.field22 + 22));
      todo := todo.rest;
      assert Run(start, steps) == Run(check, todo);
      check := U32(check + (c.field23 + 23));
      todo := todo.rest;
      assert Run(start, steps) == Run(check, todo);
      check := U32(check + (c.field24 + 24));
      todo := todo.rest;
      assert Run(start, steps) == Run(check, todo);
      check := Mul32(check, c.field25 + 25);
      todo := todo.rest;
      assert Run(start, steps) == Run(check, todo);
      check := U32(check + (c.frameRate + 26));
      todo := todo.rest;
      assert Run(start, steps) == Run(check, todo);
      check := Mul32(check, c.platform + 27);
      todo := todo.rest;
      assert Run(start, steps) == Run(check, todo);
      check := Mul32(check, c.protection * 0xE06 + 0xFF45_0000);
      todo := todo.rest;
      assert Run(start, steps) == Run(check, todo);
      assert todo == Done;
      r := check;
    }

    /** The refresh `write` makes before it emits the fields: afterwards `read` would find no mismatch. */
    method RefreshChecksum()
      requires Checksum(config, fileLittleEndian).Some?
      modifies this`checksum
      ensures ChecksumMatches()
    {
      var computed := ComputeChecksum();
      checksum := computed.value;
    }

    method Unprotect()
      modifies this`config
      ensures config == Unprotected(old(config))
    {
      config := config.(fileVersion := config.directorVersion);
      if config.protection % 23 == 0 {
        config := config.(protection := config.protection + 1);
      }
    }
  }

  // ------------------------------------------------------ initial map chunks

  /** The imap chunk: six uint32 fields, the second being where the mmap chunk starts. */
  datatype InitialMap = InitialMap(version: nat, mmapOffset: nat, directorVersion: nat, unused1: nat, unused2: nat, unused3: nat)

  function InitialMapAt(data: seq<byte>, p: nat, le: bool): InitialMap
  {
    InitialMap(UintOrZero(data, p, 4, le), UintOrZero(data, p + 4, 4, le), UintOrZero(data, p + 8, 4, le),
      UintOrZero(data, p + 12, 4, le), UintOrZero(data, p + 16, 4, le), UintOrZero(data, p + 20, 4, le))
  }

  /** The size an imap chunk is written with. */
  const InitialMapSize: nat := 24

  method ReadInitialMap(stream: ReadStream) returns (r: InitialMap)
    modifies stream`pos
    ensures r == InitialMapAt(stream.data, old(stream.pos), stream.endianness)
    ensures stream.pos == old(stream.pos) + InitialMapSize
  {
    var version := stream.ReadUint32();
    var mmapOffset := stream.ReadUint32();
    var directorVersion := stream.ReadUint32();
    var unused1 := stream.ReadUint32();
    var unused2 := stream.ReadUint32();
    var unused3 := stream.ReadUint32();
    r := InitialMap(version, mmapOffset, directorVersion, unused1, unused2, unused3);
  }

  // ------------------------------------------------------- memory map chunks

  /**
   * A memory map entry. The 32-bit length and offset are kept as int32, and
   * the 16-bit flags, read signed, are kept as uint16.
   */
  datatype MapEntry = MapEntry(fourCC: nat, len: int, offset: int, flags: nat, unknown0: int, next: int)

  /** The 20-byte entry at p. */
  function MapEntryAt(data: seq<byte>, p: nat, le: bool): MapEntry
  {
    MapEntry(UintOrZero(data, p, 4, le),
      Signed(UintOrZero(data, p + 4, 4, le), 0x1_0000_0000),
      Signed(UintOrZero(data, p + 8, 4, le), 0x1_0000_0000),
      UintOrZero(data, p + 12, 2, le),
      Signed(UintOrZero(data, p + 14, 2, le), 0x1_0000),
      Signed(UintOrZero(data, p + 16, 4, le), 0x1_0000_0000))
  }

  method ReadMapEntry(stream: ReadStream) returns (e: MapEntry)
    modifies stream`pos
    ensures e == MapEntryAt(stream.data, old(stream.pos), stream.endianness)
    ensures stream.pos == old(stream.pos) + 20
  {
    var fourCC := stream.ReadUint32();
    var len := stream.ReadUint32();
    var offset := stream.ReadUint32();
    var flags := stream.ReadInt16();
    var unknown0 := stream.ReadInt16();
    var next := stream.ReadInt32();
    e := MapEntry(fourCC, Signed(len, 0x1_0000_0000), Signed(offset, 0x1_0000_0000), flags % 0x1_0000, unknown0, next);
  }

  /** The mmap chunk: a 24-byte header and `chunkCountUsed` entries. */
  datatype MemoryMap = MemoryMap(headerLength: int, entryLength: int, chunkCountMax: int, chunkCountUsed: int,
    junkHead: int, junkHead2: int, freeHead: int, mapArray: seq<MapEntry>)

  /** The entries that follow the header at p. */
  function EntriesAt(data: seq<byte>, p: nat, le: bool, count: nat): (r: seq<MapEntry>)
    ensures |r| == count
  {
    seq(count, i requires 0 <= i < count => MapEntryAt(data, p + 20 * i, le))
  }

  /** The header at p with the entries it counts; Err when the count is negative, for which resizing the entry vector throws. */
  function MemoryMapAt(data: seq<byte>, p: nat, le: bool): (r: Result<MemoryMap>)
    ensures r.Ok? <==> Signed(UintOrZero(data, p + 8, 4, le), 0x1_0000_0000) >= 0
    ensures r.Ok? ==> |r.value.mapArray| == r.value.chunkCountUsed
  {
    var used := Signed(UintOrZero(data, p + 8, 4, le), 0x1_0000_0000);
    if used < 0 then Err("cannot resize the entry table to a negative count")
    else Ok(MemoryMap(
      Signed(UintOrZero(data, p, 2, le), 0x1_0000), Signed(UintOrZero(data, p + 2, 2, le), 0x1_0000),
      Signed(UintOrZero(data, p + 4, 4, le), 0x1_0000_0000), used,
      Signed(UintOrZero(data, p + 12, 4, le), 0x1_0000_0000), Signed(UintOrZero(data, p + 16, 4, le), 0x1_0000_0000),
      Signed(UintOrZero(data, p + 20, 4, le), 0x1_0000_0000),
      EntriesAt(data, p + 24, le, used)))
  }

  method ReadMemoryMap(stream: ReadStream) returns (r: Result<MemoryMap>)
    modifies stream`pos
    ensures r == MemoryMapAt(stream.data, old(stream.pos), stream.endianness)
  {
    var p := stream.pos;
    var headerLength := stream.ReadInt16();
    var entryLength := stream.ReadInt16();
    var chunkCountMax := stream.ReadInt32();
    var chunkCountUsed := stream.ReadInt32();
    var junkHead := stream.ReadInt32();
    var junkHead2 := stream.ReadInt32();
    var freeHead := stream.ReadInt32();
    if chunkCountUsed < 0 {
      return Err("cannot resize the entry table to a negative count");
    }
    var entries := ReadMapEntries(stream, chunkCountUsed);
    r := Ok(MemoryMap(headerLength, entryLength, chunkCountMax, chunkCountUsed, junkHead, junkHead2, freeHead, entries));
  }

  method ReadMapEntries(stream: ReadStream, count: nat) returns (entries: seq<MapEntry>)
    modifies stream`pos
    ensures entries == EntriesAt(stream.data, old(stream.pos), stream.endianness, count)
    ensures stream.pos == old(stream.pos) + 20 * count
  {
    entries := [];
    var i := 0;
    while i < count
      invariant 0 <= i <= count && |entries| == i
      invariant stream.pos == old(stream.pos) + 20 * i
      invariant forall k :: 0 <= k < i ==> entries[k] == MapEntryAt(stream.data, old(stream.pos) + 20 * k, stream.endianness)
    {
      var e := ReadMapEntry(stream);
      entries := entries + [e];
      i := i + 1;
    }
  }

  /**
   * `size()`: the header length plus the declared slots times the entry
   * length. For a map laid out as `write` emits it, that is its length.
   */
  function MemoryMapSize(m: MemoryMap): (r: nat)
    ensures m.headerLength == 24 && m.entryLength == 20 && m.chunkCountMax == |m.mapArray| < 0x8000_0000 ==>
      r == 24 + 20 * |m.mapArray|
  {
    U64(m.headerLength + m.chunkCountMax * m.entryLength)
  }
}
