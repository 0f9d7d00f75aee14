/**
 * The script chunk (Lscr) of the C++ decompiler: the fixed-offset header,
 * the property and global name-id tables, the generic-event mark on the
 * first handler, the literal records and their data, and the names a script
 * takes from its context. Every read is big-endian.
 */
module LingoDecScript {
  import opened Bytes
  import opened Stream
  import opened Wrappers
  import LingoDecNames
  import LingoDecAst

  /** The literal type codes (`LiteralType`). */
  const LiteralString: nat := 1
  const LiteralInt: nat := 4
  const LiteralFloat: nat := 9

  /** The signed 16-bit value `readInt16` yields at p in big-endian order. */
  function Int16At(data: seq<byte>, p: nat): int
  {
    Signed(UintOrZero(data, p, 2, BigEndian), 0x1_0000)
  }

  // ---------------------------------------------------------------------
  // Name-id tables.

  /** `readVarnamesTable` from p with `acc` already read: the ids and the cursor after them. */
  function NameIdsOnto(data: seq<byte>, p: nat, count: nat, acc: seq<int>): (r: (seq<int>, nat))
    ensures |r.0| == |acc| + count && r.1 == p + 2 * count
    ensures r.0[..|acc|] == acc
    decreases count
  {
    if count == 0 then (acc, p) else NameIdsOnto(data, p + 2, count - 1, acc + [Int16At(data, p)])
  }

  /** The i-th id read is the signed 16-bit value 2 * i bytes after the start. */
  lemma {:induction false} NameIdsAt(data: seq<byte>, p: nat, count: nat, acc: seq<int>, i: nat)
    requires i < count
    ensures NameIdsOnto(data, p, count, acc).0[|acc| + i] == Int16At(data, p + 2 * i)
    decreases count
  {
    var next := acc + [Int16At(data, p)];
    var r := NameIdsOnto(data, p + 2, count - 1, next).0;
    if i == 0 {
      assert r[..|next|] == next;
      assert r[|acc|] == r[..|next|][|acc|];
    } else {
      NameIdsAt(data, p + 2, count - 1, next, i - 1);
    }
  }

  /** `Script::readVarnamesTable`: `count` signed 16-bit ids from `offset`, in order. */
  method ReadVarnamesTable(stream: ReadStream, count: nat, offset: nat) returns (ids: seq<int>)
    requires stream.endianness == BigEndian
    modifies stream`pos
    ensures (ids, stream.pos) == NameIdsOnto(stream.data, offset, count, [])
  {
    stream.Seek(offset);
    ids := [];
    var i := 0;
    while i < count
      invariant 0 <= i <= count
      invariant NameIdsOnto(stream.data, offset, count, []) == NameIdsOnto(stream.data, stream.pos, count - i, ids)
    {
      var id := stream.ReadInt16();
      ids := ids + [id];
      i := i + 1;
    }
  }

  // ---------------------------------------------------------------------
  // Literals.

  /** A literal record (`LiteralStore`); `value` is null until the data is read. */
  datatype LiteralStore = LiteralStore(literalType: nat, offset: nat, value: Option<LingoDecAst.Datum>)

  /** From version 500 on the type field is 32 bits wide, before it 16. */
  function TypeWidth(version: int): (w: nat)
    ensures w == 2 || w == 4
    ensures w == 4 <==> version >= 500
  {
    if version >= 500 then 4 else 2
  }

  /** The record `readRecord` yields at p: the type, then a 32-bit data offset. */
  function LiteralRecordAt(data: seq<byte>, p: nat, version: int): (r: LiteralStore)
    ensures r.value.None?
    ensures r.literalType < Pow256(4) && r.offset < Pow256(4)
    ensures version < 500 ==> r.literalType < Pow256(2)
  {
    var w := TypeWidth(version);
    LiteralStore(UintOrZero(data, p, w, BigEndian), UintOrZero(data, p + w, 4, BigEndian), None)
  }

  /** `count` records from p with `acc` already read: the records and the cursor after them. */
  function RecordsOnto(data: seq<byte>, p: nat, count: nat, version: int, acc: seq<LiteralStore>): (r: (seq<LiteralStore>, nat))
    ensures |r.0| == |acc| + count
    ensures r.0[..|acc|] == acc
    decreases count
  {
    if count == 0 then (acc, p)
    else RecordsOnto(data, p + TypeWidth(version) + 4, count - 1, version, acc + [LiteralRecordAt(data, p, version)])
  }

  /** Records are laid end to end: record i starts i record widths after the first, and the cursor ends after the last. */
  lemma {:induction false} RecordsAt(data: seq<byte>, p: nat, count: nat, version: int, acc: seq<LiteralStore>, i: nat)
    requires i < count
    ensures var w := TypeWidth(version) + 4;
      RecordsOnto(data, p, count, version, acc).0[|acc| + i] == LiteralRecordAt(data, p + w * i, version)
    decreases count
  {
    var w := TypeWidth(version) + 4;
    var next := acc + [LiteralRecordAt(data, p, version)];
    var r := RecordsOnto(data, p + w, count - 1, version, next).0;
    assert RecordsOnto(data, p, count, version, acc).0 == r;
    if i == 0 {
      assert r[..|next|] == next;
      assert r[|acc|] == r[..|next|][|acc|] == LiteralRecordAt(data, p, version);
      assert p + w * i == p;
    } else {
      RecordsAt(data, p + w, count - 1, version, next, i - 1);
      assert |next| + (i - 1) == |acc| + i;
      NextRecordOffset(p, w, i);
    }
  }

  /** The record i - 1 places after the next one is the record i places after this one. */
  lemma NextRecordOffset(p: nat, w: nat, i: nat)
    requires i > 0
    ensures p + w + w * (i - 1) == p + w * i
  {
  }

  /** Every record's data offset is a 32-bit value. */
  lemma {:induction false} RecordOffsetsBounded(data: seq<byte>, p: nat, count: nat, version: int, acc: seq<LiteralStore>)
    requires forall k :: 0 <= k < |acc| ==> acc[k].offset <= UINT32_MAX
    ensures var r := RecordsOnto(data, p, count, version, acc).0;
      forall k :: 0 <= k < |r| ==> r[k].offset <= UINT32_MAX
    decreases count
  {
    if count > 0 {
      var next := acc + [LiteralRecordAt(data, p, version)];
      Pow256Values();
      forall k | 0 <= k < |next|
        ensures next[k].offset <= UINT32_MAX
      {
        if k < |acc| {
          assert next[k] == acc[k];
        }
      }
      RecordOffsetsBounded(data, p + TypeWidth(version) + 4, count - 1, version, next);
      assert RecordsOnto(data, p, count, version, acc) == RecordsOnto(data, p + TypeWidth(version) + 4, count - 1, version, next);
    }
  }

  /** Where the records end: one record width per record after the start. */
  lemma {:induction false} RecordsEnd(data: seq<byte>, p: nat, count: nat, version: int, acc: seq<LiteralStore>)
    ensures RecordsOnto(data, p, count, version, acc).1 == p + (TypeWidth(version) + 4) * count
    decreases count
  {
    if count > 0 {
      var w := TypeWidth(version) + 4;
      RecordsEnd(data, p + w, count - 1, version, acc + [LiteralRecordAt(data, p, version)]);
      assert p + w + w * (count - 1) == p + w * count;
    }
  }

  /**
   * The text of a string literal whose data starts at q: a 32-bit length,
   * then `length - 1` bytes, the subtraction done in 32 bits so that a
   * length of 0 asks for 2^32 - 1 bytes.
   */
  function StringLiteralAt(data: seq<byte>, q: nat): string
  {
    var length := UintOrZero(data, q, 4, BigEndian);
    var len := if length == 0 then UINT32_MAX else length - 1;
    if Fits(data, q + 4, len) then CString(data[q + 4..q + 4 + len]) else ""
  }

  /**
   * The value `readData` gives a record, the literal data starting at
   * `startOffset`: an int is its offset field read as a signed 32-bit value;
   * any other type has its data at the (32-bit) sum of the two offsets, and a
   * string is the text there. Floating point is not modelled: a float keeps
   * the value it had.
   */
  function LiteralValue(data: seq<byte>, lit: LiteralStore, startOffset: nat): (r: Option<LingoDecAst.Datum>)
    requires lit.offset <= UINT32_MAX && startOffset <= UINT32_MAX
    ensures lit.literalType == LiteralInt ==>
      && r.Some? && r.value.IntDatum?
      && -0x8000_0000 <= r.value.i < 0x8000_0000 && r.value.i % 0x1_0000_0000 == lit.offset
    ensures lit.literalType == LiteralString ==> r.Some? && r.value.StringDatum?
    ensures lit.literalType == LiteralFloat ==> r == lit.value
    ensures lit.literalType !in {LiteralInt, LiteralString, LiteralFloat} ==> r == Some(LingoDecAst.VoidDatum)
  {
    if lit.literalType == LiteralInt then Some(LingoDecAst.IntDatum(Signed(lit.offset, 0x1_0000_0000)))
    else if lit.literalType == LiteralString then
      Some(LingoDecAst.StringDatum(StringLiteralAt(data, Add32(startOffset, lit.offset))))
    else if lit.literalType == LiteralFloat then lit.value
    else Some(LingoDecAst.VoidDatum)
  }

  /** An int literal is its offset field, whatever the data holds and wherever it starts. */
  lemma IntLiteralIgnoresData(d1: seq<byte>, d2: seq<byte>, lit: LiteralStore, s1: nat, s2: nat)
    requires lit.literalType == LiteralInt && lit.offset <= UINT32_MAX && s1 <= UINT32_MAX && s2 <= UINT32_MAX
    ensures LiteralValue(d1, lit, s1) == LiteralValue(d2, lit, s2)
    ensures lit.offset < 0x8000_0000 ==> LiteralValue(d1, lit, s1) == Some(LingoDecAst.IntDatum(lit.offset))
    ensures lit.offset >= 0x8000_0000 ==> LiteralValue(d1, lit, s1) == Some(LingoDecAst.IntDatum(lit.offset - 0x1_0000_0000))
  {
  }

  /** A string stored as its length plus one, then its bytes, reads back as exactly that text. */
  lemma StringLiteralRoundTrip(data: seq<byte>, q: nat, text: seq<byte>)
    requires Fits(data, q + 4, |text|) && data[q + 4..q + 4 + |text|] == text
    requires UintOrZero(data, q, 4, BigEndian) == |text| + 1
    requires forall i :: 0 <= i < |text| ==> text[i] != 0
    ensures StringLiteralAt(data, q) == CharsOf(text)
  {
    CStringOfPlainText(text);
  }

  /** A string literal of stored length 0 asks for 2^32 - 1 bytes, which no buffer below 4 GiB holds: it reads as "". */
  lemma ZeroLengthStringLiteral(data: seq<byte>, q: nat)
    requires |data| < 0x1_0000_0000 && UintOrZero(data, q, 4, BigEndian) == 0
    ensures StringLiteralAt(data, q) == ""
  {
  }

  /** A string literal's value is the text at the sum of the two offsets, taken modulo 2^32. */
  lemma StringLiteralValue(data: seq<byte>, lit: LiteralStore, startOffset: nat)
    requires lit.literalType == LiteralString && lit.offset <= UINT32_MAX && startOffset <= UINT32_MAX
    ensures LiteralValue(data, lit, startOffset) ==
      Some(LingoDecAst.StringDatum(StringLiteralAt(data, U32(startOffset + lit.offset))))
  {
    Add32IsU32(startOffset, lit.offset);
  }

  /** A type that is neither string, int nor float gives a void datum. */
  lemma OtherLiteralsVoid(data: seq<byte>, lit: LiteralStore, startOffset: nat)
    requires lit.literalType !in {LiteralString, LiteralInt, LiteralFloat}
    requires lit.offset <= UINT32_MAX && startOffset <= UINT32_MAX
    ensures LiteralValue(data, lit, startOffset) == Some(LingoDecAst.VoidDatum)
  {
  }

  /** `LiteralStore::readRecord`. */
  method ReadLiteralRecord(stream: ReadStream, version: int) returns (lit: LiteralStore)
    requires stream.endianness == BigEndian
    modifies stream`pos
    ensures lit == LiteralRecordAt(stream.data, old(stream.pos), version)
    ensures stream.pos == old(stream.pos) + TypeWidth(version) + 4
  {
    var literalType: nat;
    if version >= 500 {
      literalType := stream.ReadUint32();
    } else {
      literalType := stream.ReadUint16();
    }
    var offset := stream.ReadUint32();
    lit := LiteralStore(literalType, offset, None);
  }

  /** `LiteralStore::readData`: the record with its value set from the literal data at `startOffset`. */
  method ReadLiteralData(stream: ReadStream, lit: LiteralStore, startOffset: nat) returns (r: LiteralStore)
    requires stream.endianness == BigEndian && lit.offset <= UINT32_MAX && startOffset <= UINT32_MAX
    modifies stream`pos
    ensures r == lit.(value := LiteralValue(stream.data, lit, startOffset))
  {
    if lit.literalType == LiteralInt {
      return lit.(value := Some(LingoDecAst.IntDatum(Signed(lit.offset, 0x1_0000_0000))));
    }
    var q := Add32(startOffset, lit.offset);
    if lit.literalType == LiteralString {
      var s := ReadStringLiteral(stream, q);
      assert LiteralValue(stream.data, lit, startOffset) == Some(LingoDecAst.StringDatum(StringLiteralAt(stream.data, q)));
      r := lit.(value := Some(LingoDecAst.StringDatum(s)));
    } else {
      assert LiteralValue(stream.data, lit, startOffset) ==
        if lit.literalType == LiteralFloat then lit.value else Some(LingoDecAst.VoidDatum);
      stream.Seek(q);
      var length := stream.ReadUint32();
      if lit.literalType == LiteralFloat {
        r := lit;
      } else {
        r := lit.(value := Some(LingoDecAst.VoidDatum));
      }
    }
  }

  /** The string branch of `readData`: the length at q, then the text after it. */
  method ReadStringLiteral(stream: ReadStream, q: nat) returns (s: string)
    requires stream.endianness == BigEndian
    modifies stream`pos
    ensures s == StringLiteralAt(stream.data, q)
  {
    ghost var data := stream.data;
    stream.Seek(q);
    var length := stream.ReadUint32();
    assert length == UintOrZero(data, q, 4, BigEndian) && stream.pos == q + 4 && stream.data == data;
    var len := if length == 0 then UINT32_MAX else length - 1;
    s := stream.ReadString(len);
    assert stream.data == data;
    assert s == if Fits(data, q + 4, len) then CString(data[q + 4..q + 4 + len]) else "";
  }

  /** The record loop of `Script::read`: `count` records read in order from the cursor. */
  method ReadLiteralRecords(stream: ReadStream, count: nat, version: int) returns (lits: seq<LiteralStore>)
    requires stream.endianness == BigEndian
    modifies stream`pos
    ensures (lits, stream.pos) == RecordsOnto(stream.data, old(stream.pos), count, version, [])
  {
    lits := [];
    var i := 0;
    while i < count
      invariant 0 <= i <= count
      invariant RecordsOnto(stream.data, old(stream.pos), count, version, []) ==
        RecordsOnto(stream.data, stream.pos, count - i, version, lits)
    {
      var lit := ReadLiteralRecord(stream, version);
      lits := lits + [lit];
      i := i + 1;
    }
  }

  /** The data loop of `Script::read`: every record gets its value, in place. */
  method ReadLiteralValues(stream: ReadStream, lits: seq<LiteralStore>, startOffset: nat) returns (r: seq<LiteralStore>)
    requires stream.endianness == BigEndian && startOffset <= UINT32_MAX
    requires forall i :: 0 <= i < |lits| ==> lits[i].offset <= UINT32_MAX
    modifies stream`pos
    ensures |r| == |lits|
    ensures forall i :: 0 <= i < |lits| ==> r[i] == lits[i].(value := LiteralValue(stream.data, lits[i], startOffset))
  {
    r := lits;
    var i := 0;
    while i < |lits|
      invariant 0 <= i <= |lits| && |r| == |lits|
      invariant forall j :: 0 <= j < i ==> r[j] == lits[j].(value := LiteralValue(stream.data, lits[j], startOffset))
      invariant forall j :: i <= j < |lits| ==> r[j] == lits[j]
    {
      var lit := ReadLiteralData(stream, r[i], startOffset);
      r := r[i := lit];
      i := i + 1;
    }
  }

  // ---------------------------------------------------------------------
  // Names from the context.

  /** 2 to the power k. */
  function Pow2(k: nat): (r: nat)
    ensures r >= 1
  {
    if k == 0 then 1 else 2 * Pow2(k - 1)
  }

  /** A script flag test: bit number `bit` of the flags is set. */
  function HasFlag(flags: nat, bit: nat): (r: bool)
    ensures flags < Pow2(bit) ==> !r
    ensures flags == Pow2(bit) ==> r
  {
    (flags / Pow2(bit)) % 2 == 1
  }

  /**
   * The names of the valid ids among `ids`, in order, as the names table
   * gives them; with `skipMe` the name "me" is dropped as well.
   */
  function NamesOf(names: seq<string>, ids: seq<int>, skipMe: bool): (r: seq<string>)
    ensures |r| <= |ids|
  {
    if ids == [] then []
    else
      var id := ids[|ids| - 1];
      NamesOf(names, ids[..|ids| - 1], skipMe) +
        if -1 < id < |names| && !(skipMe && names[id] == "me") then [names[id]] else []
  }

  /** Only names from the table are kept: an invalid id contributes no placeholder. */
  lemma {:induction false} NamesOfFromTable(names: seq<string>, ids: seq<int>, skipMe: bool)
    ensures forall k :: 0 <= k < |NamesOf(names, ids, skipMe)| ==> NamesOf(names, ids, skipMe)[k] in names
  {
    if ids != [] {
      NamesOfFromTable(names, ids[..|ids| - 1], skipMe);
    }
  }

  /** In a factory the name "me" never becomes a property. */
  lemma {:induction false} FactoryDropsMe(names: seq<string>, ids: seq<int>)
    ensures "me" !in NamesOf(names, ids, true)
  {
    if ids != [] {
      FactoryDropsMe(names, ids[..|ids| - 1]);
    }
  }

  /** Without the "me" rule every valid id keeps its name, in order, and nothing else is added. */
  lemma {:induction false} AllValidKept(names: seq<string>, ids: seq<int>)
    requires forall k :: 0 <= k < |ids| ==> 0 <= ids[k] < |names|
    ensures |NamesOf(names, ids, false)| == |ids|
    ensures forall k :: 0 <= k < |ids| ==> NamesOf(names, ids, false)[k] == names[ids[k]]
  {
    if ids != [] {
      AllValidKept(names, ids[..|ids| - 1]);
    }
  }

  /** Ids outside the table contribute nothing. */
  lemma {:induction false} InvalidIdsDropped(names: seq<string>, ids: seq<int>, skipMe: bool)
    requires forall k :: 0 <= k < |ids| ==> !(0 <= ids[k] < |names|)
    ensures NamesOf(names, ids, skipMe) == []
  {
    if ids != [] {
      InvalidIdsDropped(names, ids[..|ids| - 1], skipMe);
    }
  }

  /** One loop of `setContext`: the names of the valid ids, "me" skipped when asked. */
  method CollectNames(lnam: LingoDecNames.ScriptNames, ids: seq<int>, skipMe: bool) returns (r: seq<string>)
    ensures r == NamesOf(lnam.names, ids, skipMe)
  {
    r := [];
    var i := 0;
    while i < |ids|
      invariant 0 <= i <= |ids|
      invariant r == NamesOf(lnam.names, ids[..i], skipMe)
    {
      assert ids[..i + 1][..i] == ids[..i];
      var id := ids[i];
      if lnam.ValidName(id) {
        var name := lnam.GetName(id);
        if !(skipMe && name == "me") {
          r := r + [name];
        }
      }
      i := i + 1;
    }
    assert ids[..|ids|] == ids;
  }

  /** The `isGenericEvent` marks of `count` handlers: only the first, and only when the event-script flag is set. */
  function GenericEventMarks(count: nat, eventScript: bool): (r: seq<bool>)
    ensures |r| == count
    ensures forall i :: 0 <= i < count ==> r[i] == (i == 0 && eventScript)
  {
    var none := seq(count, i => false);
    if eventScript && count > 0 then none[0 := true] else none
  }

  // ---------------------------------------------------------------------
  // The script.

  /** Bytes 8 to 24: the two lengths, the header length, the script number, unk20 and the parent number. */
  function LengthsAt(data: seq<byte>): (nat, nat, nat, nat, int, int)
  {
    (UintOrZero(data, 8, 4, BigEndian), UintOrZero(data, 12, 4, BigEndian), UintOrZero(data, 16, 2, BigEndian),
     UintOrZero(data, 18, 2, BigEndian), Int16At(data, 20), Int16At(data, 22))
  }

  /** Bytes 38 to 52: the flags, unk42, the signed cast id, the factory name id and the handler vector count. */
  function FlagsAt(data: seq<byte>): (nat, int, int, int, nat)
  {
    (UintOrZero(data, 38, 4, BigEndian), Int16At(data, 42), Signed(UintOrZero(data, 44, 4, BigEndian), 0x1_0000_0000),
     Int16At(data, 48), UintOrZero(data, 50, 2, BigEndian))
  }

  /** Bytes 52 to 72: the handler vectors' offset and size, then the property and global tables' counts and offsets. */
  function VectorsAt(data: seq<byte>): (nat, nat, nat, nat, nat, nat)
  {
    (UintOrZero(data, 52, 4, BigEndian), UintOrZero(data, 56, 4, BigEndian), UintOrZero(data, 60, 2, BigEndian),
     UintOrZero(data, 62, 4, BigEndian), UintOrZero(data, 66, 2, BigEndian), UintOrZero(data, 68, 4, BigEndian))
  }

  /** Bytes 72 to 92: the handler and literal tables' counts and offsets, and the literal data's count and offset. */
  function TablesAt(data: seq<byte>): (nat, nat, nat, nat, nat, nat)
  {
    (UintOrZero(data, 72, 2, BigEndian), UintOrZero(data, 74, 4, BigEndian), UintOrZero(data, 78, 2, BigEndian),
     UintOrZero(data, 80, 4, BigEndian), UintOrZero(data, 84, 4, BigEndian), UintOrZero(data, 88, 4, BigEndian))
  }

  /** Bytes 8 to 24, read after a seek to 8. */
  method ReadLengths(stream: ReadStream) returns (h: (nat, nat, nat, nat, int, int))
    requires stream.endianness == BigEndian
    modifies stream`pos
    ensures h == LengthsAt(stream.data)
  {
    stream.Seek(8);
    var a := stream.ReadUint32();
    var b := stream.ReadUint32();
    var c := stream.ReadUint16();
    var d := stream.ReadUint16();
    var e := stream.ReadInt16();
    var f := stream.ReadInt16();
    h := (a, b, c, d, e, f);
  }

  /** Bytes 38 to 52, read after a seek to 38. */
  method ReadFlags(stream: ReadStream) returns (h: (nat, int, int, int, nat))
    requires stream.endianness == BigEndian
    modifies stream`pos
    ensures h == FlagsAt(stream.data)
    ensures stream.pos == 52
  {
    stream.Seek(38);
    var a := stream.ReadUint32();
    var b := stream.ReadInt16();
    var c := stream.ReadInt32();
    var d := stream.ReadInt16();
    var e := stream.ReadUint16();
    h := (a, b, c, d, e);
  }

  /** Bytes 52 to 72, read where the flags end. */
  method ReadVectors(stream: ReadStream) returns (h: (nat, nat, nat, nat, nat, nat))
    requires stream.endianness == BigEndian && stream.pos == 52
    modifies stream`pos
    ensures h == VectorsAt(stream.data)
    ensures stream.pos == 72
  {
    var a := stream.ReadUint32();
    var b := stream.ReadUint32();
    var c := stream.ReadUint16();
    var d := stream.ReadUint32();
    var e := stream.ReadUint16();
    var f := stream.ReadUint32();
    h := (a, b, c, d, e, f);
  }

  /** Bytes 72 to 92, read where the vectors end. */
  method ReadTables(stream: ReadStream) returns (h: (nat, nat, nat, nat, nat, nat))
    requires stream.endianness == BigEndian && stream.pos == 72
    modifies stream`pos
    ensures h == TablesAt(stream.data)
  {
    var a := stream.ReadUint16();
    var b := stream.ReadUint32();
    var c := stream.ReadUint16();
    var d := stream.ReadUint32();
    var e := stream.ReadUint32();
    var f := stream.ReadUint32();
    h := (a, b, c, d, e, f);
  }

  /** The script header: the fields `Script::read` fills from the fixed offsets 8 to 92. */
  datatype ScriptHeader = ScriptHeader(
    totalLength: nat, totalLength2: nat, headerLength: nat, scriptNumber: nat, unk20: int, parentNumber: int,
    scriptFlags: nat, unk42: int, castID: int, factoryNameID: int, handlerVectorsCount: nat,
    handlerVectorsOffset: nat, handlerVectorsSize: nat, propertiesCount: nat, propertiesOffset: nat,
    globalsCount: nat, globalsOffset: nat,
    handlersCount: nat, handlersOffset: nat, literalsCount: nat, literalsOffset: nat,
    literalsDataCount: nat, literalsDataOffset: nat)

  /** The header the big-endian bytes at the fixed offsets hold. */
  function HeaderAt(data: seq<byte>): ScriptHeader
  {
    var l := LengthsAt(data);
    var f := FlagsAt(data);
    var v := VectorsAt(data);
    var t := TablesAt(data);
    ScriptHeader(l.0, l.1, l.2, l.3, l.4, l.5, f.0, f.1, f.2, f.3, f.4,
                 v.0, v.1, v.2, v.3, v.4, v.5, t.0, t.1, t.2, t.3, t.4, t.5)
  }

  /** The header at its fixed offsets, in four runs of reads. */
  method ReadHeader(stream: ReadStream) returns (h: ScriptHeader)
    requires stream.endianness == BigEndian
    modifies stream`pos
    ensures h == HeaderAt(stream.data)
  {
    var l := ReadLengths(stream);
    var f := ReadFlags(stream);
    var v := ReadVectors(stream);
    var t := ReadTables(stream);
    h := ScriptHeader(l.0, l.1, l.2, l.3, l.4, l.5, f.0, f.1, f.2, f.3, f.4,
                      v.0, v.1, v.2, v.3, v.4, v.5, t.0, t.1, t.2, t.3, t.4, t.5);
  }

  /** The positions of the two script flag bits, whose values are not part of this model. */
  datatype ScriptFlagBits = ScriptFlagBits(eventScript: nat, factoryDef: nat)

  /** A script chunk (`Script`). Handlers are represented by their `isGenericEvent` marks. */
  class Script {
    const version: nat
    const flagBits: ScriptFlagBits

    /** The 23 header fields, read together. */
    var header: ScriptHeader

    var propertyNameIDs: seq<int>
    var globalNameIDs: seq<int>
    var genericEvent: seq<bool>
    var literals: seq<LiteralStore>

    var factoryName: string
    var propertyNames: seq<string>
    var globalNames: seq<string>
    /** The factory scripts of the context whose parent this script is, in the order the context links them. */
    var factories: seq<Script>

    constructor (version: nat, flagBits: ScriptFlagBits)
      ensures this.version == version && this.flagBits == flagBits
      ensures factoryName == "" && propertyNames == [] && globalNames == [] && factories == []
    {
      this.version := version;
      this.flagBits := flagBits;
      factoryName := "";
      propertyNames := [];
      globalNames := [];
      factories := [];
    }

    /** `isFactory`: the factory-definition bit of the flags is set. */
    predicate IsFactory(): (r: bool)
      reads this`header
      ensures r ==> header.scriptFlags >= Pow2(flagBits.factoryDef)
      ensures header.scriptFlags == Pow2(flagBits.factoryDef) ==> r
    {
      HasFlag(header.scriptFlags, flagBits.factoryDef)
    }

    /**
     * `Script::read`, big-endian whatever the file's byte order: the header
     * at fixed offsets, the two name-id tables, the generic-event mark, then
     * every literal record before any literal's data.
     */
    method Read(stream: ReadStream)
      modifies this`header, this`propertyNameIDs, this`globalNameIDs, this`genericEvent, this`literals, stream`pos, stream`endianness
      ensures stream.endianness == BigEndian
      ensures header == HeaderAt(stream.data) && header.literalsDataOffset <= UINT32_MAX
      ensures propertyNameIDs == NameIdsOnto(stream.data, header.propertiesOffset, header.propertiesCount, []).0
      ensures globalNameIDs == NameIdsOnto(stream.data, header.globalsOffset, header.globalsCount, []).0
      ensures |genericEvent| == header.handlersCount
      ensures forall i :: 0 <= i < header.handlersCount ==>
        genericEvent[i] == (i == 0 && HasFlag(header.scriptFlags, flagBits.eventScript))
      ensures var records := RecordsOnto(stream.data, header.literalsOffset, header.literalsCount, version, []).0;
        && (forall i :: 0 <= i < |records| ==> records[i].offset <= UINT32_MAX)
        && |literals| == |records|
        && forall i :: 0 <= i < |records| ==>
          literals[i] == records[i].(value := LiteralValue(stream.data, records[i], header.literalsDataOffset))
    {
      stream.endianness := BigEndian;
      var h := ReadHeader(stream);
      header := h;

      propertyNameIDs := ReadVarnamesTable(stream, h.propertiesCount, h.propertiesOffset);
      globalNameIDs := ReadVarnamesTable(stream, h.globalsCount, h.globalsOffset);

      genericEvent := GenericEventMarks(h.handlersCount, HasFlag(h.scriptFlags, flagBits.eventScript));

      Pow256Values();
      stream.Seek(h.literalsOffset);
      var records := ReadLiteralRecords(stream, h.literalsCount, version);
      RecordOffsetsBounded(stream.data, h.literalsOffset, h.literalsCount, version, []);
      literals := ReadLiteralValues(stream, records, h.literalsDataOffset);
    }

    /**
     * `setContext`, with the context reduced to its names table: the factory
     * name when there is one, then the names of the valid property ids ("me"
     * left out in a factory) and of the valid global ids.
     */
    method SetContext(lnam: LingoDecNames.ScriptNames)
      modifies this`factoryName, this`propertyNames, this`globalNames
      ensures factoryName == if header.factoryNameID != -1 then LingoDecNames.NameIn(lnam.names, header.factoryNameID) else old(factoryName)
      ensures propertyNames == old(propertyNames) + NamesOf(lnam.names, propertyNameIDs, IsFactory())
      ensures globalNames == old(globalNames) + NamesOf(lnam.names, globalNameIDs, false)
    {
      if header.factoryNameID != -1 {
        factoryName := lnam.GetName(header.factoryNameID);
      }
      var props := CollectNames(lnam, propertyNameIDs, IsFactory());
      var globals := CollectNames(lnam, globalNameIDs, false);
      propertyNames := propertyNames + props;
      globalNames := globalNames + globals;
    }
  }
}
