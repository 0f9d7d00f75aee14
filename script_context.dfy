/**
 * The names chunk (`Lnam`, `ScriptNames.read`) and the script context
 * chunk (`LctX`, `ScriptContext.read`). Both are big-endian whatever the
 * file's byte order, and both read their header from the current position
 * before seeking to a table whose offset the header gives.
 */
module LingoContext {
  import opened Bytes
  import opened Wrappers
  import opened DataStream

  // ---------------------------------------------------------------------
  // Names.

  /** The name whose length byte is at p. */
  function NameAt(buffer: seq<byte>, p: nat): (r: string)
    requires p < |buffer|
    ensures |r| <= buffer[p]
  {
    CharsOf(Window(buffer, p + 1, buffer[p]))
  }

  /**
   * `count` more names from p pushed onto `names`, as the loop of `read`
   * pushes them: each a one-byte length and that many bytes. The string
   * read clamps at the end of the buffer, but the length byte of every
   * name must be there.
   */
  function NamesOnto(buffer: seq<byte>, p: nat, count: nat, names: seq<string>): Result<seq<string>>
    decreases count
  {
    if count == 0 then Ok(names)
    else if p >= |buffer| then Err(RangeError)
    else NamesOnto(buffer, p + 1 + buffer[p], count - 1, names + [NameAt(buffer, p)])
  }

  /** The names table of `count` names from p. */
  function NamesFrom(buffer: seq<byte>, p: nat, count: nat): Result<seq<string>>
  {
    NamesOnto(buffer, p, count, [])
  }

  /** `count` names are pushed, after the ones already there. */
  lemma {:induction false} NamesOntoLength(buffer: seq<byte>, p: nat, count: nat, names: seq<string>)
    requires NamesOnto(buffer, p, count, names).Ok?
    ensures |NamesOnto(buffer, p, count, names).value| == |names| + count
    ensures NamesOnto(buffer, p, count, names).value[..|names|] == names
    decreases count
  {
    if count > 0 {
      var more := names + [NameAt(buffer, p)];
      NamesOntoLength(buffer, p + 1 + buffer[p], count - 1, more);
      assert more[..|names|] == names;
    }
  }

  /** Names of at most 255 characters. */
  predicate AllShort(names: seq<string>)
  {
    forall i :: 0 <= i < |names| ==> |names[i]| < 256
  }

  lemma AllShortPush(names: seq<string>, m: string)
    requires AllShort(names) && |m| < 256
    ensures AllShort(names + [m])
  {
    var more := names + [m];
    forall i | 0 <= i < |more|
      ensures |more[i]| < 256
    {
      if i < |names| {
        assert more[i] == names[i];
      }
    }
  }

  /** Every name read is at most 255 characters long, since its length is one byte. */
  lemma {:induction false} NamesOntoShort(buffer: seq<byte>, p: nat, count: nat, names: seq<string>)
    requires AllShort(names)
    ensures NamesOnto(buffer, p, count, names).Ok? ==> AllShort(NamesOnto(buffer, p, count, names).value)
    decreases count
  {
    if count > 0 && p < |buffer| {
      var more := names + [NameAt(buffer, p)];
      AllShortPush(names, NameAt(buffer, p));
      NamesOntoShort(buffer, p + 1 + buffer[p], count - 1, more);
    }
  }

  /** Every name of a names table is at most 255 characters long. */
  lemma NamesShort(buffer: seq<byte>, p: nat, count: nat)
    requires NamesFrom(buffer, p, count).Ok?
    ensures |NamesFrom(buffer, p, count).value| == count
    ensures forall i :: 0 <= i < count ==> |NamesFrom(buffer, p, count).value[i]| < 256
  {
    NamesOntoShort(buffer, p, count, []);
    NamesOntoLength(buffer, p, count, []);
  }

  /** A name that can be stored: at most 255 characters, each one byte. */
  predicate Storable(name: string)
  {
    |name| < 256 && forall i :: 0 <= i < |name| ==> name[i] as int < 256
  }

  function BytesOf(s: string): (r: seq<byte>)
    requires Storable(s)
    ensures |r| == |s| && CharsOf(r) == s
  {
    var r := seq(|s|, i requires 0 <= i < |s| => s[i] as int as byte);
    assert forall i :: 0 <= i < |s| ==> CharsOf(r)[i] == s[i];
    r
  }

  /** The names table as the names chunk stores it. */
  function EncodeNames(names: seq<string>): seq<byte>
    requires forall k :: 0 <= k < |names| ==> Storable(names[k])
  {
    if names == [] then []
    else
      var n := names[0];
      assert Storable(n);
      [|n| as byte] + BytesOf(n) + EncodeNames(names[1..])
  }

  /** The three parts of a stored concatenation, each at its own place. */
  lemma {:induction false} SliceParts(buffer: seq<byte>, p: nat, a: seq<byte>, b: seq<byte>, c: seq<byte>)
    requires p + |a| + |b| + |c| <= |buffer| && buffer[p..p + |a| + |b| + |c|] == a + b + c
    ensures buffer[p..p + |a|] == a
    ensures buffer[p + |a|..p + |a| + |b|] == b
    ensures buffer[p + |a| + |b|..p + |a| + |b| + |c|] == c
  {
    var whole := buffer[p..p + |a| + |b| + |c|];
    assert buffer[p..p + |a|] == whole[..|a|];
    var mid := buffer[p + |a|..p + |a| + |b|];
    forall i | 0 <= i < |b|
      ensures mid[i] == b[i]
    {
      assert mid[i] == whole[|a| + i];
    }
    assert buffer[p + |a| + |b|..p + |a| + |b| + |c|] == whole[|a| + |b|..];
  }

  /** A name stored at p, followed by `rest`: its length byte, the name, then `rest` where the name ends. */
  lemma NameStored(buffer: seq<byte>, p: nat, n: string, rest: seq<byte>)
    requires Storable(n)
    requires var enc := [|n| as byte] + BytesOf(n) + rest;
      p + |enc| <= |buffer| && buffer[p..p + |enc|] == enc
    ensures p < |buffer| && buffer[p] == |n| && NameAt(buffer, p) == n
    ensures var next := p + 1 + |n|; buffer[next..next + |rest|] == rest
  {
    var nb := BytesOf(n);
    var head: seq<byte> := [|n| as byte];
    SliceParts(buffer, p, head, nb, rest);
    assert buffer[p] == buffer[p..p + 1][0] == |n|;
    assert Window(buffer, p + 1, buffer[p]) == nb;
  }

  /** A names table stored at p reads back as its names, pushed in order. */
  lemma {:induction false} NamesOntoAt(buffer: seq<byte>, p: nat, names: seq<string>, acc: seq<string>)
    requires forall k :: 0 <= k < |names| ==> Storable(names[k])
    requires p + |EncodeNames(names)| <= |buffer| && buffer[p..p + |EncodeNames(names)|] == EncodeNames(names)
    ensures NamesOnto(buffer, p, |names|, acc) == Ok(acc + names)
    decreases |names|
  {
    if names == [] {
      assert acc + names == acc;
    } else {
      var n, tail := names[0], names[1..];
      var next := p + 1 + |n|;
      FirstNameStored(buffer, p, names);
      NamesOntoAt(buffer, next, tail, acc + [n]);
      NamesOntoStep(buffer, p, |names|, acc, n, next, |tail|);
      PushThenAppend(acc, n, tail, names);
    }
  }

  /** The first name of a stored names table is at p, and the table of the other names follows it. */
  lemma FirstNameStored(buffer: seq<byte>, p: nat, names: seq<string>)
    requires names != [] && forall k :: 0 <= k < |names| ==> Storable(names[k])
    requires p + |EncodeNames(names)| <= |buffer| && buffer[p..p + |EncodeNames(names)|] == EncodeNames(names)
    ensures p < |buffer| && buffer[p] == |names[0]| && NameAt(buffer, p) == names[0]
    ensures forall k :: 0 <= k < |names[1..]| ==> Storable(names[1..][k])
    ensures var next, rest := p + 1 + |names[0]|, EncodeNames(names[1..]);
      next + |rest| <= |buffer| && buffer[next..next + |rest|] == rest
  {
    var n := names[0];
    assert Storable(n);
    var rest := EncodeNames(names[1..]);
    assert EncodeNames(names) == [|n| as byte] + BytesOf(n) + rest;
    NameStored(buffer, p, n, rest);
  }

  /** The step of `NamesOnto` past a name n whose length byte is at p. */
  lemma NamesOntoStep(buffer: seq<byte>, p: nat, count: nat, acc: seq<string>, n: string, next: nat, left: nat)
    requires count > 0 && p < |buffer| && NameAt(buffer, p) == n
    requires next == p + 1 + buffer[p] && left == count - 1
    ensures NamesOnto(buffer, p, count, acc) == NamesOnto(buffer, next, left, acc + [n])
  {
    var m := NameAt(buffer, p);
    var pushed := acc + [m];
    assert pushed == acc + [n];
    assert NamesOnto(buffer, p, count, acc) == NamesOnto(buffer, next, left, pushed);
  }

  /** Pushing the first name, then the others, pushes them all. */
  lemma PushThenAppend(acc: seq<string>, n: string, tail: seq<string>, names: seq<string>)
    requires names == [n] + tail
    ensures (acc + [n]) + tail == acc + names
  {
    var lhs := (acc + [n]) + tail;
    forall i | 0 <= i < |lhs|
      ensures lhs[i] == (acc + names)[i]
    {
      if i < |acc| {
      } else if i == |acc| {
      } else {
        assert lhs[i] == tail[i - |acc| - 1];
      }
    }
  }

  /** The names a names table holds read back in order, whatever follows the table. */
  lemma NamesRoundTrip(names: seq<string>, tail: seq<byte>)
    requires forall k :: 0 <= k < |names| ==> Storable(names[k])
    ensures NamesFrom(EncodeNames(names) + tail, 0, |names|) == Ok(names)
  {
    var enc := EncodeNames(names);
    assert (enc + tail)[0..|enc|] == enc;
    NamesOntoAt(enc + tail, 0, names, []);
    assert [] + names == names;
  }

  /** The header of the names chunk. */
  datatype NamesHeader = NamesHeader(unknown0: int, unknown1: int, len1: nat, len2: nat, namesOffset: nat, nameCount: nat)

  /** The names chunk after `read`. */
  datatype NamesChunk = NamesChunk(header: NamesHeader, names: seq<string>)

  /** The names header at p: two int32, two uint32, then the table's offset and count as uint16. */
  predicate NamesHeaderLayout(buffer: seq<byte>, p: nat, h: NamesHeader)
  {
    && IntAt(buffer, p, 4, BIG_ENDIAN) == Ok(h.unknown0)
    && IntAt(buffer, p + 4, 4, BIG_ENDIAN) == Ok(h.unknown1)
    && UintAt(buffer, p + 8, 4, BIG_ENDIAN) == Ok(h.len1)
    && UintAt(buffer, p + 12, 4, BIG_ENDIAN) == Ok(h.len2)
    && UintAt(buffer, p + 16, 2, BIG_ENDIAN) == Ok(h.namesOffset)
    && UintAt(buffer, p + 18, 2, BIG_ENDIAN) == Ok(h.nameCount)
  }

  /** A names chunk whose header is at p. */
  predicate NamesLayout(buffer: seq<byte>, p: nat, n: NamesChunk)
  {
    && NamesHeaderLayout(buffer, p, n.header)
    && NamesFrom(buffer, n.header.namesOffset, n.header.nameCount) == Ok(n.names)
  }

  /** `ScriptNames.read`: the header from the current position, then `nameCount` names from `namesOffset`. */
  method ReadNamesChunk(ds: DataStream) returns (r: Result<NamesChunk>)
    modifies ds`position, ds`endianness
    ensures ds.endianness == BIG_ENDIAN
    ensures old(ds.position) + 20 > |ds.buffer| ==> r.Err?
    ensures r.Ok? ==> NamesLayout(ds.buffer, old(ds.position), r.value)
    ensures old(ds.position) + 20 <= |ds.buffer| ==>
      var offset := UintAt(ds.buffer, old(ds.position) + 16, 2, BIG_ENDIAN).value;
      var count := UintAt(ds.buffer, old(ds.position) + 18, 2, BIG_ENDIAN).value;
      (r.Ok? <==> NamesFrom(ds.buffer, offset, count).Ok?)
  {
    ds.endianness := BIG_ENDIAN;
    var header :- ReadNamesHeader(ds);
    var names :- ReadNames(ds, header.namesOffset, header.nameCount);
    r := Ok(NamesChunk(header, names));
  }

  /** The six header fields of `read`, 20 bytes in all. */
  method ReadNamesHeader(ds: DataStream) returns (r: Result<NamesHeader>)
    requires ds.endianness == BIG_ENDIAN
    modifies ds`position
    ensures r.Ok? <==> old(ds.position) + 20 <= |ds.buffer|
    ensures r.Ok? ==> NamesHeaderLayout(ds.buffer, old(ds.position), r.value)
  {
    var unknown0 :- ds.ReadInt32();
    var unknown1 :- ds.ReadInt32();
    var len1 :- ds.ReadUint32();
    var len2 :- ds.ReadUint32();
    var namesOffset :- ds.ReadUint16();
    var nameCount :- ds.ReadUint16();
    r := Ok(NamesHeader(unknown0, unknown1, len1, len2, namesOffset, nameCount));
  }

  /** A length byte past the end of the buffer stops the table with a RangeError. */
  lemma NamesOntoFails(buffer: seq<byte>, p: nat, count: nat, names: seq<string>)
    requires count > 0 && p >= |buffer|
    ensures NamesOnto(buffer, p, count, names) == Err(RangeError)
  {
  }

  /** The step of `NamesOnto` as `read` takes it: the length byte at p, then the string after it. */
  lemma NamesOntoRead(buffer: seq<byte>, p: nat, count: nat, names: seq<string>, length: nat, name: string, next: nat)
    requires count > 0 && p < |buffer| && length == buffer[p]
    requires name == CharsOf(Window(buffer, p + 1, length)) && next == p + 1 + length
    ensures NamesOnto(buffer, p, count, names) == NamesOnto(buffer, next, count - 1, names + [name])
  {
    NamesOntoStep(buffer, p, count, names, name, next, count - 1);
  }

  /** One turn of the loop of `read`: a length byte, then that many bytes as a name. */
  method ReadName(ds: DataStream, ghost count: nat, ghost names: seq<string>) returns (r: Result<string>)
    requires count > 0
    modifies ds`position
    ensures r.Err? ==> NamesOnto(ds.buffer, old(ds.position), count, names) == Err(r.error)
    ensures r.Ok? ==>
      NamesOnto(ds.buffer, old(ds.position), count, names) == NamesOnto(ds.buffer, ds.position, count - 1, names + [r.value])
  {
    ghost var p := ds.position;
    var length := ds.ReadUint8();
    if length.Err? {
      NamesOntoFails(ds.buffer, p, count, names);
      return Err(length.error);
    }
    var name := ds.ReadString(length.value);
    NamesOntoRead(ds.buffer, p, count, names, length.value, name, ds.position);
    r := Ok(name);
  }

  /** The loop of `read`: `nameCount` names, each a length byte and then its bytes. */
  method ReadNames(ds: DataStream, offset: nat, count: nat) returns (r: Result<seq<string>>)
    modifies ds`position
    ensures r == NamesFrom(ds.buffer, offset, count)
  {
    ghost var all := NamesFrom(ds.buffer, offset, count);
    ds.Seek(offset);
    var names: seq<string> := [];
    var i := 0;
    while i < count
      invariant i <= count
      invariant all == NamesOnto(ds.buffer, ds.position, count - i, names)
    {
      var name :- ReadName(ds, count - i, names);
      names := names + [name];
      i := i + 1;
    }
    r := Ok(names);
  }

  // ---------------------------------------------------------------------
  // Script context.

  /** The header of the context chunk, in the order `read` takes its fields. */
  datatype ContextHeader = ContextHeader(
    unknown0: int, unknown1: int, entryCount: nat, entryCount2: nat, entriesOffset: nat,
    unknown2: int, unknown3: int, unknown4: int, unknown5: int, lnamSectionID: int,
    validCount: nat, flags: nat, freePointer: int)

  /** One entry of the section map: the section holding a script, or -1. */
  datatype SectionEntry = SectionEntry(unknown0: int, sectionID: int, unknown1: nat, unknown2: nat)

  /** The context chunk after `read`. */
  datatype ContextChunk = ContextChunk(header: ContextHeader, sectionMap: seq<SectionEntry>)

  /** The first 20 bytes of the context header at p: the entry table's size and place. */
  predicate ContextHeadLayout(buffer: seq<byte>, p: nat, h: ContextHeader)
  {
    && IntAt(buffer, p, 4, BIG_ENDIAN) == Ok(h.unknown0)
    && IntAt(buffer, p + 4, 4, BIG_ENDIAN) == Ok(h.unknown1)
    && UintAt(buffer, p + 8, 4, BIG_ENDIAN) == Ok(h.entryCount)
    && UintAt(buffer, p + 12, 4, BIG_ENDIAN) == Ok(h.entryCount2)
    && UintAt(buffer, p + 16, 2, BIG_ENDIAN) == Ok(h.entriesOffset)
    && IntAt(buffer, p + 18, 2, BIG_ENDIAN) == Ok(h.unknown2)
  }

  /** The last 22 bytes of the context header, from p + 20. */
  predicate ContextTailLayout(buffer: seq<byte>, p: nat, h: ContextHeader)
  {
    && IntAt(buffer, p + 20, 4, BIG_ENDIAN) == Ok(h.unknown3)
    && IntAt(buffer, p + 24, 4, BIG_ENDIAN) == Ok(h.unknown4)
    && IntAt(buffer, p + 28, 4, BIG_ENDIAN) == Ok(h.unknown5)
    && IntAt(buffer, p + 32, 4, BIG_ENDIAN) == Ok(h.lnamSectionID)
    && UintAt(buffer, p + 36, 2, BIG_ENDIAN) == Ok(h.validCount)
    && UintAt(buffer, p + 38, 2, BIG_ENDIAN) == Ok(h.flags)
    && IntAt(buffer, p + 40, 2, BIG_ENDIAN) == Ok(h.freePointer)
  }

  /** The context header at p: 42 bytes, signed and unsigned fields as `read` takes them. */
  predicate ContextHeaderLayout(buffer: seq<byte>, p: nat, h: ContextHeader)
  {
    ContextHeadLayout(buffer, p, h) && ContextTailLayout(buffer, p, h)
  }

  /** `ScriptContextMapEntry.read` at p: int32, int32, uint16, uint16. */
  function SectionEntryAt(buffer: seq<byte>, p: nat): (r: Result<SectionEntry>)
    ensures r.Ok? <==> p + 12 <= |buffer|
    ensures r.Ok? ==>
      && IntAt(buffer, p, 4, BIG_ENDIAN) == Ok(r.value.unknown0)
      && IntAt(buffer, p + 4, 4, BIG_ENDIAN) == Ok(r.value.sectionID)
      && UintAt(buffer, p + 8, 2, BIG_ENDIAN) == Ok(r.value.unknown1)
      && UintAt(buffer, p + 10, 2, BIG_ENDIAN) == Ok(r.value.unknown2)
  {
    if p + 12 > |buffer| then Err(RangeError)
    else Ok(SectionEntry(
      IntAt(buffer, p, 4, BIG_ENDIAN).value, IntAt(buffer, p + 4, 4, BIG_ENDIAN).value,
      UintAt(buffer, p + 8, 2, BIG_ENDIAN).value, UintAt(buffer, p + 10, 2, BIG_ENDIAN).value))
  }

  method ReadSectionEntry(ds: DataStream) returns (r: Result<SectionEntry>)
    requires ds.endianness == BIG_ENDIAN
    modifies ds`position
    ensures r == SectionEntryAt(ds.buffer, old(ds.position))
    ensures r.Ok? ==> ds.position == old(ds.position) + 12
  {
    var unknown0 :- ds.ReadInt32();
    var sectionID :- ds.ReadInt32();
    var unknown1 :- ds.ReadUint16();
    var unknown2 :- ds.ReadUint16();
    r := Ok(SectionEntry(unknown0, sectionID, unknown1, unknown2));
  }

  /** A context chunk whose header is at p: `entryCount` entries, 12 bytes apart from `entriesOffset`. */
  predicate ContextLayout(buffer: seq<byte>, p: nat, c: ContextChunk)
  {
    && ContextHeaderLayout(buffer, p, c.header)
    && |c.sectionMap| == c.header.entryCount
    && forall k :: 0 <= k < c.header.entryCount ==> SectionEntryAt(buffer, c.header.entriesOffset + 12 * k) == Ok(c.sectionMap[k])
  }

  /** `ScriptContext.read`: the header from the current position, then `entryCount` entries from `entriesOffset`, in order. */
  method ReadContextChunk(ds: DataStream) returns (r: Result<ContextChunk>)
    modifies ds`position, ds`endianness
    ensures ds.endianness == BIG_ENDIAN
    ensures old(ds.position) + 42 > |ds.buffer| ==> r.Err?
    ensures r.Ok? ==> ContextLayout(ds.buffer, old(ds.position), r.value)
    ensures old(ds.position) + 42 <= |ds.buffer| ==>
      var offset := UintAt(ds.buffer, old(ds.position) + 16, 2, BIG_ENDIAN).value;
      var count := UintAt(ds.buffer, old(ds.position) + 8, 4, BIG_ENDIAN).value;
      (r.Ok? <==> count == 0 || offset + 12 * count <= |ds.buffer|)
  {
    ghost var p := ds.position;
    ds.endianness := BIG_ENDIAN;
    var header :- ReadContextHeader(ds);
    HeaderPlacesEntries(ds.buffer, p, header);
    var entries :- ReadSectionMap(ds, header.entriesOffset, header.entryCount);
    r := Ok(ContextChunk(header, entries));
  }

  /** The entry count and the entry table offset a context header holds, as the bytes give them. */
  lemma HeaderPlacesEntries(buffer: seq<byte>, p: nat, h: ContextHeader)
    requires ContextHeaderLayout(buffer, p, h)
    ensures h.entryCount == UintAt(buffer, p + 8, 4, BIG_ENDIAN).value
    ensures h.entriesOffset == UintAt(buffer, p + 16, 2, BIG_ENDIAN).value
  {
  }

  method ReadContextHeader(ds: DataStream) returns (r: Result<ContextHeader>)
    requires ds.endianness == BIG_ENDIAN
    modifies ds`position
    ensures r.Ok? <==> old(ds.position) + 42 <= |ds.buffer|
    ensures r.Ok? ==> ContextHeaderLayout(ds.buffer, old(ds.position), r.value)
  {
    var head :- ReadContextHead(ds);
    r := ReadContextTail(ds, head);
  }

  /** The first six fields; the rest of the header is left zero. */
  method ReadContextHead(ds: DataStream) returns (r: Result<ContextHeader>)
    requires ds.endianness == BIG_ENDIAN
    modifies ds`position
    ensures r.Ok? <==> old(ds.position) + 20 <= |ds.buffer|
    ensures r.Ok? ==> ContextHeadLayout(ds.buffer, old(ds.position), r.value) && ds.position == old(ds.position) + 20
  {
    var unknown0 :- ds.ReadInt32();
    var unknown1 :- ds.ReadInt32();
    var entryCount :- ds.ReadUint32();
    var entryCount2 :- ds.ReadUint32();
    var entriesOffset :- ds.ReadUint16();
    var unknown2 :- ds.ReadInt16();
    r := Ok(ContextHeader(unknown0, unknown1, entryCount, entryCount2, entriesOffset, unknown2, 0, 0, 0, 0, 0, 0, 0));
  }

  /** The last seven fields, into `head`. */
  method ReadContextTail(ds: DataStream, head: ContextHeader) returns (r: Result<ContextHeader>)
    requires ds.endianness == BIG_ENDIAN && ds.position >= 20
    requires ContextHeadLayout(ds.buffer, ds.position - 20, head)
    modifies ds`position
    ensures r.Ok? <==> old(ds.position) + 22 <= |ds.buffer|
    ensures r.Ok? ==> ContextHeaderLayout(ds.buffer, old(ds.position) - 20, r.value)
  {
    ghost var p: nat := ds.position - 20;
    var unknown3 :- ds.ReadInt32();
    var unknown4 :- ds.ReadInt32();
    var unknown5 :- ds.ReadInt32();
    var lnamSectionID :- ds.ReadInt32();
    var validCount :- ds.ReadUint16();
    var flags :- ds.ReadUint16();
    var freePointer :- ds.ReadInt16();
    var h := head.(unknown3 := unknown3, unknown4 := unknown4, unknown5 := unknown5, lnamSectionID := lnamSectionID,
                   validCount := validCount, flags := flags, freePointer := freePointer);
    assert ContextHeadLayout(ds.buffer, p, h);
    r := Ok(h);
  }

  /** The loop of `read`: `count` entries, 12 bytes apart from `offset`. */
  method ReadSectionMap(ds: DataStream, offset: nat, count: nat) returns (r: Result<seq<SectionEntry>>)
    requires ds.endianness == BIG_ENDIAN
    modifies ds`position
    ensures r.Ok? <==> count == 0 || offset + 12 * count <= |ds.buffer|
    ensures r.Ok? ==> |r.value| == count && forall k :: 0 <= k < count ==> SectionEntryAt(ds.buffer, offset + 12 * k) == Ok(r.value[k])
  {
    ds.Seek(offset);
    var entries: seq<SectionEntry> := [];
    while |entries| < count
      invariant |entries| <= count && ds.endianness == BIG_ENDIAN
      invariant ds.position == offset + 12 * |entries|
      invariant |entries| > 0 ==> offset + 12 * |entries| <= |ds.buffer|
      invariant forall k :: 0 <= k < |entries| ==> SectionEntryAt(ds.buffer, offset + 12 * k) == Ok(entries[k])
    {
      var e := ReadSectionEntry(ds);
      if e.Err? {
        assert offset + 12 * count > |ds.buffer|;
        return Err(e.error);
      }
      entries := entries + [e.value];
    }
    r := Ok(entries);
  }
}
