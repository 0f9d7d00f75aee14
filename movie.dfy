/**
 * The container walker of the JavaScript generation (`Movie.lookupMmap`,
 * `readChunk`, `addChunk`) and the two map chunks it follows: the initial
 * map (`imap`), which lists the offsets of the memory maps, and the memory
 * map (`mmap`), which lists every chunk of the file with its tag, length and
 * offset.
 */
module DirectorMovie {
  import opened Bytes
  import opened Wrappers
  import opened DataStream
  import LingoScript
  import LingoContext

  const InvalidDirectorFile: string := "InvalidDirectorFileError"
  const PathTooNew: string := "PathTooNewError"

  // ---------------------------------------------------------------------
  // Initial map.

  datatype InitialMap = InitialMap(memoryMapCount: nat, memoryMapArray: seq<nat>)

  /** The initial map at p: a uint32 count, then that many uint32 offsets, in the stream's byte order. */
  function InitialMapAt(buffer: seq<byte>, p: nat, le: bool): (r: Result<InitialMap>)
    ensures r.Ok? <==> p + 4 <= |buffer| && p + 4 + 4 * UintAt(buffer, p, 4, le).value <= |buffer|
    ensures r.Ok? ==>
      && UintAt(buffer, p, 4, le) == Ok(r.value.memoryMapCount)
      && |r.value.memoryMapArray| == r.value.memoryMapCount
      && forall k :: 0 <= k < r.value.memoryMapCount ==> UintAt(buffer, p + 4 + 4 * k, 4, le) == Ok(r.value.memoryMapArray[k])
  {
    if p + 4 > |buffer| then Err(RangeError)
    else
      var count := UintAt(buffer, p, 4, le).value;
      if p + 4 + 4 * count > |buffer| then Err(RangeError)
      else Ok(InitialMap(count, seq(count, k requires 0 <= k < count => UintAt(buffer, p + 4 + 4 * k, 4, le).value)))
  }

  /** `InitialMap.read`. */
  method ReadInitialMap(ds: DataStream) returns (r: Result<InitialMap>)
    modifies ds`position
    ensures r == InitialMapAt(ds.buffer, old(ds.position), ds.endianness)
  {
    ghost var p := ds.position;
    var count :- ds.ReadUint32();
    var offsets: seq<nat> := [];
    while |offsets| < count
      invariant |offsets| <= count
      invariant ds.position == p + 4 + 4 * |offsets|
      invariant ds.position <= |ds.buffer|
      invariant forall k :: 0 <= k < |offsets| ==> UintAt(ds.buffer, p + 4 + 4 * k, 4, ds.endianness) == Ok(offsets[k])
    {
      var offset := ds.ReadUint32();
      if offset.Err? {
        assert p + 4 + 4 * count > |ds.buffer|;
        return Err(offset.error);
      }
      offsets := offsets + [offset.value];
    }
    assert InitialMapAt(ds.buffer, p, ds.endianness).value.memoryMapArray == offsets;
    r := Ok(InitialMap(count, offsets));
  }

  // ---------------------------------------------------------------------
  // Memory map.

  /** One row of the memory map, remembering its place in the table. */
  datatype MemoryMapEntry = MemoryMapEntry(index: nat, name: string, len: nat, offset: nat, padding: int, unknown0: int, link: int)

  datatype MemoryMap = MemoryMap(
    unknown0: nat, unknown1: nat, chunkCountMax: int, chunkCountUsed: int,
    junkPointer: int, unknown2: int, freePointer: int, mapArray: seq<MemoryMapEntry>)

  /** `MemoryMapEntry.read` at p: a tag, uint32 length and offset, int16 padding and unknown, int32 link. */
  function EntryAt(buffer: seq<byte>, p: nat, le: bool, index: nat): (r: Result<MemoryMapEntry>)
    ensures r.Ok? <==> p + 20 <= |buffer|
    ensures r.Ok? ==>
      && r.value.index == index
      && r.value.name == FourCCAt(buffer, p, le)
      && UintAt(buffer, p + 4, 4, le) == Ok(r.value.len)
      && UintAt(buffer, p + 8, 4, le) == Ok(r.value.offset)
      && IntAt(buffer, p + 12, 2, le) == Ok(r.value.padding)
      && IntAt(buffer, p + 14, 2, le) == Ok(r.value.unknown0)
      && IntAt(buffer, p + 16, 4, le) == Ok(r.value.link)
  {
    if p + 20 > |buffer| then Err(RangeError)
    else Ok(MemoryMapEntry(index, FourCCAt(buffer, p, le),
      UintAt(buffer, p + 4, 4, le).value, UintAt(buffer, p + 8, 4, le).value,
      IntAt(buffer, p + 12, 2, le).value, IntAt(buffer, p + 14, 2, le).value, IntAt(buffer, p + 16, 4, le).value))
  }

  /** The whole table: `count` rows of 20 bytes from p, row k remembering k. */
  function EntriesAt(buffer: seq<byte>, p: nat, le: bool, count: nat): (r: Result<seq<MemoryMapEntry>>)
    ensures r.Ok? <==> count == 0 || p + 20 * count <= |buffer|
    ensures r.Ok? ==> |r.value| == count && forall k :: 0 <= k < count ==> EntryAt(buffer, p + 20 * k, le, k) == Ok(r.value[k])
  {
    if count > 0 && p + 20 * count > |buffer| then Err(RangeError)
    else Ok(seq(count, k requires 0 <= k < count => EntryAt(buffer, p + 20 * k, le, k).value))
  }

  /** The tags of rows the memory map does not keep. */
  predicate Dropped(name: string)
  {
    name == "free" || name == "junk"
  }

  /** The rows `read` keeps, in table order. */
  function Kept(entries: seq<MemoryMapEntry>): (r: seq<MemoryMapEntry>)
    ensures |r| <= |entries|
  {
    if entries == [] then []
    else if Dropped(entries[|entries| - 1].name) then Kept(entries[..|entries| - 1])
    else Kept(entries[..|entries| - 1]) + [entries[|entries| - 1]]
  }

  /** A row is kept exactly when it is in the table and is neither free nor junk. */
  lemma {:induction false} KeptMembers(entries: seq<MemoryMapEntry>, e: MemoryMapEntry)
    ensures e in Kept(entries) <==> e in entries && !Dropped(e.name)
  {
    if entries != [] {
      var init := entries[..|entries| - 1];
      KeptMembers(init, e);
      assert entries == init + [entries[|entries| - 1]];
    }
  }

  /** The rows of a table whose row k remembers k. */
  predicate Numbered(entries: seq<MemoryMapEntry>)
  {
    forall k :: 0 <= k < |entries| ==> entries[k].index == k
  }

  /** Kept rows keep their table order, and each still names its own row of the table. */
  lemma {:induction false} KeptInTableOrder(entries: seq<MemoryMapEntry>)
    requires Numbered(entries)
    ensures forall i :: 0 <= i < |Kept(entries)| ==>
      Kept(entries)[i].index < |entries| && entries[Kept(entries)[i].index] == Kept(entries)[i]
    ensures forall i, j :: 0 <= i < j < |Kept(entries)| ==> Kept(entries)[i].index < Kept(entries)[j].index
  {
    if entries != [] {
      var init := entries[..|entries| - 1];
      assert Numbered(init);
      KeptInTableOrder(init);
    }
  }

  /** `read` keeps the row after the rows before it, unless it is free or junk. */
  lemma KeptAppend(entries: seq<MemoryMapEntry>, e: MemoryMapEntry)
    ensures Kept(entries + [e]) == if Dropped(e.name) then Kept(entries) else Kept(entries) + [e]
  {
    assert (entries + [e])[..|entries|] == entries;
  }

  /** The 24-byte header of the memory map at p: two uint16 and five int32; no rows yet. */
  function MemoryMapHeaderAt(buffer: seq<byte>, p: nat, le: bool): (r: Result<MemoryMap>)
    ensures r.Ok? <==> p + 24 <= |buffer|
    ensures r.Ok? ==>
      && UintAt(buffer, p, 2, le) == Ok(r.value.unknown0)
      && UintAt(buffer, p + 2, 2, le) == Ok(r.value.unknown1)
      && IntAt(buffer, p + 4, 4, le) == Ok(r.value.chunkCountMax)
      && IntAt(buffer, p + 8, 4, le) == Ok(r.value.chunkCountUsed)
      && IntAt(buffer, p + 12, 4, le) == Ok(r.value.junkPointer)
      && IntAt(buffer, p + 16, 4, le) == Ok(r.value.unknown2)
      && IntAt(buffer, p + 20, 4, le) == Ok(r.value.freePointer)
      && r.value.mapArray == []
  {
    if p + 24 > |buffer| then Err(RangeError)
    else Ok(MemoryMap(UintAt(buffer, p, 2, le).value, UintAt(buffer, p + 2, 2, le).value,
      IntAt(buffer, p + 4, 4, le).value, IntAt(buffer, p + 8, 4, le).value, IntAt(buffer, p + 12, 4, le).value,
      IntAt(buffer, p + 16, 4, le).value, IntAt(buffer, p + 20, 4, le).value, []))
  }

  /** The memory map at p: the header, then `chunkCountUsed` rows (none when it is negative), of which the kept ones. */
  function MemoryMapAt(buffer: seq<byte>, p: nat, le: bool): (r: Result<MemoryMap>)
    ensures r.Ok? <==> (
      && MemoryMapHeaderAt(buffer, p, le).Ok?
      && EntriesAt(buffer, p + 24, le, RowCount(MemoryMapHeaderAt(buffer, p, le).value.chunkCountUsed)).Ok?)
    ensures r.Ok? ==>
      && MemoryMapHeaderAt(buffer, p, le) == Ok(r.value.(mapArray := []))
      && r.value.mapArray == Kept(EntriesAt(buffer, p + 24, le, RowCount(r.value.chunkCountUsed)).value)
  {
    var header :- MemoryMapHeaderAt(buffer, p, le);
    var all :- EntriesAt(buffer, p + 24, le, RowCount(header.chunkCountUsed));
    Ok(header.(mapArray := Kept(all)))
  }

  /** The number of rows a `for` loop up to `chunkCountUsed` reads. */
  function RowCount(used: int): nat
  {
    if used < 0 then 0 else used
  }

  /** The rows of the memory map, every kept one remembering its row, in table order. */
  lemma MemoryMapRows(buffer: seq<byte>, p: nat, le: bool)
    requires MemoryMapAt(buffer, p, le).Ok?
    ensures var m := MemoryMapAt(buffer, p, le).value;
      && (forall i :: 0 <= i < |m.mapArray| ==> !Dropped(m.mapArray[i].name) && m.mapArray[i].index < RowCount(m.chunkCountUsed))
      && (forall i, j :: 0 <= i < j < |m.mapArray| ==> m.mapArray[i].index < m.mapArray[j].index)
  {
    var m := MemoryMapAt(buffer, p, le).value;
    var all := EntriesAt(buffer, p + 24, le, RowCount(m.chunkCountUsed)).value;
    assert Numbered(all);
    KeptInTableOrder(all);
    forall i | 0 <= i < |m.mapArray|
      ensures !Dropped(m.mapArray[i].name)
    {
      KeptMembers(all, m.mapArray[i]);
    }
  }

  /** `MemoryMap.read`. */
  method ReadMemoryMap(ds: DataStream) returns (r: Result<MemoryMap>)
    modifies ds`position
    ensures r == MemoryMapAt(ds.buffer, old(ds.position), ds.endianness)
  {
    var header :- ReadMemoryMapHeader(ds);
    var mapArray :- ReadRows(ds, RowCount(header.chunkCountUsed));
    r := Ok(header.(mapArray := mapArray));
  }

  method ReadMemoryMapHeader(ds: DataStream) returns (r: Result<MemoryMap>)
    modifies ds`position
    ensures r == MemoryMapHeaderAt(ds.buffer, old(ds.position), ds.endianness)
    ensures r.Ok? ==> ds.position == old(ds.position) + 24
  {
    var unknown0 :- ds.ReadUint16();
    var unknown1 :- ds.ReadUint16();
    var chunkCountMax :- ds.ReadInt32();
    var pointers :- ReadInt32s(ds);
    r := Ok(MemoryMap(unknown0, unknown1, chunkCountMax, pointers.0, pointers.1, pointers.2, pointers.3, []));
  }

  /** Four int32 fields in a row. */
  method ReadInt32s(ds: DataStream) returns (r: Result<(int, int, int, int)>)
    modifies ds`position
    ensures r.Ok? <==> old(ds.position) + 16 <= |ds.buffer|
    ensures r.Err? ==> r.error == RangeError
    ensures r.Ok? ==>
      && IntAt(ds.buffer, old(ds.position), 4, ds.endianness) == Ok(r.value.0)
      && IntAt(ds.buffer, old(ds.position) + 4, 4, ds.endianness) == Ok(r.value.1)
      && IntAt(ds.buffer, old(ds.position) + 8, 4, ds.endianness) == Ok(r.value.2)
      && IntAt(ds.buffer, old(ds.position) + 12, 4, ds.endianness) == Ok(r.value.3)
      && ds.position == old(ds.position) + 16
  {
    var a :- ds.ReadInt32();
    var b :- ds.ReadInt32();
    var c :- ds.ReadInt32();
    var d :- ds.ReadInt32();
    r := Ok((a, b, c, d));
  }

  /** One more row read after the first ones extends the table by that row. */
  lemma EntriesAtSnoc(buffer: seq<byte>, p: nat, le: bool, count: nat)
    requires EntriesAt(buffer, p, le, count).Ok? && EntryAt(buffer, p + 20 * count, le, count).Ok?
    ensures EntriesAt(buffer, p, le, count + 1) == Ok(EntriesAt(buffer, p, le, count).value + [EntryAt(buffer, p + 20 * count, le, count).value])
  {
    var longer := EntriesAt(buffer, p, le, count + 1).value;
    var shorter := EntriesAt(buffer, p, le, count).value;
    assert longer == shorter + [EntryAt(buffer, p + 20 * count, le, count).value];
  }

  /** The loop of `read`: `count` rows from the current position, keeping those that are not free or junk. */
  method ReadRows(ds: DataStream, count: nat) returns (r: Result<seq<MemoryMapEntry>>)
    modifies ds`position
    ensures var all := EntriesAt(ds.buffer, old(ds.position), ds.endianness, count);
      r == if all.Ok? then Ok(Kept(all.value)) else Err(all.error)
  {
    ghost var p := ds.position;
    ghost var read: seq<MemoryMapEntry> := [];
    var mapArray: seq<MemoryMapEntry> := [];
    var i := 0;
    while i < count
      invariant i <= count && |read| == i
      invariant ds.position == p + 20 * i
      invariant i > 0 ==> ds.position <= |ds.buffer|
      invariant EntriesAt(ds.buffer, p, ds.endianness, i) == Ok(read)
      invariant mapArray == Kept(read)
    {
      var entry := ReadEntry(ds, i);
      if entry.Err? {
        assert p + 20 * count > |ds.buffer|;
        return Err(entry.error);
      }
      KeptAppend(read, entry.value);
      EntriesAtSnoc(ds.buffer, p, ds.endianness, i);
      read := read + [entry.value];
      if !Dropped(entry.value.name) {
        mapArray := mapArray + [entry.value];
      }
      i := i + 1;
    }
    r := Ok(mapArray);
  }

  method ReadEntry(ds: DataStream, index: nat) returns (r: Result<MemoryMapEntry>)
    modifies ds`position
    ensures r == EntryAt(ds.buffer, old(ds.position), ds.endianness, index)
    ensures r.Ok? ==> ds.position == old(ds.position) + 20
  {
    var name := ds.ReadFourCC();
    var len :- ds.ReadUint32();
    var offset :- ds.ReadUint32();
    var padding :- ds.ReadInt16();
    var unknown0 :- ds.ReadInt16();
    var link :- ds.ReadInt32();
    r := Ok(MemoryMapEntry(index, name, len, offset, padding, unknown0, link));
  }

  // ---------------------------------------------------------------------
  // Chunks.

  /** The tags whose readers are the cast bookkeeping, which this model does not parse. */
  const CastTags: set<string> := {"MCsL", "KEY*", "CAS*", "CASt"}

  /** The tags with a reader of their own in `readChunk`'s table. */
  const ParsedTags: set<string> := {"RIFX", "imap", "mmap", "LctX", "Lnam", "Lscr"}

  /** A chunk as `readChunk` builds it, by tag. */
  datatype Chunk =
    | Meta(codec: string)
    | InitialMapChunk(initialMap: InitialMap)
    | MemoryMapChunk(memoryMap: MemoryMap)
    | ContextChunk(context: LingoContext.ContextChunk)
    | NamesChunk(names: LingoContext.NamesChunk)
    | ScriptChunk(script: LingoScript.ScriptChunk)
    | CastChunk(castTag: string)
    | Unimplemented(tag: string)

  /** The tag a chunk was built for. */
  function ChunkName(c: Chunk): string
  {
    match c
    case Meta(_) => "RIFX"
    case InitialMapChunk(_) => "imap"
    case MemoryMapChunk(_) => "mmap"
    case ContextChunk(_) => "LctX"
    case NamesChunk(_) => "Lnam"
    case ScriptChunk(_) => "Lscr"
    case CastChunk(t) => t
    case Unimplemented(t) => t
  }

  /** Cast and unimplemented chunks only stand for tags without a parsed reader. */
  predicate WellTagged(c: Chunk)
  {
    && (c.CastChunk? ==> c.castTag in CastTags)
    && (c.Unimplemented? ==> c.tag !in CastTags && c.tag !in ParsedTags)
  }

  /** What the chunk's reader promises about the payload it was built from. */
  predicate ReadFrom(c: Chunk, payload: seq<byte>, le: bool)
  {
    match c
    case Meta(codec) => codec == FourCCAt(payload, 0, le)
    case InitialMapChunk(m) => InitialMapAt(payload, 0, le) == Ok(m)
    case MemoryMapChunk(m) => MemoryMapAt(payload, 0, le) == Ok(m)
    case ContextChunk(x) => LingoContext.ContextLayout(payload, 0, x)
    case NamesChunk(n) => LingoContext.NamesLayout(payload, 0, n)
    case ScriptChunk(s) => LingoScript.ScriptLayout(payload, s)
    case CastChunk(_) => true
    case Unimplemented(_) => true
  }

  /** The tag `readChunk` checks: "XFIR" counts as "RIFX" when a RIFX header is expected. */
  function TagFound(name: string, fourCC: string): (r: string)
    ensures r == name <==> fourCC == name || (name == "RIFX" && fourCC == "XFIR")
  {
    if name == "RIFX" && fourCC == "XFIR" then "RIFX" else fourCC
  }

  /**
   * The header check of `readChunk`: a tag, length or offset the caller
   * does not know takes the header's; one it knows must match. The result
   * is the number of payload bytes copied: 4 for RIFX, whose length covers
   * the whole file, otherwise the header's length.
   */
  function CheckHeader(name: string, len: Option<nat>, offset: Option<nat>, validName: string, validLen: nat, validOffset: nat): (r: Result<nat>)
    ensures r.Ok? <==> name == validName && (len.Some? ==> len.value == validLen) && (offset.Some? ==> offset.value == validOffset)
    ensures r.Err? ==> r.error == InvalidDirectorFile
    ensures r.Ok? && name == "RIFX" ==> r.value == 4
    ensures r.Ok? && name != "RIFX" ==> r.value == validLen
  {
    var l := if len.Some? then len.value else validLen;
    var o := if offset.Some? then offset.value else validOffset;
    if name != validName || l != validLen || o != validOffset then Err(InvalidDirectorFile)
    else if name == "RIFX" then Ok(4)
    else Ok(l)
  }

  /** With nothing known yet, only the tag is checked. */
  lemma UnknownFieldsAdoptHeader(name: string, validLen: nat, validOffset: nat)
    ensures CheckHeader(name, None, None, name, validLen, validOffset).Ok?
    ensures forall other :: other != name ==> CheckHeader(other, None, None, name, validLen, validOffset) == Err(InvalidDirectorFile)
  {
  }

  /** The dispatch of `readChunk`: a reader by tag on a fresh stream over the payload, in the container's byte order. */
  method ReadChunkBody(name: string, payload: seq<byte>, le: bool) returns (r: Result<Chunk>)
    ensures r.Ok? ==> ChunkName(r.value) == name && WellTagged(r.value) && ReadFrom(r.value, payload, le)
    ensures name !in ParsedTags - {"RIFX"} ==> r.Ok?
    ensures name == "imap" ==> (r.Ok? <==> InitialMapAt(payload, 0, le).Ok?)
    ensures name == "mmap" ==> (r.Ok? <==> MemoryMapAt(payload, 0, le).Ok?)
  {
    if name in {"RIFX", "imap", "mmap"} {
      r := ReadMapChunk(name, payload, le);
    } else if name in {"LctX", "Lnam", "Lscr"} {
      r := ReadScriptChunk(name, payload, le);
    } else if name in CastTags {
      r := Ok(CastChunk(name));
    } else {
      assert name !in ParsedTags;
      r := Ok(Unimplemented(name));
    }
  }

  /** The readers of the container's own chunks. */
  method ReadMapChunk(name: string, payload: seq<byte>, le: bool) returns (r: Result<Chunk>)
    requires name in {"RIFX", "imap", "mmap"}
    ensures r.Ok? ==> ChunkName(r.value) == name && WellTagged(r.value) && ReadFrom(r.value, payload, le)
    ensures name == "RIFX" ==> r.Ok?
    ensures name == "imap" ==> (r.Ok? <==> InitialMapAt(payload, 0, le).Ok?)
    ensures name == "mmap" ==> (r.Ok? <==> MemoryMapAt(payload, 0, le).Ok?)
  {
    var cds := new DataStream(payload, le);
    if name == "RIFX" {
      var codec := cds.ReadFourCC();
      r := Ok(Meta(codec));
    } else if name == "imap" {
      var m :- ReadInitialMap(cds);
      r := Ok(InitialMapChunk(m));
    } else {
      var m :- ReadMemoryMap(cds);
      r := Ok(MemoryMapChunk(m));
    }
  }

  /** The readers of the Lingo chunks, which read big-endian whatever the container's order. */
  method ReadScriptChunk(name: string, payload: seq<byte>, le: bool) returns (r: Result<Chunk>)
    requires name in {"LctX", "Lnam", "Lscr"}
    ensures r.Ok? ==> ChunkName(r.value) == name && WellTagged(r.value) && ReadFrom(r.value, payload, le)
  {
    var cds := new DataStream(payload, le);
    if name == "LctX" {
      var x :- LingoContext.ReadContextChunk(cds);
      r := Ok(ContextChunk(x));
    } else if name == "Lnam" {
      var n :- LingoContext.ReadNamesChunk(cds);
      r := Ok(NamesChunk(n));
    } else {
      var s :- LingoScript.ReadScript(cds);
      r := Ok(ScriptChunk(s));
    }
  }

  /** The byte order after a header: "XFIR" where RIFX is expected switches to little-endian. */
  function HeaderEndianness(buffer: seq<byte>, p: nat, le: bool, name: string): bool
  {
    if name == "RIFX" && FourCCAt(buffer, p, le) == "XFIR" then LITTLE_ENDIAN else le
  }

  /** The tag and length of the chunk header at p, as `readChunk` reads them for the expected tag `name`. */
  function ChunkHeader(buffer: seq<byte>, p: nat, le: bool, name: string): (r: Result<(string, nat)>)
    ensures r.Ok? <==> p + 8 <= |buffer|
    ensures r.Ok? ==>
      && r.value.0 == TagFound(name, FourCCAt(buffer, p, le))
      && UintAt(buffer, p + 4, 4, HeaderEndianness(buffer, p, le, name)) == Ok(r.value.1)
  {
    var len :- UintAt(buffer, p + 4, 4, HeaderEndianness(buffer, p, le, name));
    Ok((TagFound(name, FourCCAt(buffer, p, le)), len))
  }

  /** The first eight bytes `readChunk` reads: a tag, switching byte order on "XFIR", and a uint32 length. */
  method ReadChunkHeader(ds: DataStream, name: string) returns (r: Result<(string, nat)>)
    modifies ds`position, ds`endianness
    ensures r == ChunkHeader(ds.buffer, old(ds.position), old(ds.endianness), name)
    ensures ds.endianness == HeaderEndianness(ds.buffer, old(ds.position), old(ds.endianness), name)
    ensures r.Ok? ==> ds.position == old(ds.position) + 8
  {
    var validName := ds.ReadFourCC();
    if name == "RIFX" && validName == "XFIR" {
      ds.endianness := LITTLE_ENDIAN;
      validName := "RIFX";
    }
    var validLen :- ds.ReadUint32();
    r := Ok((validName, validLen));
  }

  /**
   * What `readChunk`, expecting `name` and knowing `len` and `offset` or not,
   * makes of the header at p: a RangeError when the header does not fit, the
   * header check's error when it fails, and otherwise a chunk of that tag
   * read from the payload after the header, together with that payload.
   */
  ghost predicate ChunkOutcome(buffer: seq<byte>, p: nat, le: bool, newLe: bool, name: string,
                               len: Option<nat>, offset: Option<nat>, r: Result<(Chunk, seq<byte>)>)
  {
    && newLe == HeaderEndianness(buffer, p, le, name)
    && var h := ChunkHeader(buffer, p, le, name);
    && (h.Err? ==> r == Err(RangeError))
    && (h.Ok? ==> var check := CheckHeader(name, len, offset, h.value.0, h.value.1, p);
          && (check.Err? ==> r == Err(check.error))
          && (r.Ok? ==>
                && check.Ok? && r.value.1 == Window(buffer, p + 8, check.value)
                && ChunkName(r.value.0) == name && WellTagged(r.value.0) && ReadFrom(r.value.0, r.value.1, newLe)))
  }

  /** Everything `readChunk` does but recording its result: the chunk and the payload it was read from. */
  method ReadChunkAt(ds: DataStream, name: string, len: Option<nat>, offset: Option<nat>) returns (r: Result<(Chunk, seq<byte>)>)
    modifies ds`position, ds`endianness
    ensures ChunkOutcome(ds.buffer, old(ds.position), old(ds.endianness), ds.endianness, name, len, offset, r)
  {
    var p := ds.position;
    var header :- ReadChunkHeader(ds, name);
    var payloadLen :- CheckHeader(name, len, offset, header.0, header.1, p);
    var chunkBuffer := ds.ReadBytes(payloadLen);
    var chunk :- ReadChunkBody(name, chunkBuffer, ds.endianness);
    r := Ok((chunk, chunkBuffer));
  }

  /** The ids `chunkArrays` holds under a tag. */
  function Bucket(arrays: map<string, seq<nat>>, name: string): seq<nat>
  {
    if name in arrays then arrays[name] else []
  }

  /** `readChunk` of an mmap at its offset: a memory map whose kept rows come in table order. */
  method ReadMmapAt(ds: DataStream, memoryMapOffset: nat) returns (r: Result<(Chunk, seq<byte>)>)
    modifies ds`position, ds`endianness
    ensures r.Ok? ==> ChunkName(r.value.0) == "mmap" && WellTagged(r.value.0)
    ensures r.Ok? ==> r.value.0.MemoryMapChunk? && Increasing(r.value.0.memoryMap.mapArray)
    ensures r.Ok? ==> ReadAtOffset(ds.buffer, "mmap", memoryMapOffset, r.value.0)
  {
    ds.Seek(memoryMapOffset);
    ghost var p, le := ds.position, ds.endianness;
    r := ReadChunkAt(ds, "mmap", None, Some(memoryMapOffset));
    if r.Ok? {
      OutcomeRead(ds.buffer, p, le, ds.endianness, "mmap", None, Some(memoryMapOffset), r.value.0, r.value.1);
      MmapRead(r.value.0, r.value.1, ds.endianness);
      assert ChunkOutcome(ds.buffer, memoryMapOffset, le, ds.endianness, "mmap", None, Some(memoryMapOffset), Ok((r.value.0, r.value.1)));
    }
  }

  /** c is a chunk `readChunk` builds for `name` from the file at `offset`, with that offset expected and no length. */
  ghost predicate ReadAtOffset(buffer: seq<byte>, name: string, offset: nat, c: Chunk)
  {
    exists payload: seq<byte>, le: bool, newLe: bool :: ChunkOutcome(buffer, offset, le, newLe, name, None, Some(offset), Ok((c, payload)))
  }

  /** What a chunk read successfully promises: it carries the expected tag and was read from its payload. */
  lemma OutcomeRead(buffer: seq<byte>, p: nat, le: bool, newLe: bool, name: string, len: Option<nat>, offset: Option<nat>,
                    c: Chunk, payload: seq<byte>)
    requires ChunkOutcome(buffer, p, le, newLe, name, len, offset, Ok((c, payload)))
    ensures ChunkName(c) == name && WellTagged(c) && ReadFrom(c, payload, newLe)
  {
  }

  /** An mmap read from its payload keeps its rows in table order. */
  lemma MmapRead(c: Chunk, payload: seq<byte>, le: bool)
    requires ChunkName(c) == "mmap" && WellTagged(c) && ReadFrom(c, payload, le)
    ensures c.MemoryMapChunk? && Increasing(c.memoryMap.mapArray)
  {
    assert !c.CastChunk? && !c.Unimplemented?;
    MemoryMapRows(payload, 0, le);
  }

  /** The chunk reached through the row of an `mmap`: the objects already built for RIFX, imap and this mmap, or a chunk of the row's tag. */
  predicate Placed(chunks: seq<Chunk>, id: nat, e: MemoryMapEntry, metaId: nat, imapId: nat, mmapId: nat)
  {
    && id < |chunks|
    && (e.name == "RIFX" ==> id == metaId)
    && (e.name == "imap" ==> id == imapId)
    && (e.name == "mmap" ==> id == mmapId)
    && ChunkName(chunks[id]) == e.name
  }

  /**
   * A movie being read. Chunk objects live in `chunks`, in the order they
   * were built, and are referred to by their place there: `chunkArrays`
   * groups them by tag, `chunkMap` by memory-map row, and `buffers` holds
   * the payload each was read from.
   */
  class Movie {
    var chunks: seq<Chunk>
    var buffers: seq<seq<byte>>
    var chunkArrays: map<string, seq<nat>>
    var chunkMap: map<nat, nat>

    ghost predicate Valid()
      reads this
    {
      && |buffers| == |chunks|
      && (forall id :: 0 <= id < |chunks| ==> WellTagged(chunks[id]))
      && (forall name, k :: name in chunkArrays && 0 <= k < |chunkArrays[name]| ==>
            chunkArrays[name][k] < |chunks| && ChunkName(chunks[chunkArrays[name][k]]) == name)
      && (forall i :: i in chunkMap ==> chunkMap[i] < |chunks|)
    }

    constructor ()
      ensures Valid() && chunks == [] && chunkArrays == map[] && chunkMap == map[]
    {
      chunks := [];
      buffers := [];
      chunkArrays := map[];
      chunkMap := map[];
    }

    /** `addChunk`: the tag's bucket, created when missing, gains the chunk at its end. */
    method AddChunk(name: string, id: nat)
      requires Valid() && id < |chunks| && ChunkName(chunks[id]) == name
      modifies this`chunkArrays
      ensures Valid()
      ensures chunkArrays == old(chunkArrays)[name := Bucket(old(chunkArrays), name) + [id]]
    {
      var bucket := if name in chunkArrays then chunkArrays[name] else [];
      chunkArrays := chunkArrays[name := bucket + [id]];
    }

    /** A chunk built from `payload` joins the chunks built so far. */
    method Record(chunk: Chunk, payload: seq<byte>) returns (id: nat)
      requires Valid() && WellTagged(chunk)
      modifies this`chunks, this`buffers
      ensures Valid() && id == |old(chunks)|
      ensures chunks == old(chunks) + [chunk] && buffers == old(buffers) + [payload]
    {
      id := |chunks|;
      chunks := chunks + [chunk];
      buffers := buffers + [payload];
    }

    /**
     * `readChunk` at the stream's position: the header is checked against
     * what the caller expects, the payload copied and read by tag, and the
     * new chunk and its payload recorded.
     */
    method ReadChunk(ds: DataStream, name: string, len: Option<nat>, offset: Option<nat>) returns (r: Result<nat>)
      requires Valid()
      modifies this`chunks, this`buffers, ds`position, ds`endianness
      ensures Valid() && chunkArrays == old(chunkArrays) && chunkMap == old(chunkMap)
      ensures r.Err? ==> chunks == old(chunks) && buffers == old(buffers)
      ensures r.Err? ==> ChunkOutcome(ds.buffer, old(ds.position), old(ds.endianness), ds.endianness, name, len, offset, Err(r.error))
      ensures r.Ok? ==>
        && r.value == |old(chunks)| && |chunks| == r.value + 1 && chunks == old(chunks) + [chunks[r.value]] && |buffers| == |chunks| && buffers == old(buffers) + [buffers[r.value]]
        && ChunkOutcome(ds.buffer, old(ds.position), old(ds.endianness), ds.endianness, name, len, offset, Ok((chunks[r.value], buffers[r.value])))
    {
      var read := ReadChunkAt(ds, name, len, offset);
      if read.Err? {
        return Err(read.error);
      }
      var id := Record(read.value.0, read.value.1);
      r := Ok(id);
    }

    /**
     * The loop over one memory map of `lookupMmap`: each kept row reaches
     * the RIFX, imap or this mmap object already built, or a chunk read at
     * the row's offset with the row's tag, length and offset expected; that
     * chunk joins its tag's bucket and is filed under the row's index.
     */
    method PlaceEntries(ds: DataStream, entries: seq<MemoryMapEntry>, metaId: nat, imapId: nat, mmapId: nat) returns (r: Result<()>)
      requires Valid()
      requires metaId < |chunks| && ChunkName(chunks[metaId]) == "RIFX"
      requires imapId < |chunks| && ChunkName(chunks[imapId]) == "imap"
      requires mmapId < |chunks| && ChunkName(chunks[mmapId]) == "mmap"
      requires Increasing(entries)
      modifies this`chunks, this`buffers, this`chunkArrays, this`chunkMap, ds`position, ds`endianness
      ensures Valid() && |chunks| >= |old(chunks)| && chunks[..|old(chunks)|] == old(chunks)
      ensures r.Ok? ==>
        && RowsPlaced(chunks, chunkMap, entries, |entries|, metaId, imapId, mmapId)
        && OthersKept(chunkMap, old(chunkMap), entries, |entries|)
        && BucketsGrown(chunkArrays, old(chunkArrays), chunkMap, entries, |entries|)
    {
      ghost var oldChunks, oldMap, oldArrays := chunks, chunkMap, chunkArrays;
      var j := 0;
      while j < |entries|
        invariant j <= |entries|
        invariant Valid() && |chunks| >= |oldChunks| && chunks[..|oldChunks|] == oldChunks
        invariant metaId < |chunks| && ChunkName(chunks[metaId]) == "RIFX"
        invariant imapId < |chunks| && ChunkName(chunks[imapId]) == "imap"
        invariant mmapId < |chunks| && ChunkName(chunks[mmapId]) == "mmap"
        invariant RowsPlaced(chunks, chunkMap, entries, j, metaId, imapId, mmapId)
        invariant OthersKept(chunkMap, oldMap, entries, j)
        invariant BucketsGrown(chunkArrays, oldArrays, chunkMap, entries, j)
      {
        var placed :- PlaceRow(ds, entries, j, metaId, imapId, mmapId, oldMap, oldArrays, oldChunks);
        j := j + 1;
      }
      r := Ok(());
    }

    /** Row j of `PlaceEntries`. */
    method PlaceRow(ds: DataStream, entries: seq<MemoryMapEntry>, j: nat, metaId: nat, imapId: nat, mmapId: nat,
                    ghost oldMap: map<nat, nat>, ghost oldArrays: map<string, seq<nat>>, ghost oldChunks: seq<Chunk>) returns (r: Result<()>)
      requires Valid() && j < |entries| && Increasing(entries)
      requires |chunks| >= |oldChunks| && chunks[..|oldChunks|] == oldChunks
      requires metaId < |chunks| && ChunkName(chunks[metaId]) == "RIFX"
      requires imapId < |chunks| && ChunkName(chunks[imapId]) == "imap"
      requires mmapId < |chunks| && ChunkName(chunks[mmapId]) == "mmap"
      requires RowsPlaced(chunks, chunkMap, entries, j, metaId, imapId, mmapId)
      requires OthersKept(chunkMap, oldMap, entries, j)
      requires BucketsGrown(chunkArrays, oldArrays, chunkMap, entries, j)
      modifies this`chunks, this`buffers, this`chunkArrays, this`chunkMap, ds`position, ds`endianness
      ensures Valid() && |chunks| >= |oldChunks| && chunks[..|oldChunks|] == oldChunks
      ensures |chunks| >= |old(chunks)| && chunks[..|old(chunks)|] == old(chunks)
      ensures metaId < |chunks| && ChunkName(chunks[metaId]) == "RIFX"
      ensures imapId < |chunks| && ChunkName(chunks[imapId]) == "imap"
      ensures mmapId < |chunks| && ChunkName(chunks[mmapId]) == "mmap"
      ensures r.Ok? ==>
        && RowsPlaced(chunks, chunkMap, entries, j + 1, metaId, imapId, mmapId)
        && OthersKept(chunkMap, oldMap, entries, j + 1)
        && BucketsGrown(chunkArrays, oldArrays, chunkMap, entries, j + 1)
    {
      var e := entries[j];
      ghost var before := chunks;
      var id :- ChunkForRow(ds, e, metaId, imapId, mmapId);
      PrefixTrans(oldChunks, before, chunks);
      PrefixTrans(before, chunks, chunks);
      RowsPlacedExtend(before, chunks, chunkMap, entries, j, metaId, imapId, mmapId);
      FileRow(entries, j, id, metaId, imapId, mmapId, oldMap, oldArrays);
      r := Ok(());
    }

    /** Row j joins its tag's bucket and is filed under its index. */
    method FileRow(entries: seq<MemoryMapEntry>, j: nat, id: nat, metaId: nat, imapId: nat, mmapId: nat,
                   ghost oldMap: map<nat, nat>, ghost oldArrays: map<string, seq<nat>>)
      requires Valid() && j < |entries| && Increasing(entries)
      requires Placed(chunks, id, entries[j], metaId, imapId, mmapId)
      requires RowsPlaced(chunks, chunkMap, entries, j, metaId, imapId, mmapId)
      requires OthersKept(chunkMap, oldMap, entries, j)
      requires BucketsGrown(chunkArrays, oldArrays, chunkMap, entries, j)
      modifies this`chunkArrays, this`chunkMap
      ensures Valid()
      ensures RowsPlaced(chunks, chunkMap, entries, j + 1, metaId, imapId, mmapId)
      ensures OthersKept(chunkMap, oldMap, entries, j + 1)
      ensures BucketsGrown(chunkArrays, oldArrays, chunkMap, entries, j + 1)
    {
      var e := entries[j];
      PlaceStepKeeps(chunks, chunkMap, chunkArrays, oldMap, oldArrays, entries, j, id, metaId, imapId, mmapId);
      AddChunk(e.name, id);
      chunkMap := chunkMap[e.index := id];
    }

    /** The chunk a row reaches: one already built for RIFX, imap and mmap, else one read at the row's offset. */
    method ChunkForRow(ds: DataStream, e: MemoryMapEntry, metaId: nat, imapId: nat, mmapId: nat) returns (r: Result<nat>)
      requires Valid()
      requires metaId < |chunks| && ChunkName(chunks[metaId]) == "RIFX"
      requires imapId < |chunks| && ChunkName(chunks[imapId]) == "imap"
      requires mmapId < |chunks| && ChunkName(chunks[mmapId]) == "mmap"
      modifies this`chunks, this`buffers, ds`position, ds`endianness
      ensures Valid() && |chunks| >= |old(chunks)| && chunks[..|old(chunks)|] == old(chunks)
      ensures chunkArrays == old(chunkArrays) && chunkMap == old(chunkMap)
      ensures r.Ok? ==> Placed(chunks, r.value, e, metaId, imapId, mmapId)
      ensures r.Ok? && e.name !in {"RIFX", "imap", "mmap"} ==> r.value == |old(chunks)|
    {
      if e.name == "RIFX" {
        r := Ok(metaId);
      } else if e.name == "imap" {
        r := Ok(imapId);
      } else if e.name == "mmap" {
        r := Ok(mmapId);
      } else {
        ds.Seek(e.offset);
        r := ReadChunk(ds, e.name, Some(e.len), Some(e.offset));
      }
    }

    /**
     * `lookupMmap`: the RIFX header, whose codec must be MV93, then the
     * imap at 12, then every mmap it lists, in its order.
     */
    method LookupMmap(ds: DataStream) returns (r: Result<()>, ghost mmapIds: seq<nat>)
      requires Valid()
      modifies this`chunks, this`buffers, this`chunkArrays, this`chunkMap, ds`position, ds`endianness
      ensures Valid() && |chunks| >= |old(chunks)| && chunks[..|old(chunks)|] == old(chunks)
      ensures r.Ok? ==>
        && |chunks| >= |old(chunks)| + 2
        && chunks[|old(chunks)|] == Meta("MV93")
        && chunks[|old(chunks)| + 1].InitialMapChunk?
        && MmapsLookedUp(ds.buffer, chunks, chunkMap, old(chunkMap), chunks[|old(chunks)| + 1].initialMap.memoryMapArray,
                         mmapIds, |old(chunks)|, |old(chunks)| + 1)
      ensures |chunks| > |old(chunks)| && chunks[|old(chunks)|].Meta? && chunks[|old(chunks)|].codec != "MV93" ==> r == Err(PathTooNew)
    {
      mmapIds := [];
      var metaId :- ReadMeta(ds);
      var meta := chunks[metaId];
      if meta.codec != "MV93" {
        return Err(PathTooNew), mmapIds;
      }
      var imapId :- ReadImap(ds);
      var offsets := chunks[imapId].initialMap.memoryMapArray;
      ghost var read := chunks;
      r, mmapIds := VisitMmaps(ds, offsets, metaId, imapId);
      assert chunks[metaId] == read[metaId] && chunks[imapId] == read[imapId];
    }

    /** The loop of `lookupMmap` over the imap's offsets: each mmap read there and its rows placed, in order. */
    method VisitMmaps(ds: DataStream, offsets: seq<nat>, metaId: nat, imapId: nat) returns (r: Result<()>, ghost mmapIds: seq<nat>)
      requires Valid() && imapId < |chunks|
      requires metaId < |chunks| && ChunkName(chunks[metaId]) == "RIFX"
      requires ChunkName(chunks[imapId]) == "imap"
      modifies this`chunks, this`buffers, this`chunkArrays, this`chunkMap, ds`position, ds`endianness
      ensures Valid() && |chunks| >= |old(chunks)| && chunks[..|old(chunks)|] == old(chunks)
      ensures r.Ok? ==> MmapsLookedUp(ds.buffer, chunks, chunkMap, old(chunkMap), offsets, mmapIds, metaId, imapId)
    {
      mmapIds := [];
      var k := 0;
      while k < |offsets|
        invariant k <= |offsets|
        invariant Valid() && |chunks| >= |old(chunks)| && chunks[..|old(chunks)|] == old(chunks)
        invariant ChunkName(chunks[metaId]) == "RIFX" && ChunkName(chunks[imapId]) == "imap"
        invariant MmapsLookedUp(ds.buffer, chunks, chunkMap, old(chunkMap), offsets[..k], mmapIds, metaId, imapId)
      {
        ghost var before, beforeMap, beforeArrays := chunks, chunkMap, chunkArrays;
        var mmapId :- VisitMmap(ds, offsets[k], metaId, imapId);
        LookedUpExtend(ds.buffer, before, beforeMap, beforeArrays, old(chunkMap), offsets[..k], mmapIds, metaId, imapId,
                       chunks, chunkMap, chunkArrays, offsets[k], mmapId);
        PrefixTrans(old(chunks), before, chunks);
        PrefixSnoc(offsets, k);
        mmapIds := mmapIds + [mmapId];
        k := k + 1;
      }
      assert offsets[..k] == offsets;
      r := Ok(());
    }

    /** The RIFX header at the stream's position, read with no length or offset expected. */
    method ReadMeta(ds: DataStream) returns (r: Result<nat>)
      requires Valid()
      modifies this`chunks, this`buffers, ds`position, ds`endianness
      ensures Valid() && chunkArrays == old(chunkArrays) && chunkMap == old(chunkMap)
      ensures r.Err? ==> chunks == old(chunks)
      ensures r.Ok? ==> r.value == |old(chunks)| && |chunks| == r.value + 1 && chunks == old(chunks) + [chunks[r.value]] && chunks[r.value].Meta?
    {
      r := ReadChunk(ds, "RIFX", None, None);
    }

    /** The imap chunk, which `lookupMmap` expects at offset 12, just after the RIFX header. */
    method ReadImap(ds: DataStream) returns (r: Result<nat>)
      requires Valid()
      modifies this`chunks, this`buffers, ds`position, ds`endianness
      ensures Valid() && chunkArrays == old(chunkArrays) && chunkMap == old(chunkMap)
      ensures r.Err? ==> chunks == old(chunks)
      ensures r.Ok? ==> r.value == |old(chunks)| && |chunks| == r.value + 1 && chunks == old(chunks) + [chunks[r.value]] && chunks[r.value].InitialMapChunk?
    {
      r := ReadChunk(ds, "imap", None, Some(12));
    }

    /** One mmap of `lookupMmap`: read at its offset, then its rows placed. */
    method VisitMmap(ds: DataStream, memoryMapOffset: nat, metaId: nat, imapId: nat) returns (r: Result<nat>)
      requires Valid()
      requires metaId < |chunks| && ChunkName(chunks[metaId]) == "RIFX"
      requires imapId < |chunks| && ChunkName(chunks[imapId]) == "imap"
      modifies this`chunks, this`buffers, this`chunkArrays, this`chunkMap, ds`position, ds`endianness
      ensures Valid() && |chunks| >= |old(chunks)| && chunks[..|old(chunks)|] == old(chunks)
      ensures r.Ok? ==> r.value == |old(chunks)| && r.value < |chunks| && chunks[r.value].MemoryMapChunk?
      ensures r.Ok? ==> ReadAtOffset(ds.buffer, "mmap", memoryMapOffset, chunks[r.value])
      ensures r.Ok? ==> MmapPlaced(chunks, chunkMap, chunkArrays, old(chunkMap), old(chunkArrays), r.value, metaId, imapId)
    {
      var mmapId :- ReadMmap(ds, memoryMapOffset);
      var mmap := chunks[mmapId].memoryMap;
      ghost var afterRead := chunks;
      var placed :- PlaceEntries(ds, mmap.mapArray, metaId, imapId, mmapId);
      assert chunks[mmapId] == afterRead[mmapId];
      r := Ok(mmapId);
    }

    /** The mmap chunk at an offset of the imap, recorded: its kept rows come in table order. */
    method ReadMmap(ds: DataStream, memoryMapOffset: nat) returns (r: Result<nat>)
      requires Valid()
      modifies this`chunks, this`buffers, ds`position, ds`endianness
      ensures Valid() && chunkArrays == old(chunkArrays) && chunkMap == old(chunkMap)
      ensures |chunks| >= |old(chunks)| && chunks[..|old(chunks)|] == old(chunks)
      ensures r.Ok? ==>
        && r.value == |old(chunks)| && r.value < |chunks|
        && chunks[r.value].MemoryMapChunk? && Increasing(chunks[r.value].memoryMap.mapArray)
        && ReadAtOffset(ds.buffer, "mmap", memoryMapOffset, chunks[r.value])
    {
      var read :- ReadMmapAt(ds, memoryMapOffset);
      var id := Record(read.0, read.1);
      assert chunks[id] == read.0;
      r := Ok(id);
    }

    /** `read`: every table emptied, then `lookupMmap` on a big-endian stream over the file. */
    method Read(buffer: seq<byte>) returns (r: Result<()>, ghost mmapIds: seq<nat>)
      modifies this
      ensures Valid()
      ensures r.Ok? ==> |chunks| >= 2 && chunks[0] == Meta("MV93") && chunks[1].InitialMapChunk?
      ensures r.Ok? ==> MmapsLookedUp(buffer, chunks, chunkMap, map[], chunks[1].initialMap.memoryMapArray, mmapIds, 0, 1)
    {
      chunks := [];
      buffers := [];
      chunkArrays := map[];
      chunkMap := map[];
      var ds := new DataStream(buffer, BIG_ENDIAN);
      r, mmapIds := LookupMmap(ds);
    }
  }

  /** The rows of one memory map, whose indexes only grow. */
  predicate Increasing(entries: seq<MemoryMapEntry>)
  {
    forall i, j :: 0 <= i < j < |entries| ==> entries[i].index < entries[j].index
  }

  /** The first j rows are filed, each reaching a chunk of its tag. */
  predicate RowsPlaced(chunks: seq<Chunk>, chunkMap: map<nat, nat>, entries: seq<MemoryMapEntry>, j: nat, metaId: nat, imapId: nat, mmapId: nat)
    requires j <= |entries|
  {
    forall k :: 0 <= k < j ==> entries[k].index in chunkMap && Placed(chunks, chunkMap[entries[k].index], entries[k], metaId, imapId, mmapId)
  }

  /** Indexes the first j rows do not have keep what they held. */
  ghost predicate OthersKept(chunkMap: map<nat, nat>, oldMap: map<nat, nat>, entries: seq<MemoryMapEntry>, j: nat)
    requires j <= |entries|
  {
    forall i :: i in oldMap && !IndexIn(i, entries[..j]) ==> i in chunkMap && chunkMap[i] == oldMap[i]
  }

  /** Each tag's bucket has gained the chunks of the first j rows with that tag, in row order. */
  ghost predicate BucketsGrown(chunkArrays: map<string, seq<nat>>, oldArrays: map<string, seq<nat>>, chunkMap: map<nat, nat>, entries: seq<MemoryMapEntry>, j: nat)
    requires j <= |entries|
  {
    && (forall k :: 0 <= k < j ==> entries[k].index in chunkMap)
    && forall name :: Bucket(chunkArrays, name) == Bucket(oldArrays, name) + IdsNamed(entries[..j], chunkMap, name)
  }

  /** A prefix of a prefix is a prefix, and the chunks it holds stay where they were. */
  lemma PrefixTrans(a: seq<Chunk>, b: seq<Chunk>, c: seq<Chunk>)
    requires |b| >= |a| && b[..|a|] == a && |c| >= |b| && c[..|b|] == b
    ensures |c| >= |a| && c[..|a|] == a
    ensures forall i :: 0 <= i < |a| ==> c[i] == a[i]
  {
    assert forall i :: 0 <= i < |a| ==> c[i] == b[i] == a[i];
  }

  /** Chunks read later leave the rows filed so far reaching what they reached. */
  lemma RowsPlacedExtend(chunks: seq<Chunk>, later: seq<Chunk>, chunkMap: map<nat, nat>, entries: seq<MemoryMapEntry>, j: nat, metaId: nat, imapId: nat, mmapId: nat)
    requires j <= |entries| && RowsPlaced(chunks, chunkMap, entries, j, metaId, imapId, mmapId)
    requires |later| >= |chunks| && later[..|chunks|] == chunks
    ensures RowsPlaced(later, chunkMap, entries, j, metaId, imapId, mmapId)
  {
    forall k | 0 <= k < j
      ensures Placed(later, chunkMap[entries[k].index], entries[k], metaId, imapId, mmapId)
    {
      var id := chunkMap[entries[k].index];
      assert Placed(chunks, id, entries[k], metaId, imapId, mmapId);
      assert later[id] == chunks[id];
    }
  }

  /** Filing row j, after `addChunk`, extends what the first j rows reach by that row. */
  lemma PlaceStepKeeps(chunks: seq<Chunk>, chunkMap: map<nat, nat>, chunkArrays: map<string, seq<nat>>,
                       oldMap: map<nat, nat>, oldArrays: map<string, seq<nat>>,
                       entries: seq<MemoryMapEntry>, j: nat, id: nat, metaId: nat, imapId: nat, mmapId: nat)
    requires j < |entries| && Increasing(entries)
    requires Placed(chunks, id, entries[j], metaId, imapId, mmapId)
    requires RowsPlaced(chunks, chunkMap, entries, j, metaId, imapId, mmapId)
    requires OthersKept(chunkMap, oldMap, entries, j)
    requires BucketsGrown(chunkArrays, oldArrays, chunkMap, entries, j)
    ensures var e := entries[j];
      var chunkMap' := chunkMap[e.index := id];
      var chunkArrays' := chunkArrays[e.name := Bucket(chunkArrays, e.name) + [id]];
      && RowsPlaced(chunks, chunkMap', entries, j + 1, metaId, imapId, mmapId)
      && OthersKept(chunkMap', oldMap, entries, j + 1)
      && BucketsGrown(chunkArrays', oldArrays, chunkMap', entries, j + 1)
  {
    var e := entries[j];
    RowsPlacedStep(chunks, chunkMap, entries, j, id, metaId, imapId, mmapId);
    OthersKeptStep(chunkMap, oldMap, entries, j, id);
    BucketsGrownStep(chunkMap, chunkArrays, oldArrays, entries, j, id);
  }

  lemma RowsPlacedStep(chunks: seq<Chunk>, chunkMap: map<nat, nat>, entries: seq<MemoryMapEntry>, j: nat, id: nat, metaId: nat, imapId: nat, mmapId: nat)
    requires j < |entries| && Increasing(entries)
    requires Placed(chunks, id, entries[j], metaId, imapId, mmapId)
    requires RowsPlaced(chunks, chunkMap, entries, j, metaId, imapId, mmapId)
    ensures RowsPlaced(chunks, chunkMap[entries[j].index := id], entries, j + 1, metaId, imapId, mmapId)
  {
    var m := chunkMap[entries[j].index := id];
    forall k | 0 <= k < j + 1
      ensures entries[k].index in m && Placed(chunks, m[entries[k].index], entries[k], metaId, imapId, mmapId)
    {
      if k < j {
        assert entries[k].index < entries[j].index;
        assert m[entries[k].index] == chunkMap[entries[k].index];
      }
    }
  }

  lemma OthersKeptStep(chunkMap: map<nat, nat>, oldMap: map<nat, nat>, entries: seq<MemoryMapEntry>, j: nat, id: nat)
    requires j < |entries|
    requires OthersKept(chunkMap, oldMap, entries, j)
    ensures OthersKept(chunkMap[entries[j].index := id], oldMap, entries, j + 1)
  {
    var m := chunkMap[entries[j].index := id];
    forall i | i in oldMap && !IndexIn(i, entries[..j + 1])
      ensures i in m && m[i] == oldMap[i]
    {
      assert entries[..j + 1][j] == entries[j];
    }
  }

  lemma BucketsGrownStep(chunkMap: map<nat, nat>, chunkArrays: map<string, seq<nat>>, oldArrays: map<string, seq<nat>>,
                         entries: seq<MemoryMapEntry>, j: nat, id: nat)
    requires j < |entries| && Increasing(entries)
    requires BucketsGrown(chunkArrays, oldArrays, chunkMap, entries, j)
    ensures var e := entries[j];
      BucketsGrown(chunkArrays[e.name := Bucket(chunkArrays, e.name) + [id]], oldArrays, chunkMap[e.index := id], entries, j + 1)
  {
    var e := entries[j];
    var m := chunkMap[e.index := id];
    var a := chunkArrays[e.name := Bucket(chunkArrays, e.name) + [id]];
    assert forall k :: 0 <= k < j ==> entries[k].index < e.index;
    forall name
      ensures Bucket(a, name) == Bucket(oldArrays, name) + IdsNamed(entries[..j + 1], m, name)
    {
      BucketGrown(chunkMap, chunkArrays, oldArrays, entries, j, id, name);
    }
  }

  /** One tag's bucket after row j is filed, when no earlier row has row j's index. */
  lemma BucketGrown(chunkMap: map<nat, nat>, chunkArrays: map<string, seq<nat>>, oldArrays: map<string, seq<nat>>,
                    entries: seq<MemoryMapEntry>, j: nat, id: nat, name: string)
    requires j < |entries|
    requires forall k :: 0 <= k < j ==> entries[k].index in chunkMap && entries[k].index != entries[j].index
    requires Bucket(chunkArrays, name) == Bucket(oldArrays, name) + IdsNamed(entries[..j], chunkMap, name)
    ensures var e := entries[j];
      && (forall k :: 0 <= k < j + 1 ==> entries[k].index in chunkMap[e.index := id])
      && Bucket(chunkArrays[e.name := Bucket(chunkArrays, e.name) + [id]], name)
         == Bucket(oldArrays, name) + IdsNamed(entries[..j + 1], chunkMap[e.index := id], name)
  {
    var e := entries[j];
    var m := chunkMap[e.index := id];
    var tail := if e.name == name then [id] else [];
    IdsNamedFrame(entries[..j], chunkMap, e.index, id, name);
    IdsNamedSnoc(entries, j, m, name);
    assert IdsNamed(entries[..j + 1], m, name) == IdsNamed(entries[..j], chunkMap, name) + tail;
    var a := chunkArrays[e.name := Bucket(chunkArrays, e.name) + [id]];
    assert Bucket(a, name) == Bucket(chunkArrays, name) + tail;
    assert Bucket(oldArrays, name) + IdsNamed(entries[..j], chunkMap, name) + tail
        == Bucket(oldArrays, name) + (IdsNamed(entries[..j], chunkMap, name) + tail);
  }

  /** `IdsNamed` over one more row. */
  lemma IdsNamedSnoc(entries: seq<MemoryMapEntry>, j: nat, ids: map<nat, nat>, name: string)
    requires j < |entries|
    requires forall k :: 0 <= k < j + 1 ==> entries[k].index in ids
    ensures IdsNamed(entries[..j + 1], ids, name)
      == IdsNamed(entries[..j], ids, name) + (if entries[j].name == name then [ids[entries[j].index]] else [])
  {
    var prefix := entries[..j + 1];
    assert prefix[..j] == entries[..j];
    assert prefix[j] == entries[j];
  }

  /** The memory maps visited so far: chunks built after the imap, in visiting order. */
  predicate MmapsRead(chunks: seq<Chunk>, mmapIds: seq<nat>, imapId: nat)
  {
    && (forall i :: 0 <= i < |mmapIds| ==> imapId < mmapIds[i] < |chunks| && chunks[mmapIds[i]].MemoryMapChunk?)
    && (forall i, j :: 0 <= i < j < |mmapIds| ==> mmapIds[i] < mmapIds[j])
  }

  lemma MmapsReadExtend(chunks: seq<Chunk>, later: seq<Chunk>, mmapIds: seq<nat>, imapId: nat, mmapId: nat)
    requires MmapsRead(chunks, mmapIds, imapId) && |chunks| > imapId
    requires |later| >= |chunks| && later[..|chunks|] == chunks
    requires |chunks| <= mmapId < |later| && later[mmapId].MemoryMapChunk?
    ensures MmapsRead(later, mmapIds + [mmapId], imapId)
  {
    forall i | 0 <= i < |mmapIds|
      ensures later[mmapIds[i]] == chunks[mmapIds[i]]
    {
    }
  }

  /** Whether some row of the table has index i. */
  ghost predicate IndexIn(i: nat, entries: seq<MemoryMapEntry>)
  {
    exists k :: 0 <= k < |entries| && entries[k].index == i
  }

  /** The ids filed for the rows tagged `name`, in table order. */
  function IdsNamed(entries: seq<MemoryMapEntry>, ids: map<nat, nat>, name: string): seq<nat>
    requires forall k :: 0 <= k < |entries| ==> entries[k].index in ids
  {
    if entries == [] then []
    else
      var e := entries[|entries| - 1];
      IdsNamed(entries[..|entries| - 1], ids, name) + (if e.name == name then [ids[e.index]] else [])
  }

  /** Filing a chunk under an index no row of the table has does not change what the rows reach. */
  lemma {:induction false} IdsNamedFrame(entries: seq<MemoryMapEntry>, ids: map<nat, nat>, i: nat, id: nat, name: string)
    requires forall k :: 0 <= k < |entries| ==> entries[k].index in ids
    requires forall k :: 0 <= k < |entries| ==> entries[k].index != i
    ensures IdsNamed(entries, ids[i := id], name) == IdsNamed(entries, ids, name)
  {
    if entries != [] {
      IdsNamedFrame(entries[..|entries| - 1], ids, i, id, name);
    }
  }

  /**
   * The rows of the mmap `mmapId` are placed: each filed under its index and
   * reaching a chunk of its tag, other indexes keeping what they held, and
   * each bucket grown by the chunks of its tag's rows.
   */
  ghost predicate MmapPlaced(chunks: seq<Chunk>, chunkMap: map<nat, nat>, chunkArrays: map<string, seq<nat>>,
                             oldMap: map<nat, nat>, oldArrays: map<string, seq<nat>>, mmapId: nat, metaId: nat, imapId: nat)
  {
    && mmapId < |chunks| && chunks[mmapId].MemoryMapChunk?
    && var rows := chunks[mmapId].memoryMap.mapArray;
    && RowsPlaced(chunks, chunkMap, rows, |rows|, metaId, imapId, mmapId)
    && OthersKept(chunkMap, oldMap, rows, |rows|)
    && BucketsGrown(chunkArrays, oldArrays, chunkMap, rows, |rows|)
  }

  /** Every row of the mmap `mmapId` has its index filed. */
  ghost predicate RowsFiled(chunks: seq<Chunk>, chunkMap: map<nat, nat>, mmapId: nat)
    requires mmapId < |chunks| && chunks[mmapId].MemoryMapChunk?
  {
    forall j :: 0 <= j < |chunks[mmapId].memoryMap.mapArray| ==> chunks[mmapId].memoryMap.mapArray[j].index in chunkMap
  }

  /**
   * What the mmap loop of `lookupMmap` has done after the offsets `offsets`:
   * the k-th memory-map chunk was read at the k-th offset, every row of each
   * has its index filed, the rows of the last one read reach chunks of their
   * tags (an earlier mmap's row may be refiled by a later one), and no index
   * filed before is lost.
   */
  ghost predicate MmapsLookedUp(buffer: seq<byte>, chunks: seq<Chunk>, chunkMap: map<nat, nat>, oldMap: map<nat, nat>,
                                offsets: seq<nat>, mmapIds: seq<nat>, metaId: nat, imapId: nat)
  {
    && |mmapIds| == |offsets|
    && MmapsRead(chunks, mmapIds, imapId)
    && (forall k :: 0 <= k < |mmapIds| ==> ReadAtOffset(buffer, "mmap", offsets[k], chunks[mmapIds[k]]))
    && (forall k :: 0 <= k < |mmapIds| ==> RowsFiled(chunks, chunkMap, mmapIds[k]))
    && (|mmapIds| > 0 ==>
          var last := mmapIds[|mmapIds| - 1];
          var rows := chunks[last].memoryMap.mapArray;
          RowsPlaced(chunks, chunkMap, rows, |rows|, metaId, imapId, last))
    && (forall i :: i in oldMap ==> i in chunkMap)
  }

  /** Placing an mmap's rows files every row's index and loses no index filed before. */
  lemma PlacedKeepsKeys(chunks: seq<Chunk>, chunkMap: map<nat, nat>, chunkArrays: map<string, seq<nat>>,
                        oldMap: map<nat, nat>, oldArrays: map<string, seq<nat>>, mmapId: nat, metaId: nat, imapId: nat)
    requires MmapPlaced(chunks, chunkMap, chunkArrays, oldMap, oldArrays, mmapId, metaId, imapId)
    ensures RowsFiled(chunks, chunkMap, mmapId)
    ensures forall i :: i in oldMap ==> i in chunkMap
  {
    var rows := chunks[mmapId].memoryMap.mapArray;
    assert rows[..|rows|] == rows;
    forall i | i in oldMap
      ensures i in chunkMap
    {
      if IndexIn(i, rows) {
        var k :| 0 <= k < |rows| && rows[k].index == i;
        assert rows[k].index in chunkMap;
      }
    }
  }

  /** One more mmap read at `offset` and placed extends what the loop has done by that offset. */
  lemma LookedUpExtend(buffer: seq<byte>, chunks: seq<Chunk>, chunkMap: map<nat, nat>, chunkArrays: map<string, seq<nat>>,
                       oldMap: map<nat, nat>, offsets: seq<nat>, mmapIds: seq<nat>, metaId: nat, imapId: nat,
                       later: seq<Chunk>, laterMap: map<nat, nat>, laterArrays: map<string, seq<nat>>, offset: nat, mmapId: nat)
    requires MmapsLookedUp(buffer, chunks, chunkMap, oldMap, offsets, mmapIds, metaId, imapId) && |chunks| > imapId
    requires |later| >= |chunks| && later[..|chunks|] == chunks
    requires mmapId == |chunks| && mmapId < |later| && later[mmapId].MemoryMapChunk?
    requires ReadAtOffset(buffer, "mmap", offset, later[mmapId])
    requires MmapPlaced(later, laterMap, laterArrays, chunkMap, chunkArrays, mmapId, metaId, imapId)
    ensures MmapsLookedUp(buffer, later, laterMap, oldMap, offsets + [offset], mmapIds + [mmapId], metaId, imapId)
  {
    MmapsReadExtend(chunks, later, mmapIds, imapId, mmapId);
    PlacedKeepsKeys(later, laterMap, laterArrays, chunkMap, chunkArrays, mmapId, metaId, imapId);
    var ids, offs := mmapIds + [mmapId], offsets + [offset];
    forall k | 0 <= k < |mmapIds|
      ensures later[ids[k]] == chunks[mmapIds[k]]
      ensures ReadAtOffset(buffer, "mmap", offs[k], later[ids[k]])
      ensures RowsFiled(later, laterMap, ids[k])
    {
      assert later[mmapIds[k]] == later[..|chunks|][mmapIds[k]];
    }
  }

  /** The first k + 1 offsets are the first k and then offset k. */
  lemma PrefixSnoc(offsets: seq<nat>, k: nat)
    requires k < |offsets|
    ensures offsets[..k] + [offsets[k]] == offsets[..k + 1]
  {
  }
}
