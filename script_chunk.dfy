/**
 * The script chunk (`Lscr`, `Script.read`): a big-endian header, a table
 * of six sections at offset 50, the property and global name-ID tables,
 * the handler records followed by their code, and the literal records
 * followed by their values.
 */
module LingoScript {
  import opened Bytes
  import opened Wrappers
  import opened DataStream
  import opened LingoAst
  import LingoHandler
  import LingoLiteral

  /** `MAP_ENTRIES`: the sections of the table, in the order they are stored. */
  const MapEntryNames: seq<string> := ["handler_vectors", "properties", "globals", "handlers", "literals", "literals_data"]

  /** Where the section table starts. */
  const SectionTableOffset: nat := 50

  /** One section's entry: a length (a count for most sections), an offset, and flags for `handler_vectors` alone. */
  datatype MapEntry = MapEntry(len: nat, offset: nat, flags: Option<nat>)

  /** The width of a section's length: four bytes for `literals_data`, two for the others. */
  function LenWidth(name: string): nat
  {
    if name == "literals_data" then 4 else 2
  }

  /** The bytes one entry takes: its length, a uint32 offset, and uint32 flags for `handler_vectors`. */
  function EntrySize(name: string): nat
  {
    LenWidth(name) + 4 + (if name == "handler_vectors" then 4 else 0)
  }

  /** `ScriptMapEntry.read` on the bytes at p. */
  function MapEntryAt(buffer: seq<byte>, p: nat, name: string, le: bool): (r: Result<MapEntry>)
    ensures r.Ok? <==> p + EntrySize(name) <= |buffer|
    ensures r.Ok? ==>
      && r.value.len == UintAt(buffer, p, LenWidth(name), le).value
      && r.value.offset == UintAt(buffer, p + LenWidth(name), 4, le).value
      && (r.value.flags.Some? <==> name == "handler_vectors")
      && (r.value.flags.Some? ==> r.value.flags.value == UintAt(buffer, p + 6, 4, le).value)
  {
    var w := LenWidth(name);
    if p + EntrySize(name) > |buffer| then Err(RangeError)
    else
      var flags := if name == "handler_vectors" then Some(UintAt(buffer, p + 6, 4, le).value) else None;
      Ok(MapEntry(UintAt(buffer, p, w, le).value, UintAt(buffer, p + w, 4, le).value, flags))
  }

  /** Entries take 10 bytes for `handler_vectors`, 8 for `literals_data` and 6 for every other section. */
  lemma EntrySizes(name: string)
    ensures EntrySize(name) == if name == "handler_vectors" then 10 else if name == "literals_data" then 8 else 6
  {
  }

  /** `ScriptMapEntry.read`: the fields in order from the current position. */
  method ReadMapEntry(ds: DataStream, name: string) returns (r: Result<MapEntry>)
    modifies ds`position
    ensures r == MapEntryAt(ds.buffer, old(ds.position), name, ds.endianness)
    ensures r.Ok? ==> ds.position == old(ds.position) + EntrySize(name)
  {
    var len: nat;
    if name == "literals_data" {
      len :- ds.ReadUint32();
    } else {
      len :- ds.ReadUint16();
    }
    var offset :- ds.ReadUint32();
    var flags: Option<nat> := None;
    if name == "handler_vectors" {
      var f :- ds.ReadUint32();
      flags := Some(f);
    }
    r := Ok(MapEntry(len, offset, flags));
  }

  /** Where the k-th entry of the section table starts: the entries are stored back to back from offset 50. */
  function EntryStart(k: nat): nat
    requires k <= |MapEntryNames|
  {
    if k == 0 then SectionTableOffset else EntryStart(k - 1) + EntrySize(MapEntryNames[k - 1])
  }

  /** The table's layout: entries at 50, 60, 66, 72, 78 and 84, ending at 92. */
  lemma EntryStarts()
    ensures EntryStart(0) == 50 && EntryStart(1) == 60 && EntryStart(2) == 66 && EntryStart(3) == 72
    ensures EntryStart(4) == 78 && EntryStart(5) == 84 && EntryStart(6) == 92
  {
    assert EntryStart(1) == 60;
    assert EntryStart(2) == 66;
    assert EntryStart(3) == 72;
    assert EntryStart(4) == 78;
    assert EntryStart(5) == 84;
  }

  /** The header fields `read` keeps. */
  datatype ScriptHeader = ScriptHeader(totalLength: nat, totalLength2: nat, headerLength: nat, scriptNumber: nat, scriptBehaviour: nat)

  /** The header as `read` finds it: four fields from offset 8, then the behaviour flags at 38. */
  predicate HeaderLayout(buffer: seq<byte>, h: ScriptHeader)
  {
    && UintAt(buffer, 8, 4, BIG_ENDIAN) == Ok(h.totalLength)
    && UintAt(buffer, 12, 4, BIG_ENDIAN) == Ok(h.totalLength2)
    && UintAt(buffer, 16, 2, BIG_ENDIAN) == Ok(h.headerLength)
    && UintAt(buffer, 18, 2, BIG_ENDIAN) == Ok(h.scriptNumber)
    && UintAt(buffer, 38, 4, BIG_ENDIAN) == Ok(h.scriptBehaviour)
  }

  method ReadHeader(ds: DataStream) returns (r: Result<ScriptHeader>)
    requires ds.endianness == BIG_ENDIAN
    modifies ds`position
    ensures r.Ok? <==> 42 <= |ds.buffer|
    ensures r.Ok? ==> HeaderLayout(ds.buffer, r.value)
  {
    ds.Seek(8);
    var totalLength :- ds.ReadUint32();
    var totalLength2 :- ds.ReadUint32();
    var headerLength :- ds.ReadUint16();
    var scriptNumber :- ds.ReadUint16();
    ds.Seek(38);
    var scriptBehaviour :- ds.ReadUint32();
    r := Ok(ScriptHeader(totalLength, totalLength2, headerLength, scriptNumber, scriptBehaviour));
  }

  /** The slots of `MAP_ENTRIES` the reader looks sections up by. */
  const PropertiesSlot: nat := 1
  const GlobalsSlot: nat := 2
  const HandlersSlot: nat := 3
  const LiteralsSlot: nat := 4
  const LiteralsDataSlot: nat := 5

  /** Each slot constant is the slot of the section it is named after. */
  lemma SlotNames()
    ensures MapEntryNames[PropertiesSlot] == "properties" && MapEntryNames[GlobalsSlot] == "globals"
    ensures MapEntryNames[HandlersSlot] == "handlers" && MapEntryNames[LiteralsSlot] == "literals"
    ensures MapEntryNames[LiteralsDataSlot] == "literals_data"
  {
  }

  /** The section table, in `MAP_ENTRIES` order: entry k is the one stored in slot k. */
  predicate SectionsLayout(buffer: seq<byte>, sections: seq<MapEntry>)
  {
    && |sections| == |MapEntryNames|
    && forall k :: 0 <= k < |MapEntryNames| ==>
         MapEntryAt(buffer, EntryStart(k), MapEntryNames[k], BIG_ENDIAN) == Ok(sections[k])
  }

  /** The loop over `MAP_ENTRIES`: six entries in order from offset 50. */
  method ReadSections(ds: DataStream) returns (r: Result<seq<MapEntry>>)
    requires ds.endianness == BIG_ENDIAN
    modifies ds`position
    ensures r.Ok? <==> 92 <= |ds.buffer|
    ensures r.Ok? ==> SectionsLayout(ds.buffer, r.value)
  {
    EntryStarts();
    ds.Seek(SectionTableOffset);
    var sections: seq<MapEntry> := [];
    while |sections| < |MapEntryNames|
      invariant |sections| <= |MapEntryNames|
      invariant ds.position == EntryStart(|sections|) && ds.endianness == BIG_ENDIAN
      invariant EntryStart(|sections|) <= |ds.buffer| || sections == []
      invariant forall k :: 0 <= k < |sections| ==>
          MapEntryAt(ds.buffer, EntryStart(k), MapEntryNames[k], BIG_ENDIAN) == Ok(sections[k])
    {
      var i := |sections|;
      var entry := ReadMapEntry(ds, MapEntryNames[i]);
      if entry.Err? {
        assert EntryStart(i + 1) > |ds.buffer|;
        return Err(entry.error);
      }
      sections := sections + [entry.value];
    }
    r := Ok(sections);
  }

  /** What `readData` produced for a handler, as its contract describes it. */
  predicate DataMatches(buffer: seq<byte>, rec: LingoHandler.HandlerRecord, data: LingoHandler.HandlerData)
  {
    var code := LingoHandler.Decode(buffer, rec.compiledOffset, rec.compiledOffset + rec.compiledLen, BIG_ENDIAN);
    && code == Ok(data.bytecodeArray)
    && LingoHandler.IndexedByPos(data.bytecodeArray, data.bytecodeByPos)
    && LingoHandler.VarnamesTable(buffer, rec.argumentOffset, rec.argumentCount, BIG_ENDIAN) == Ok(data.argumentNameIDs)
    && LingoHandler.VarnamesTable(buffer, rec.localsOffset, rec.localsCount, BIG_ENDIAN) == Ok(data.localNameIDs)
  }

  /** A handler record stored at p. */
  predicate RecordAt(buffer: seq<byte>, p: nat, rec: LingoHandler.HandlerRecord)
  {
    p + LingoHandler.HandlerRecordSize <= |buffer| && LingoHandler.RecordLayout(buffer, p, BIG_ENDIAN, rec)
  }

  /** The first handler loop of `read`: all `count` records, 46 bytes apart from `offset`. */
  method ReadHandlerRecords(ds: DataStream, count: nat, offset: nat) returns (r: Result<seq<LingoHandler.HandlerRecord>>)
    requires ds.endianness == BIG_ENDIAN
    modifies ds`position
    ensures r.Ok? ==> |r.value| == count && forall k :: 0 <= k < count ==> RecordAt(ds.buffer, offset + 46 * k, r.value[k])
    ensures r.Ok? <==> count == 0 || offset + 46 * count <= |ds.buffer|
  {
    ds.Seek(offset);
    var records: seq<LingoHandler.HandlerRecord> := [];
    while |records| < count
      invariant |records| <= count
      invariant ds.position == offset + 46 * |records| && ds.endianness == BIG_ENDIAN
      invariant |records| > 0 ==> offset + 46 * |records| <= |ds.buffer|
      invariant forall k :: 0 <= k < |records| ==> RecordAt(ds.buffer, offset + 46 * k, records[k])
    {
      var rec := LingoHandler.ReadRecord(ds);
      if rec.Err? {
        assert offset + 46 * count > |ds.buffer|;
        return Err(rec.error);
      }
      records := records + [rec.value];
    }
    r := Ok(records);
  }

  /** The second handler loop of `read`: each handler's code and name tables, once all records are read. */
  method ReadHandlerData(ds: DataStream, records: seq<LingoHandler.HandlerRecord>) returns (r: Result<seq<LingoHandler.HandlerData>>)
    requires ds.endianness == BIG_ENDIAN
    modifies ds`position
    ensures r.Ok? ==> |r.value| == |records| && forall k :: 0 <= k < |records| ==> DataMatches(ds.buffer, records[k], r.value[k])
  {
    var data: seq<LingoHandler.HandlerData> := [];
    while |data| < |records|
      invariant |data| <= |records| && ds.endianness == BIG_ENDIAN
      invariant forall k :: 0 <= k < |data| ==> DataMatches(ds.buffer, records[k], data[k])
    {
      var d :- LingoHandler.ReadData(ds, records[|data|]);
      data := data + [d];
    }
    r := Ok(data);
  }

  /** A literal as `read` leaves it: the record at p, then its value found from the data section at `dataOffset`. */
  predicate LiteralLayout(buffer: seq<byte>, p: nat, dataOffset: nat, lit: LingoLiteral.Literal)
  {
    && UintAt(buffer, p, 4, BIG_ENDIAN) == Ok(lit.literalType)
    && UintAt(buffer, p + 4, 4, BIG_ENDIAN) == Ok(lit.offset)
    && LingoLiteral.Resolved(lit)
    && (lit.literalType == LingoLiteral.IntType ==> lit.value == LingoLiteral.IntValue(lit.offset) && lit.length.None?)
    && (lit.literalType != LingoLiteral.IntType ==>
          lit.length.Some? && UintAt(buffer, dataOffset + lit.offset, 4, BIG_ENDIAN) == Ok(lit.length.value))
    && (lit.literalType == LingoLiteral.StringType ==>
          lit.value == LingoLiteral.StringValue(CharsOf(Window(buffer, dataOffset + lit.offset + 4, lit.length.value - 1))))
  }

  /** The two literal loops of `read`: all `count` records, 8 bytes apart, and only then their values. */
  method ReadLiterals(ds: DataStream, count: nat, offset: nat, dataOffset: nat) returns (r: Result<seq<LingoLiteral.Literal>>)
    requires ds.endianness == BIG_ENDIAN
    modifies ds`position
    ensures r.Ok? ==>
      |r.value| == count && forall k :: 0 <= k < count ==> LiteralLayout(ds.buffer, offset + 8 * k, dataOffset, r.value[k])
    ensures count > 0 && offset + 8 * count > |ds.buffer| ==> r.Err?
  {
    ds.Seek(offset);
    var records: seq<LingoLiteral.Literal> := [];
    while |records| < count
      invariant |records| <= count
      invariant ds.position == offset + 8 * |records| && ds.endianness == BIG_ENDIAN
      invariant |records| > 0 ==> offset + 8 * |records| <= |ds.buffer|
      invariant forall k :: 0 <= k < |records| ==>
        && UintAt(ds.buffer, offset + 8 * k, 4, BIG_ENDIAN) == Ok(records[k].literalType)
        && UintAt(ds.buffer, offset + 8 * k + 4, 4, BIG_ENDIAN) == Ok(records[k].offset)
        && records[k].value == LingoLiteral.Unset && records[k].length.None?
    {
      var lit :- LingoLiteral.ReadRecord(ds);
      records := records + [lit];
    }
    var literals: seq<LingoLiteral.Literal> := [];
    while |literals| < count
      invariant |literals| <= count && ds.endianness == BIG_ENDIAN
      invariant forall k :: 0 <= k < |literals| ==> LiteralLayout(ds.buffer, offset + 8 * k, dataOffset, literals[k])
    {
      var k := |literals|;
      var lit :- LingoLiteral.ReadData(ds, records[k], dataOffset);
      literals := literals + [lit];
    }
    r := Ok(literals);
  }

  /** The script chunk after `read`. */
  datatype ScriptChunk = ScriptChunk(
    header: ScriptHeader,
    sections: seq<MapEntry>,
    propertyNameIDs: seq<nat>,
    globalNameIDs: seq<nat>,
    handlers: seq<LingoHandler.HandlerRecord>,
    handlerData: seq<LingoHandler.HandlerData>,
    literals: seq<LingoLiteral.Literal>)

  /** Everything `read` puts in a script, laid out as the chunk's own tables describe. */
  predicate ScriptLayout(buffer: seq<byte>, s: ScriptChunk)
  {
    && HeaderLayout(buffer, s.header)
    && SectionsLayout(buffer, s.sections)
    && TablesLayout(buffer, s.sections[PropertiesSlot], s.sections[GlobalsSlot], s.propertyNameIDs, s.globalNameIDs)
    && HandlersLayout(buffer, s.sections[HandlersSlot], s.handlers, s.handlerData)
    && LiteralsLayout(buffer, s.sections[LiteralsSlot], s.sections[LiteralsDataSlot], s.literals)
  }

  /** The property and global name-ID tables, each as long as its section says. */
  predicate TablesLayout(buffer: seq<byte>, props: MapEntry, globals: MapEntry, propertyNameIDs: seq<nat>, globalNameIDs: seq<nat>)
  {
    && LingoHandler.VarnamesTable(buffer, props.offset, props.len, BIG_ENDIAN) == Ok(propertyNameIDs)
    && LingoHandler.VarnamesTable(buffer, globals.offset, globals.len, BIG_ENDIAN) == Ok(globalNameIDs)
  }

  /** `handlers.len` records from `handlers.offset`, each with its data. */
  predicate HandlersLayout(buffer: seq<byte>, handlers: MapEntry, records: seq<LingoHandler.HandlerRecord>, data: seq<LingoHandler.HandlerData>)
  {
    && |records| == handlers.len && |data| == handlers.len
    && (forall k :: 0 <= k < |records| ==> RecordAt(buffer, handlers.offset + 46 * k, records[k]))
    && (forall k :: 0 <= k < |records| ==> DataMatches(buffer, records[k], data[k]))
  }

  /** `literals.len` records from `literals.offset`, their values found from `literals_data.offset`. */
  predicate LiteralsLayout(buffer: seq<byte>, literals: MapEntry, literalsData: MapEntry, lits: seq<LingoLiteral.Literal>)
  {
    && |lits| == literals.len
    && forall k :: 0 <= k < |lits| ==> LiteralLayout(buffer, literals.offset + 8 * k, literalsData.offset, lits[k])
  }

  /**
   * `Script.read`: big-endian whatever the file's byte order; the header,
   * the section table, the two name-ID tables, the handlers and the
   * literals, each found through its section.
   */
  method ReadScript(ds: DataStream) returns (r: Result<ScriptChunk>)
    modifies ds`position, ds`endianness
    ensures ds.endianness == BIG_ENDIAN
    ensures r.Ok? ==> ScriptLayout(ds.buffer, r.value)
    ensures |ds.buffer| < 92 ==> r.Err?
  {
    ds.endianness := BIG_ENDIAN;
    var header :- ReadHeader(ds);
    var sections :- ReadSections(ds);
    var props, globals := sections[PropertiesSlot], sections[GlobalsSlot];
    var propertyNameIDs :- LingoHandler.ReadVarnamesTable(ds, props.len, props.offset);
    var globalNameIDs :- LingoHandler.ReadVarnamesTable(ds, globals.len, globals.offset);
    var handlers := sections[HandlersSlot];
    var records :- ReadHandlerRecords(ds, handlers.len, handlers.offset);
    var data :- ReadHandlerData(ds, records);
    var literals, literalsData := sections[LiteralsSlot], sections[LiteralsDataSlot];
    var lits :- ReadLiterals(ds, literals.len, literals.offset, literalsData.offset);
    r := Ok(ScriptChunk(header, sections, propertyNameIDs, globalNameIDs, records, data, lits));
  }

  /** The names `readNames` gives a script: its properties, its globals and each handler's own. */
  datatype ScriptNames = ScriptNames(propertyNames: seq<Name>, globalNames: seq<Name>, handlerNames: seq<LingoHandler.HandlerNames>)

  /** `Script.readNames`: every ID looked up in the context's names table, `undefined` past its end. */
  function ReadNames(nameList: seq<string>, s: ScriptChunk): (r: ScriptNames)
    requires |s.handlerData| == |s.handlers|
    ensures |r.propertyNames| == |s.propertyNameIDs| && |r.globalNames| == |s.globalNameIDs|
    ensures forall i :: 0 <= i < |s.propertyNameIDs| ==> r.propertyNames[i] == NameAt(nameList, s.propertyNameIDs[i])
    ensures forall i :: 0 <= i < |s.globalNameIDs| ==> r.globalNames[i] == NameAt(nameList, s.globalNameIDs[i])
    ensures |r.handlerNames| == |s.handlers|
    ensures forall k :: 0 <= k < |s.handlers| ==>
      r.handlerNames[k].name == NameAt(nameList, s.handlers[k].nameID)
      && r.handlerNames[k].argumentNames == LingoHandler.MapNames(nameList, s.handlerData[k].argumentNameIDs)
      && r.handlerNames[k].localNames == LingoHandler.MapNames(nameList, s.handlerData[k].localNameIDs)
  {
    ScriptNames(
      LingoHandler.MapNames(nameList, s.propertyNameIDs),
      LingoHandler.MapNames(nameList, s.globalNameIDs),
      seq(|s.handlers|, k requires 0 <= k < |s.handlers| => LingoHandler.ReadNames(nameList, s.handlers[k], s.handlerData[k])))
  }

  /** `toString`: the handlers' texts joined by a blank line; the first that fails to render fails the script. */
  function ScriptText(texts: seq<Result<string>>): (r: Result<string>)
    ensures r.Ok? <==> forall k :: 0 <= k < |texts| ==> texts[k].Ok?
  {
    if texts == [] then Ok("")
    else if texts[0].Err? then Err(texts[0].error)
    else if |texts| == 1 then texts[0]
    else
      var rest :- ScriptText(texts[1..]);
      Ok(texts[0].value + "\n\n" + rest)
  }

  /** The script's text is the handlers' texts, in order, each pair parted by "\n\n". */
  lemma {:induction false} ScriptTextJoins(texts: seq<Result<string>>)
    requires forall k :: 0 <= k < |texts| ==> texts[k].Ok?
    ensures ScriptText(texts) == Ok(Join(seq(|texts|, k requires 0 <= k < |texts| => texts[k].value), "\n\n"))
  {
    var parts := seq(|texts|, k requires 0 <= k < |texts| => texts[k].value);
    if |texts| > 1 {
      ScriptTextJoins(texts[1..]);
      assert parts[1..] == seq(|texts[1..]|, k requires 0 <= k < |texts[1..]| => texts[1..][k].value);
    }
  }
}
