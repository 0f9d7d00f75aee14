/**
 * Reading one handler of a script chunk (`Handler.readRecord`, `readData`,
 * `readVarnamesTable` and `readNames`): a fixed 46-byte record, the
 * compiled bytecode it points at, and the tables of argument and local
 * name IDs.
 */
module LingoHandler {
  import opened Bytes
  import opened Wrappers
  import opened DataStream
  import opened LingoBytecode
  import opened LingoAst

  datatype HandlerRecord = HandlerRecord(
    nameID: nat, vectorPos: nat, compiledLen: nat, compiledOffset: nat,
    argumentCount: nat, argumentOffset: nat, localsCount: nat, localsOffset: nat,
    unknown0Count: nat, unknown0Offset: nat, unknown1: nat, unknown2: nat,
    lineCount: nat, lineOffset: nat, stackHeight: nat)

  const HandlerRecordSize: nat := 46

  /** The unsigned field of the given width at `offset` within the record that starts at `p`. */
  function Field(buffer: seq<byte>, p: nat, offset: nat, width: nat, le: bool): nat
    requires p + offset + width <= |buffer|
  {
    UintAt(buffer, p + offset, width, le).value
  }

  /** Where each field of a handler record lies and how wide it is. */
  predicate RecordLayout(buffer: seq<byte>, p: nat, le: bool, rec: HandlerRecord)
    requires p + HandlerRecordSize <= |buffer|
  {
    RecordHeadLayout(buffer, p, le, rec) && RecordMidLayout(buffer, p, le, rec) && RecordEndLayout(buffer, p, le, rec)
  }

  /** The first seven fields, in the first 20 bytes of the record. */
  predicate RecordHeadLayout(buffer: seq<byte>, p: nat, le: bool, rec: HandlerRecord)
    requires p + 20 <= |buffer|
  {
    && rec.nameID == Field(buffer, p, 0, 2, le)
    && rec.vectorPos == Field(buffer, p, 2, 2, le)
    && rec.compiledLen == Field(buffer, p, 4, 4, le)
    && rec.compiledOffset == Field(buffer, p, 8, 4, le)
    && rec.argumentCount == Field(buffer, p, 12, 2, le)
    && rec.argumentOffset == Field(buffer, p, 14, 4, le)
    && rec.localsCount == Field(buffer, p, 18, 2, le)
  }

  /** The next four fields, in bytes 20 to 33. */
  predicate RecordMidLayout(buffer: seq<byte>, p: nat, le: bool, rec: HandlerRecord)
    requires p + 34 <= |buffer|
  {
    && rec.localsOffset == Field(buffer, p, 20, 4, le)
    && rec.unknown0Count == Field(buffer, p, 24, 2, le)
    && rec.unknown0Offset == Field(buffer, p, 26, 4, le)
    && rec.unknown1 == Field(buffer, p, 30, 4, le)
  }

  /** The last four fields, in bytes 34 to 45. */
  predicate RecordEndLayout(buffer: seq<byte>, p: nat, le: bool, rec: HandlerRecord)
    requires p + HandlerRecordSize <= |buffer|
  {
    && rec.unknown2 == Field(buffer, p, 34, 2, le)
    && rec.lineCount == Field(buffer, p, 36, 2, le)
    && rec.lineOffset == Field(buffer, p, 38, 4, le)
    && rec.stackHeight == Field(buffer, p, 42, 4, le)
  }

  /** `readRecord`: fifteen fields read back to back, 46 bytes in all. */
  method ReadRecord(ds: DataStream) returns (r: Result<HandlerRecord>)
    modifies ds`position
    ensures r.Ok? <==> old(ds.position) + HandlerRecordSize <= |ds.buffer|
    ensures r.Ok? ==> RecordLayout(ds.buffer, old(ds.position), ds.endianness, r.value)
    ensures r.Ok? ==> ds.position == old(ds.position) + HandlerRecordSize
  {
    var head :- ReadRecordHead(ds);
    var mid :- ReadRecordMid(ds, head);
    r := ReadRecordEnd(ds, mid);
  }

  /** The first seven fields of `readRecord`; the others are left zero. */
  method ReadRecordHead(ds: DataStream) returns (r: Result<HandlerRecord>)
    modifies ds`position
    ensures r.Ok? <==> old(ds.position) + 20 <= |ds.buffer|
    ensures r.Ok? ==> old(ds.position) + 20 <= |ds.buffer| && RecordHeadLayout(ds.buffer, old(ds.position), ds.endianness, r.value)
    ensures r.Ok? ==> ds.position == old(ds.position) + 20
  {
    var nameID :- ds.ReadUint16();
    var vectorPos :- ds.ReadUint16();
    var compiledLen :- ds.ReadUint32();
    var compiledOffset :- ds.ReadUint32();
    var argumentCount :- ds.ReadUint16();
    var argumentOffset :- ds.ReadUint32();
    var localsCount :- ds.ReadUint16();
    r := Ok(HandlerRecord(nameID, vectorPos, compiledLen, compiledOffset, argumentCount, argumentOffset,
      localsCount, 0, 0, 0, 0, 0, 0, 0, 0));
  }

  /** The next four fields of `readRecord`, into `head`. */
  method ReadRecordMid(ds: DataStream, head: HandlerRecord) returns (r: Result<HandlerRecord>)
    requires ds.position >= 20 && ds.position <= |ds.buffer| && RecordHeadLayout(ds.buffer, ds.position - 20, ds.endianness, head)
    modifies ds`position
    ensures r.Ok? <==> old(ds.position) + 14 <= |ds.buffer|
    ensures r.Ok? ==>
      && old(ds.position) + 14 <= |ds.buffer|
      && RecordHeadLayout(ds.buffer, old(ds.position) - 20, ds.endianness, r.value)
      && RecordMidLayout(ds.buffer, old(ds.position) - 20, ds.endianness, r.value)
    ensures r.Ok? ==> ds.position == old(ds.position) + 14
  {
    ghost var p: nat := ds.position - 20;
    var localsOffset :- ds.ReadUint32();
    var unknown0Count :- ds.ReadUint16();
    var unknown0Offset :- ds.ReadUint32();
    var unknown1 :- ds.ReadUint32();
    var rec := head.(localsOffset := localsOffset, unknown0Count := unknown0Count, unknown0Offset := unknown0Offset,
      unknown1 := unknown1);
    assert RecordHeadLayout(ds.buffer, p, ds.endianness, rec);
    r := Ok(rec);
  }

  /** The last four fields of `readRecord`, into `rec`. */
  method ReadRecordEnd(ds: DataStream, rec: HandlerRecord) returns (r: Result<HandlerRecord>)
    requires ds.position >= 34 && ds.position <= |ds.buffer|
    requires RecordHeadLayout(ds.buffer, ds.position - 34, ds.endianness, rec)
    requires RecordMidLayout(ds.buffer, ds.position - 34, ds.endianness, rec)
    modifies ds`position
    ensures r.Ok? <==> old(ds.position) + 12 <= |ds.buffer|
    ensures r.Ok? ==> RecordLayout(ds.buffer, old(ds.position) - 34, ds.endianness, r.value)
    ensures r.Ok? ==> ds.position == old(ds.position) + 12
  {
    ghost var p: nat := ds.position - 34;
    var unknown2 :- ds.ReadUint16();
    var lineCount :- ds.ReadUint16();
    var lineOffset :- ds.ReadUint32();
    var stackHeight :- ds.ReadUint32();
    var full := rec.(unknown2 := unknown2, lineCount := lineCount, lineOffset := lineOffset, stackHeight := stackHeight);
    assert RecordHeadLayout(ds.buffer, p, ds.endianness, full);
    assert RecordMidLayout(ds.buffer, p, ds.endianness, full);
    r := Ok(full);
  }

  /** The operand width of a code: 3, 2 or 1 bytes from 0xc0, 0x80 and 0x40 up, otherwise none. */
  function OperandWidth(op: nat): (w: nat)
    ensures w <= 3
    ensures w == 0 <==> op < 0x40
  {
    if op >= 0xc0 then 3
    else if op >= 0x80 then 2
    else if op >= 0x40 then 1
    else 0
  }

  /** For a code that fits a byte, the width is the code's top two bits. */
  lemma OperandWidthIsTopBits(op: nat)
    requires op < 0x100
    ensures OperandWidth(op) == op / 0x40
  {
  }

  /** One instruction at `pos`: the code byte, then an operand whose width the code fixes. */
  function InstructionAt(buffer: seq<byte>, pos: nat, le: bool): (r: Result<Bytecode>)
    ensures r.Ok? <==> pos < |buffer| && pos + 1 + OperandWidth(buffer[pos]) <= |buffer|
    ensures r.Ok? ==>
      && r.value.pos == pos && r.value.val == buffer[pos]
      && r.value.objLength == OperandWidth(buffer[pos])
      && (r.value.obj.Some? <==> buffer[pos] >= 0x40)
      && (r.value.obj.Some? ==> r.value.obj.value == UintAt(buffer, pos + 1, r.value.objLength, le).value)
  {
    if pos >= |buffer| then Err(RangeError)
    else
      var op := buffer[pos];
      var w := OperandWidth(op);
      if w == 0 then Ok(Bytecode(op, None, 0, pos))
      else if pos + 1 + w <= |buffer| then Ok(Bytecode(op, Some(UintAt(buffer, pos + 1, w, le).value), w, pos))
      else Err(RangeError)
  }

  /** The instructions from `pos` while the position is below `end`. */
  function Decode(buffer: seq<byte>, pos: nat, end: nat, le: bool): Result<seq<Bytecode>>
    decreases end - pos
  {
    if pos >= end then Ok([])
    else
      var b :- InstructionAt(buffer, pos, le);
      var rest :- Decode(buffer, pos + 1 + b.objLength, end, le);
      Ok([b] + rest)
  }

  /** One unfolding of `Decode` below the end. */
  lemma DecodeUnfold(buffer: seq<byte>, pos: nat, end: nat, le: bool)
    requires pos < end
    ensures var i := InstructionAt(buffer, pos, le);
      Decode(buffer, pos, end, le) ==
        if i.Err? then Err(i.error) else Prepend([i.value], Decode(buffer, pos + 1 + i.value.objLength, end, le))
  {
  }

  lemma PrependTwice(a: seq<Bytecode>, b: seq<Bytecode>, rest: Result<seq<Bytecode>>)
    ensures Prepend(a, Prepend(b, rest)) == Prepend(a + b, rest)
  {
    if rest.Ok? {
      assert a + (b + rest.value) == (a + b) + rest.value;
    }
  }

  /** `code` followed by the outcome of decoding the rest. */
  function Prepend(code: seq<Bytecode>, rest: Result<seq<Bytecode>>): Result<seq<Bytecode>>
  {
    if rest.Ok? then Ok(code + rest.value) else Err(rest.error)
  }

  /** One step of decoding: the instruction at `pos`, then the code after its operand. */
  lemma DecodeStep(buffer: seq<byte>, pos: nat, end: nat, le: bool)
    requires pos < end && Decode(buffer, pos, end, le).Ok?
    ensures InstructionAt(buffer, pos, le).Ok?
    ensures var b := InstructionAt(buffer, pos, le).value;
      var rest := Decode(buffer, pos + 1 + b.objLength, end, le);
      && b.pos == pos
      && rest.Ok?
      && Decode(buffer, pos, end, le).value == [b] + rest.value
  {
  }

  /** Decoding is empty exactly at or past the end; otherwise it starts at `pos` and its last instruction reaches the end. */
  lemma {:induction false} DecodeEnds(buffer: seq<byte>, pos: nat, end: nat, le: bool)
    requires Decode(buffer, pos, end, le).Ok?
    ensures var code := Decode(buffer, pos, end, le).value;
      && (code == [] <==> pos >= end)
      && (code != [] ==> code[0].pos == pos && code[|code| - 1].pos + 1 + code[|code| - 1].objLength >= end)
    decreases end - pos
  {
    if pos < end {
      DecodeStep(buffer, pos, end, le);
      var b := InstructionAt(buffer, pos, le).value;
      DecodeEnds(buffer, pos + 1 + b.objLength, end, le);
    }
  }

  /** Every decoded instruction starts in `[pos, end)`. */
  lemma {:induction false} DecodeInRange(buffer: seq<byte>, pos: nat, end: nat, le: bool)
    requires Decode(buffer, pos, end, le).Ok?
    ensures var code := Decode(buffer, pos, end, le).value;
      forall k :: 0 <= k < |code| ==> pos <= code[k].pos < end
    decreases end - pos
  {
    if pos < end {
      DecodeStep(buffer, pos, end, le);
      var b := InstructionAt(buffer, pos, le).value;
      var next := pos + 1 + b.objLength;
      DecodeInRange(buffer, next, end, le);
      var rest := Decode(buffer, next, end, le).value;
      var code := Decode(buffer, pos, end, le).value;
      forall k | 0 <= k < |code| ensures pos <= code[k].pos < end {
        if k > 0 {
          assert code[k] == rest[k - 1];
        }
      }
    }
  }

  /** Each instruction starts right after its predecessor's operand: the code is tiled without gaps. */
  lemma {:induction false} DecodeContiguous(buffer: seq<byte>, pos: nat, end: nat, le: bool)
    requires Decode(buffer, pos, end, le).Ok?
    ensures var code := Decode(buffer, pos, end, le).value;
      forall k :: 0 <= k < |code| - 1 ==> code[k + 1].pos == code[k].pos + 1 + code[k].objLength
    decreases end - pos
  {
    if pos < end {
      DecodeStep(buffer, pos, end, le);
      var b := InstructionAt(buffer, pos, le).value;
      var next := pos + 1 + b.objLength;
      DecodeContiguous(buffer, next, end, le);
      DecodeEnds(buffer, next, end, le);
      var rest := Decode(buffer, next, end, le).value;
      var code := Decode(buffer, pos, end, le).value;
      forall k | 0 <= k < |code| - 1 ensures code[k + 1].pos == code[k].pos + 1 + code[k].objLength {
        assert code[k + 1] == rest[k];
        if k > 0 {
          assert code[k] == rest[k - 1];
        }
      }
    }
  }

  /** Every decoded instruction has the operand width its code calls for. */
  lemma {:induction false} DecodeWidths(buffer: seq<byte>, pos: nat, end: nat, le: bool)
    requires Decode(buffer, pos, end, le).Ok?
    ensures var code := Decode(buffer, pos, end, le).value;
      forall k :: 0 <= k < |code| ==>
        && code[k].objLength == OperandWidth(code[k].val)
        && (code[k].obj.Some? <==> code[k].val >= 0x40)
    decreases end - pos
  {
    if pos < end {
      var b := InstructionAt(buffer, pos, le).value;
      DecodeWidths(buffer, pos + 1 + b.objLength, end, le);
    }
  }

  /** Each position names at most one instruction: positions strictly increase along the code. */
  lemma DecodedPositionsIncrease(buffer: seq<byte>, pos: nat, end: nat, le: bool)
    requires Decode(buffer, pos, end, le).Ok?
    ensures var code := Decode(buffer, pos, end, le).value;
      forall i, j :: 0 <= i < j < |code| ==> code[i].pos < code[j].pos
  {
    DecodeContiguous(buffer, pos, end, le);
    var code := Decode(buffer, pos, end, le).value;
    forall i, j | 0 <= i < j < |code| ensures code[i].pos < code[j].pos {
      IncreasingStep(code, i, j);
    }
  }

  lemma {:induction false} IncreasingStep(code: seq<Bytecode>, i: nat, j: nat)
    requires forall k :: 0 <= k < |code| - 1 ==> code[k + 1].pos == code[k].pos + 1 + code[k].objLength
    requires i < j < |code|
    ensures code[i].pos < code[j].pos
    decreases j - i
  {
    if i + 1 < j {
      IncreasingStep(code, i + 1, j);
    }
  }

  /** `bytecodeByPos`, with the instruction given by its index in `bytecodeArray`. */
  predicate IndexedByPos(code: seq<Bytecode>, byPos: map<nat, nat>)
  {
    && (forall k :: 0 <= k < |code| ==> code[k].pos in byPos && byPos[code[k].pos] == k)
    && (forall p :: p in byPos ==> byPos[p] < |code| && code[byPos[p]].pos == p)
  }

  /** The map the loop of `readData` builds: each instruction's position, set in order. */
  function PositionIndex(code: seq<Bytecode>): map<nat, nat>
  {
    if code == [] then map[] else PositionIndex(code[..|code| - 1])[code[|code| - 1].pos := |code| - 1]
  }

  /** When positions strictly increase, the map indexes every instruction by its own position. */
  lemma {:induction false} PositionIndexIndexes(code: seq<Bytecode>)
    requires forall i, j :: 0 <= i < j < |code| ==> code[i].pos < code[j].pos
    ensures IndexedByPos(code, PositionIndex(code))
  {
    if code != [] {
      var init := code[..|code| - 1];
      var b := code[|code| - 1];
      PositionIndexIndexes(init);
      var m := PositionIndex(init);
      assert b.pos !in m;
      forall k | 0 <= k < |code| ensures code[k].pos in PositionIndex(code) && PositionIndex(code)[code[k].pos] == k {
        if k < |init| {
          assert code[k] == init[k];
        }
      }
    }
  }

  /** The name-ID tables: `count` uint16 values from `offset`, none read when the count is 0. */
  function VarnamesTable(buffer: seq<byte>, offset: nat, count: nat, le: bool): (r: Result<seq<nat>>)
    ensures r.Ok? <==> count == 0 || offset + 2 * count <= |buffer|
    ensures r.Ok? ==> |r.value| == count
  {
    if count == 0 then Ok([])
    else if offset + 2 * count <= |buffer| then
      Ok(seq(count, i requires 0 <= i < count => UintAt(buffer, offset + 2 * i, 2, le).value))
    else Err(RangeError)
  }

  /** `readVarnamesTable`. */
  method ReadVarnamesTable(ds: DataStream, count: nat, offset: nat) returns (r: Result<seq<nat>>)
    modifies ds`position
    ensures r == VarnamesTable(ds.buffer, offset, count, ds.endianness)
    ensures r.Ok? ==> ds.position == offset + 2 * count
  {
    ds.Seek(offset);
    var ids: seq<nat> := [];
    var i := 0;
    while i < count
      invariant 0 <= i <= count
      invariant ds.position == offset + 2 * i
      invariant i > 0 ==> offset + 2 * i <= |ds.buffer|
      invariant |ids| == i
      invariant forall k :: 0 <= k < i ==> ids[k] == UintAt(ds.buffer, offset + 2 * k, 2, ds.endianness).value
    {
      var id := ds.ReadUint16();
      if id.Err? {
        assert offset + 2 * count > |ds.buffer|;
        return Err(id.error);
      }
      ids := ids + [id.value];
      i := i + 1;
    }
    ghost var le := ds.endianness;
    assert count > 0 ==> ids == seq(count, i requires 0 <= i < count => UintAt(ds.buffer, offset + 2 * i, 2, le).value);
    r := Ok(ids);
  }

  /** What `readData` leaves in a handler: the code, its position index and the two name-ID tables. */
  datatype HandlerData = HandlerData(
    bytecodeArray: seq<Bytecode>, bytecodeByPos: map<nat, nat>,
    argumentNameIDs: seq<nat>, localNameIDs: seq<nat>)

  /**
   * The loop of `readData`: decodes instructions from `start` while the
   * position is below `end`, indexing each by its position.
   */
  method ReadCode(ds: DataStream, start: nat, end: nat) returns (r: Result<(seq<Bytecode>, map<nat, nat>)>)
    modifies ds`position
    ensures var code := Decode(ds.buffer, start, end, ds.endianness);
      && (r.Ok? <==> code.Ok?)
      && (r.Ok? ==> r.value.0 == code.value && IndexedByPos(r.value.0, r.value.1))
  {
    ghost var buffer, le := ds.buffer, ds.endianness;
    ds.Seek(start);
    var code: seq<Bytecode> := [];
    var byPos: map<nat, nat> := map[];
    assert Prepend(code, Decode(buffer, start, end, le)) == Decode(buffer, start, end, le) by {
      var d := Decode(buffer, start, end, le);
      if d.Ok? {
        assert code + d.value == d.value;
      }
    }
    while ds.position < end
      invariant ds.buffer == buffer && ds.endianness == le
      invariant Decode(buffer, start, end, le) == Prepend(code, Decode(buffer, ds.position, end, le))
      invariant byPos == PositionIndex(code)
      decreases end - ds.position
    {
      var pos := ds.position;
      var b :- ReadCodeStep(ds, end, code);
      code := code + [b];
      assert code[..|code| - 1] == code[..|code| - 1];
      byPos := byPos[pos := |code| - 1];
    }
    assert code + [] == code;
    DecodedPositionsIncrease(buffer, start, end, le);
    PositionIndexIndexes(code);
    r := Ok((code, byPos));
  }

  /** One pass of the loop of `readData`, below the end: the instruction moves from the code still to decode onto `code`. */
  method ReadCodeStep(ds: DataStream, end: nat, ghost code: seq<Bytecode>) returns (r: Result<Bytecode>)
    requires ds.position < end
    modifies ds`position
    ensures var before := Prepend(code, Decode(ds.buffer, old(ds.position), end, ds.endianness));
      && (r.Err? ==> before == Err(r.error))
      && (r.Ok? ==> before == Prepend(code + [r.value], Decode(ds.buffer, ds.position, end, ds.endianness)))
    ensures r.Ok? ==> r.value.pos == old(ds.position) && ds.position == old(ds.position) + 1 + r.value.objLength
  {
    ghost var pos := ds.position;
    DecodeUnfold(ds.buffer, pos, end, ds.endianness);
    r := ReadInstruction(ds);
    if r.Ok? {
      PrependTwice(code, [r.value], Decode(ds.buffer, ds.position, end, ds.endianness));
    }
  }

  /** One pass of the loop of `readData`: the code byte, then its operand. */
  method ReadInstruction(ds: DataStream) returns (r: Result<Bytecode>)
    modifies ds`position
    ensures r == InstructionAt(ds.buffer, old(ds.position), ds.endianness)
    ensures r.Ok? ==> ds.position == old(ds.position) + 1 + r.value.objLength
  {
    var pos := ds.position;
    var op :- ds.ReadUint8();
    var w := OperandWidth(op);
    var obj: Option<nat> := None;
    if w == 3 {
      var v :- ds.ReadUint24();
      obj := Some(v);
    } else if w == 2 {
      var v :- ds.ReadUint16();
      obj := Some(v);
    } else if w == 1 {
      var v :- ds.ReadUint8();
      obj := Some(v);
    }
    r := Ok(Bytecode(op, obj, w, pos));
  }

  /**
   * `readData`: the code between `compiledOffset` and `compiledOffset +
   * compiledLen`, then the argument and local name-ID tables.
   */
  method ReadData(ds: DataStream, rec: HandlerRecord) returns (r: Result<HandlerData>)
    modifies ds`position
    ensures var start := rec.compiledOffset;
      var code := Decode(ds.buffer, start, start + rec.compiledLen, ds.endianness);
      var args := VarnamesTable(ds.buffer, rec.argumentOffset, rec.argumentCount, ds.endianness);
      var locals := VarnamesTable(ds.buffer, rec.localsOffset, rec.localsCount, ds.endianness);
      && (r.Ok? <==> code.Ok? && args.Ok? && locals.Ok?)
      && (r.Ok? ==>
        && r.value.bytecodeArray == code.value
        && IndexedByPos(r.value.bytecodeArray, r.value.bytecodeByPos)
        && r.value.argumentNameIDs == args.value
        && r.value.localNameIDs == locals.value)
  {
    var code :- ReadCode(ds, rec.compiledOffset, rec.compiledOffset + rec.compiledLen);
    var args :- ReadVarnamesTable(ds, rec.argumentCount, rec.argumentOffset);
    var locals :- ReadVarnamesTable(ds, rec.localsCount, rec.localsOffset);
    r := Ok(HandlerData(code.0, code.1, args, locals));
  }

  /** `ids.map(nameID => nameList[nameID])`. */
  function MapNames(nameList: seq<string>, ids: seq<nat>): (r: seq<Name>)
    ensures |r| == |ids|
    ensures forall i :: 0 <= i < |ids| ==> r[i] == NameAt(nameList, ids[i])
  {
    if ids == [] then [] else [NameAt(nameList, ids[0])] + MapNames(nameList, ids[1..])
  }

  datatype HandlerNames = HandlerNames(name: Name, argumentNames: seq<Name>, localNames: seq<Name>)

  /** `readNames`: the handler's own name and those of its arguments and locals. */
  function ReadNames(nameList: seq<string>, rec: HandlerRecord, data: HandlerData): (r: HandlerNames)
    ensures r.name.Some? <==> rec.nameID < |nameList|
    ensures |r.argumentNames| == |data.argumentNameIDs| && |r.localNames| == |data.localNameIDs|
  {
    HandlerNames(NameAt(nameList, rec.nameID), MapNames(nameList, data.argumentNameIDs), MapNames(nameList, data.localNameIDs))
  }
}
