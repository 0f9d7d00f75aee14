/**
 * A handler of the director generation (`Director::Handler`): its record
 * in the script chunk, its bytecode and name tables, the value stack the
 * translator works on, the loop tagging pass, and `translateBytecode`,
 * which turns each instruction into a node of the handler's syntax tree.
 * The tree is the arena of `DirectorAst`; each instruction's translation
 * is kept in a map from its index.
 */
module DirectorHandler {
  import opened Bytes
  import opened Wrappers
  import opened Stream
  import opened DirectorLingo
  import opened DirectorLoops
  import opened DirectorAst
  import LingoDecNames

  /**
   * The static tables of `Lingo` the translator looks names up in, and
   * the float-to-int conversion `Datum::toInt` applies (floating point is
   * not modelled).
   */
  datatype Tables = Tables(
    opcodeNames: map<nat, string>,
    moviePropertyNames00: map<nat, string>,
    moviePropertyNames07: map<nat, string>,
    moviePropertyNames08: map<nat, string>,
    memberPropertyNames: map<nat, string>,
    floatToInt: int -> int)

  /**
   * How a step of translation ended: normally, at a point where the
   * source has undefined behaviour (a null block, an index past the end
   * of the code), or at a construct this model does not follow.
   */
  datatype Outcome = Translated | Undefined(what: string) | Unmodelled(what: string)

  // ---------------------------------------------------------------------
  // The handler record (`readRecord`).

  /** The record's size: 42 bytes, and 46 with the `stackHeight` of an `LctX` context. */
  function RecordLength(capitalX: bool): nat
  {
    if capitalX then 46 else 42
  }

  /**
   * The record read at `p`: a signed 16-bit name id, then the fields in
   * order, each two or four bytes wide; `stackHeight` only for an `LctX`
   * context, 0 otherwise.
   */
  function RecordAt(data: seq<byte>, p: nat, capitalX: bool, le: bool): (r: HandlerRecord)
    ensures -0x8000 <= r.nameID < 0x8000
    ensures r.vectorPos < 0x1_0000 && r.argumentCount < 0x1_0000 && r.localsCount < 0x1_0000
    ensures r.unknown0Count < 0x1_0000 && r.unknown2 < 0x1_0000 && r.lineCount < 0x1_0000
    ensures r.compiledLen < 0x1_0000_0000 && r.compiledOffset < 0x1_0000_0000 && r.argumentOffset < 0x1_0000_0000
    ensures r.localsOffset < 0x1_0000_0000 && r.unknown0Offset < 0x1_0000_0000 && r.unknown1 < 0x1_0000_0000
    ensures r.lineOffset < 0x1_0000_0000 && r.stackHeight < 0x1_0000_0000
    ensures !capitalX ==> r.stackHeight == 0
  {
    Pow256Values();
    HandlerRecord(
      Signed(UintOrZero(data, p, 2, le), 0x1_0000), UintOrZero(data, p + 2, 2, le),
      UintOrZero(data, p + 4, 4, le), UintOrZero(data, p + 8, 4, le),
      UintOrZero(data, p + 12, 2, le), UintOrZero(data, p + 14, 4, le),
      UintOrZero(data, p + 18, 2, le), UintOrZero(data, p + 20, 4, le),
      UintOrZero(data, p + 24, 2, le), UintOrZero(data, p + 26, 4, le),
      UintOrZero(data, p + 30, 4, le), UintOrZero(data, p + 34, 2, le),
      UintOrZero(data, p + 36, 2, le), UintOrZero(data, p + 38, 4, le),
      if capitalX then UintOrZero(data, p + 42, 4, le) else 0)
  }

  /** A record whose bytes fit holds exactly the bytes it was read from, so they can be written back. */
  lemma RecordFieldsAreItsBytes(data: seq<byte>, p: nat, capitalX: bool, le: bool)
    requires p + RecordLength(capitalX) <= |data|
    ensures var r := RecordAt(data, p, capitalX, le);
      && r.nameID % 0x1_0000 == Unsigned(data[p..p + 2], le)
      && r.compiledLen == Unsigned(data[p + 4..p + 8], le)
      && r.compiledOffset == Unsigned(data[p + 8..p + 12], le)
      && r.lineOffset == Unsigned(data[p + 38..p + 42], le)
      && (capitalX ==> r.stackHeight == Unsigned(data[p + 42..p + 46], le))
  {
    Pow256Values();
    assert Fits(data, p, 2) && Fits(data, p + 4, 4) && Fits(data, p + 8, 4) && Fits(data, p + 38, 4);
  }

  // ---------------------------------------------------------------------
  // Names.

  /** A name by index, or the placeholder of the prefix followed by the index in decimal. */
  function NameOr(names: seq<string>, id: int, prefix: string): (r: string)
    ensures -1 < id < |names| ==> r == names[id]
    ensures !(-1 < id < |names|) ==> r == prefix + IntToString(id)
  {
    if -1 < id < |names| then names[id] else prefix + IntToString(id)
  }

  /** A placeholder spells its index: the index can be read back after the prefix. */
  lemma PlaceholderSpellsIndex(names: seq<string>, id: int, prefix: string)
    requires !(-1 < id < |names|)
    ensures var r := NameOr(names, id, prefix);
      && |r| > |prefix| && r[..|prefix|] == prefix
      && (id >= 0 ==> ParseDigits(r[|prefix|..], 10) == id)
      && (id < 0 ==> r[|prefix|] == '-' && ParseDigits(r[|prefix| + 1..], 10) == -id)
  {
    var r := NameOr(names, id, prefix);
    assert r[|prefix|..] == IntToString(id);
    IntToStringRoundTrip(id);
    if id < 0 {
      assert r[|prefix| + 1..] == IntToString(id)[1..];
    }
  }

  /** Two indexes outside the table get different placeholders. */
  lemma PlaceholdersDistinct(names: seq<string>, a: int, b: int, prefix: string)
    requires !(-1 < a < |names|) && !(-1 < b < |names|) && a != b
    ensures NameOr(names, a, prefix) != NameOr(names, b, prefix)
  {
    PlaceholderSpellsIndex(names, a, prefix);
    PlaceholderSpellsIndex(names, b, prefix);
  }

  /** The names `readNames` looks up for a table of ids, in order. */
  function NamesOf(names: seq<string>, ids: seq<int>): (r: seq<string>)
    ensures |r| == |ids| && forall k :: 0 <= k < |ids| ==> r[k] == NameOf(names, ids[k])
  {
    seq(|ids|, k requires 0 <= k < |ids| => NameOf(names, ids[k]))
  }

  /** `variableMultiplier`: the scale of variable and literal operands. */
  function VariableMultiplier(capitalX: bool, version: int): (r: nat)
    ensures r > 0
  {
    if capitalX then 1 else if version >= 500 then 8 else 6
  }

  /** Whether no name occurs twice. */
  predicate NoDuplicates(s: seq<string>)
  {
    forall i, j :: 0 <= i < j < |s| ==> s[i] != s[j]
  }

  /**
   * `registerGlobal`: the handler's globals with the name appended, unless
   * the script or the handler already declares it.
   */
  function WithGlobal(scriptGlobals: seq<string>, globals: seq<string>, name: string): (r: seq<string>)
    ensures name in scriptGlobals || name in r
    ensures |globals| <= |r| <= |globals| + 1 && r[..|globals|] == globals
    ensures forall g :: g in r ==> g in globals || g == name
    ensures NoDuplicates(globals) ==> NoDuplicates(r)
    ensures name in scriptGlobals ==> r == globals
  {
    if name !in scriptGlobals && name !in globals then globals + [name] else globals
  }

  /** Registering a name twice registers it once. */
  lemma WithGlobalIdempotent(scriptGlobals: seq<string>, globals: seq<string>, name: string)
    ensures WithGlobal(scriptGlobals, WithGlobal(scriptGlobals, globals, name), name) == WithGlobal(scriptGlobals, globals, name)
  {
  }

  // ---------------------------------------------------------------------
  // The value stack.

  /** Popping once more after `n` pops. */
  lemma {:induction false} DropNStep(s: seq<Node>, n: nat)
    ensures DropN(s, n + 1) == Drop(DropN(s, n))
    decreases n
  {
    if n > 0 {
      DropNStep(Drop(s), n - 1);
    }
  }

  /** The `n + 1` pops: the first `n`, then the top of what they leave. */
  lemma {:induction false} PopsStep(s: seq<Node>, n: nat)
    ensures Pops(s, n + 1) == Pops(s, n) + [Top(DropN(s, n))]
    decreases n
  {
    if n > 0 {
      PopsStep(Drop(s), n - 1);
    }
  }

  // ---------------------------------------------------------------------
  // Leaving finished blocks (the inner loop of `translate`).

  /**
   * The block the closing loop of `translate` stops at: starting from b,
   * it leaves each block that ends at `pos`; -1 when it left the
   * handler's block, after which the source reads through a null block.
   */
  function BlockAfterExits(blocks: seq<Block>, stmts: seq<Stmt>, b: int, pos: nat): (r: int)
    requires ArenaWellFormed(blocks, stmts) && -1 <= b < |blocks|
    ensures -1 <= r < |blocks|
    ensures r >= 0 ==> blocks[r].endPos != pos
    ensures b >= 0 && blocks[b].endPos != pos ==> r == b
    decreases ExitMeasure(blocks, stmts, b)
  {
    if b < 0 || blocks[b].endPos != pos then b
    else
      LeaveBlockDecreases(blocks, stmts, b);
      BlockAfterExits(blocks, stmts, LeaveBlock(blocks, stmts, b), pos)
  }

  /** The comment the default case of `translateBytecode` gives: the mnemonic, then the operand of an opcode that has one. */
  function UnknownOpComment(opcodeNames: map<nat, string>, b: Bytecode): (r: string)
  {
    LingoDecNames.GetOpcodeName(opcodeNames, b.opID) + (if b.opcode >= 0x40 then " " + IntToString(b.obj) else "")
  }

  /** The comment starts with the mnemonic, and after it spells the operand exactly when the opcode has one. */
  lemma UnknownOpCommentSpellsOperand(opcodeNames: map<nat, string>, b: Bytecode)
    ensures var name := LingoDecNames.GetOpcodeName(opcodeNames, b.opID);
      var r := UnknownOpComment(opcodeNames, b);
      && r[..|name|] == name
      && (b.opcode < 0x40 ==> r == name)
      && (b.opcode >= 0x40 && b.obj >= 0 ==> r[|name|] == ' ' && ParseDigits(r[|name| + 1..], 10) == b.obj)
      && (b.opcode >= 0x40 && b.obj < 0 ==> r[|name|] == ' ' && r[|name| + 1] == '-' && ParseDigits(r[|name| + 2..], 10) == -b.obj)
  {
    var name := LingoDecNames.GetOpcodeName(opcodeNames, b.opID);
    var r := UnknownOpComment(opcodeNames, b);
    if b.opcode >= 0x40 {
      assert r[|name| + 1..] == IntToString(b.obj);
      IntToStringRoundTrip(b.obj);
      if b.obj < 0 {
        assert r[|name| + 2..] == IntToString(b.obj)[1..];
      }
    }
  }

  /** The opcodes `translateBytecode` has a case for. */
  predicate IsKnownOpcode(op: byte)
  {
    || OpRet <= op <= OpPushPropList || op == OpSwap
    || OpPushInt8 <= op <= OpPushVarRef || OpGetGlobal2 <= op <= OpGetLocal
    || OpSetGlobal2 <= op <= OpSet || OpGetMovieProp <= op <= OpObjCall
    || OpPushChunkVarRef <= op <= OpGetTopLevelProp
  }

  /** The `n` values on top of the stack, topmost first, in the order `pop` yields them; error nodes past the bottom. */
  function TopValues(s: seq<Node>, n: nat): (r: seq<Node>)
    ensures |r| == n
    ensures forall k :: 0 <= k < n ==> r[k] == if k < |s| then s[|s| - 1 - k] else ErrorNode
  {
    seq(n, k requires 0 <= k < n => if k < |s| then s[|s| - 1 - k] else ErrorNode)
  }

  /** The values on top are what `n` pops give, and the stack left is the one `n` pops leave. */
  lemma TopValuesArePops(s: seq<Node>, n: nat)
    ensures TopValues(s, n) == Pops(s, n)
    ensures s[..|s| - Min(n, |s|)] == DropN(s, n)
  {
    PopsFromTop(s, n);
  }

  /** `readChunkRef` on a stack: the chunk reference of `str` by the eight bounds on top, and the stack without them. */
  function ChunkRefFrom(str: Node, s: seq<Node>): (r: (Node, seq<Node>))
    ensures r.1 == s[..|s| - Min(8, |s|)]
    ensures r.0.CommentNode? || (r.0.ChunkExprNode? && r.0.str == str)
  {
    (ChunkRef(str, TopValues(s, 8)), s[..|s| - Min(8, |s|)])
  }

  /** The instruction whose opcode byte is at `p`, with its operand and its position past `base`. */
  function InstructionAt(data: seq<byte>, p: nat, base: nat, le: bool): (b: Bytecode)
    requires base <= p
    ensures b.pos == p - base && b.opID == ByteOrZero(data, p)
  {
    var op := ByteOrZero(data, p);
    NewBytecode(op, OperandAt(data, p + 1, op, le), p - base)
  }

  /** Where the instruction after the one at `p` starts. */
  function NextInstruction(data: seq<byte>, p: nat): (r: nat)
    ensures r > p
  {
    p + 1 + OperandWidth(ByteOrZero(data, p))
  }

  /** One instruction of the decoding, and the rest after its operand. */
  lemma DecodeStep(data: seq<byte>, p: nat, base: nat, end: nat, le: bool)
    requires base <= p < end
    ensures DecodeFrom(data, p, base, end, le) ==
      [InstructionAt(data, p, base, le)] + DecodeFrom(data, NextInstruction(data, p), base, end, le)
  {
  }

  /** One more instruction indexed: the map so far, with the instruction's position at its index. */
  lemma PosMapAfterStep(m: map<nat, nat>, offset: nat, code: seq<Bytecode>, b: Bytecode)
    ensures PosMapAfter(m, offset, code + [b]) == PosMapAfter(m, offset, code)[b.pos := offset + |code|]
  {
    assert (code + [b])[..|code|] == code;
  }

  /** Whether a property set is a `when` statement: event 1 to 5 of the movie, set to a script text. */
  predicate IsWhenSet(propertyType: int, propertyID: int, value: Node)
  {
    && propertyType == 0 && 1 <= propertyID <= 5
    && GetValue(value).datumType == DatumString && IsWhenScript(GetValue(value).s)
  }

  /**
   * What a `jmp` inside a loop is: an `exit repeat` when the instruction
   * before its target is the loop's own `endrepeat`, a `next repeat` when
   * its target is the loop's `next repeat` target, and neither otherwise.
   */
  function JumpInLoop(code: seq<Bytecode>, targetIndex: nat, loop: nat): (r: Option<Node>)
    requires 1 <= targetIndex < |code|
    ensures r == Some(ExitRepeatStmtNode) <==>
      code[targetIndex - 1].opcode == OpEndRepeat && code[targetIndex - 1].ownerLoop == loop
    ensures r == Some(NextRepeatStmtNode) <==>
      !(code[targetIndex - 1].opcode == OpEndRepeat && code[targetIndex - 1].ownerLoop == loop) &&
      code[targetIndex].tag == TagNextRepeatTarget && code[targetIndex].ownerLoop == loop
    ensures r == None || r == Some(ExitRepeatStmtNode) || r == Some(NextRepeatStmtNode)
  {
    if code[targetIndex - 1].opcode == OpEndRepeat && code[targetIndex - 1].ownerLoop == loop then Some(ExitRepeatStmtNode)
    else if code[targetIndex].tag == TagNextRepeatTarget && code[targetIndex].ownerLoop == loop then Some(NextRepeatStmtNode)
    else None
  }

  /** The translation of a `jmp` that does not amend an if: its loop jump, or the error comment. */
  function JumpTranslation(code: seq<Bytecode>, targetIndex: nat, loop: Option<nat>): (r: Node)
    requires loop.Some? ==> 1 <= targetIndex < |code|
    ensures !IsExpression(r)
    ensures loop.None? ==> r == CommentNode("ERROR: Could not identify jmp")
  {
    var j := if loop.Some? then JumpInLoop(code, targetIndex, loop.value) else None;
    if j.Some? then j.value else CommentNode("ERROR: Could not identify jmp")
  }

  /** The opcodes whose translation reads only the stack, the operand and the script's tables. */
  predicate IsStackOp(op: byte)
  {
    || op == OpPushZero || IsBinaryOp(op) || op == OpInv || op == OpNot || op == OpOntoSpr || op == OpIntoSpr
    || op == OpPushList || op == OpPushPropList || op == OpPushInt8 || op == OpPushInt16 || op == OpPushInt32
    || op == OpPushFloat32 || op == OpPushCons || op == OpPushSymb || op == OpPushVarRef
  }

  /** The opcodes that name a variable, a property or a call by their operand. */
  predicate IsNamedOp(op: byte)
  {
    || op == OpGetGlobal || op == OpGetGlobal2 || op == OpGetProp || op == OpGetParam || op == OpGetLocal
    || op == OpSetGlobal || op == OpSetGlobal2 || op == OpSetProp || op == OpSetParam || op == OpSetLocal
    || op == OpExtCall || op == OpTellCall || op == OpGetMovieProp || op == OpSetMovieProp
    || op == OpGetObjProp || op == OpGetChainedProp || op == OpSetObjProp || op == OpTheBuiltin
    || op == OpObjCall || op == OpGetTopLevelProp
  }

  /** The opcodes that read a chunk reference. */
  predicate IsChunkOp(op: byte)
  {
    op == OpGetChunk || op == OpHiliteChunk || op == OpPutChunk || op == OpDeleteChunk
  }

  /** The opcodes that read a variable reference, a field or a property of the older kind. */
  predicate IsReferenceOp(op: byte)
  {
    op == OpGetField || op == OpObjCallV4 || op == OpPut || op == OpPushChunkVarRef || op == OpGet || op == OpSet
  }

  /** Whether the `jmp` after block b, whose next instruction is at `nextPos`, ends the first block of an if: the if gets an else. */
  predicate ClosesIfBlock(blocks: seq<Block>, stmts: seq<Stmt>, b: int, nextPos: nat)
    requires ArenaWellFormed(blocks, stmts) && -1 <= b < |blocks|
  {
    b > 0 && nextPos == blocks[b].endPos && IsFirstOfIf(blocks, stmts, b)
  }

  /** The opcodes that read or set a global, which `translateBytecode` registers. */
  predicate IsGlobalAccess(op: byte)
  {
    op == OpGetGlobal || op == OpGetGlobal2 || op == OpSetGlobal || op == OpSetGlobal2
  }

  /** The tags `tagLoops` puts on the instructions a loop's statement stands for, which translation skips. */
  predicate IsInternal(t: Tag)
  {
    t.TagSkip? || t.TagNextRepeatTarget?
  }

  /** One pass of the argument-list loop: popping the top puts it in front of the arguments already taken. */
  lemma ArgPopStep(s0: seq<Node>, n: nat, c: nat, s: seq<Node>, args: seq<Node>)
    requires 0 < c <= n && s == DropN(s0, n - c) && ArgsOf(s, c) + args == ArgsOf(s0, n)
    ensures Drop(s) == DropN(s0, n - c + 1) && ArgsOf(Drop(s), c - 1) + ([Top(s)] + args) == ArgsOf(s0, n)
  {
    DropNStep(s0, n - c);
    assert ArgsOf(s, c) == ArgsOf(Drop(s), c - 1) + [Top(s)];
  }

  // ---------------------------------------------------------------------
  // The handler.

  /**
   * `Handler`: the script-wide tables it reads (names, globals, literals,
   * the names of the script's handlers, the version of the file) and the
   * state it builds: the record, the decoded code and its position map,
   * the name tables, the value stack, and the syntax tree with its
   * current block (-1 for none).
   */
  class Handler {
    const version: int
    const capitalX: bool
    const scriptNames: seq<string>
    const scriptGlobalNames: seq<string>
    const literals: seq<Datum>
    const handlerNames: seq<string>
    const tables: Tables

    var record: HandlerRecord
    var argumentNameIDs: seq<int>
    var localNameIDs: seq<int>
    var bytecodeArray: seq<Bytecode>
    var bytecodePosMap: map<nat, nat>
    var argumentNames: seq<string>
    var localNames: seq<string>
    var globalNames: seq<string>
    var name: string
    var stack: seq<Node>
    var blocks: seq<Block>
    var stmts: seq<Stmt>
    var currentBlock: int
    var translations: map<nat, Node>

    /** The position map indexes inside the code, and the syntax tree is a tree with a current block inside it or none. */
    ghost predicate Valid()
      reads this`bytecodeArray, this`bytecodePosMap, this`blocks, this`stmts, this`currentBlock
    {
      && PosMapInRange(bytecodePosMap, |bytecodeArray|)
      && ArenaWellFormed(blocks, stmts)
      && -1 <= currentBlock < |blocks|
    }

    constructor (version: int, capitalX: bool, scriptNames: seq<string>, scriptGlobalNames: seq<string>,
                 literals: seq<Datum>, handlerNames: seq<string>, tables: Tables)
      ensures Valid()
      ensures this.version == version && this.capitalX == capitalX && this.scriptNames == scriptNames
      ensures this.scriptGlobalNames == scriptGlobalNames && this.literals == literals
      ensures this.handlerNames == handlerNames && this.tables == tables
      ensures bytecodeArray == [] && bytecodePosMap == map[] && stack == [] && globalNames == []
      ensures argumentNames == [] && localNames == [] && translations == map[]
      ensures blocks == EmptyArena.0 && stmts == EmptyArena.1 && currentBlock == 0
    {
      this.version := version;
      this.capitalX := capitalX;
      this.scriptNames := scriptNames;
      this.scriptGlobalNames := scriptGlobalNames;
      this.literals := literals;
      this.handlerNames := handlerNames;
      this.tables := tables;
      record := HandlerRecord(0, 0, 0, 0, 0, 0, 0, 0, 0, 0, 0, 0, 0, 0, 0);
      argumentNameIDs := [];
      localNameIDs := [];
      bytecodeArray := [];
      bytecodePosMap := map[];
      argumentNames := [];
      localNames := [];
      globalNames := [];
      name := "";
      stack := [];
      blocks := EmptyArena.0;
      stmts := EmptyArena.1;
      currentBlock := 0;
      translations := map[];
      EmptyArenaWellFormed();
    }

    // -------------------------------------------------------------------
    // Reading.

    /** `readRecord`: the record at the cursor, the cursor moved past it. */
    method ReadRecord(stream: ReadStream)
      modifies this`record, stream`pos
      ensures record == RecordAt(stream.data, old(stream.pos), capitalX, stream.endianness)
      ensures stream.pos == old(stream.pos) + RecordLength(capitalX)
    {
      ghost var p := stream.pos;
      var nameID, vectorPos, compiledLen, compiledOffset, argumentCount, argumentOffset, localsCount := ReadRecordHead(stream);
      var localsOffset, unknown0Count, unknown0Offset, unknown1, unknown2, lineCount, lineOffset, stackHeight := ReadRecordTail(stream, p);
      record := HandlerRecord(nameID, vectorPos, compiledLen, compiledOffset, argumentCount, argumentOffset,
        localsCount, localsOffset, unknown0Count, unknown0Offset, unknown1, unknown2, lineCount, lineOffset, stackHeight);
    }

    /** The record's fields up to the locals count. */
    method ReadRecordHead(stream: ReadStream)
      returns (nameID: int, vectorPos: nat, compiledLen: nat, compiledOffset: nat, argumentCount: nat, argumentOffset: nat, localsCount: nat)
      modifies stream`pos
      ensures var r := RecordAt(stream.data, old(stream.pos), capitalX, stream.endianness);
        && nameID == r.nameID && vectorPos == r.vectorPos && compiledLen == r.compiledLen
        && compiledOffset == r.compiledOffset && argumentCount == r.argumentCount
        && argumentOffset == r.argumentOffset && localsCount == r.localsCount
      ensures stream.pos == old(stream.pos) + 20
    {
      nameID := stream.ReadInt16();
      vectorPos := stream.ReadUint16();
      compiledLen := stream.ReadUint32();
      compiledOffset := stream.ReadUint32();
      argumentCount := stream.ReadUint16();
      argumentOffset := stream.ReadUint32();
      localsCount := stream.ReadUint16();
    }

    /** The record's fields from the locals offset on, the stack height only in the capital-X form. */
    method ReadRecordTail(stream: ReadStream, ghost p: nat)
      returns (localsOffset: nat, unknown0Count: nat, unknown0Offset: nat, unknown1: nat, unknown2: nat,
               lineCount: nat, lineOffset: nat, stackHeight: nat)
      requires stream.pos == p + 20
      modifies stream`pos
      ensures var r := RecordAt(stream.data, p, capitalX, stream.endianness);
        && localsOffset == r.localsOffset && unknown0Count == r.unknown0Count && unknown0Offset == r.unknown0Offset
        && unknown1 == r.unknown1 && unknown2 == r.unknown2 && lineCount == r.lineCount
        && lineOffset == r.lineOffset && stackHeight == r.stackHeight
      ensures stream.pos == p + RecordLength(capitalX)
    {
      localsOffset := stream.ReadUint32();
      unknown0Count := stream.ReadUint16();
      unknown0Offset := stream.ReadUint32();
      unknown1 := stream.ReadUint32();
      unknown2 := stream.ReadUint16();
      lineCount := stream.ReadUint16();
      lineOffset := stream.ReadUint32();
      stackHeight := 0;
      if capitalX {
        stackHeight := stream.ReadUint32();
      }
    }

    /**
     * The loop of `readData`: the instructions from `compiledOffset` while
     * the cursor is before `compiledOffset + compiledLen` (a uint32 sum),
     * each appended and indexed by its position.
     */
    method ReadCode(stream: ReadStream)
      modifies this`bytecodeArray, this`bytecodePosMap, stream`pos
      ensures var base := record.compiledOffset;
        var code := DecodeFrom(stream.data, base, base, U32(base + record.compiledLen), stream.endianness);
        && bytecodeArray == old(bytecodeArray) + code
        && bytecodePosMap == PosMapAfter(old(bytecodePosMap), |old(bytecodeArray)|, code)
    {
      var base := record.compiledOffset;
      var end := U32(base + record.compiledLen);
      stream.Seek(base);
      ghost var start, m0, le := bytecodeArray, bytecodePosMap, stream.endianness;
      ghost var all := DecodeFrom(stream.data, base, base, end, le);
      ghost var done: seq<Bytecode> := [];
      while stream.pos < end
        invariant ReadingCode(stream, base, end, le, start, m0, all, done)
        decreases end - stream.pos
      {
        done := ReadCodeStep(stream, base, end, le, start, m0, all, done);
      }
      assert done == all;
    }

    /** Where the loop of `readData` stands: `done` read, the rest of the decoding still ahead of the cursor. */
    ghost predicate ReadingCode(stream: ReadStream, base: nat, end: nat, le: bool, start: seq<Bytecode>, m0: map<nat, nat>,
                                all: seq<Bytecode>, done: seq<Bytecode>)
      reads this`bytecodeArray, this`bytecodePosMap, stream`pos, stream`endianness
    {
      && base <= stream.pos && stream.endianness == le
      && done + DecodeFrom(stream.data, stream.pos, base, end, le) == all
      && bytecodeArray == start + done
      && bytecodePosMap == PosMapAfter(m0, |start|, done)
    }

    /** One pass of the loop of `readData`: the next instruction read, appended and indexed. */
    method ReadCodeStep(stream: ReadStream, base: nat, end: nat, ghost le: bool, ghost start: seq<Bytecode>, ghost m0: map<nat, nat>,
                        ghost all: seq<Bytecode>, ghost done: seq<Bytecode>) returns (ghost done': seq<Bytecode>)
      requires ReadingCode(stream, base, end, le, start, m0, all, done) && stream.pos < end
      modifies this`bytecodeArray, this`bytecodePosMap, stream`pos
      ensures ReadingCode(stream, base, end, le, start, m0, all, done') && stream.pos > old(stream.pos)
    {
      ghost var rest := DecodeFrom(stream.data, stream.pos, base, end, le);
      DecodeStep(stream.data, stream.pos, base, end, le);
      var bytecode := ReadInstruction(stream, base);
      assert rest == [bytecode] + DecodeFrom(stream.data, stream.pos, base, end, le);
      assert (done + [bytecode]) + DecodeFrom(stream.data, stream.pos, base, end, le) == done + rest;
      bytecodeArray := bytecodeArray + [bytecode];
      bytecodePosMap := bytecodePosMap[bytecode.pos := |bytecodeArray| - 1];
      PosMapAfterStep(m0, |start|, done, bytecode);
      done' := done + [bytecode];
    }

    /** One instruction of `readData`: the opcode byte, then its operand, read as `OperandAt` reads it. */
    method ReadInstruction(stream: ReadStream, base: nat) returns (bytecode: Bytecode)
      requires base <= stream.pos
      modifies stream`pos
      ensures bytecode == InstructionAt(stream.data, old(stream.pos), base, stream.endianness)
      ensures stream.pos == NextInstruction(stream.data, old(stream.pos))
    {
      var pos := stream.pos - base;
      var op := stream.ReadUint8();
      var opcode := LingoDecNames.NormalOpcode(op);
      var obj: int := 0;
      if op >= 0xc0 {
        obj := stream.ReadInt32();
      } else if op >= 0x80 {
        if opcode == OpPushInt16 || opcode == OpPushInt8 {
          obj := stream.ReadInt16();
        } else {
          obj := stream.ReadUint16();
        }
      } else if op >= 0x40 {
        if opcode == OpPushInt8 {
          obj := stream.ReadInt8();
        } else {
          var u := stream.ReadUint8();
          obj := u;
        }
      }
      bytecode := NewBytecode(op, obj, pos);
    }

    /** `readData`: the code, then the argument and local name-id tables. */
    method ReadData(stream: ReadStream)
      modifies this`bytecodeArray, this`bytecodePosMap, this`argumentNameIDs, this`localNameIDs, stream`pos
      ensures var base := record.compiledOffset;
        var code := DecodeFrom(stream.data, base, base, U32(base + record.compiledLen), stream.endianness);
        && bytecodeArray == old(bytecodeArray) + code
        && bytecodePosMap == PosMapAfter(old(bytecodePosMap), |old(bytecodeArray)|, code)
      ensures argumentNameIDs == VarnamesTable(stream.data, record.argumentOffset, record.argumentCount, stream.endianness)
      ensures localNameIDs == VarnamesTable(stream.data, record.localsOffset, record.localsCount, stream.endianness)
      ensures stream.pos == record.localsOffset + 2 * record.localsCount
    {
      ReadCode(stream);
      argumentNameIDs := ReadVarnamesTable(stream, record.argumentCount, record.argumentOffset);
      localNameIDs := ReadVarnamesTable(stream, record.localsCount, record.localsOffset);
    }

    /** `readVarnamesTable`: `count` ids from `offset`, each uint16 stored in an int16. */
    method ReadVarnamesTable(stream: ReadStream, count: nat, offset: nat) returns (nameIDs: seq<int>)
      modifies stream`pos
      ensures nameIDs == VarnamesTable(stream.data, offset, count, stream.endianness)
      ensures stream.pos == offset + 2 * count
    {
      stream.Seek(offset);
      nameIDs := [];
      for i := 0 to count
        invariant stream.pos == offset + 2 * i
        invariant nameIDs == VarnamesTable(stream.data, offset, i, stream.endianness)
      {
        var id := stream.ReadUint16();
        nameIDs := nameIDs + [Signed(id, 0x1_0000)];
      }
    }

    /** `readNames`: the handler's own name, then one name per argument and per local id, in order. */
    method ReadNames()
      modifies this`name, this`argumentNames, this`localNames
      ensures name == NameOf(scriptNames, record.nameID)
      ensures argumentNames == old(argumentNames) + NamesOf(scriptNames, argumentNameIDs)
      ensures localNames == old(localNames) + NamesOf(scriptNames, localNameIDs)
    {
      name := NameOf(scriptNames, record.nameID);
      for k := 0 to |argumentNameIDs|
        invariant argumentNames == old(argumentNames) + NamesOf(scriptNames, argumentNameIDs[..k])
        invariant localNames == old(localNames) && name == NameOf(scriptNames, record.nameID)
      {
        argumentNames := argumentNames + [NameOf(scriptNames, argumentNameIDs[k])];
        assert argumentNameIDs[..k + 1] == argumentNameIDs[..k] + [argumentNameIDs[k]];
      }
      assert argumentNameIDs[..|argumentNameIDs|] == argumentNameIDs;
      for k := 0 to |localNameIDs|
        invariant localNames == old(localNames) + NamesOf(scriptNames, localNameIDs[..k])
        invariant argumentNames == old(argumentNames) + NamesOf(scriptNames, argumentNameIDs)
        invariant name == NameOf(scriptNames, record.nameID)
      {
        localNames := localNames + [NameOf(scriptNames, localNameIDs[k])];
        assert localNameIDs[..k + 1] == localNameIDs[..k] + [localNameIDs[k]];
      }
      assert localNameIDs[..|localNameIDs|] == localNameIDs;
    }

    // -------------------------------------------------------------------
    // Names.

    /** `getArgumentName`: the argument's name, or `UNKNOWN_ARG_` and the index. */
    function GetArgumentName(id: int): (r: string)
      reads this`argumentNames
      ensures -1 < id < |argumentNames| ==> r == argumentNames[id]
      ensures !(-1 < id < |argumentNames|) ==> r == "UNKNOWN_ARG_" + IntToString(id)
    {
      NameOr(argumentNames, id, "UNKNOWN_ARG_")
    }

    /** `getLocalName`: the local's name, or `UNKNOWN_LOCAL_` and the index. */
    function GetLocalName(id: int): (r: string)
      reads this`localNames
      ensures -1 < id < |localNames| ==> r == localNames[id]
      ensures !(-1 < id < |localNames|) ==> r == "UNKNOWN_LOCAL_" + IntToString(id)
    {
      NameOr(localNames, id, "UNKNOWN_LOCAL_")
    }

    /** `getGlobalName`: the global's name, or `UNKNOWN_GLOBAL_` and the index. */
    function GetGlobalName(id: int): (r: string)
      reads this`globalNames
      ensures -1 < id < |globalNames| ==> r == globalNames[id]
      ensures !(-1 < id < |globalNames|) ==> r == "UNKNOWN_GLOBAL_" + IntToString(id)
    {
      NameOr(globalNames, id, "UNKNOWN_GLOBAL_")
    }

    /** `variableMultiplier` of this handler's file. */
    function Multiplier(): (r: nat)
      ensures r > 0
    {
      VariableMultiplier(capitalX, version)
    }

    /** `registerGlobal`: the name becomes one of the handler's globals unless already declared. */
    method RegisterGlobal(name: string)
      modifies this`globalNames
      ensures globalNames == WithGlobal(scriptGlobalNames, old(globalNames), name)
    {
      if name !in scriptGlobalNames && name !in globalNames {
        globalNames := globalNames + [name];
      }
    }

    // -------------------------------------------------------------------
    // The value stack.

    /** `peek`: the top value, or an error node on an empty stack. */
    method Peek() returns (r: Node)
      ensures |stack| > 0 ==> r == stack[|stack| - 1]
      ensures |stack| == 0 ==> r == ErrorNode
    {
      if |stack| == 0 {
        r := ErrorNode;
      } else {
        r := stack[|stack| - 1];
      }
    }

    /** `pop`: the top value, removed; an error node, and the stack left empty, when there is none. */
    method Pop() returns (r: Node)
      modifies this`stack
      requires StackHoldsExpressions()
      ensures StackHoldsExpressions()
      ensures |old(stack)| > 0 ==> r == old(stack)[|old(stack)| - 1] && stack == old(stack)[..|old(stack)| - 1]
      ensures |old(stack)| == 0 ==> r == ErrorNode && stack == []
      ensures r == Top(old(stack)) && stack == Drop(old(stack))
    {
      if |stack| == 0 {
        r := ErrorNode;
      } else {
        r := stack[|stack| - 1];
        stack := stack[..|stack| - 1];
      }
    }

    /** The pop after `k` pops from `s0`: the value `k` below the old top. */
    method PopNext(ghost s0: seq<Node>, ghost k: nat) returns (r: Node)
      requires stack == s0[..|s0| - Min(k, |s0|)]
      modifies this`stack
      requires StackHoldsExpressions()
      ensures StackHoldsExpressions()
      ensures r == (if k < |s0| then s0[|s0| - 1 - k] else ErrorNode)
      ensures stack == s0[..|s0| - Min(k + 1, |s0|)]
    {
      r := Pop();
    }

    /** Four pops after `k` pops from `s0`: the values `k` to `k + 3` below the old top. */
    method PopFour(ghost s0: seq<Node>, ghost k: nat) returns (a: Node, b: Node, c: Node, d: Node)
      requires stack == s0[..|s0| - Min(k, |s0|)]
      modifies this`stack
      requires StackHoldsExpressions()
      ensures StackHoldsExpressions()
      ensures a == (if k < |s0| then s0[|s0| - 1 - k] else ErrorNode)
      ensures b == (if k + 1 < |s0| then s0[|s0| - 2 - k] else ErrorNode)
      ensures c == (if k + 2 < |s0| then s0[|s0| - 3 - k] else ErrorNode)
      ensures d == (if k + 3 < |s0| then s0[|s0| - 4 - k] else ErrorNode)
      ensures stack == s0[..|s0| - Min(k + 4, |s0|)]
    {
      a := PopNext(s0, k);
      b := PopNext(s0, k + 1);
      c := PopNext(s0, k + 2);
      d := PopNext(s0, k + 3);
    }

    /** The eight bounds `readChunkRef` pops, last line first. */
    method PopBounds() returns (lastLine: Node, firstLine: Node, lastItem: Node, firstItem: Node,
                                lastWord: Node, firstWord: Node, lastChar: Node, firstChar: Node)
      modifies this`stack
      requires StackHoldsExpressions()
      ensures StackHoldsExpressions()
      ensures var v := TopValues(old(stack), 8);
        && lastLine == v[0] && firstLine == v[1] && lastItem == v[2] && firstItem == v[3]
        && lastWord == v[4] && firstWord == v[5] && lastChar == v[6] && firstChar == v[7]
      ensures stack == old(stack)[..|old(stack)| - Min(8, |old(stack)|)]
    {
      ghost var s0 := stack;
      lastLine, firstLine, lastItem, firstItem := PopFour(s0, 0);
      lastWord, firstWord, lastChar, firstChar := PopFour(s0, 4);
    }

    /** `readChunkRef`: eight bounds popped, last line first, and the first kind whose first bound is set. */
    method ReadChunkRef(str: Node) returns (t: Node)
      modifies this`stack
      requires StackHoldsExpressions()
      ensures StackHoldsExpressions()
      ensures t == ChunkRefFrom(str, old(stack)).0 && stack == ChunkRefFrom(str, old(stack)).1
    {
      var lastLine, firstLine, lastItem, firstItem, lastWord, firstWord, lastChar, firstChar := PopBounds();
      if !IsZeroLiteral(firstChar) {
        t := ChunkExprNode(ChunkChar, firstChar, lastChar, str);
      } else if !IsZeroLiteral(firstWord) {
        t := ChunkExprNode(ChunkWord, firstWord, lastWord, str);
      } else if !IsZeroLiteral(firstItem) {
        t := ChunkExprNode(ChunkItem, firstItem, lastItem, str);
      } else if !IsZeroLiteral(firstLine) {
        t := ChunkExprNode(ChunkLine, firstLine, lastLine, str);
      } else {
        t := CommentNode("ERROR: Unknown chunk expression type");
      }
    }

    /** How many values `readVar` pops: the cast too for a field from version 500. */
    function VarPops(varType: int): (r: nat)
      ensures r == (if varType == 6 && version >= 500 then 2 else 1)
    {
      if varType == 6 && version >= 500 then 2 else 1
    }

    /**
     * `readVar` on a stack: the variable of kind `varType` (1 to 3 the
     * popped reference itself, 4 an argument and 5 a local by their stored
     * index, 6 a field with its cast from version 500), an error node for
     * any other kind, and the stack without what it popped.
     */
    function VarFrom(varType: int, s: seq<Node>): (r: (Node, seq<Node>))
      reads this`argumentNames, this`localNames
      ensures r.1 == s[..|s| - Min(VarPops(varType), |s|)]
      ensures r.0 == ErrorNode <==> !(1 <= varType <= 6) || (varType <= 3 && Top(s) == ErrorNode)
      ensures 4 <= varType <= 5 ==> r.0.LiteralNode? && r.0.value.datumType == DatumVarRef
      ensures varType == 4 ==> r.0.value.s == GetArgumentName(QuotTowardZero(GetValue(Top(s)).i, Multiplier()))
      ensures varType == 5 ==> r.0.value.s == GetLocalName(QuotTowardZero(GetValue(Top(s)).i, Multiplier()))
      ensures varType == 6 ==> r.0.MemberExprNode? && r.0.memberType == "field" && (r.0.castID.Some? <==> version >= 500)
    {
      var hasCast := varType == 6 && version >= 500;
      var castID := if hasCast then Some(Top(s)) else None;
      var s1 := if hasCast then Drop(s) else s;
      var id := Top(s1);
      var node :=
        if 1 <= varType <= 3 then id
        else if varType == 4 then LiteralNode(TextDatum(DatumVarRef, GetArgumentName(QuotTowardZero(GetValue(id).i, Multiplier()))))
        else if varType == 5 then LiteralNode(TextDatum(DatumVarRef, GetLocalName(QuotTowardZero(GetValue(id).i, Multiplier()))))
        else if varType == 6 then MemberExprNode("field", id, castID)
        else ErrorNode;
      (node, Drop(s1))
    }

    /** `readVar`. */
    method ReadVar(varType: int) returns (t: Node)
      modifies this`stack
      requires StackHoldsExpressions()
      ensures StackHoldsExpressions()
      ensures t == VarFrom(varType, old(stack)).0 && stack == VarFrom(varType, old(stack)).1
    {
      var castID: Option<Node> := None;
      if varType == 6 && version >= 500 {
        var c := Pop();
        castID := Some(c);
      }
      var id := Pop();
      if 1 <= varType <= 3 {
        t := id;
      } else if varType == 4 {
        var name := GetArgumentName(QuotTowardZero(GetValue(id).i, Multiplier()));
        t := LiteralNode(TextDatum(DatumVarRef, name));
      } else if varType == 5 {
        var name := GetLocalName(QuotTowardZero(GetValue(id).i, Multiplier()));
        t := LiteralNode(TextDatum(DatumVarRef, name));
      } else if varType == 6 {
        t := MemberExprNode("field", id, castID);
      } else {
        t := ErrorNode;
      }
    }

    /**
     * A member reference read off the stack, as `hilitechunk`, `getfield`
     * and the member properties read it: the member id, and below it from
     * version 500 a cast id popped first.
     */
    function MemberRefFrom(prefix: string, s: seq<Node>): (r: (Node, seq<Node>))
      ensures r.0.MemberExprNode? && r.0.memberType == prefix && (r.0.castID.Some? <==> version >= 500)
      ensures version >= 500 ==> r.0.castID == Some(Top(s)) && r.0.memberID == Top(Drop(s))
      ensures version < 500 ==> r.0.memberID == Top(s)
      ensures r.1 == s[..|s| - Min(if version >= 500 then 2 else 1, |s|)]
    {
      if version >= 500 then (MemberExprNode(prefix, Top(Drop(s)), Some(Top(s))), Drop(Drop(s)))
      else (MemberExprNode(prefix, Top(s), None), Drop(s))
    }

    /** The member reference of `hilitechunk` and `getfield`, popped. */
    method ReadMember(prefix: string) returns (t: Node)
      modifies this`stack
      requires StackHoldsExpressions()
      ensures StackHoldsExpressions()
      ensures t == MemberRefFrom(prefix, old(stack)).0 && stack == MemberRefFrom(prefix, old(stack)).1
    {
      var castID: Option<Node> := None;
      if version >= 500 {
        var c := Pop();
        castID := Some(c);
      }
      var memberID := Pop();
      t := MemberExprNode(prefix, memberID, castID);
    }

    /** How many values `readV4Property` pops for a property type and id. */
    function PropertyPops(propertyType: int, propertyID: int): (r: nat)
      ensures r <= 10
    {
      if propertyType == 0 then (if propertyID <= 0x0b then 0 else 1)
      else if propertyType == 1 || propertyType == 2 || propertyType == 4 || propertyType == 6 then 1
      else if propertyType == 3 then 2
      else if 9 <= propertyType <= 0x0d then
        (if version >= 500 then 2 else 1) + (if propertyType == 0x0a || propertyType == 0x0c then 8 else 0)
      else 0
    }

    /**
     * `readV4Property` on a stack: the property of the given type and id,
     * each kind's operands popped from the top, and for an unknown type an
     * error comment naming it, with nothing popped.
     */
    function PropertyFrom(propertyType: int, propertyID: int, s: seq<Node>): (r: (Node, seq<Node>))
      ensures r.1 == s[..|s| - Min(PropertyPops(propertyType, propertyID), |s|)]
      ensures r.0.CommentNode? <==> !(0 <= propertyType <= 0x0d && propertyType != 5)
      ensures r.0.CommentNode? ==> r.0.text == "ERROR: Unknown property type " + IntToString(propertyType)
      ensures 9 <= propertyType <= 0x0d ==> r.0.ThePropExprNode? && r.0.prop == TableName(tables.memberPropertyNames, propertyID)
      ensures 2 <= propertyType <= 6 && propertyType != 5 ==>
        && (r.0.MenuPropExprNode? || r.0.MenuItemPropExprNode? || r.0.SoundPropExprNode? || r.0.SpritePropExprNode?)
        && r.0.propID == U32(propertyID)
    {
      if propertyType == 0 then
        if propertyID <= 0x0b then (TheExprNode(TableName(tables.moviePropertyNames00, propertyID)), s)
        else (LastStringChunkExprNode(propertyID - 0x0b, Top(s)), Drop(s))
      else if propertyType == 1 then (StringChunkCountExprNode(propertyID, Top(s)), Drop(s))
      else if propertyType == 2 then (MenuPropExprNode(Top(s), U32(propertyID)), Drop(s))
      else if propertyType == 3 then (MenuItemPropExprNode(Top(s), Top(Drop(s)), U32(propertyID)), Drop(Drop(s)))
      else if propertyType == 4 then (SoundPropExprNode(Top(s), U32(propertyID)), Drop(s))
      else if propertyType == 6 then (SpritePropExprNode(Top(s), U32(propertyID)), Drop(s))
      else if propertyType == 7 then (TheExprNode(TableName(tables.moviePropertyNames07, propertyID)), s)
      else if propertyType == 8 then (TheExprNode(TableName(tables.moviePropertyNames08, propertyID)), s)
      else if 9 <= propertyType <= 0x0d then MemberPropertyFrom(propertyType, propertyID, s)
      else (CommentNode("ERROR: Unknown property type " + IntToString(propertyType)), s)
    }

    /**
     * The member properties of `readV4Property` (types 9 to 0x0d): of a
     * field for 0x0b and 0x0c, else of a member (a cast before version 500),
     * and of a chunk of it for 0x0a and 0x0c.
     */
    function MemberPropertyFrom(propertyType: int, propertyID: int, s: seq<Node>): (r: (Node, seq<Node>))
      requires 9 <= propertyType <= 0x0d
      ensures r.1 == s[..|s| - Min(PropertyPops(propertyType, propertyID), |s|)]
      ensures r.0.ThePropExprNode? && r.0.prop == TableName(tables.memberPropertyNames, propertyID)
      ensures propertyType == 0x0a || propertyType == 0x0c ==> r.0.obj.CommentNode? || r.0.obj.ChunkExprNode?
      ensures !(propertyType == 0x0a || propertyType == 0x0c) ==>
        && r.0.obj.MemberExprNode?
        && r.0.obj.memberType == (if propertyType == 0x0b then "field" else if version >= 500 then "member" else "cast")
    {
      var prefix := if propertyType == 0x0b || propertyType == 0x0c then "field" else if version >= 500 then "member" else "cast";
      var m := MemberRefFrom(prefix, s);
      var e := if propertyType == 0x0a || propertyType == 0x0c then ChunkRefFrom(m.0, m.1) else m;
      (ThePropExprNode(e.0, TableName(tables.memberPropertyNames, propertyID)), e.1)
    }

    /** `readV4Property`. */
    method ReadV4Property(propertyType: int, propertyID: int) returns (t: Node)
      modifies this`stack
      requires StackHoldsExpressions()
      ensures StackHoldsExpressions()
      ensures t == PropertyFrom(propertyType, propertyID, old(stack)).0 && stack == PropertyFrom(propertyType, propertyID, old(stack)).1
    {
      if propertyType == 0 {
        if propertyID <= 0x0b {
          t := TheExprNode(TableName(tables.moviePropertyNames00, propertyID));
        } else {
          var str := Pop();
          t := LastStringChunkExprNode(propertyID - 0x0b, str);
        }
      } else if propertyType == 1 {
        var str := Pop();
        t := StringChunkCountExprNode(propertyID, str);
      } else if propertyType == 2 {
        var menuID := Pop();
        t := MenuPropExprNode(menuID, U32(propertyID));
      } else if propertyType == 3 {
        var menuID := Pop();
        var itemID := Pop();
        t := MenuItemPropExprNode(menuID, itemID, U32(propertyID));
      } else if propertyType == 4 {
        var soundID := Pop();
        t := SoundPropExprNode(soundID, U32(propertyID));
      } else if propertyType == 6 {
        var spriteID := Pop();
        t := SpritePropExprNode(spriteID, U32(propertyID));
      } else if propertyType == 7 {
        t := TheExprNode(TableName(tables.moviePropertyNames07, propertyID));
      } else if propertyType == 8 {
        t := TheExprNode(TableName(tables.moviePropertyNames08, propertyID));
      } else if 9 <= propertyType <= 0x0d {
        var propName := TableName(tables.memberPropertyNames, propertyID);
        var prefix := if propertyType == 0x0b || propertyType == 0x0c then "field" else if version >= 500 then "member" else "cast";
        var member := ReadMember(prefix);
        var entity := member;
        if propertyType == 0x0a || propertyType == 0x0c {
          entity := ReadChunkRef(member);
        }
        t := ThePropExprNode(entity, propName);
      } else {
        t := CommentNode("ERROR: Unknown property type " + IntToString(propertyType));
      }
    }

    /** `getVarNameFromSet`: the variable a setter assigns, registering a global one; "ERROR" for any other instruction. */
    method GetVarNameFromSet(b: Bytecode) returns (varName: string)
      modifies this`globalNames
      ensures varName == SetVarName(b)
      ensures b.opcode == OpSetGlobal || b.opcode == OpSetGlobal2 ==> globalNames == WithGlobal(scriptGlobalNames, old(globalNames), varName)
      ensures !(b.opcode == OpSetGlobal || b.opcode == OpSetGlobal2) ==> globalNames == old(globalNames)
    {
      if b.opcode == OpSetGlobal || b.opcode == OpSetGlobal2 {
        varName := NameOf(scriptNames, b.obj);
        RegisterGlobal(varName);
      } else if b.opcode == OpSetProp {
        varName := NameOf(scriptNames, b.obj);
      } else if b.opcode == OpSetParam {
        varName := GetArgumentName(QuotTowardZero(b.obj, Multiplier()));
      } else if b.opcode == OpSetLocal {
        varName := GetLocalName(QuotTowardZero(b.obj, Multiplier()));
      } else {
        varName := "ERROR";
      }
    }

    /** The name a setter assigns: a name-table entry, an argument or a local by its stored index, "ERROR" otherwise. */
    function SetVarName(b: Bytecode): (r: string)
      reads this`argumentNames, this`localNames
      ensures IsSetOp(b.opcode) || b.opcode == OpSetGlobal2 || r == "ERROR"
    {
      if b.opcode == OpSetGlobal || b.opcode == OpSetGlobal2 || b.opcode == OpSetProp then NameOf(scriptNames, b.obj)
      else if b.opcode == OpSetParam then GetArgumentName(QuotTowardZero(b.obj, Multiplier()))
      else if b.opcode == OpSetLocal then GetLocalName(QuotTowardZero(b.obj, Multiplier()))
      else "ERROR"
    }

    // -------------------------------------------------------------------
    // Loop tagging (`tagLoops`).

    /** `tagLoops`: each instruction in turn, as a possible loop opener. */
    method TagLoops()
      requires PosMapInRange(bytecodePosMap, |bytecodeArray|)
      modifies this`bytecodeArray
      ensures bytecodeArray == TaggedUpTo(old(bytecodeArray), bytecodePosMap, scriptNames, |old(bytecodeArray)|)
    {
      ghost var code := bytecodeArray;
      var startIndex := 0;
      while startIndex < |bytecodeArray|
        invariant startIndex <= |code| == |bytecodeArray|
        invariant bytecodeArray == TaggedUpTo(code, bytecodePosMap, scriptNames, startIndex)
      {
        TagLoopAt(startIndex);
        startIndex := startIndex + 1;
      }
    }

    /** One pass of `tagLoops`, with the end of the loop found as `LoopEnd` finds it. */
    method TagLoopAt(startIndex: nat)
      requires startIndex < |bytecodeArray| && PosMapInRange(bytecodePosMap, |bytecodeArray|)
      modifies this`bytecodeArray
      ensures bytecodeArray == TagStep(old(bytecodeArray), bytecodePosMap, scriptNames, startIndex)
    {
      ghost var code := bytecodeArray;
      var jmpifz := bytecodeArray[startIndex];
      if jmpifz.opcode != OpJmpIfZ {
        return;
      }
      var endIndex := IndexAt(bytecodePosMap, U32(jmpifz.pos + jmpifz.obj));
      if endIndex == 0 || bytecodeArray[endIndex - 1].opcode != OpEndRepeat {
        return;
      }
      TagClosedLoop(startIndex, endIndex);
    }

    /** The tags of the loop the `jmpifz` at `startIndex` closes at `endIndex`: its kind on the jump, then the kind's own. */
    method TagClosedLoop(startIndex: nat, endIndex: nat)
      requires startIndex < |bytecodeArray| && PosMapInRange(bytecodePosMap, |bytecodeArray|)
      requires LoopEnd(bytecodeArray, bytecodePosMap, startIndex) == Some(endIndex)
      modifies this`bytecodeArray
      ensures bytecodeArray == TagStep(old(bytecodeArray), bytecodePosMap, scriptNames, startIndex)
    {
      ghost var code := bytecodeArray;
      var loopType := IdentifyLoop(bytecodeArray, bytecodePosMap, scriptNames, startIndex, endIndex);
      bytecodeArray := bytecodeArray[startIndex := bytecodeArray[startIndex].(tag := loopType)];
      if loopType.TagRepeatWithIn? {
        TagWithInAt(startIndex, endIndex);
      } else if loopType.TagRepeatWithTo? || loopType.TagRepeatWithDownTo? {
        assert ConditionStart(bytecodeArray, bytecodePosMap, endIndex) == ConditionStart(code, bytecodePosMap, endIndex);
        TagWithToAt(startIndex, endIndex);
      } else {
        bytecodeArray := bytecodeArray[endIndex - 1 := bytecodeArray[endIndex - 1].(tag := TagNextRepeatTarget, ownerLoop := startIndex)];
      }
    }

    /** Instructions `lo` to `hi` tagged skip, one at a time. */
    method SkipLoopRange(lo: nat, hi: nat)
      requires lo <= hi < |bytecodeArray|
      modifies this`bytecodeArray
      ensures bytecodeArray == SkipRange(old(bytecodeArray), lo, hi)
    {
      ghost var code := bytecodeArray;
      var i := lo;
      while i <= hi
        invariant lo <= i <= hi + 1 && |bytecodeArray| == |code|
        invariant bytecodeArray == SkipRange(code, lo, i - 1)
      {
        bytecodeArray := bytecodeArray[i := bytecodeArray[i].(tag := TagSkip)];
        i := i + 1;
      }
    }

    /** The tags of a `repeat with ... in` loop, in the order `tagLoops` sets them. */
    method TagWithInAt(startIndex: nat, endIndex: nat)
      requires 7 <= startIndex && startIndex + 5 < |bytecodeArray| && 3 <= endIndex < |bytecodeArray|
      modifies this`bytecodeArray
      ensures bytecodeArray == TagWithIn(old(bytecodeArray), startIndex, endIndex)
    {
      SkipLoopRange(startIndex - 7, startIndex - 1);
      SkipLoopRange(startIndex + 1, startIndex + 5);
      TagWithInEndAt(startIndex, endIndex);
    }

    /** The end of a `repeat with ... in` loop: its step where `next repeat` goes, the rest and the closing `pop 3` skipped. */
    method TagWithInEndAt(startIndex: nat, endIndex: nat)
      requires 3 <= endIndex < |bytecodeArray|
      modifies this`bytecodeArray
      ensures bytecodeArray == SetTag(SetOwned(SetTag(SetOwned(old(bytecodeArray), endIndex - 3, TagNextRepeatTarget, startIndex),
        endIndex - 2, TagSkip), endIndex - 1, TagSkip, startIndex), endIndex, TagSkip)
    {
      bytecodeArray := bytecodeArray[endIndex - 3 := bytecodeArray[endIndex - 3].(tag := TagNextRepeatTarget, ownerLoop := startIndex)];
      bytecodeArray := bytecodeArray[endIndex - 2 := bytecodeArray[endIndex - 2].(tag := TagSkip)];
      bytecodeArray := bytecodeArray[endIndex - 1 := bytecodeArray[endIndex - 1].(tag := TagSkip, ownerLoop := startIndex)];
      bytecodeArray := bytecodeArray[endIndex := bytecodeArray[endIndex].(tag := TagSkip)];
    }

    /** The tags of a `repeat with ... to` loop, in the order `tagLoops` sets them. */
    method TagWithToAt(startIndex: nat, endIndex: nat)
      requires 1 <= startIndex < |bytecodeArray| && 5 <= endIndex < |bytecodeArray|
      requires PosMapInRange(bytecodePosMap, |bytecodeArray|) && 1 <= ConditionStart(bytecodeArray, bytecodePosMap, endIndex)
      modifies this`bytecodeArray
      ensures bytecodeArray == TagWithTo(old(bytecodeArray), startIndex, endIndex, ConditionStart(old(bytecodeArray), bytecodePosMap, endIndex))
    {
      var endRepeat := bytecodeArray[endIndex - 1];
      var conditionStartIndex := IndexAt(bytecodePosMap, U32(endRepeat.pos - endRepeat.obj));
      TagConditionAt(startIndex, conditionStartIndex);
      TagStepAt(startIndex, endIndex);
    }

    /** The setter and getter at the condition's start of a `repeat with ... to` loop, and its comparison, skipped. */
    method TagConditionAt(startIndex: nat, conditionStartIndex: nat)
      requires 1 <= startIndex < |bytecodeArray| && 1 <= conditionStartIndex < |bytecodeArray|
      modifies this`bytecodeArray
      ensures bytecodeArray == SetTag(SetTag(SetTag(old(bytecodeArray), conditionStartIndex - 1, TagSkip), conditionStartIndex, TagSkip), startIndex - 1, TagSkip)
    {
      bytecodeArray := bytecodeArray[conditionStartIndex - 1 := bytecodeArray[conditionStartIndex - 1].(tag := TagSkip)];
      bytecodeArray := bytecodeArray[conditionStartIndex := bytecodeArray[conditionStartIndex].(tag := TagSkip)];
      bytecodeArray := bytecodeArray[startIndex - 1 := bytecodeArray[startIndex - 1].(tag := TagSkip)];
    }

    /** The step of a `repeat with ... to` loop: its first instruction where `next repeat` goes, the rest and the `endrepeat` skipped. */
    method TagStepAt(startIndex: nat, endIndex: nat)
      requires 5 <= endIndex < |bytecodeArray|
      modifies this`bytecodeArray
      ensures bytecodeArray == SetOwned(SetTag(SetTag(SetTag(SetOwned(old(bytecodeArray), endIndex - 5, TagNextRepeatTarget, startIndex),
        endIndex - 4, TagSkip), endIndex - 3, TagSkip), endIndex - 2, TagSkip), endIndex - 1, TagSkip, startIndex)
    {
      bytecodeArray := bytecodeArray[endIndex - 5 := bytecodeArray[endIndex - 5].(tag := TagNextRepeatTarget, ownerLoop := startIndex)];
      bytecodeArray := bytecodeArray[endIndex - 4 := bytecodeArray[endIndex - 4].(tag := TagSkip)];
      bytecodeArray := bytecodeArray[endIndex - 3 := bytecodeArray[endIndex - 3].(tag := TagSkip)];
      bytecodeArray := bytecodeArray[endIndex - 2 := bytecodeArray[endIndex - 2].(tag := TagSkip)];
      bytecodeArray := bytecodeArray[endIndex - 1 := bytecodeArray[endIndex - 1].(tag := TagSkip, ownerLoop := startIndex)];
    }

    // -------------------------------------------------------------------
    // Translation (`translateBytecode`).

    /** The translations of the stack and literal opcodes. */
    method TranslateStackOp(b: Bytecode) returns (t: Node)
      requires IsStackOp(b.opcode)
      modifies this`stack
      requires StackHoldsExpressions()
      ensures StackHoldsExpressions()
      ensures var s := old(stack); var op := b.opcode;
        && (op == OpPushZero ==> t == LiteralNode(IntDatum(0)) && stack == s)
        && (IsBinaryOp(op) ==> t == BinaryOpNode(op, Top(Drop(s)), Top(s)) && stack == Drop(Drop(s)))
        && (op == OpInv ==> t == InverseOpNode(Top(s)) && stack == Drop(s))
        && (op == OpNot ==> t == NotOpNode(Top(s)) && stack == Drop(s))
        && (op == OpOntoSpr ==> t == SpriteIntersectsExprNode(Top(s), Top(Drop(s))) && stack == Drop(Drop(s)))
        && (op == OpIntoSpr ==> t == SpriteWithinExprNode(Top(s), Top(Drop(s))) && stack == Drop(Drop(s)))
        && (op == OpPushList ==> t == Retyped(Top(s), DatumList) && stack == Drop(s))
        && (op == OpPushPropList ==> t == Retyped(Top(s), DatumPropList) && stack == Drop(s))
        && (op == OpPushInt8 || op == OpPushInt16 || op == OpPushInt32 ==> t == LiteralNode(IntDatum(b.obj)) && stack == s)
        && (op == OpPushFloat32 ==> t == LiteralNode(Datum(DatumFloat, 0, U32(b.obj), "", [])) && stack == s)
        && (op == OpPushCons ==>
              var id := QuotTowardZero(b.obj, Multiplier());
              stack == s && t == if -1 < id < |literals| then LiteralNode(literals[id]) else ErrorNode)
        && (op == OpPushSymb ==> t == LiteralNode(TextDatum(DatumSymbol, NameOf(scriptNames, b.obj))) && stack == s)
        && (op == OpPushVarRef ==> t == LiteralNode(TextDatum(DatumVarRef, NameOf(scriptNames, b.obj))) && stack == s)
    {
      var op := b.opcode;
      if op == OpPushZero {
        t := LiteralNode(IntDatum(0));
      } else if IsBinaryOp(op) {
        var right := Pop();
        var left := Pop();
        t := BinaryOpNode(op, left, right);
      } else if op == OpInv {
        var x := Pop();
        t := InverseOpNode(x);
      } else if op == OpNot {
        var x := Pop();
        t := NotOpNode(x);
      } else if op == OpOntoSpr || op == OpIntoSpr {
        var firstSprite := Pop();
        var secondSprite := Pop();
        t := if op == OpOntoSpr then SpriteIntersectsExprNode(firstSprite, secondSprite)
             else SpriteWithinExprNode(firstSprite, secondSprite);
      } else if op == OpPushList || op == OpPushPropList {
        var list := Pop();
        t := Retyped(list, if op == OpPushList then DatumList else DatumPropList);
      } else if op == OpPushInt8 || op == OpPushInt16 || op == OpPushInt32 {
        t := LiteralNode(IntDatum(b.obj));
      } else if op == OpPushFloat32 {
        t := LiteralNode(Datum(DatumFloat, 0, U32(b.obj), "", []));
      } else if op == OpPushCons {
        var literalID := QuotTowardZero(b.obj, Multiplier());
        if -1 < literalID < |literals| {
          t := LiteralNode(literals[literalID]);
        } else {
          t := ErrorNode;
        }
      } else if op == OpPushSymb {
        t := LiteralNode(TextDatum(DatumSymbol, NameOf(scriptNames, b.obj)));
      } else {
        t := LiteralNode(TextDatum(DatumVarRef, NameOf(scriptNames, b.obj)));
      }
    }

    /** The translations of the opcodes that name a variable, a property or a call. */
    method TranslateNamedOp(b: Bytecode) returns (t: Node)
      requires IsNamedOp(b.opcode)
      modifies this`stack, this`globalNames
      requires StackHoldsExpressions()
      ensures StackHoldsExpressions()
      ensures var s := old(stack); var op := b.opcode; var n := NameOf(scriptNames, b.obj);
        var arg := GetArgumentName(QuotTowardZero(b.obj, Multiplier()));
        var local := GetLocalName(QuotTowardZero(b.obj, Multiplier()));
        && (op == OpGetGlobal || op == OpGetGlobal2 || op == OpGetProp || op == OpGetTopLevelProp ==> t == VarNode(n) && stack == s)
        && (op == OpGetParam ==> t == VarNode(arg) && stack == s)
        && (op == OpGetLocal ==> t == VarNode(local) && stack == s)
        && (op == OpSetGlobal || op == OpSetGlobal2 || op == OpSetProp ==> t == AssignmentStmtNode(VarNode(n), Top(s), false) && stack == Drop(s))
        && (op == OpSetParam ==> t == AssignmentStmtNode(VarNode(arg), Top(s), false) && stack == Drop(s))
        && (op == OpSetLocal ==> t == AssignmentStmtNode(VarNode(local), Top(s), false) && stack == Drop(s))
        && (op == OpExtCall || op == OpTellCall ==> t == CallNode(n, Top(s)) && stack == Drop(s))
        && (op == OpGetMovieProp ==> t == TheExprNode(n) && stack == s)
        && (op == OpSetMovieProp ==> t == AssignmentStmtNode(TheExprNode(n), Top(s), false) && stack == Drop(s))
        && (op == OpGetObjProp || op == OpGetChainedProp ==> t == ObjPropExprNode(Top(s), n) && stack == Drop(s))
        && (op == OpSetObjProp ==> t == AssignmentStmtNode(ObjPropExprNode(Top(Drop(s)), n), Top(s), false) && stack == Drop(Drop(s)))
        && (op == OpTheBuiltin ==> t == TheExprNode(n) && stack == Drop(s))
        && (op == OpObjCall ==> t == ObjCallTranslation(n, Top(s)) && stack == Drop(s))
      ensures IsGlobalAccess(b.opcode) ==> globalNames == WithGlobal(scriptGlobalNames, old(globalNames), NameOf(scriptNames, b.obj))
      ensures !IsGlobalAccess(b.opcode) ==> globalNames == old(globalNames)
    {
      var op := b.opcode;
      var n := NameOf(scriptNames, b.obj);
      if op == OpGetGlobal || op == OpGetGlobal2 {
        RegisterGlobal(n);
        t := VarNode(n);
      } else if op == OpGetProp || op == OpGetTopLevelProp {
        t := VarNode(n);
      } else if op == OpGetParam {
        t := VarNode(GetArgumentName(QuotTowardZero(b.obj, Multiplier())));
      } else if op == OpGetLocal {
        t := VarNode(GetLocalName(QuotTowardZero(b.obj, Multiplier())));
      } else if op == OpSetGlobal || op == OpSetGlobal2 || op == OpSetProp || op == OpSetParam || op == OpSetLocal {
        var varName := GetVarNameFromSet(b);
        var value := Pop();
        t := AssignmentStmtNode(VarNode(varName), value, false);
      } else if op == OpExtCall || op == OpTellCall {
        var argList := Pop();
        t := CallNode(n, argList);
      } else if op == OpGetMovieProp {
        t := TheExprNode(n);
      } else if op == OpSetMovieProp {
        var value := Pop();
        t := AssignmentStmtNode(TheExprNode(n), value, false);
      } else if op == OpGetObjProp || op == OpGetChainedProp {
        var obj := Pop();
        t := ObjPropExprNode(obj, n);
      } else if op == OpSetObjProp {
        var value := Pop();
        var obj := Pop();
        t := AssignmentStmtNode(ObjPropExprNode(obj, n), value, false);
      } else if op == OpTheBuiltin {
        var _ := Pop();
        t := TheExprNode(n);
      } else {
        var argList := Pop();
        t := ObjCallTranslation(n, argList);
      }
    }

    /** The translations of the opcodes that read a chunk reference. */
    method TranslateChunkOp(b: Bytecode) returns (t: Node)
      requires IsChunkOp(b.opcode)
      modifies this`stack
      requires StackHoldsExpressions()
      ensures StackHoldsExpressions()
      ensures var s := old(stack); var op := b.opcode;
        && (op == OpGetChunk ==> t == ChunkRefFrom(Top(s), Drop(s)).0 && stack == ChunkRefFrom(Top(s), Drop(s)).1)
        && (op == OpHiliteChunk ==>
              var m := MemberRefFrom("field", s); var c := ChunkRefFrom(m.0, m.1);
              stack == c.1 && t == (if c.0.CommentNode? then c.0 else ChunkHiliteStmtNode(c.0)))
        && (op == OpPutChunk ==>
              var v := VarFrom(VarTypeOf(b.obj), s); var c := ChunkRefFrom(v.0, v.1);
              stack == Drop(c.1) && t == (if c.0.CommentNode? then c.0 else PutStmtNode(PutTypeOf(b.obj), c.0, Top(c.1))))
        && (op == OpDeleteChunk ==>
              var v := VarFrom(b.obj, s); var c := ChunkRefFrom(v.0, v.1);
              stack == c.1 && t == (if c.0.CommentNode? then c.0 else ChunkDeleteStmtNode(c.0)))
    {
      var op := b.opcode;
      if op == OpGetChunk {
        var str := Pop();
        t := ReadChunkRef(str);
      } else if op == OpHiliteChunk {
        t := HiliteChunk();
      } else if op == OpPutChunk {
        t := PutChunk(b.obj);
      } else {
        t := DeleteChunk(b.obj);
      }
    }

    /** `hiliteChunk`: a chunk of the popped field, highlighted. */
    method HiliteChunk() returns (t: Node)
      modifies this`stack
      requires StackHoldsExpressions()
      ensures StackHoldsExpressions()
      ensures var m := MemberRefFrom("field", old(stack)); var c := ChunkRefFrom(m.0, m.1);
        stack == c.1 && t == (if c.0.CommentNode? then c.0 else ChunkHiliteStmtNode(c.0))
    {
      var field := ReadMember("field");
      var chunk := ReadChunkRef(field);
      t := if chunk.CommentNode? then chunk else ChunkHiliteStmtNode(chunk);
    }

    /** `putChunk`: the popped value put into, before or after a chunk of the variable the operand names. */
    method PutChunk(obj: int) returns (t: Node)
      modifies this`stack
      requires StackHoldsExpressions()
      ensures StackHoldsExpressions()
      ensures var v := VarFrom(VarTypeOf(obj), old(stack)); var c := ChunkRefFrom(v.0, v.1);
        stack == Drop(c.1) && t == (if c.0.CommentNode? then c.0 else PutStmtNode(PutTypeOf(obj), c.0, Top(c.1)))
    {
      ghost var v0 := VarFrom(VarTypeOf(obj), stack);
      var v := ReadVar(VarTypeOf(obj));
      ghost var c0 := ChunkRefFrom(v0.0, v0.1);
      var chunk := ReadChunkRef(v);
      assert chunk == c0.0 && stack == c0.1;
      var val := Pop();
      t := if chunk.CommentNode? then chunk else PutStmtNode(PutTypeOf(obj), chunk, val);
    }

    /** `deleteChunk`: a chunk of the variable of the operand's type, deleted. */
    method DeleteChunk(obj: int) returns (t: Node)
      modifies this`stack
      requires StackHoldsExpressions()
      ensures StackHoldsExpressions()
      ensures var v := VarFrom(obj, old(stack)); var c := ChunkRefFrom(v.0, v.1);
        stack == c.1 && t == (if c.0.CommentNode? then c.0 else ChunkDeleteStmtNode(c.0))
    {
      ghost var v0 := VarFrom(obj, stack);
      var v := ReadVar(obj);
      ghost var c0 := ChunkRefFrom(v0.0, v0.1);
      var chunk := ReadChunkRef(v);
      assert chunk == c0.0 && stack == c0.1;
      t := if chunk.CommentNode? then chunk else ChunkDeleteStmtNode(chunk);
    }

    /** The translations of the opcodes that read a variable reference, a field or a property of the older kind. */
    method TranslateReferenceOp(b: Bytecode) returns (t: Node)
      requires IsReferenceOp(b.opcode) && b.opcode != OpSet
      modifies this`stack
      requires StackHoldsExpressions()
      ensures StackHoldsExpressions()
      ensures var s := old(stack); var op := b.opcode;
        && (op == OpGetField ==> t == MemberRefFrom("field", s).0 && stack == MemberRefFrom("field", s).1)
        && (op == OpObjCallV4 ==>
              var v := VarFrom(b.obj, s);
              t == ObjCallV4Node(v.0, FirstArgAsVariable(Top(v.1))) && stack == Drop(v.1))
        && (op == OpPut ==>
              var v := VarFrom(VarTypeOf(b.obj), s);
              t == PutStmtNode(PutTypeOf(b.obj), v.0, Top(v.1)) && stack == Drop(v.1))
        && (op == OpPushChunkVarRef ==> t == VarFrom(b.obj, s).0 && stack == VarFrom(b.obj, s).1)
        && (op == OpGet ==>
              var p := PropertyFrom(b.obj, ToInt(GetValue(Top(s)), tables.floatToInt), Drop(s));
              t == p.0 && stack == p.1)
    {
      var op := b.opcode;
      if op == OpGetField {
        t := ReadMember("field");
      } else if op == OpObjCallV4 {
        var obj := ReadVar(b.obj);
        var argList := Pop();
        t := ObjCallV4Node(obj, FirstArgAsVariable(argList));
      } else if op == OpPut {
        var v := ReadVar(VarTypeOf(b.obj));
        var val := Pop();
        t := PutStmtNode(PutTypeOf(b.obj), v, val);
      } else if op == OpPushChunkVarRef {
        t := ReadVar(b.obj);
      } else {
        var id := Pop();
        t := ReadV4Property(b.obj, ToInt(GetValue(id), tables.floatToInt));
      }
    }

    /**
     * `set`: the property id popped, then the value; a string that reads
     * as a script, set as one of the first five properties of the older
     * kind, is a when statement, and anything else an assignment to the
     * property, or the property's error comment.
     */
    method TranslateSet(b: Bytecode) returns (t: Node)
      modifies this`stack
      requires StackHoldsExpressions()
      ensures StackHoldsExpressions()
      ensures var s := old(stack);
        var id := ToInt(GetValue(Top(s)), tables.floatToInt);
        var value := Top(Drop(s));
        if IsWhenSet(b.obj, id, value) then t == WhenStmtNode(id, GetValue(value).s) && stack == Drop(Drop(s))
        else
          var p := PropertyFrom(b.obj, id, Drop(Drop(s)));
          stack == p.1 && t == (if p.0.CommentNode? then p.0 else AssignmentStmtNode(p.0, value, true))
    {
      var id := Pop();
      var propertyID := ToInt(GetValue(id), tables.floatToInt);
      var value := Pop();
      if IsWhenSet(b.obj, propertyID, value) {
        t := WhenStmtNode(propertyID, GetValue(value).s);
      } else {
        var prop := ReadV4Property(b.obj, propertyID);
        t := if prop.CommentNode? then prop else AssignmentStmtNode(prop, value, true);
      }
    }

    /** The value stack holds only expressions: a statement is never pushed. */
    ghost predicate StackHoldsExpressions()
      reads this`stack
    {
      forall k :: 0 <= k < |stack| ==> IsExpression(stack[k])
    }

    /** `pushArgList`/`pushArgListNoRet`: the top `count` values, in the order they were pushed, as an argument list. */
    method PushArgList(b: Bytecode) returns (t: Node)
      requires b.opcode == OpPushArgList || b.opcode == OpPushArgListNoRet
      requires b.obj >= 0
      modifies this`stack
      requires StackHoldsExpressions()
      ensures StackHoldsExpressions()
      ensures t == LiteralNode(ListDatum(if b.opcode == OpPushArgList then DatumArgList else DatumArgListNoRet, ArgsOf(old(stack), b.obj)))
      ensures stack == DropN(old(stack), b.obj)
    {
      ghost var s0, n := stack, b.obj;
      var argCount := b.obj;
      var args: seq<Node> := [];
      while argCount != 0
        invariant 0 <= argCount <= n
        invariant stack == DropN(s0, n - argCount) && StackHoldsExpressions()
        invariant ArgsOf(stack, argCount) + args == ArgsOf(s0, n)
      {
        ArgPopStep(s0, n, argCount, stack, args);
        var arg := Pop();
        args := [arg] + args;
        argCount := argCount - 1;
      }
      t := LiteralNode(ListDatum(if b.opcode == OpPushArgList then DatumArgList else DatumArgListNoRet, args));
    }

    /** `swap`: the top two values change places; a shorter stack is left as it is. */
    method Swap()
      modifies this`stack
      requires StackHoldsExpressions()
      ensures StackHoldsExpressions()
      ensures var s := old(stack); |s| >= 2 ==> stack == s[..|s| - 2] + [s[|s| - 1], s[|s| - 2]]
      ensures |old(stack)| < 2 ==> stack == old(stack)
      ensures multiset(stack) == multiset(old(stack))
    {
      var n := |stack|;
      if n >= 2 {
        assert stack == stack[..n - 2] + [stack[n - 2], stack[n - 1]];
        stack := stack[..n - 2] + [stack[n - 1], stack[n - 2]];
      }
    }

    /** `pop`: `count` values dropped, none for a count that is not positive. */
    method PopN(count: int)
      modifies this`stack
      requires StackHoldsExpressions()
      ensures StackHoldsExpressions()
      ensures stack == DropN(old(stack), if count > 0 then count else 0)
    {
      var i := 0;
      while i < count
        invariant 0 <= i <= (if count > 0 then count else 0)
        invariant stack == DropN(old(stack), i) && StackHoldsExpressions()
      {
        DropNStep(old(stack), i);
        var _ := Pop();
        i := i + 1;
      }
    }

    /**
     * The end of `translateBytecode`: the translation is recorded for the
     * instruction; an expression is pushed, a statement added to the
     * current block; then the block a new statement opens becomes current.
     */
    method Emit(index: nat, t: Node, nextBlock: int) returns (outcome: Outcome)
      requires Valid() && -1 <= nextBlock < |blocks|
      modifies this`translations, this`stack, this`blocks, this`currentBlock
      requires StackHoldsExpressions()
      ensures StackHoldsExpressions()
      ensures Valid() && translations == old(translations)[index := t]
      ensures IsExpression(t) ==> outcome == Translated && stack == old(stack) + [t] && blocks == old(blocks)
      ensures !IsExpression(t) && old(currentBlock) < 0 ==>
        outcome == Undefined("a statement added to no block") && stack == old(stack) && blocks == old(blocks)
      ensures !IsExpression(t) && old(currentBlock) >= 0 ==>
        outcome == Translated && stack == old(stack) && blocks == WithChild(old(blocks), old(currentBlock), t)
      ensures currentBlock == if outcome.Translated? && nextBlock >= 0 then nextBlock else old(currentBlock)
    {
      translations := translations[index := t];
      outcome := Translated;
      if IsExpression(t) {
        stack := stack + [t];
      } else if currentBlock < 0 {
        outcome := Undefined("a statement added to no block");
        return;
      } else {
        WithChildKeepsTree(blocks, stmts, currentBlock, t, 0);
        blocks := WithChild(blocks, currentBlock, t);
      }
      if nextBlock >= 0 {
        currentBlock := nextBlock;
      }
    }

    /** `exitBlock`: the block the current block's statement was added to, none after the handler's block. */
    method ExitBlock() returns (outcome: Outcome)
      requires Valid()
      modifies this`currentBlock
      ensures Valid()
      ensures old(currentBlock) < 0 ==> outcome == Undefined("a block left with no current block") && currentBlock == old(currentBlock)
      ensures old(currentBlock) >= 0 ==> outcome == Translated && currentBlock == ExitTarget(blocks, stmts, old(currentBlock))
    {
      if currentBlock < 0 {
        return Undefined("a block left with no current block");
      }
      outcome := Translated;
      if currentBlock == 0 {
        currentBlock := -1;
      } else {
        currentBlock := stmts[OwnerOf(blocks, stmts, currentBlock)].parent;
      }
    }

    /**
     * The closing loop of `translate`: every block that ends at `pos` is
     * left, the first block of an if/else for its second block; reading
     * the end of a missing block is undefined.
     */
    method ExitFinishedBlocks(pos: nat) returns (outcome: Outcome)
      requires Valid()
      modifies this`currentBlock
      ensures Valid()
      ensures currentBlock == BlockAfterExits(blocks, stmts, old(currentBlock), pos)
      ensures outcome == if currentBlock < 0 then Undefined("the end of no current block read") else Translated
    {
      while currentBlock >= 0 && blocks[currentBlock].endPos == pos
        invariant Valid()
        invariant BlockAfterExits(blocks, stmts, currentBlock, pos) == BlockAfterExits(blocks, stmts, old(currentBlock), pos)
        decreases ExitMeasure(blocks, stmts, currentBlock)
      {
        var exitedBlock := currentBlock;
        LeaveBlockDecreases(blocks, stmts, exitedBlock);
        var _ := ExitBlock();
        if exitedBlock > 0 {
          var s := OwnerOf(blocks, stmts, exitedBlock);
          var k := stmts[s].kind;
          if k.IfStmt? && k.hasElse && k.block1 == exitedBlock {
            assert StmtWellFormed(blocks, stmts, s);
            currentBlock := k.block2;
          }
        }
        assert currentBlock == LeaveBlock(blocks, stmts, exitedBlock);
      }
      outcome := if currentBlock < 0 then Undefined("the end of no current block read") else Translated;
    }

    /**
     * `jmp`: at the end of an if's first block it gives the if an else
     * whose block ends at the jump's target, and is itself no statement;
     * otherwise, inside a loop, a jump to the loop's exit or its next
     * repeat, and an error comment when it is neither.
     */
    method TranslateJmp(index: nat) returns (outcome: Outcome)
      requires Valid() && index < |bytecodeArray| && bytecodeArray[index].opcode == OpJmp
      modifies this`translations, this`stack, this`blocks, this`stmts, this`currentBlock
      requires StackHoldsExpressions()
      ensures StackHoldsExpressions()
      ensures Valid() && stack == old(stack) && currentBlock == old(currentBlock)
      ensures forall k :: k in translations ==> k in old(translations) || k == index
      ensures var cur := old(currentBlock); cur < 0 || index + 1 == |bytecodeArray| ==>
        outcome.Undefined? && blocks == old(blocks) && stmts == old(stmts) && translations == old(translations)
      ensures var cur := old(currentBlock); var code := bytecodeArray; var b := code[index];
        cur >= 0 && index + 1 < |code| && ClosesIfBlock(old(blocks), old(stmts), cur, code[index + 1].pos) ==>
          && outcome == Translated && translations == old(translations)
          && (blocks, stmts) == WithElse(old(blocks), old(stmts), OwnerOf(old(blocks), old(stmts), cur), U32(b.pos + b.obj))
      ensures var cur := old(currentBlock); var code := bytecodeArray; var b := code[index];
        cur >= 0 && index + 1 < |code| && !ClosesIfBlock(old(blocks), old(stmts), cur, code[index + 1].pos) ==>
          var loop := AncestorLoop(old(blocks), old(stmts), cur);
          var targetIndex := IndexAt(bytecodePosMap, U32(b.pos + b.obj));
          && stmts == old(stmts)
          && (loop.Some? && targetIndex == 0 ==> outcome.Undefined? && blocks == old(blocks) && translations == old(translations))
          && (!(loop.Some? && targetIndex == 0) ==>
                var t := JumpTranslation(code, targetIndex, loop);
                outcome == Translated && translations == old(translations)[index := t] && blocks == WithChild(old(blocks), cur, t))
    {
      var b := bytecodeArray[index];
      var targetPos := U32(b.pos + b.obj);
      var targetIndex := IndexAt(bytecodePosMap, targetPos);
      if currentBlock < 0 || index + 1 == |bytecodeArray| {
        return Undefined("a jump read past the code or with no current block");
      }
      var nextBytecode := bytecodeArray[index + 1];
      if currentBlock > 0 && nextBytecode.pos == blocks[currentBlock].endPos {
        var s := OwnerOf(blocks, stmts, currentBlock);
        if stmts[s].kind.IfStmt? && stmts[s].kind.block1 == currentBlock {
          WithElseKeepsTree(blocks, stmts, s, targetPos);
          blocks, stmts := WithElse(blocks, stmts, s, targetPos).0, WithElse(blocks, stmts, s, targetPos).1;
          return Translated;
        }
      }
      var loop := AncestorLoop(blocks, stmts, currentBlock);
      if loop.Some? && targetIndex == 0 {
        return Undefined("the instruction before the first read");
      }
      var t := JumpTranslation(bytecodeArray, targetIndex, loop);
      outcome := Emit(index, t, -1);
    }

    /**
     * The statement a `jmpifz` opens, by its tag: a repeat while with the
     * popped condition; a repeat with-in over the popped list, with the
     * variable set five instructions on; a repeat with-to as
     * `RepeatWithToStatement` builds it; otherwise an if with the popped
     * condition. Its first block is the next to be created.
     */
    method JmpIfZStatement(index: nat) returns (kind: StmtKind, outcome: Outcome)
      requires Valid() && index < |bytecodeArray|
      modifies this`stack, this`globalNames
      requires StackHoldsExpressions()
      ensures StackHoldsExpressions()
      ensures var code := bytecodeArray; var b := code[index]; var s := old(stack); var first := |blocks|;
        && (b.tag == TagRepeatWhile ==> outcome == Translated && kind == RepeatWhileStmt(index, Top(s), first) && stack == Drop(s))
        && (b.tag == TagRepeatWithIn ==>
              && (index + 5 < |code| <==> outcome == Translated)
              && (outcome == Translated ==> kind == RepeatWithInStmt(index, SetVarName(code[index + 5]), Top(s), first) && stack == Drop(s)))
        && (b.tag == TagRepeatWithTo || b.tag == TagRepeatWithDownTo ==> outcome.Translated? ==> kind.RepeatWithToStmt?)
        && (!IsLoopTag(b.tag) ==> outcome == Translated && kind == IfStmt(Top(s), false, first, first + 1) && stack == Drop(s))
      ensures outcome.Translated? ==> FirstBlock(kind) == |blocks| && (kind.IfStmt? ==> kind.block2 == |blocks| + 1)
      ensures outcome.Translated? && IsLoopTag(bytecodeArray[index].tag) ==> IsLoop(kind) && StartIndex(kind) == index
      ensures outcome.Translated? || outcome.Undefined?
    {
      var b := bytecodeArray[index];
      var first := |blocks|;
      outcome := Translated;
      kind := IfStmt(ErrorNode, false, first, first + 1);
      if b.tag == TagRepeatWhile {
        var condition := Pop();
        kind := RepeatWhileStmt(index, condition, first);
      } else if b.tag == TagRepeatWithIn {
        var list := Pop();
        if index + 5 >= |bytecodeArray| {
          return kind, Undefined("an instruction read past the end of the code");
        }
        var varName := GetVarNameFromSet(bytecodeArray[index + 5]);
        kind := RepeatWithInStmt(index, varName, list, first);
      } else if b.tag == TagRepeatWithTo || b.tag == TagRepeatWithDownTo {
        kind, outcome := RepeatWithToStatement(index);
      } else {
        var condition := Pop();
        kind := IfStmt(condition, false, first, first + 1);
      }
    }

    /** The with-to case of `jmpifz`: the loop variable is the one set just before the loop's condition starts. */
    method RepeatWithToStatement(index: nat) returns (kind: StmtKind, outcome: Outcome)
      requires Valid() && index < |bytecodeArray|
      modifies this`stack, this`globalNames
      requires StackHoldsExpressions()
      ensures StackHoldsExpressions()
      ensures var code := bytecodeArray; var b := code[index]; var s := old(stack);
        var endIndex := IndexAt(bytecodePosMap, U32(b.pos + b.obj));
        && (outcome == Translated <==> endIndex > 0 && ConditionStart(code, bytecodePosMap, endIndex) > 0)
        && (outcome == Translated ==>
              var cs := ConditionStart(code, bytecodePosMap, endIndex);
              && kind == RepeatWithToStmt(index, SetVarName(code[cs - 1]), Top(Drop(s)), b.tag == TagRepeatWithTo, Top(s), |blocks|)
              && stack == Drop(Drop(s)))
      ensures outcome.Translated? || outcome.Undefined?
    {
      var b := bytecodeArray[index];
      var endIndex := IndexAt(bytecodePosMap, U32(b.pos + b.obj));
      var end := Pop();
      var start := Pop();
      kind := IfStmt(ErrorNode, false, |blocks|, |blocks| + 1);
      if endIndex == 0 {
        return kind, Undefined("the instruction before the first read");
      }
      var endRepeat := bytecodeArray[endIndex - 1];
      var conditionStartIndex := IndexAt(bytecodePosMap, U32(endRepeat.pos - endRepeat.obj));
      if conditionStartIndex == 0 {
        return kind, Undefined("the instruction before the first read");
      }
      var varName := GetVarNameFromSet(bytecodeArray[conditionStartIndex - 1]);
      kind := RepeatWithToStmt(index, varName, start, b.tag == TagRepeatWithTo, end, |blocks|);
      outcome := Translated;
    }

    /**
     * A new block statement added to the current block and recorded as the
     * instruction's translation; its first block, which ends at `endPos`,
     * becomes current. The blocks enclosing the new one are those of the
     * block it was added to, and the new block when it is a loop's.
     */
    method OpenStatement(index: nat, kind: StmtKind, endPos: nat) returns (outcome: Outcome)
      requires Valid() && currentBlock >= 0
      requires FirstBlock(kind) == |blocks| && (kind.IfStmt? ==> kind.block2 == |blocks| + 1)
      modifies this`translations, this`stack, this`blocks, this`stmts, this`currentBlock
      requires StackHoldsExpressions()
      ensures StackHoldsExpressions()
      ensures Valid() && outcome == Translated && stack == old(stack)
      ensures |stmts| == |old(stmts)| + 1 && stmts[..|old(stmts)|] == old(stmts) && stmts[|old(stmts)|] == Stmt(kind, old(currentBlock))
      ensures translations == old(translations)[index := StmtRef(|old(stmts)|)]
      ensures currentBlock == |old(blocks)| && blocks[currentBlock].endPos == endPos && blocks[currentBlock].children == []
      ensures blocks[old(currentBlock)].children == old(blocks)[old(currentBlock)].children + [StmtRef(|old(stmts)|)]
      ensures AncestorLoop(blocks, stmts, currentBlock) ==
        if IsLoop(kind) then Some(StartIndex(kind)) else AncestorLoop(old(blocks), old(stmts), old(currentBlock))
    {
      var parent := currentBlock;
      var first := |blocks|;
      NewStmtLoop(blocks, stmts, kind, parent, endPos);
      if !IsLoop(kind) {
        NewStmtKeepsLoops(blocks, stmts, kind, parent, endPos, parent);
      }
      var r := NewStmt(blocks, stmts, kind, parent, endPos);
      blocks, stmts := r.0, r.1;
      ghost var grown := blocks;
      outcome := Emit(index, StmtRef(|stmts| - 1), first);
      WithChildKeepsTree(grown, stmts, parent, StmtRef(|stmts| - 1), first);
    }

    /** `startTell`: a tell statement on the popped window, whose block ends only with `endTell`. */
    method TranslateStartTell(index: nat) returns (outcome: Outcome)
      requires Valid()
      modifies this`translations, this`stack, this`blocks, this`stmts, this`currentBlock
      requires StackHoldsExpressions()
      ensures StackHoldsExpressions()
      ensures Valid() && stack == Drop(old(stack))
      ensures forall k :: k in translations ==> k in old(translations) || k == index
      ensures old(currentBlock) < 0 <==> outcome.Undefined?
      ensures outcome.Translated? ==> var n := |old(stmts)|;
        && |stmts| == n + 1 && stmts[..n] == old(stmts) && stmts[n] == Stmt(TellStmt(Top(old(stack)), |old(blocks)|), old(currentBlock))
        && translations == old(translations)[index := StmtRef(n)]
        && currentBlock == |old(blocks)| && blocks[currentBlock].endPos == UINT32_MAX
    {
      var window := Pop();
      if currentBlock < 0 {
        return Undefined("a statement added to no block");
      }
      outcome := OpenStatement(index, TellStmt(window, |blocks|), UINT32_MAX);
    }

    /** The opcodes whose translation is built from the stack and the operand alone, by their group. */
    method TranslateValueOp(b: Bytecode) returns (t: Node)
      requires IsStackOp(b.opcode) || IsNamedOp(b.opcode) || IsChunkOp(b.opcode) || IsReferenceOp(b.opcode)
      modifies this`stack, this`globalNames
      requires StackHoldsExpressions()
      ensures StackHoldsExpressions()
    {
      if IsStackOp(b.opcode) {
        t := TranslateStackOp(b);
      } else if IsNamedOp(b.opcode) {
        t := TranslateNamedOp(b);
      } else if IsChunkOp(b.opcode) {
        t := TranslateChunkOp(b);
      } else if b.opcode == OpSet {
        t := TranslateSet(b);
      } else {
        t := TranslateReferenceOp(b);
      }
    }

    /** The cases of `translateBytecode` that open, leave or amend blocks: returns, tell, jumps. */
    method TranslateBlockOp(index: nat) returns (outcome: Outcome)
      requires Valid() && StackHoldsExpressions() && index < |bytecodeArray|
      requires var op := bytecodeArray[index].opcode;
        op == OpRet || op == OpRetFactory || op == OpStartTell || op == OpEndTell || op == OpJmp || op == OpJmpIfZ
      modifies this`translations, this`stack, this`globalNames, this`blocks, this`stmts, this`currentBlock
      ensures Valid() && StackHoldsExpressions()
      ensures forall k :: k in translations ==> k in old(translations) || k == index
    {
      var b := bytecodeArray[index];
      var op := b.opcode;
      if op == OpRet || op == OpRetFactory {
        if index == |bytecodeArray| - 1 {
          return Translated;
        }
        outcome := Emit(index, ExitStmtNode, -1);
      } else if op == OpStartTell {
        outcome := TranslateStartTell(index);
      } else if op == OpEndTell {
        outcome := ExitBlock();
      } else if op == OpJmp {
        outcome := TranslateJmp(index);
      } else {
        if currentBlock < 0 {
          return Undefined("a statement added to no block");
        }
        var kind;
        kind, outcome := JmpIfZStatement(index);
        if outcome.Translated? {
          outcome := OpenStatement(index, kind, U32(b.pos + b.obj));
        }
      }
    }

    /** The remaining cases of `translateBytecode`: stack shuffles, argument lists, calls to the script's handlers, and the default. */
    method TranslateControlOp(index: nat) returns (outcome: Outcome)
      requires Valid() && StackHoldsExpressions() && index < |bytecodeArray|
      modifies this`translations, this`stack, this`globalNames, this`blocks, this`stmts, this`currentBlock
      ensures Valid() && StackHoldsExpressions()
      ensures forall k :: k in translations ==> k in old(translations) || k == index
      ensures var b := bytecodeArray[index]; !IsKnownOpcode(b.opcode) ==>
        && stack == [] && translations == old(translations)[index := CommentNode(UnknownOpComment(tables.opcodeNames, b))]
        && (outcome.Translated? <==> old(currentBlock) >= 0)
    {
      var b := bytecodeArray[index];
      var op := b.opcode;
      if op == OpRet || op == OpRetFactory || op == OpStartTell || op == OpEndTell || op == OpJmp || op == OpJmpIfZ {
        outcome := TranslateBlockOp(index);
      } else if op == OpSwap {
        Swap();
        outcome := Translated;
      } else if op == OpPushArgList || op == OpPushArgListNoRet {
        if b.obj < 0 {
          return Undefined("a negative argument count");
        }
        var t := PushArgList(b);
        outcome := Emit(index, t, -1);
      } else if op == OpEndRepeat {
        outcome := Emit(index, CommentNode("ERROR: Stray endrepeat"), -1);
      } else if op == OpLocalCall {
        var argList := Pop();
        if !(0 <= b.obj < |handlerNames|) {
          return Undefined("a handler index out of range");
        }
        outcome := Emit(index, CallNode(handlerNames[b.obj], argList), -1);
      } else if op == OpPeek {
        return Unmodelled("case statements");
      } else if op == OpPop {
        PopN(b.obj);
        outcome := Translated;
      } else {
        stack := [];
        outcome := Emit(index, CommentNode(UnknownOpComment(tables.opcodeNames, b)), -1);
      }
    }

    /**
     * `translateBytecode`: an instruction the loop tagging marked as part
     * of a loop's own logic is skipped; every other one is translated by
     * its opcode, and an opcode with no case of its own becomes a comment
     * naming it, after which the stack is emptied.
     */
    method TranslateBytecode(index: nat) returns (outcome: Outcome)
      requires Valid() && StackHoldsExpressions() && index < |bytecodeArray|
      modifies this`translations, this`stack, this`globalNames, this`blocks, this`stmts, this`currentBlock
      ensures Valid() && StackHoldsExpressions()
      ensures forall k :: k in translations ==> k in old(translations) || k == index
      ensures IsInternal(bytecodeArray[index].tag) ==>
        && outcome == Translated && stack == old(stack) && translations == old(translations)
        && blocks == old(blocks) && stmts == old(stmts) && currentBlock == old(currentBlock)
      ensures var b := bytecodeArray[index]; !IsInternal(b.tag) && !IsKnownOpcode(b.opcode) ==>
        && stack == [] && translations == old(translations)[index := CommentNode(UnknownOpComment(tables.opcodeNames, b))]
        && (outcome.Translated? <==> old(currentBlock) >= 0)
    {
      var b := bytecodeArray[index];
      if IsInternal(b.tag) {
        return Translated;
      }
      if IsStackOp(b.opcode) || IsNamedOp(b.opcode) || IsChunkOp(b.opcode) || IsReferenceOp(b.opcode) {
        var t := TranslateValueOp(b);
        outcome := Emit(index, t, -1);
      } else {
        outcome := TranslateControlOp(index);
      }
    }

    /**
     * `translate`: the loops tagged, the stack emptied and a fresh tree
     * started at the handler's block; then each instruction in turn, as
     * `TranslateInstructions` goes through them.
     */
    method Translate() returns (outcome: Outcome)
      requires PosMapInRange(bytecodePosMap, |bytecodeArray|)
      modifies this`bytecodeArray, this`translations, this`stack, this`globalNames, this`blocks, this`stmts, this`currentBlock
      ensures bytecodeArray == TaggedUpTo(old(bytecodeArray), bytecodePosMap, scriptNames, |old(bytecodeArray)|)
      ensures (forall k :: 0 <= k < |old(bytecodeArray)| ==> !IsLoopTag(old(bytecodeArray)[k].tag)) ==>
        forall k :: 0 <= k < |bytecodeArray| && IsLoopTag(bytecodeArray[k].tag) ==>
          LoopTagIdentified(bytecodeArray[k].tag, old(bytecodeArray), bytecodePosMap, scriptNames, k)
      ensures Valid() && StackHoldsExpressions()
      ensures forall k :: k in translations ==> k in old(translations) || (k < |bytecodeArray| && !IsInternal(bytecodeArray[k].tag))
    {
      ghost var code := bytecodeArray;
      TagLoops();
      if forall k :: 0 <= k < |code| ==> !IsLoopTag(code[k].tag) {
        LoopTagsOnlyOnLoopJumps(code, bytecodePosMap, scriptNames, |code|);
      }
      stack := [];
      EmptyArenaWellFormed();
      blocks, stmts := EmptyArena.0, EmptyArena.1;
      currentBlock := 0;
      outcome := TranslateInstructions();
    }

    /**
     * The loop of `translate`: each instruction in turn, the blocks that
     * end at it left first, until the code ends or a step ends other
     * than normally.
     */
    method TranslateInstructions() returns (outcome: Outcome)
      requires Valid() && StackHoldsExpressions()
      modifies this`translations, this`stack, this`globalNames, this`blocks, this`stmts, this`currentBlock
      ensures Valid() && StackHoldsExpressions()
      ensures forall k :: k in translations ==> k in old(translations) || (k < |bytecodeArray| && !IsInternal(bytecodeArray[k].tag))
    {
      outcome := Translated;
      var i := 0;
      while i < |bytecodeArray| && outcome.Translated?
        invariant Valid() && StackHoldsExpressions() && i <= |bytecodeArray|
        invariant forall k :: k in translations ==> k in old(translations) || (k < i && !IsInternal(bytecodeArray[k].tag))
      {
        outcome := ExitFinishedBlocks(bytecodeArray[i].pos);
        if outcome.Translated? {
          outcome := TranslateBytecode(i);
        }
        i := i + 1;
      }
    }
  }
}
