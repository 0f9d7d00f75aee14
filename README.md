# ProjectorRays core, modelled in Dafny

ProjectorRays reads Macromedia/Adobe Director movies (RIFX containers) and
decompiles the Lingo bytecode inside them back to source text. This project
models its core in Dafny and proves properties of the model:

- **Container walker** (`DirectorMovie`, `DataStream`): the RIFX/XFIR byte
  order switch, the initial map (imap), the memory maps (mmap) it lists and
  the chunk table they hold, the header check of every chunk against its
  table row and the dispatch of its payload by tag. The movie is a class
  whose chunk objects live in an arena and are referred to by their place.
- **Script parser** (`LingoScript`, `LingoContext`, `LingoLiteral`,
  `LingoHandler.ReadData`): the fixed-offset script header, the six-entry
  section table, the name-id tables, the handler records and literals, the
  Lnam names chunk and the LctX context chunk.
- **Bytecode decompiler** (`LingoBytecode`, `LingoHandler`, `LingoStack`,
  `LingoAst`, `LingoLib`, `LingoProperty`, `LingoTranslate`): operand widths by opcode range, the
  instruction decoder, the symbolic stack that yields an ERROR node when
  popped empty, the AST of nested blocks, and the translator that exits
  blocks by end position, promotes an if to if/else on jump geometry and
  retags the matching if as a repeat-while loop at endrepeat; `get` and
  `set` look the property id up in the name tables of `lib.ts` and pop
  the operands each kind of property takes.
- **The C++ generation**: the cursor reader that returns 0 past the end
  (`Stream`), the variable-length integer, the clamped writer, Lingo block
  indentation and version naming (`DirectorUtil`), the code writer
  (`CodeWriter`) and output file names (`FileNames`).
- **The C++ director reader** (`DirectorChunk`, `DirectorFile`): the list
  chunk with its offset table, the Shockwave checksum, the memory map and
  the chunk cache of a director file.
- **The C++ Lingo decompiler** (`LingoDecNames`, `LingoDecScript`,
  `LingoDecContext`, `LingoDecAst`, `DirectorLingo`, `DirectorLoops`,
  `DirectorAst`, `DirectorHandler`): the names, script and context chunks,
  the handler record and its bytecode, loop recognition by `tagLoops`, the
  block tree and the translator of each opcode, proved against
  specification functions of the state it leaves.
- **Command-line options** (`CommonOptions`): the command table, long and
  short options, option values and the input file that `Options::parse`
  reads from `argv`.

Bytes are `byte` (0..255); text is `seq<char>` with one character per byte.
Readers return `Result` values: the TypeScript `DataStream` throws a
RangeError when a read runs past the buffer, and the model returns
`Err(RangeError)` with the position where it stood. `Wrappers` holds the
`Option` and `Result` types and `Bytes` the byte-order arithmetic shared by
every reader.

## Model

| member | source | states |
|---|---|---|
| LingoBytecode.GetOpcode | src/lingo/Bytecode.ts:14-83 | the mnemonic is never empty |
| LingoBytecode.TableNamesAreKnown | src/lingo/Bytecode.ts:15-81 | no entry of either table is empty or begins with the letter of the `unk_` prefix |
| LingoBytecode.UnknownOpcodeDecodes | src/lingo/Bytecode.ts:81-82 | a mnemonic starts with `unk_` exactly when neither table has the code, and then the hexadecimal digits after the prefix read back as the code |
| LingoBytecode.CongruentCodesShareName | src/lingo/Bytecode.ts:81-82 | two codes of 0x40 and above that agree modulo 0x40 have the same table entry; when it exists they get the same mnemonic, and when it does not their `unk_` mnemonics agree exactly when the codes are equal |
| LingoBytecode.PushintCodes | src/lingo/Bytecode.ts:49-81 | a code's mnemonic is `pushint` exactly when it carries an operand and is 0x01 or 0x2e modulo 0x40, at any operand width |
| Bytes.Digits | src/lingo/Bytecode.ts:82 | `toString(16)` (and decimal `to_string`) always yields at least one digit |
| Bytes.DigitsRoundTrip | src/lingo/Bytecode.ts:82 | the digits of a number read back as the number |
| Bytes.IntToStringRoundTrip | src/lingo/AST.ts:80-82 | the decimal text of an integer, with its sign, reads back as the integer |
| Bytes.BEIsReversedLE | src/DataStream.ts:43-73 | a big-endian field holds the value of its reversed bytes read little-endian |
| Bytes.EncodeDecodeLE | src/DataStream.ts:43-73 | a little-endian field's bytes are recovered from its value: reading is injective |
| Bytes.Signed | src/DataStream.ts:31-35 | the two's-complement reading lies in [-m/2, m/2), agrees with the unsigned value modulo m, and is negative exactly when the top bit is set |
| DataStream.Window | src/DataStream.ts:25-29 | `slice` is the requested range when it fits, the rest of the buffer from `start` when the range runs past the end, empty when `start` is at or past the end or the length is not positive |
| DataStream.UintAt | src/DataStream.ts:37-73 | an unsigned field is read exactly when it fits in the buffer, and is below 256^width |
| DataStream.IntAt | src/DataStream.ts:31-67 | a signed field is read exactly when it fits, lies in the signed range and agrees with the unsigned field modulo 256^width |
| DataStream.FourCCAt | src/DataStream.ts:93-100 | the four characters at the position, reversed when the stream is little-endian |
| DataStream.FourCCByteOrder | src/DataStream.ts:93-100 | a tag read little-endian is the reverse of the same tag read big-endian |
| DataStream.DataStream.constructor | src/DataStream.ts:9-11 | the cursor starts at 0 with the given byte order |
| DataStream.DataStream.Seek | src/DataStream.ts:13-15 | the cursor becomes the given position and nothing else changes |
| DataStream.DataStream.Skip | src/DataStream.ts:17-19 | the cursor moves forward by the given count |
| DataStream.DataStream.EndOfFile | src/DataStream.ts:21-23 | at the end of the file exactly when no byte can be read at the cursor |
| DataStream.DataStream.ReadBytes | src/DataStream.ts:25-29 | the clamped slice at the cursor, and the cursor advanced by the full length |
| DataStream.DataStream.ReadUint | src/DataStream.ts:37-73 | the field in the stream's byte order, the cursor advanced by the width; a RangeError and no move when it does not fit |
| DataStream.DataStream.ReadUint8 | src/DataStream.ts:37-41 | the byte at the cursor, advanced by 1; a RangeError at the end |
| DataStream.DataStream.ReadInt8 | src/DataStream.ts:31-35 | the signed byte at the cursor, advanced by 1 |
| DataStream.DataStream.ReadUint16 | src/DataStream.ts:49-53 | the 2-byte field in the stream's byte order, advanced by 2 |
| DataStream.DataStream.ReadInt16 | src/DataStream.ts:43-47 | the signed 2-byte field, advanced by 2 |
| DataStream.DataStream.ReadUint24 | src/DataStream.ts:55-61 | three bytes assembled by shifts in the selected byte order equal the 3-byte field, advanced by 3 |
| DataStream.DataStream.ReadUint32 | src/DataStream.ts:69-73 | the 4-byte field, advanced by 4 |
| DataStream.DataStream.ReadInt32 | src/DataStream.ts:63-67 | the signed 4-byte field, advanced by 4 |
| DataStream.DataStream.ReadString | src/DataStream.ts:87-91 | the clamped bytes as characters, and the cursor moved by the length even past the end |
| DataStream.DataStream.ReadFourCC | src/DataStream.ts:93-100 | the tag as `FourCCAt` gives it, and the cursor advanced by 4 |
| LingoStack.SpliceStart | src/subchunk/script/Handler.ts:271-280 | `splice(length - n)` starts at `length - n` when that many entries exist, and never past the end |
| LingoStack.PopTwice | src/lingo/Stack.ts:6-8 | the second of two pops yields the entry below the top and leaves two fewer entries (none once empty) |
| LingoStack.PopsCompose | src/lingo/Stack.ts:6-8 | k pops followed by j more pop the same entries and leave the same stack as k + j pops |
| LingoStack.Stack.constructor | src/subchunk/script/Handler.ts:104 | a new stack is empty |
| LingoStack.Stack.Pop | src/lingo/Stack.ts:6-8 | the top entry and the stack one shorter; on an empty stack a fresh ERROR node and the stack left empty |
| LingoStack.Stack.Push | src/lingo/Stack.ts:5 | appends at the end |
| LingoStack.Stack.SpliceTop | src/subchunk/script/Handler.ts:271-280 | the removed entries and the remaining stack concatenate to the old stack; with enough entries the top n are removed in their order |
| LingoLiteral.ReadRecord | src/subchunk/script/Literal.ts:15-18 | two uint32 fields, type then offset, 8 bytes consumed; an error exactly when they do not fit |
| LingoLiteral.ReadData | src/subchunk/script/Literal.ts:20-32 | type 4 takes the offset as value without reading; any other type reads a uint32 length at `startOffset + offset`; type 1 is the next `length - 1` bytes; type 9 the next eight bytes; any other type leaves the value unset |
| LingoAst.NameAt | src/subchunk/script/Handler.ts:96-101 | `nameList[id]` is a name exactly for an index inside the list, and `undefined` otherwise |
| LingoAst.GetValue | src/lingo/AST.ts:40-42 | `getValue()` fails exactly on `null`; an integer literal yields its number |
| LingoAst.New | src/lingo/AST.ts:200-233 | a node constructor succeeds exactly when none of the operands it parents is `null`, and then yields the node unchanged |
| LingoAst.ListShift | src/lingo/AST.ts:120-122 | `shift` is defined only on lists; an empty list yields ERROR and stays empty; otherwise the first item (ERROR for a `null` item) and the rest, which together give back the list |
| LingoAst.ReindentRoundTrip | src/lingo/AST.ts:160-166 | the indentation a block adds to a child's lines can be removed again: the child's own text comes back |
| LingoAst.ReindentIndents | src/lingo/AST.ts:160-166 | after re-indenting, every line break is followed by two spaces |
| LingoAst.ChildLineIndented | src/lingo/AST.ts:160-166 | one child's line as a block prints it is indented throughout |
| LingoAst.BlockLinesIndented | src/lingo/AST.ts:160-166 | a block's text has every line indented, whatever its children print |
| LingoAst.BlockRendersIffChildrenDo | src/lingo/AST.ts:160-166 | a block renders exactly when each of its children does |
| LingoAst.RenderNode | src/lingo/AST.ts:29-608 | the `toString` of every node kind, the reference definition the block, if and handler renderings and their lemmas are stated over; it fails only by throwing (a TypeError at a `null` or an arena index past the end, a stack overflow when nesting runs out of depth), and a `null` node is a TypeError |
| LingoAst.RenderIf | src/lingo/AST.ts:375-383 | `IfStatement.toString`: an if or if/else reads `if ...` up to `\nend if`, a repeat-while reads `repeat while ...` up to `\nend repeat`; an id past the arena is a TypeError, and only a TypeError or a stack overflow is thrown |
| LingoAst.RenderBlock | src/lingo/AST.ts:160-166 | `Block.toString`, the definition `BlockLinesIndented` and `BlockRendersIffChildrenDo` are proved about: an empty block prints nothing, any other block starts with a line break and two spaces; a block past the arena is a TypeError |
| LingoAst.RenderHandler | src/lingo/AST.ts:185-187 | `Handler.toString` renders exactly when the handler's block does, and then reads `on ...` up to `\nend`; it throws only a TypeError or a stack overflow |
| LingoAst.Ast.ToString | src/lingo/AST.ts:10-12 | `AST.toString` is its handler's text: `on ...` up to `\nend`, failing only by a TypeError or a stack overflow |
| LingoAst.JsonEscapeRoundTrip | src/lingo/AST.ts:91-95 | a string literal's `JSON.stringify` text reads back as the string |
| LingoAst.JsonEscapeCharRoundTrip | src/lingo/AST.ts:91-95 | each escaped character reads back as itself, whatever follows it |
| LingoAst.Ast.constructor | src/lingo/AST.ts:176-183 | the handler's block is the only block, it is owned by the handler and it is the current block |
| LingoAst.Ast.AddChild | src/lingo/AST.ts:168-171 | the child is appended to that block and nothing else changes, except that an if statement records the block as its parent; the arena stays well formed and ordered |
| LingoAst.Ast.AddStatement | src/lingo/AST.ts:14-16 | the statement goes to the current block as in `addChild`; with no current block it is a TypeError and nothing changes |
| LingoAst.Ast.EnterBlock | src/lingo/AST.ts:18-20 | the given block becomes the current block |
| LingoAst.Ast.ExitBlock | src/lingo/AST.ts:22-24 | the current block becomes the block holding the statement that owns it (`parent.parent`), none when that is the handler; with no current block it is a TypeError |
| LingoAst.Ast.NewIf | src/lingo/AST.ts:359-373 | a fresh `if` statement with a fresh first block it owns and no second block; a `null` condition is a TypeError and changes nothing |
| LingoAst.Ast.SetType | src/lingo/AST.ts:395-403 | the type changes; if/else gets a fresh second block owned by the if statement; any other type drops the second block; nothing else changes |
| LingoAst.Ast.SetEndPos | src/subchunk/script/Handler.ts:363-370 | only that block's end position changes |
| LingoHandler.ReadRecord | src/subchunk/script/Handler.ts:37-54 | fifteen fields of 2 or 4 bytes at fixed offsets, 46 bytes consumed; an error exactly when the record does not fit |
| LingoHandler.ReadRecordHead | src/subchunk/script/Handler.ts:38-44 | the first seven fields, 20 bytes at the cursor; an error exactly when they do not fit |
| LingoHandler.ReadRecordMid | src/subchunk/script/Handler.ts:45-48 | the next four fields, the 14 bytes after the first 20, keeping the fields already read; an error exactly when they do not fit |
| LingoHandler.ReadRecordEnd | src/subchunk/script/Handler.ts:49-53 | the last four fields, ending the record 46 bytes after its start; an error exactly when they do not fit |
| LingoHandler.OperandWidth | src/subchunk/script/Handler.ts:66-76 | no operand exactly below 0x40, and at most 3 bytes |
| LingoHandler.OperandWidthIsTopBits | src/subchunk/script/Handler.ts:67-76 | for a byte, the operand width is its top two bits: 3 from 0xc0, 2 from 0x80, 1 from 0x40 |
| LingoHandler.InstructionAt | src/subchunk/script/Handler.ts:63-78 | one instruction: the code byte, an operand exactly when the code is 0x40 or above, of the width the code fixes, read in the stream's byte order |
| LingoHandler.DecodeEnds | src/subchunk/script/Handler.ts:62 | the code is empty exactly when `compiledOffset` is already at the end; otherwise it starts there and its last instruction reaches the end |
| LingoHandler.DecodeInRange | src/subchunk/script/Handler.ts:62-63 | every instruction starts inside [compiledOffset, compiledOffset + compiledLen) |
| LingoHandler.DecodeContiguous | src/subchunk/script/Handler.ts:62-81 | each instruction starts right after its predecessor's operand |
| LingoHandler.DecodeWidths | src/subchunk/script/Handler.ts:66-76 | every decoded instruction has the operand width its code calls for |
| LingoHandler.DecodedPositionsIncrease | src/subchunk/script/Handler.ts:63-80 | positions strictly increase along the code, so each position names one instruction |
| LingoHandler.PositionIndexIndexes | src/subchunk/script/Handler.ts:80 | the map built by setting each position in order indexes every instruction by its own position |
| LingoHandler.VarnamesTable | src/subchunk/script/Handler.ts:87-94 | exactly `count` IDs, read in order from `offset`; an error exactly when a non-empty table does not fit |
| LingoHandler.ReadVarnamesTable | src/subchunk/script/Handler.ts:87-94 | the table `VarnamesTable` describes, the cursor left after its last ID |
| LingoHandler.ReadInstruction | src/subchunk/script/Handler.ts:63-78 | the instruction at the cursor, the cursor moved past its operand |
| LingoHandler.ReadCodeStep | src/subchunk/script/Handler.ts:63-80 | one pass moves the next instruction from the code still to decode onto the code read |
| LingoHandler.ReadCode | src/subchunk/script/Handler.ts:57-81 | the loop yields exactly the decoded code, and `bytecodeByPos` indexes each instruction by its own position |
| LingoHandler.ReadData | src/subchunk/script/Handler.ts:56-85 | the code between `compiledOffset` and `compiledOffset + compiledLen`, indexed by position, then the argument and local name-ID tables; an error exactly when one of the three fails |
| LingoHandler.MapNames | src/subchunk/script/Handler.ts:99-100 | one name per ID, in order, each `nameList[id]` |
| LingoHandler.ReadNames | src/subchunk/script/Handler.ts:96-101 | the handler's name is defined exactly when its ID is inside the names list; one argument and one local name per ID |
| LingoTranslate.PopsLeaveBottom | src/lingo/Stack.ts:6-8 | k pops from a stack of at least k entries return its top k and leave the rest below them, in order |
| LingoTranslate.WithChild | src/lingo/AST.ts:168-171 | adding a child appends it to that block's children and leaves every other block as it was |
| LingoTranslate.UnhandledOnlyForUnknownCodes | src/subchunk/script/Handler.ts:156-629 | the default case is reached exactly for codes neither opcode table names: every mnemonic the tables produce has a handler |
| LingoTranslate.UnknownNamesUnhandled | src/subchunk/script/Handler.ts:623-629 | a mnemonic beginning with `u` (every `unk_` name) has no handler |
| LingoTranslate.OneByteNamesHandled | src/subchunk/script/Handler.ts:156-202 | each one-byte mnemonic has an entry in `bytecodeHandlers` |
| LingoTranslate.MultiByteNamesHandled | src/subchunk/script/Handler.ts:267-620 | each multi-byte mnemonic has an entry in `bytecodeHandlers` |
| LingoTranslate.ChunkRangePriority | src/subchunk/script/Handler.ts:192-212 | the chunk chosen is the first of char, word, item and line whose first index is not 0, with that chunk's own bounds; none exactly when all four are 0 |
| LingoTranslate.NotZeroOf | src/subchunk/script/Handler.ts:202 | `getValue() !== 0` on a node that is not `null` is decided by its value alone |
| LingoTranslate.LightstrLineUsesItemBounds | src/subchunk/script/Handler.ts:230 | for a line-only selection `splitstr` takes the line bounds while `lightstr` as written takes the item bounds |
| LingoTranslate.KindNameRoundTrip | src/lingo/AST.ts:375-383 | each if type's string selects that type's rendering, and no two types share a string |
| LingoTranslate.IfKindNameAsWritten | src/subchunk/script/Handler.ts:366 | the translator's `AST.IfStatement.Type.if` reads a member that `IfStatement` does not declare: a TypeError for every type |
| LingoTranslate.IfKindNameAsWrittenFails | src/subchunk/script/Handler.ts:366 | as written no type name can be produced, while the intended names each select a rendering |
| LingoTranslate.ConstantNode | src/subchunk/script/Handler.ts:281-292 | `pushcons` with the type looked up by name: a string literal's string or an integer literal's value; `null` for a type without a name; an index past the table is a TypeError |
| LingoTranslate.ConstantNodeAsWritten | src/subchunk/script/Handler.ts:283 | `lib.LiteralTypes` is not defined, so `pushcons` fails for every literal |
| LingoTranslate.PushconsAsWrittenFails | src/subchunk/script/Handler.ts:283 | a string literal is pushed by the corrected lookup and never by the one as written |
| LingoTranslate.Reference | src/subchunk/script/Handler.ts:297-312 | globals and properties are named from the names table, params from the argument names, locals from the local names, each `undefined` past the end |
| LingoTranslate.AsciiUpper | src/subchunk/script/Handler.ts:627 | `toUpperCase` keeps the length and raises exactly the lower-case letters |
| LingoTranslate.IndexAt | src/subchunk/script/Handler.ts:356-357 | an instruction index found through `bytecodeByPos` is inside the code |
| LingoTranslate.JmpPastEndRepeatExits | src/subchunk/script/Handler.ts:333-353 | a jump at the end of an if's block whose target follows an `endrepeat` becomes `exit repeat` |
| LingoTranslate.JmpAtBlockEndMakesIfElse | src/subchunk/script/Handler.ts:348-351 | at the block end, a jump whose target is neither an `endrepeat` nor right after one makes the if an if/else whose second block ends at the target |
| LingoTranslate.ExitRepeatBecomesIfElseAsWritten | src/subchunk/script/Handler.ts:337-342 | on a `repeat while` holding `if ... then exit repeat`, testing the instruction before the jump (as written) makes an if/else, while testing the one before the target yields `exit repeat` |
| LingoTranslate.RepeatHeaderIsFirst | src/subchunk/script/Handler.ts:357-359 | the scan stops at the first `iftrue` at or after its start; none found means none is left |
| LingoTranslate.Classify | src/subchunk/script/Handler.ts:130-154 | a mnemonic is classed as a binary operator exactly when the operator table has it, with that table's symbol |
| LingoTranslate.ChunkRange | src/subchunk/script/Handler.ts:192-212 | the chunk choice fails only when one of the four first bounds popped is null, and never fails when none is |
| LingoTranslate.JmpDecision | src/subchunk/script/Handler.ts:333-353 | outside an if nothing happens; inside, the jump fails exactly at the code's end, on a missing target, or on a zero target at the block end; exit repeat only when the instruction before the target is an endrepeat, next repeat only when the target is one, and if/else only at the block end with the jump's own target |
| LingoTranslate.JmpDecisionAsWritten | src/subchunk/script/Handler.ts:337-342 | as written, exit repeat is chosen only when the instruction before the jump itself is an endrepeat |
| LingoTranslate.Translator.constructor | src/subchunk/script/Handler.ts:96-105 | a translator over the handler's code, names and the script's tables, with no translations yet |
| LingoTranslate.Translator.LeaveBlock | src/subchunk/script/Handler.ts:110-118 | leaving the current block moves to the block holding its statement, or to the second block when the one left was the first block of an if/else; the exit measure drops |
| LingoTranslate.Translator.ExitEndedBlocks | src/subchunk/script/Handler.ts:109-119 | afterwards the current block does not end at the position; a block that did not end there is kept; running out of blocks is a TypeError |
| LingoTranslate.Translator.Translate | src/subchunk/script/Handler.ts:103-122 | a fresh stack and a tree named after the handler with its arguments; on success every instruction, and no other index, has its translation recorded |
| LingoTranslate.Translator.TranslateBytecode | src/subchunk/script/Handler.ts:124-631 | the mnemonic's class picks the handler: a stack-only handler succeeds exactly when the expression rule does and leaves its node and stack; an unhandled code adds its comment to the current block, empties the stack and fails exactly with no current block; every other handler has its statement effect; only this translation is recorded |
| LingoTranslate.Translator.TranslateStatement | src/subchunk/script/Handler.ts:157-620 | each statement handler has the stack and tree effect the statement rule gives for its op, with the translated node when it succeeds; `get` and `set` have the effect of `GetProperty` and `SetProperty` |
| LingoTranslate.Translator.PushLeaf | src/subchunk/script/Handler.ts:161-164 | the node is pushed and is the translation |
| LingoTranslate.Translator.AddLeafStatement | src/subchunk/script/Handler.ts:157-160 | the statement is appended to the current block; a TypeError exactly when there is none |
| LingoTranslate.Translator.TranslateBinary | src/subchunk/script/Handler.ts:130-154 | the right operand is popped first, then the left; the operator node replaces them, so a stack of two or more shrinks by one |
| LingoTranslate.Translator.TranslateUnary | src/subchunk/script/Handler.ts:170-189 | the operand is popped and the inverse or not node pushed |
| LingoTranslate.Translator.PopEntries | src/subchunk/script/Handler.ts:193-201 | k pops in order: the j-th is the entry j below the top, ERROR once the stack has run dry |
| LingoTranslate.Translator.TranslateChunk | src/subchunk/script/Handler.ts:192-233 | nine entries are popped; `splitstr` pushes the chunk expression and `lightstr` adds it as a statement |
| LingoTranslate.Translator.TranslateSprite | src/subchunk/script/Handler.ts:234-245 | the first sprite is the top entry, the second the one below; the expression replaces both |
| LingoTranslate.Translator.TranslateCastStr | src/subchunk/script/Handler.ts:246-250 | the popped ID becomes a field reference on the stack |
| LingoTranslate.Translator.PopOnly | src/subchunk/script/Handler.ts:251-254 | one entry is dropped and there is no translation |
| LingoTranslate.Translator.PopTwo | src/subchunk/script/Handler.ts:389-394 | two entries are dropped and there is no translation |
| LingoTranslate.Translator.WrapList | src/subchunk/script/Handler.ts:258-261 | the stack is unchanged, except that an empty stack gains an ERROR |
| LingoTranslate.Translator.TranslateNewPropList | src/subchunk/script/Handler.ts:262-266 | the popped list's value becomes a property list on the stack |
| LingoTranslate.Translator.TranslateNewList | src/subchunk/script/Handler.ts:271-280 | the top n entries are replaced by one list that keeps their order; fewer entries follow `splice`'s negative start |
| LingoTranslate.Translator.TranslateAssign | src/subchunk/script/Handler.ts:313-332 | the value is popped and the assignment to the target appended to the current block |
| LingoTranslate.Translator.TranslateGetObjProp | src/subchunk/script/Handler.ts:595-599 | the property of the popped object is pushed |
| LingoTranslate.Translator.TranslateSetObjProp | src/subchunk/script/Handler.ts:600-605 | the value is on top and the object below it; the assignment is appended to the current block |
| LingoTranslate.Translator.TranslateGetMovieInfo | src/subchunk/script/Handler.ts:606-610 | one entry is dropped and the movie property pushed |
| LingoTranslate.Translator.TranslateCall | src/subchunk/script/Handler.ts:371-388 | the popped argument list goes into the call; a call on a plain list is pushed, any other call is added as a statement; a local call names the script's handler |
| LingoTranslate.Translator.TranslateCallObj | src/subchunk/script/Handler.ts:611-620 | the object is shifted off the front of the popped argument list and the call takes the rest; pushed or added as for the other calls |
| LingoTranslate.Translator.TranslateIfTrue | src/subchunk/script/Handler.ts:363-370 | the condition is popped; a new if statement whose first block ends at `pos + obj` is added to the current block, and that first block becomes current |
| LingoTranslate.Translator.TranslateJmp | src/subchunk/script/Handler.ts:333-353 | inside an if's block, adds `exit repeat` or `next repeat`, or makes the if an if/else whose second block ends at the target, as `JmpDecision` says; outside an if nothing changes |
| LingoTranslate.Translator.TranslateEndRepeat | src/subchunk/script/Handler.ts:354-362 | the if statement translated from the first `iftrue` at or after the back-jump target is retagged repeat-while and loses its second block |
| LingoTranslate.Translator.TranslateUnhandled | src/subchunk/script/Handler.ts:623-629 | a comment naming the opcode in capitals, with its operand, is added, the stack is replaced by an empty one, and the translation is ERROR |
| LingoTranslate.Translator.ExpressionStepKeepsBelow | src/subchunk/script/Handler.ts:130-620 | an expression handler leaves the entries below its operands untouched and, unless it only drops, pushes exactly its translation; wrapping a list leaves the stack as it was |
| LingoTranslate.Translator.TranslateExpression | src/subchunk/script/Handler.ts:130-620 | an expression handler succeeds exactly when the expression rule does, with that rule's node and stack |
| LingoTranslate.Translator.ExpressionStep | src/subchunk/script/Handler.ts:130-620 | the reference definition `TranslateExpression`, `TranslateBytecode` and `ExpressionStepKeepsBelow` are stated over: a stack-only handler throws only a TypeError (or meets the float constant left out), grows the stack by at most one entry, and leaves its translation on top unless it only drops entries or is `wraplist` |
| LingoTranslate.Translator.StatementEffect | src/subchunk/script/Handler.ts:157-620 | the reference definition `TranslateStatement`, `TranslateBytecode` and `OnlyIfTrueEntersBlock` are stated over, per handler (`get` pushes the reference `GetProperty` builds and changes no block, `set` adds the statement `SetProperty` builds): a statement handler that succeeds in a block of the arena grows the stack by at most one entry |
| LingoTranslate.Translator.TranslateOperator | src/subchunk/script/Handler.ts:130-266 | the handlers that build a node from popped operands succeed exactly when the expression rule does, with its node and stack |
| LingoTranslate.Translator.TranslatePairOperator | src/subchunk/script/Handler.ts:130-245 | binary and sprite operators succeed exactly when the expression rule does, with its node and stack |
| LingoTranslate.Translator.TranslateTopOperator | src/subchunk/script/Handler.ts:170-250 | `inv`, `not` and `caststr` succeed exactly when the expression rule does, with its node and stack |
| LingoTranslate.Translator.TranslateTopLookup | src/subchunk/script/Handler.ts:262-599 | `newproplist` and `getobjprop` succeed exactly when the expression rule does, with its node and stack |
| LingoTranslate.Translator.TranslateLeaf | src/subchunk/script/Handler.ts:161-312 | the handlers that push a node without popping succeed exactly when the expression rule does, with its node and stack |
| LingoTranslate.Translator.TranslateStackShape | src/subchunk/script/Handler.ts:251-394 | the handlers that drop, keep or regroup entries never fail and give the expression rule's node and stack |
| LingoLib.JsNumber | src/subchunk/script/Handler.ts:407-411 | `Number(id)` as the comparisons `id <= k` see it: a number is itself, `true` is 1, `undefined` is NaN, and a decimal string is its value, never negative |
| LingoLib.JsKeyMinus | src/subchunk/script/Handler.ts:410-416 | `id - k` used as a key is NaN exactly when `Number(id)` is, and otherwise the difference |
| LingoLib.JsKey | src/subchunk/script/Handler.ts:409-489 | the key `table[id]` uses: a number names its own entry, a string one only when it is the decimal text of that non-negative number, and `true`, `undefined` and lists name none |
| LingoLib.Lookup | src/lib.ts:18-138 | `table[key]` is the table's entry exactly when the key names one in the table, and `undefined` otherwise |
| LingoLib.DecimalKeyAgrees | src/subchunk/script/Handler.ts:407-416 | the decimal text of a number indexes and compares like the number; `true` compares as 1 but indexes nothing |
| LingoProperty.OwnedReference | src/subchunk/script/Handler.ts:425-489 | the reference to a property of a popped owner (menu, menu item, sound, sprite, cast member, field) is a property node, and `new` fails with a TypeError exactly when an owner is `null` |
| LingoProperty.GetNode | src/subchunk/script/Handler.ts:404-490 | the node of each `get` case is a property reference or expression, and the only failure is a TypeError |
| LingoProperty.SetNode | src/subchunk/script/Handler.ts:494-583 | the statement of each `set` case is an assignment of the first popped operand to a property node, or `null` exactly for a movie id above 0x05 (and for a `null` value); the only failure is a TypeError |
| LingoProperty.GetProperty | src/subchunk/script/Handler.ts:403-492 | `get`: an operand without a case pushes `null` and pops nothing; otherwise a `null` id is a TypeError, the translation is a property node and at most three entries are popped off the top |
| LingoProperty.SetProperty | src/subchunk/script/Handler.ts:493-585 | `set`: an operand without a case adds `null` and pops nothing; otherwise a `null` id is a TypeError, a movie id above 0x05 pops the id and the value and gives `null`, a non-null statement assigns the entry below the id to a property node, and at most four entries are popped off the top |
| LingoProperty.SetNodeAssignsGetNode | src/subchunk/script/Handler.ts:403-585 | each `set` case assigns its value to exactly the reference the `get` case of the same operand builds from the same owner, and fails exactly when that `get` does |
| LingoProperty.SetMovieAssignsGetMovie | src/subchunk/script/Handler.ts:454-458 | the movie cases: the assignment to the movie property `get` reads never fails |
| LingoProperty.SetOwnedAssignsGetOwned | src/subchunk/script/Handler.ts:425-583 | the owned cases: the assignment fails exactly when the reference `get` builds does |
| LingoProperty.SetAssignsWhatGetReads | src/subchunk/script/Handler.ts:403-585 | with the value pushed between the owner and the id, `set` pops the same owner as `get`, assigns the value to the reference `get` builds and leaves the stack `get` leaves under its reference |
| LingoProperty.GetSettingReadsTable | src/subchunk/script/Handler.ts:454-459 | `get 0x07` on an integer id reads the movie setting `MoviePropertyNames07` names; `pushint8 1; get 7` reads `beepOn` |
| LingoProperty.GetMovieIds | src/subchunk/script/Handler.ts:405-417 | `get 0x00` on an integer id: a movie property up to 0x05, a time format up to 0x0b, and above that the last chunk of the string popped next, a TypeError when that string is `null` |
| LingoProperty.GetOnEmptyStack | src/subchunk/script/Handler.ts:405-409 | on an empty stack the id is ERROR, whose value `true` passes `id <= 0x05` but names no entry: the movie property `undefined` |
| LingoTranslate.Translator.TranslateGet | src/subchunk/script/Handler.ts:403-492 | the translation pushed and the stack under it are those of `GetProperty` on the old stack, and it fails exactly when `GetProperty` does |
| LingoTranslate.Translator.TranslateSet | src/subchunk/script/Handler.ts:493-585 | the statement and the stack left are those of `SetProperty` on the old stack; the statement is appended to the current block, and with no current block it is a TypeError |
| LingoTranslate.Translator.PopSetStatement | src/subchunk/script/Handler.ts:494-583 | the pops of `set` and the statement built from them are those of `SetProperty` |
| LingoTranslate.Translator.OnlyIfTrueEntersBlock | src/subchunk/script/Handler.ts:363-370 | only iftrue changes the current block, and when it adds its statement the new block, the next one of the tree, becomes current |
| LingoScript.MapEntryAt | src/subchunk/script/ScriptMapEntry.ts:13-23 | `literals_data` reads its length as uint32 and every other section as uint16; the offset is always a uint32; only `handler_vectors` has uint32 flags; an error exactly when the entry does not fit |
| LingoScript.EntrySizes | src/subchunk/script/ScriptMapEntry.ts:13-23 | an entry takes 10 bytes for `handler_vectors`, 8 for `literals_data` and 6 for every other section |
| LingoScript.ReadMapEntry | src/subchunk/script/ScriptMapEntry.ts:13-23 | the entry `MapEntryAt` describes, the cursor moved past it |
| LingoScript.ReadHeader | src/chunk/Script.ts:47-55 | four big-endian fields from offset 8 and the behaviour flags at 38; an error exactly when the header does not fit |
| LingoScript.ReadSections | src/chunk/Script.ts:56-62 | six entries in `MAP_ENTRIES` order, back to back from offset 50; an error exactly when the table does not fit |
| LingoScript.ReadHandlerRecords | src/chunk/Script.ts:66-72 | exactly `handlers.len` records, 46 bytes apart from `handlers.offset`; an error exactly when a non-empty table does not fit |
| LingoScript.ReadHandlerData | src/chunk/Script.ts:73-75 | once all records are read, each handler's code and name tables as `readData` gives them, in record order |
| LingoScript.ReadLiterals | src/chunk/Script.ts:77-87 | exactly `literals.len` records, 8 bytes apart, and only after all of them each literal's value resolved against `literals_data.offset` |
| LingoScript.ReadScript | src/chunk/Script.ts:46-88 | the stream is big-endian afterwards whatever it was; header, section table, the property and global ID tables of the lengths their sections declare, handlers and literals, each where its section says |
| LingoScript.ReadNames | src/chunk/Script.ts:99-106 | every property, global, handler, argument and local ID is looked up in the names table, `undefined` past its end, in order |
| LingoScript.ScriptText | src/chunk/Script.ts:114-116 | the script's text exists exactly when every handler's does |
| LingoScript.ScriptTextJoins | src/chunk/Script.ts:114-116 | the script's text is the handlers' texts in order, joined by "\n\n" |
| LingoContext.NameAt | src/chunk/ScriptNames.ts:31-32 | a name is never longer than its length byte |
| LingoContext.NamesOntoLength | src/chunk/ScriptNames.ts:29-34 | reading `count` names pushes exactly `count` names after the ones already there, which are kept |
| LingoContext.NamesOntoShort | src/chunk/ScriptNames.ts:31-32 | every name pushed is at most 255 characters, since its length is one byte |
| LingoContext.NamesShort | src/chunk/ScriptNames.ts:28-34 | a names table holds exactly `nameCount` names, each under 256 characters |
| LingoContext.BytesOf | src/chunk/ScriptNames.ts:32 | a storable name's bytes read back as the name |
| LingoContext.NameStored | src/chunk/ScriptNames.ts:31-32 | a name stored as a length byte and its bytes reads back as the name, and what follows starts where the name ends |
| LingoContext.NamesOntoAt | src/chunk/ScriptNames.ts:28-34 | a stored names table reads back as its names, pushed in order |
| LingoContext.NamesRoundTrip | src/chunk/ScriptNames.ts:28-34 | encoding a list of names and reading `nameCount` names back gives the same list in file order, whatever follows the table |
| LingoContext.NamesOntoFails | src/chunk/ScriptNames.ts:31 | a length byte past the end of the buffer is a RangeError |
| LingoContext.ReadNamesHeader | src/chunk/ScriptNames.ts:21-26 | two int32, two uint32 and two uint16 fields in that order, 20 bytes; an error exactly when they do not fit |
| LingoContext.ReadName | src/chunk/ScriptNames.ts:31-33 | one pass reads a length byte and that many bytes, and moves that name from the names still to read onto those read |
| LingoContext.ReadNames | src/chunk/ScriptNames.ts:28-34 | exactly the names table `NamesFrom` describes from `namesOffset` |
| LingoContext.ReadNamesChunk | src/chunk/ScriptNames.ts:17-35 | big-endian afterwards; the header from the current position, then `nameCount` names from `namesOffset`; an error exactly when the header or a length byte is past the end |
| LingoContext.SectionEntryAt | src/subchunk/scriptcontext/ScriptContextMapEntry.ts:12-17 | an entry is int32, int32, uint16, uint16, 12 bytes; an error exactly when it does not fit |
| LingoContext.ReadSectionEntry | src/subchunk/scriptcontext/ScriptContextMapEntry.ts:12-17 | the entry `SectionEntryAt` describes, the cursor moved past it |
| LingoContext.ReadContextHead | src/chunk/ScriptContext.ts:34-39 | the first six header fields in order, signed where the reader reads them signed |
| LingoContext.ReadContextTail | src/chunk/ScriptContext.ts:40-46 | the last seven header fields in order, completing the 42-byte header |
| LingoContext.ReadContextHeader | src/chunk/ScriptContext.ts:34-46 | the thirteen header fields in fixed order; an error exactly when the 42 bytes do not fit |
| LingoContext.ReadSectionMap | src/chunk/ScriptContext.ts:48-54 | exactly `entryCount` entries, 12 bytes apart from `entriesOffset`, in file order; an error exactly when a non-empty map does not fit |
| LingoContext.ReadContextChunk | src/chunk/ScriptContext.ts:30-55 | big-endian afterwards; the header from the current position, then the section map from `entriesOffset` |
| DirectorMovie.InitialMapAt | src/chunk/InitialMap.ts:12-18 | the initial map reads exactly when the count and that many uint32 offsets fit; the count and every offset are the uint32 values at their positions |
| DirectorMovie.ReadInitialMap | src/chunk/InitialMap.ts:12-18 | the reader's result, including its RangeError, is the initial map at the stream's position |
| DirectorMovie.EntryAt | src/subchunk/memorymap/MemoryMapEntry.ts:16-23 | a row reads exactly when its 20 bytes fit: a tag, uint32 length and offset, int16 padding and unknown, int32 link, and the row number it was built with |
| DirectorMovie.ReadEntry | src/subchunk/memorymap/MemoryMapEntry.ts:16-23 | the row reader's result is the row at the stream's position and it advances 20 bytes |
| DirectorMovie.EntriesAt | src/chunk/MemoryMap.ts:33-36 | `count` rows read exactly when they fit; row k is the row at p + 20k numbered k |
| DirectorMovie.Kept | src/chunk/MemoryMap.ts:37-40 | filtering never lengthens the table |
| DirectorMovie.KeptMembers | src/chunk/MemoryMap.ts:37-40 | a row is kept exactly when it is in the table and its tag is neither free nor junk |
| DirectorMovie.KeptInTableOrder | src/chunk/MemoryMap.ts:33-40 | kept rows keep strictly increasing row numbers, each naming its own row of the table |
| DirectorMovie.KeptAppend | src/chunk/MemoryMap.ts:37-40 | one more row extends the kept rows by that row unless it is free or junk |
| DirectorMovie.MemoryMapHeaderAt | src/chunk/MemoryMap.ts:19-28 | the 24-byte header reads exactly when it fits: two uint16 and five int32 fields at their offsets |
| DirectorMovie.ReadMemoryMapHeader | src/chunk/MemoryMap.ts:19-28 | the header reader returns the header at the stream's position and advances 24 bytes |
| DirectorMovie.ReadInt32s | src/chunk/MemoryMap.ts:25-28 | four int32 reads succeed exactly when 16 bytes remain, otherwise fail with RangeError, and give the four values in order |
| DirectorMovie.MemoryMapAt | src/chunk/MemoryMap.ts:19-42 | the memory map reads exactly when its header and chunkCountUsed rows (none when negative) fit; its rows are the kept rows of the table |
| DirectorMovie.MemoryMapRows | src/chunk/MemoryMap.ts:33-40 | no kept row is free or junk, every row number is below the row count, and row numbers increase |
| DirectorMovie.EntriesAtSnoc | src/chunk/MemoryMap.ts:33-36 | reading one more row extends the table by exactly that row |
| DirectorMovie.ReadRows | src/chunk/MemoryMap.ts:33-40 | the loop returns the kept rows of the table at the stream's position, or the table's own error |
| DirectorMovie.ReadMemoryMap | src/chunk/MemoryMap.ts:19-42 | the reader's result is the memory map at the stream's position |
| DirectorMovie.TagFound | src/Movie.ts:129-138 | the tag found equals the expected one exactly when the header says it, or says XFIR where RIFX is expected |
| DirectorMovie.CheckHeader | src/Movie.ts:143-173 | the header check passes exactly when the tag matches and each length or offset the caller knows matches, fails otherwise with InvalidDirectorFile, and copies 4 bytes for RIFX and the header's length otherwise |
| DirectorMovie.UnknownFieldsAdoptHeader | src/Movie.ts:146-151 | with no length or offset known, the check passes for the header's own tag and fails for any other |
| DirectorMovie.ChunkHeader | src/Movie.ts:127-140 | the chunk header reads exactly when 8 bytes remain; its tag is the found tag and its length the uint32 in the byte order after the header |
| DirectorMovie.ReadChunkHeader | src/Movie.ts:127-140 | the header reader returns the chunk header, switches to little-endian on XFIR where RIFX is expected, and advances 8 bytes |
| DirectorMovie.ReadChunkBody | src/Movie.ts:176-193 | a chunk read carries the expected tag and a cast or unimplemented chunk only stands for a tag without a parser; tags without a reader of their own always succeed; imap and mmap succeed exactly when their layouts read |
| DirectorMovie.ReadMapChunk | src/Movie.ts:176-193 | the RIFX, imap and mmap readers build a chunk of that tag from the payload; RIFX always succeeds, imap and mmap exactly when their layouts read |
| DirectorMovie.ReadScriptChunk | src/Movie.ts:176-193 | the LctX, Lnam and Lscr readers build a chunk of that tag whose contents are the layout of the payload |
| DirectorMovie.ReadChunkAt | src/Movie.ts:125-198 | the outcome of `readChunk`: RangeError when the header does not fit, the header check's error when it fails, and otherwise a chunk of the expected tag read from the payload after the header |
| DirectorMovie.OutcomeRead | src/Movie.ts:125-198 | a chunk read successfully carries the expected tag and was read from its payload |
| DirectorMovie.ReadMmapAt | src/Movie.ts:61-62 | an mmap read at its offset is a memory-map chunk whose rows come in table order |
| DirectorMovie.MmapRead | src/chunk/MemoryMap.ts:33-40 | an mmap read from its payload keeps its rows in table order |
| DirectorMovie.Movie.constructor | src/Movie.ts:8-11 | the movie starts with no chunks, no buckets and no rows filed |
| DirectorMovie.Movie.AddChunk | src/Movie.ts:84-91 | the tag's bucket, created when missing, gains the chunk at its end and no other bucket changes |
| DirectorMovie.Movie.Record | src/Movie.ts:192-197 | a built chunk and its payload join the end of the chunks and buffers |
| DirectorMovie.Movie.ReadChunk | src/Movie.ts:125-198 | on failure nothing is recorded; on success exactly one chunk, read as `readChunk` reads it, and its payload are recorded; buckets and rows are untouched |
| DirectorMovie.Movie.ChunkForRow | src/Movie.ts:66-77 | a row reaches the RIFX, imap or mmap object already built, or a chunk newly read with the row's tag |
| DirectorMovie.Movie.FileRow | src/Movie.ts:78-79 | filing one row keeps every filed row reaching a chunk of its tag, other rows untouched and each bucket grown by the rows of its tag |
| DirectorMovie.Movie.PlaceRow | src/Movie.ts:65-80 | one iteration of the row loop extends the three loop facts by one row and keeps the chunks already built |
| DirectorMovie.Movie.PlaceEntries | src/Movie.ts:65-80 | every row of the mmap is filed under its index, reaching a chunk of its tag; indexes of no row keep what they held; each bucket grows by the chunks of its tag's rows, in row order |
| DirectorMovie.PlaceStepKeeps | src/Movie.ts:78-79 | filing row j after `addChunk` extends placement, untouched rows and grown buckets from j rows to j + 1 |
| DirectorMovie.PlacedKeepsKeys | src/Movie.ts:65-80 | placing an mmap's rows files every row's index and loses no index filed before |
| DirectorMovie.LookedUpExtend | src/Movie.ts:60-81 | reading and placing one more mmap at the next offset extends what the mmap loop has done to that offset |
| DirectorMovie.Movie.ReadMeta | src/Movie.ts:37 | the RIFX header is read with nothing known and is recorded as a Meta chunk |
| DirectorMovie.Movie.ReadImap | src/Movie.ts:47 | the imap is read with offset 12 expected and recorded as an initial-map chunk |
| DirectorMovie.Movie.ReadMmap | src/Movie.ts:61-62 | the mmap at an offset of the imap is recorded as a memory-map chunk whose rows come in table order |
| DirectorMovie.Movie.VisitMmap | src/Movie.ts:60-81 | one mmap is read at the offset and recorded; its rows are placed so that each index of the map reaches a chunk of its tag, and no index filed before is lost |
| DirectorMovie.Movie.LookupMmap | src/Movie.ts:32-82 | a codec other than MV93 fails with PathTooNew; on success the first chunk is the MV93 Meta, the second the imap, the k-th mmap is read at the imap's k-th offset, every mmap's rows are filed and the last one's reach chunks of their tags |
| DirectorMovie.Movie.Read | src/Movie.ts:17-30 | every table is emptied and on success the first chunk is the MV93 Meta, the second the imap, and the imap's mmaps are read in order with their rows filed |
| DirectorMovie.Movie.VisitMmaps | src/Movie.ts:60-81 | the k-th mmap is read at the k-th imap offset, every mmap's rows are filed under their indexes, the last mmap's rows reach chunks of their tags, and no index filed before is lost |
| Stream.UintOrZero | src/common/stream.cpp:98-122 | an unsigned read yields the field in the stream's byte order when it fits and 0 when it runs past the end, always below 256^n |
| Stream.CString | src/common/stream.cpp:193-196 | the text kept through a `char *` is the longest NUL-free prefix: no NUL inside, and the next byte, if any, is NUL |
| Stream.CStringOfPlainText | src/common/stream.cpp:193-196 | bytes without NUL survive the copy unchanged |
| Stream.VarIntStep | src/common/stream.cpp:182 | one step keeps the value within 32 bits |
| Stream.StepWithoutWrap | src/common/stream.cpp:182 | below 25 gathered bits one step shifts 7 bits up and appends the low 7 bits of the byte, exactly |
| Stream.ByteOrZero | src/common/stream.cpp:85-92 | the byte at the position, or 0 past the end |
| Stream.VarIntFrom | src/common/stream.cpp:177-185 | the integer ends right after the first byte whose high bit is clear (a byte past the end reads 0 and ends it); every byte before it has the high bit set; the value fits 32 bits |
| Stream.OneByteVarInt | src/common/stream.cpp:177-185 | a byte below 0x80 is a whole integer of one byte |
| Stream.TwoByteVarInt | src/common/stream.cpp:177-185 | a continuation byte and a final byte give the first's low 7 bits above the second's |
| Stream.WriteSizeAsWritten | src/common/stream.cpp:222 | the copy length as written never exceeds the data size |
| Stream.WriteSizeAsWrittenOverruns | src/common/stream.cpp:218-225 | with the cursor past the end of a 4-byte buffer a 1-byte write still copies 1 byte |
| Stream.WriteSize | src/common/stream.cpp:218-225 | the corrected copy length stays inside the buffer, clamps to the room left, and is 0 once the cursor is past the end |
| Stream.WriteSizeAgreesInside | src/common/stream.cpp:222 | while the cursor is inside the buffer the corrected length equals the written one |
| Stream.ReadStream.constructor | src/common/stream.h:85-86 | a new reader holds the data, the byte order and position 0 |
| Stream.ReadStream.Seek | src/common/stream.cpp:45-47 | seek sets the position |
| Stream.ReadStream.Skip | src/common/stream.cpp:49-51 | skip adds to the position |
| Stream.ReadStream.Eof | src/common/stream.cpp:53-55 | eof holds exactly when no byte is left at the position |
| Stream.ReadStream.PastEOF | src/common/stream.cpp:57-59 | pastEOF holds exactly when the position is beyond the last byte, and implies eof |
| Stream.ReadStream.ReadUint | src/common/stream.cpp:98-122 | a read advances by its width whether or not it fits and yields the field or 0; the stream is past its end afterwards exactly when the field did not fit |
| Stream.ReadStream.ReadUint8 | src/common/stream.cpp:85-92 | the byte at the position or 0, advancing one byte |
| Stream.ReadStream.ReadInt8 | src/common/stream.cpp:94-96 | that byte taken as a signed 8-bit value |
| Stream.ReadStream.ReadUint16 | src/common/stream.cpp:98-107 | the 16-bit field or 0, advancing two bytes |
| Stream.ReadStream.ReadInt16 | src/common/stream.cpp:109-111 | that field taken as a signed 16-bit value |
| Stream.ReadStream.ReadUint32 | src/common/stream.cpp:113-122 | the 32-bit field or 0, advancing four bytes |
| Stream.ReadStream.ReadInt32 | src/common/stream.cpp:124-126 | that field taken as a signed 32-bit value |
| Stream.ReadStream.ReadVarInt | src/common/stream.cpp:177-185 | the value read and the position after it are the variable-length integer at the old position |
| Stream.ReadStream.ReadString | src/common/stream.cpp:187-199 | `len` bytes up to their first NUL, or "" when they run past the end; the position advances by `len` either way |
| Stream.ReadStream.ReadPascalString | src/common/stream.cpp:211-214 | a one-byte length, then that many bytes read as a string; the position advances past both |
| Stream.WriteStream.constructor | src/common/stream.h:112-113 | a new writer holds the buffer at position 0 |
| Stream.WriteStream.WriteBytes | src/common/stream.cpp:218-225 | copies the clamped prefix of the data at the cursor, leaving every other byte alone, and advances the cursor by the full data size |
| DirectorUtil.FindLineEnding | src/director/util.cpp:14 | the index found is a line ending, or the end of the text when there is none |
| DirectorUtil.FindLineEndingIsFirst | src/director/util.cpp:14 | no line ending comes before the one found |
| DirectorUtil.Indent | src/director/util.cpp:12-21 | the loop's result is the indented text: each complete line prefixed by two spaces, the unterminated tail dropped |
| DirectorUtil.IndentDropsFragment | src/director/util.cpp:12-21 | text without a line ending indents to "" |
| DirectorUtil.IndentLine | src/director/util.cpp:15-18 | a complete line is emitted as two spaces, the line and its ending, ahead of the rest indented |
| DirectorUtil.HumanVersion | src/director/util.cpp:23-53 | the product version lies between 200 and 1200, is 200 below 1028 and 1200 from 1951 |
| DirectorUtil.HumanVersionMonotone | src/director/util.cpp:23-53 | a later internal version never maps to an earlier product version |
| DirectorUtil.VersionNumber | src/director/util.cpp:56-64 | the printed number has at least `a.b` |
| DirectorUtil.VersionNumberRoundTrip | src/director/util.cpp:56-64 | `major.minor[.patch]` reads back as the version it was printed from, so a zero patch loses nothing |
| DirectorUtil.VersionStringShape | src/director/util.cpp:55-79 | the product name is "Adobe Director " from major version 11, "Macromedia Director " below, followed by "MX 2004 (" at 10 and "MX (" at 9; then the version number (the file's string when it is not empty), closed by ")" at 9 and 10 |
| DirectorUtil.VersionStringRoundTrip | src/director/util.cpp:55-79 | without a file version string, the number inside the product name reads back as the version |
| DirectorUtil.VersionString | src/director/util.cpp:55-79 | the product name `VersionStringShape` and `VersionStringRoundTrip` are stated over: at least 16 characters (the shortest vendor prefix and a non-empty number), starting with `A` (Adobe) from major version 11 and with `M` (Macromedia) below |
| CodeWriter.RepeatAdd | src/common/codewriter.cpp:57-59 | indenting by a levels and then b more is indenting by a + b |
| CodeWriter.CodeWriter.constructor | src/common/codewriter.h:37-38 | a writer starts empty, at level 0, with no indentation written |
| CodeWriter.CodeWriter.WriteIndentation | src/common/codewriter.cpp:53-62 | appends the level's indentation once per line and then marks it written |
| CodeWriter.CodeWriter.Write | src/common/codewriter.cpp:11-17 | an empty string changes nothing; otherwise the pending indentation and the text are appended |
| CodeWriter.CodeWriter.WriteChar | src/common/codewriter.cpp:19-22 | the pending indentation and the character are appended |
| CodeWriter.CodeWriter.WriteLine | src/common/codewriter.cpp:24-32 | the line (indented unless empty) and the line ending are appended, and the next write re-indents |
| CodeWriter.CodeWriter.EndLine | src/common/codewriter.cpp:34-37 | a bare line ending is appended and the next write re-indents |
| CodeWriter.CodeWriter.Indent | src/common/codewriter.cpp:39-41 | the level goes up by one |
| CodeWriter.CodeWriter.Unindent | src/common/codewriter.cpp:43-47 | the level goes down by one but never below 0 |
| CodeWriter.TwoWritesOneIndentation | src/common/codewriter.cpp:11-17 | two writes on one line carry the indentation once |
| FileNames.CleanFileName | src/io/fileio.cpp:50-74 | the length is kept, each forbidden character becomes '_', every other character is unchanged, and no forbidden character remains |
| LingoDecNames.NormalOpcode | src/lingodec/names.cpp:289-290 | codes below 0x40 are kept; every other code maps into 0x40..0x7F with the same remainder modulo 0x40 |
| LingoDecNames.NormalOpcodeIdempotent | src/lingodec/names.cpp:289-290 | normalising an already normalised code changes nothing |
| LingoDecNames.GetOpcodeName | src/lingodec/names.cpp:288-296 | the mnemonic is the table entry of the normalised code; a code the table lacks yields "unk" and two hex digits whose value is the normalised code |
| LingoDecNames.CongruentOpcodesShareName | src/lingodec/names.cpp:288-296 | two codes of 0x40 or more that agree modulo 0x40 get the same mnemonic, whatever the table holds |
| LingoDecNames.UnknownOpcodeNamesDistinct | src/lingodec/names.cpp:292-294 | distinct unknown normalised codes get distinct placeholder mnemonics |
| LingoDecNames.GetStandardName | src/lingodec/names.cpp:298-303 | a name table lookup gives the entry, or "ERROR" for an id the table lacks |
| LingoDecNames.PascalAt | src/lingodec/names.cpp:318-319 | a Pascal string is never longer than its length byte |
| LingoDecNames.PascalEnd | src/lingodec/names.cpp:318-319 | the cursor always moves past the length byte |
| LingoDecNames.NamesOntoShape | src/lingodec/names.cpp:316-320 | the names loop reads exactly `namesCount` names, after those already gathered, and moves the cursor at least one byte per name |
| LingoDecNames.NamesOntoShort | src/lingodec/names.cpp:318-319 | no name read is longer than 255 characters |
| LingoDecNames.PlainNameStored | src/lingodec/names.cpp:318-319 | a stored name without NUL reads back as itself and the cursor lands right after it |
| LingoDecNames.NamesOntoAt | src/lingodec/names.cpp:315-320 | a table of NUL-free names stored at `namesOffset` reads back as those names in order, the cursor stopping at the end of the table |
| LingoDecNames.NamesRoundTrip | src/lingodec/names.cpp:307-324 | encoding a names table and reading it back yields the same names, whatever bytes follow |
| LingoDecNames.UnknownNamesDistinct | src/lingodec/names.cpp:333 | distinct ids get distinct "UNKNOWN_NAME_" placeholders, since the id reads back from the text |
| LingoDecNames.ReadNameTable | src/lingodec/names.cpp:316-320 | the loop yields `count` Pascal strings in order from the cursor, and the cursor ends after the last one |
| LingoDecNames.PascalAtFits | src/lingodec/names.cpp:321-322 | a length byte followed by that many bytes reads back as exactly those bytes |
| LingoDecNames.FirstNameStored | src/lingodec/names.cpp:320-323 | the first name of a stored table of NUL-free names reads back, the cursor lands after it, and the rest of the table is stored from there |
| LingoDecNames.EncodeFirstName | src/lingodec/names.cpp:320-323 | a stored table is the first name's length byte and bytes followed by the rest of the table |
| LingoDecNames.ScriptNames.Read | src/lingodec/names.cpp:307-324 | the stream becomes big-endian; the header fields are the big-endian values at the starting cursor; the names are the table read from `namesOffset` |
| LingoDecNames.ScriptNames.ReadHeader | src/lingodec/names.cpp:311-316 | two int32, two uint32 and two uint16 are read in order, 20 bytes in all; the names are untouched |
| LingoDecNames.ScriptNames.GetName | src/lingodec/names.cpp:330-334 | an id in 0..size-1 gives its name; any other id, negative ones included, gives "UNKNOWN_NAME_" and the id in decimal |
| DirectorLoops.NameOfCases | src/director/chunk.cpp:1174-1178 | `ScriptNamesChunk::getName`, which `NameOf` models: an id inside the table gives its entry; any other id gives `UNKNOWN_NAME_` followed by the id in decimal, which reads back as the id |
| LingoDecNames.ScriptNames.UnknownNamesApart | src/lingodec/names.cpp:326-334 | two distinct invalid ids never share a name |
| LingoDecNames.ScriptNames.constructor | src/lingodec/names.cpp:307-310 | a new names table holds no names |
| LingoDecNames.ScriptNames.ValidName | src/lingodec/names.cpp:326-328 | a valid id indexes the names and gets its entry; an invalid id gets the "UNKNOWN_NAME_" placeholder |
| LingoDecAst.ToInt | src/lingodec/ast.cpp:18-28 | an int gives its value, a float its conversion to `int`, every other datum 0 |
| LingoDecAst.ToIntOfInt | src/lingodec/ast.cpp:18-21 | an int datum converts back to the integer it holds |
| LingoDecAst.Precedence | src/lingodec/ast.cpp:336-360 | 1 exactly for `*`, `/` and `mod`; 2 for `+` and `-`; 3 for the six comparisons; 4 for `and`; 5 for `or`; 0 otherwise |
| LingoDecAst.PrecedenceOrder | src/lingodec/ast.cpp:336-360 | multiplicative operators bind tighter than additive ones, which bind tighter than comparisons, then `and`, then `or` |
| LingoDecAst.SpecialStrings | src/lingodec/ast.cpp:41-66 | the empty string is written EMPTY; a lone ETX, backspace, tab, carriage return or quote by its name |
| LingoDecAst.QuotedStrings | src/lingodec/ast.cpp:67-72 | any other string is written in double quotes, escaped only in the summary form |
| LingoDecAst.DatumText | src/lingodec/ast.cpp:30-111 | the reference definition of `Datum::writeScriptText` the literal lemmas are stated over: an int is never empty and starts with `-` exactly when negative, a symbol starts with `#`, and a plain or property list is bracketed |
| LingoDecAst.NodeText | src/lingodec/ast.cpp:172-334 | the reference definition of a node's `writeScriptText` the parenthesisation lemmas are stated over: a comment starts with `-- `, and a binary operator whose left operand needs parentheses starts with `(` |
| LingoDecAst.IntText | src/lingodec/ast.cpp:73-75 | an int is written in decimal with a leading '-' when negative, and its value reads back from the text |
| LingoDecAst.OnlyListsBracketed | src/lingodec/ast.cpp:79-93 | only a plain list gets brackets: it is the argument list of the same entries in brackets, and both argument list kinds write the same text |
| LingoDecAst.ItemsSameForAnyType | src/lingodec/ast.cpp:85-89 | the entries loop writes the same text whatever the list type |
| LingoDecAst.EmptyLists | src/lingodec/ast.cpp:79-110 | an empty property list is written "[:]", an empty list "[]" and an empty argument list as nothing |
| LingoDecAst.TwoItems | src/lingodec/ast.cpp:85-89 | two list entries are joined by ", " inside the brackets |
| LingoDecAst.OnePair | src/lingodec/ast.cpp:100-106 | a property list pair is written as key, ": ", value inside brackets |
| LingoDecAst.SamePrecedenceNesting | src/lingodec/ast.cpp:304-313 | a left operand of the same precedence is never parenthesised while a right operand that is an operator always is, so `a - b - c` and `a - (b - c)` keep their readings |
| LingoDecAst.LooserLeftParenthesised | src/lingodec/ast.cpp:307-320 | a left operand of another precedence is parenthesised, and the text opens with "(" |
| LingoDecAst.NoPrecedenceNoParens | src/lingodec/ast.cpp:304-313 | around an operator of precedence 0 neither operand is parenthesised |
| LingoDecAst.NoParens | src/lingodec/ast.cpp:770-780 | true only for a statement call named `put` or `return` |
| LingoDecAst.AppendedTwice | src/common/codewriter.cpp:11-22 | two writes in a row append both texts with the line's indentation written once |
| LingoDecAst.Put | src/common/codewriter.cpp:11-22 | one write appends its text, after the indentation if the line has none yet and the text is not empty |
| LingoDecAst.PutAfter | src/common/codewriter.cpp:11-22 | a write after earlier ones extends what has been appended by its text |
| LingoDecAst.WriteNode | src/lingodec/ast.cpp:172-191 | the writer receives exactly the node's text: ERROR, "-- " and the comment, the literal's text, or the operator expression |
| LingoDecAst.WriteNodeAfter | src/lingodec/ast.cpp:172-191 | writing a node after earlier writes extends what has been appended by the node's text |
| LingoDecAst.WriteBinaryOp | src/lingodec/ast.cpp:303-334 | the writer receives the left operand, the operator's name between spaces and the right operand, each in parentheses when the precedence rule asks |
| LingoDecAst.WriteDatum | src/lingodec/ast.cpp:30-112 | the writer receives exactly the datum's text: VOID, "#" and a symbol, a variable name, the string form, decimal digits, or the list form |
| LingoDecAst.WriteList | src/lingodec/ast.cpp:79-110 | a list is written between brackets, an argument list without, a property list between brackets, with ":" when empty |
| LingoDecAst.WriteItems | src/lingodec/ast.cpp:85-89 | the loop writes every entry in order with ", " between them |
| LingoDecAst.WritePairs | src/lingodec/ast.cpp:100-106 | the loop writes every key and value pair in order, ": " inside a pair and ", " between pairs |
| LingoDecAst.Chain | src/lingodec/ast.cpp:150-156 | walking up from a node passes through older nodes only, starting at the node itself |
| LingoDecAst.AncestorFrom | src/lingodec/ast.cpp:150-156 | the walk up ends at a statement or at null, never below where it started |
| LingoDecAst.AncestorIsNearestStatement | src/lingodec/ast.cpp:150-156 | the walk ends at the nearest statement on the way up, and at null exactly when there is none |
| LingoDecAst.ExitTarget | src/lingodec/ast.cpp:128-142 | leaving a block goes to an older block or to null |
| LingoDecAst.ExitReturnsToEnclosingBlock | src/lingodec/ast.cpp:128-142 | leaving the block of a statement returns to the block the statement was added to |
| LingoDecAst.ExitThroughLabels | src/lingodec/ast.cpp:128-142 | leaving a case block passes over its label and returns to the block holding the `case` statement |
| LingoDecAst.Tree.constructor | src/lingodec/ast.h:846-849 | a new tree holds the handler node and its block, parented to the handler, and translation starts in that block |
| LingoDecAst.Tree.NewNode | src/lingodec/ast.h:67 | a new node starts with a null parent and no children |
| LingoDecAst.Tree.NewBlock | src/lingodec/ast.h:168-172 | the block a node owns is created parented to it |
| LingoDecAst.Tree.AddStatement | src/lingodec/ast.cpp:120-122 | the statement is appended to the current block's children and parented to it; nothing else changes |
| LingoDecAst.Tree.EnterBlock | src/lingodec/ast.cpp:124-126 | the current block becomes the given block |
| LingoDecAst.Tree.AncestorStatement | src/lingodec/ast.cpp:150-156 | the loop yields the nearest statement above the node, or null |
| LingoDecAst.Tree.ExitBlock | src/lingodec/ast.cpp:128-142 | the current block becomes the block holding the nearest statement above it, or null when there is no such statement or it is not held by a block |
| LingoDecAst.Tree.ExitRootBlock | src/lingodec/ast.cpp:128-134 | leaving the handler's own block leaves no current block |
| Bytes.Add32 | src/lingodec/script.cpp:231 | the sum of two 32-bit offsets stays 32 bits wide and is the plain sum when that fits |
| Bytes.Add32IsU32 | src/lingodec/script.cpp:231 | the wrapped sum is the sum reduced modulo 2^32 |
| LingoDecScript.NameIdsOnto | src/lingodec/script.cpp:84-91 | the table holds exactly `count` ids after those already read and the cursor ends 2 bytes per id later |
| LingoDecScript.NameIdsAt | src/lingodec/script.cpp:84-91 | the i-th id is the signed 16-bit value 2·i bytes after the table's offset |
| LingoDecScript.ReadVarnamesTable | src/lingodec/script.cpp:84-91 | the method seeks to the offset and reads exactly `count` signed 16-bit ids in order |
| LingoDecScript.TypeWidth | src/lingodec/script.cpp:220-223 | the type field is 4 bytes wide exactly from version 500 on, otherwise 2 |
| LingoDecScript.LiteralRecordAt | src/lingodec/script.cpp:219-225 | a record is a type field, then a 32-bit data offset, and has no value yet |
| LingoDecScript.RecordsOnto | src/lingodec/script.cpp:74-78 | the record loop yields exactly `count` records after those already read |
| LingoDecScript.RecordsAt | src/lingodec/script.cpp:74-78 | record i is read i record widths (6 bytes before version 500, 8 from it) after the first |
| LingoDecScript.RecordsEnd | src/lingodec/script.cpp:74-78 | the record loop ends one record width per record after the start |
| LingoDecScript.RecordOffsetsBounded | src/lingodec/script.cpp:224 | every record's data offset is below 2^32 |
| LingoDecScript.IntLiteralIgnoresData | src/lingodec/script.cpp:228-229 | an int literal is its offset field as a signed 32-bit value, independent of the literal data and its start |
| LingoDecScript.StringLiteralRoundTrip | src/lingodec/script.cpp:230-234 | a string stored as its length plus one and its NUL-free bytes reads back as exactly those bytes |
| LingoDecScript.ZeroLengthStringLiteral | src/lingodec/script.cpp:230-234 | a stored length of 0 wraps to a 2^32 - 1 byte read, which in a buffer below 4 GiB yields "" |
| LingoDecScript.StringLiteralValue | src/lingodec/script.cpp:230-234 | a string literal's data sits at the sum of the start and its offset, reduced modulo 2^32 |
| LingoDecScript.LiteralValue | src/lingodec/script.cpp:227-248 | the reference definition `ReadLiteralValues` is proved against: an int literal is a signed 32-bit value congruent to its offset modulo 2^32, a string literal is a string datum, a float keeps its value and any other type is VOID |
| LingoDecScript.OtherLiteralsVoid | src/lingodec/script.cpp:243-245 | a type other than string, int or float gives a void datum |
| LingoDecScript.ReadLiteralRecord | src/lingodec/script.cpp:219-225 | the method reads a 32-bit type from version 500 on and a 16-bit one before, then a 32-bit offset, and moves past both |
| LingoDecScript.ReadLiteralData | src/lingodec/script.cpp:227-247 | the record keeps its type and offset and gets the value its type and the literal data give |
| LingoDecScript.ReadStringLiteral | src/lingodec/script.cpp:231-234 | the method yields the text of `length - 1` bytes (in 32 bits) after the 32-bit length |
| LingoDecScript.ReadLiteralRecords | src/lingodec/script.cpp:74-78 | the loop reads exactly `count` records in order from the cursor |
| LingoDecScript.ReadLiteralValues | src/lingodec/script.cpp:79-81 | every record gets its value from the literal data, in place and in order |
| LingoDecScript.HasFlag | src/lingodec/script.cpp:213-215 | a flags word below the bit never has it, and the bit alone has it |
| LingoDecScript.GenericEventMarks | src/lingodec/script.cpp:58-64 | one mark per handler; only the first is set, and only when the event-script flag is |
| LingoDecScript.NamesOf | src/lingodec/script.cpp:106-119 | the names kept are never more than the ids |
| LingoDecScript.NamesOfFromTable | src/lingodec/script.cpp:107-109 | every name kept comes from the names table: an invalid id adds no placeholder |
| LingoDecScript.FactoryDropsMe | src/lingodec/script.cpp:110-111 | in a factory "me" is never a property name |
| LingoDecScript.AllValidKept | src/lingodec/script.cpp:115-119 | without the "me" rule, ids that are all valid give their names one for one, in order |
| LingoDecScript.InvalidIdsDropped | src/lingodec/script.cpp:107 | ids that are all outside the table give no names |
| LingoDecScript.CollectNames | src/lingodec/script.cpp:106-119 | the loop keeps the names of the valid ids in order, skipping "me" when asked |
| LingoDecScript.ReadLengths | src/lingodec/script.cpp:28-34 | the fields from offset 8 hold the two lengths, the header length, the script number and two signed 16-bit values |
| LingoDecScript.ReadFlags | src/lingodec/script.cpp:36-41 | the fields from offset 38 hold the flags, a signed 16-bit value, the signed cast id, the factory name id and the vector count; the stream ends at offset 52 |
| LingoDecScript.ReadVectors | src/lingodec/script.cpp:42-47 | the fields from offset 52 hold the handler vectors' offset and size and the property and global tables' counts and offsets; the stream ends at offset 72 |
| LingoDecScript.ReadTables | src/lingodec/script.cpp:48-53 | the fields from offset 72 hold the handler and literal tables' counts and offsets and the literal data's count and offset |
| LingoDecScript.ReadHeader | src/lingodec/script.cpp:27-53 | every header field holds the big-endian value at its fixed offset |
| LingoDecScript.Script.constructor | src/lingodec/script.cpp:18-20 | a new script holds its version and no names yet |
| LingoDecScript.Script.Read | src/lingodec/script.cpp:24-82 | big-endian whatever the file's order: the header, the two id tables of the declared lengths, the generic-event marks, and every literal record read before any data, each with the value its data gives; no name is touched |
| LingoDecScript.Script.SetContext | src/lingodec/script.cpp:101-119 | the factory name is looked up when its id is not -1; the valid property ids' names are appended ("me" skipped in a factory), then the valid global ids' names |
| LingoDecScript.Script.IsFactory | src/lingodec/script.cpp:213-215 | `isFactory`: the factory bit is set only in flags at least that bit's value, and flags equal to the bit alone are a factory |
| LingoDecContext.EntryAt | src/lingodec/context.cpp:79-84 | an entry's section id is a signed 32-bit value |
| LingoDecContext.ReadEntry | src/lingodec/context.cpp:79-84 | two int32 and two uint16 are read in order, 12 bytes in all |
| LingoDecContext.EntriesOnto | src/lingodec/context.cpp:39-42 | the map holds exactly `count` entries after those already read, which it keeps |
| LingoDecContext.EntriesAt | src/lingodec/context.cpp:38-42 | entry i is the 12 bytes at 12·i past the map's offset |
| LingoDecContext.ReadEntries | src/lingodec/context.cpp:39-42 | the loop reads exactly `count` entries in order from the cursor |
| LingoDecContext.Linked | src/lingodec/context.cpp:45-52 | after n entries only slots 1..n can be filled |
| LingoDecContext.LinkedSlot | src/lingodec/context.cpp:45-52 | slot k is filled exactly when entry k - 1 has a section id above -1, and then with the resolver's script for that id |
| LingoDecContext.LinkCount | src/lingodec/context.cpp:45-52 | no script is linked more often than there are entries |
| LingoDecContext.LinkCountPositive | src/lingodec/context.cpp:45-52 | a script is linked at least once exactly when it fills some slot |
| LingoDecContext.LinkedValues | src/lingodec/context.cpp:45-52 | the scripts in the slots are exactly the resolver's scripts for the named sections |
| LingoDecContext.UntargetedNeverLinked | src/lingodec/context.cpp:45-52 | a script the resolver never gives for a named section is never linked |
| LingoDecContext.Applied | src/lingodec/script.cpp:103-119 | one more `setContext` replaces the factory name when there is one and only appends to the name lists |
| LingoDecContext.AppliedStep | src/lingodec/context.cpp:48-49 | one more `setContext` takes a script from k applications to k + 1 |
| LingoDecContext.AppliedTwice | src/lingodec/context.cpp:48-49 | a script linked twice gets its names twice: `setContext` is not idempotent when there are property names |
| LingoDecContext.LinkScripts | src/lingodec/context.cpp:45-52 | the slots are filled as the entries say, and every script ends with one `setContext` per slot it fills, applied to its names before the loop |
| LingoDecContext.ParentSlot | src/lingodec/context.cpp:57 | the parent slot is a uint32_t key, one past the parent number when that fits |
| LingoDecContext.ParentSlotIsU32 | src/lingodec/context.cpp:57 | the slot is the parent number plus one reduced modulo 2^32 |
| LingoDecContext.FactoriesAreChildren | src/lingodec/context.cpp:54-60 | every script filed under t is a linked factory whose parent slot holds t |
| LingoDecContext.FactoryFiled | src/lingodec/context.cpp:54-60 | a linked factory whose parent slot is filled is filed under that parent |
| LingoDecContext.FileFactories | src/lingodec/context.cpp:54-60 | each script's factories become its old ones followed by the factories whose parent slot holds it, in slot order |
| LingoDecContext.ParentLookupAsWritten | src/lingodec/context.cpp:57 | a missing parent slot is inserted holding null and the lookup yields that null |
| LingoDecContext.ParentMinusOneIsNull | src/lingodec/context.cpp:57 | a factory with parent number -1 looks up slot 0, which linking never fills, and gets null |
| LingoDecContext.ReadCounts | src/lingodec/context.cpp:24-29 | two int32, two uint32, a uint16 and an int16 are read in order, 20 bytes in all |
| LingoDecContext.ReadIds | src/lingodec/context.cpp:30-36 | four int32, two uint16 and an int16 follow, read from 20 bytes past the header's start |
| LingoDecContext.ReadContextHeader | src/lingodec/context.cpp:24-36 | the header fields are the big-endian values at the starting cursor |
| LingoDecContext.FileFactory | src/lingodec/context.cpp:55-59 | one script of the factory loop: each script's factories gain exactly the ones filed under it from that slot |
| LingoDecContext.ScriptContext.constructor | src/lingodec/context.cpp:20 | a new context has no names table, no section map and no scripts |
| LingoDecContext.ScriptContext.ReadHeader | src/lingodec/context.cpp:22-42 | big-endian whatever the file's order; the header fields are the values at the starting cursor and the section map is `entryCount` entries from `entriesOffset` |
| LingoDecContext.ScriptContext.Read | src/lingodec/context.cpp:20-61 | the header and section map as read, the names chunk of `lnamSectionID`, the slots filled as the entries say, every linked script given the names once per slot, the factories filed, and no other script touched |
| LingoDecContext.LinkAndFile | src/lingodec/context.cpp:45-60 | the linking loop then the factory loop: the slots as the entries say, one `setContext` per slot a script fills, its factories appended in slot order, and every script outside the slots untouched |
| LingoDecContext.ScriptContext.ReadScripts | src/lingodec/context.cpp:44-60 | the names chunk, the linking loop and the factory loop, touching only the linked scripts |
| LingoDecContext.ScriptContext.GetName | src/lingodec/context.cpp:63-69 | the id's name when the names table finds it valid, the placeholder otherwise |
| LingoDecContext.ScriptContext.ValidName | src/lingodec/context.cpp:63-65 | `validName` is the names table's range check: valid exactly for an index into the names, which then gives its entry; an invalid id gets the placeholder |
| DirectorChunk.ItemView | src/director/chunk.cpp:760-765 | item i's view starts at its offset from the list, and when the next offset (or `itemsLen` for the last item) is not smaller, its size is the difference; otherwise the size_t difference wraps |
| DirectorChunk.ItemsTile | src/director/chunk.cpp:753-766 | read back from an ascending table that stays within `itemsLen`, each item ends where the next begins and the items together span the list from the first offset to `itemsLen` |
| DirectorChunk.PrefixOffsets | src/director/chunk.cpp:805-812 | `updateOffsets` gives one offset per item |
| DirectorChunk.PrefixOffsetAt | src/director/chunk.cpp:805-812 | without wrap-around, item i's offset is the total size of the items before it |
| DirectorChunk.UpdatedOffsetsAscend | src/director/chunk.cpp:805-812 | while the items fit in a uint32 list, the offsets it writes never decrease |
| DirectorChunk.UpdatedItemSpan | src/director/chunk.cpp:805-812 | in the laid-out list, item i spans exactly its own size |
| DirectorChunk.UpdatedOffsetsReadBack | src/director/chunk.cpp:753-812 | round trip: reading back the table `updateOffsets` writes gives every item its own size again |
| DirectorChunk.PascalText | src/director/chunk.cpp:776-785 | an empty item, or one whose length byte overruns it, reads as "" |
| DirectorChunk.PascalTextRoundTrip | src/director/chunk.cpp:776-785 | up to 255 non-NUL bytes written after their length read back unchanged |
| DirectorChunk.ModAdd | src/director/chunk.cpp:809 | a uint32 running total wraps the same whether the wrap is taken before or after each addition |
| DirectorChunk.Apply | src/director/chunk.cpp:525-614 | one checksum step on uint32: a step is undefined exactly when it divides by a divisor that is 0 as uint32, and otherwise stays in uint32 |
| DirectorChunk.Mul32 | src/director/chunk.cpp:525 | `check *=` wraps to uint32 |
| DirectorChunk.Run | src/director/chunk.cpp:522-614 | the steps applied in order keep the running check in uint32 |
| DirectorChunk.RunUndefined | src/director/chunk.cpp:528-534 | a run is undefined exactly when one of its steps divides by zero, from any starting value |
| DirectorChunk.XorBound | src/director/chunk.cpp:616 | the XOR of two values' low bits fits in those bits |
| DirectorChunk.Xor32 | src/director/chunk.cpp:616 | `^` on two uint32 values is a uint32 |
| DirectorChunk.XorTwice | src/director/chunk.cpp:616 | XOR with the same value twice gives the value back, so the last step loses nothing |
| DirectorChunk.Checksum | src/director/chunk.cpp:519-620 | the checksum, when defined, is a uint32 |
| DirectorChunk.ChecksumUndefined | src/director/chunk.cpp:528-534 | the checksum is undefined exactly when movieTop + 3 or movieBottom + 5 is 0 as a uint32 |
| DirectorChunk.ChecksumEndianFreeBeforeD7 | src/director/chunk.cpp:552-559 | before Director 7 the checksum does not depend on the file's byte order |
| DirectorChunk.ChecksumSwapsColourBytes | src/director/chunk.cpp:552-559 | from Director 7 on, a little-endian file's checksum is the big-endian checksum with the stage colour's G and B bytes swapped |
| DirectorChunk.Unprotected | src/director/chunk.cpp:622-627 | `fileVersion` becomes `directorVersion`, protection is moved one up off a multiple of 23 and is otherwise kept, and nothing else changes |
| DirectorChunk.UnprotectIdempotent | src/director/chunk.cpp:622-627 | unprotecting twice is unprotecting once |
| DirectorChunk.ReadInitialMap | src/director/chunk.cpp:677-684 | the six uint32 fields at the cursor, which moves 24 bytes |
| DirectorChunk.ReadMapEntry | src/director/subchunk.cpp:24-31 | the 20-byte entry at the cursor, which moves 20 bytes |
| DirectorChunk.EntriesAt | src/director/chunk.cpp:888-891 | the entries after the header are as many as counted |
| DirectorChunk.MemoryMapAt | src/director/chunk.cpp:880-892 | the map is read exactly when its used count, read signed, is not negative, and then it has that many entries |
| DirectorChunk.ReadMemoryMap | src/director/chunk.cpp:880-892 | reads the header and the entries it counts at the cursor |
| DirectorChunk.ReadMapEntries | src/director/chunk.cpp:889-891 | the counted entries, one every 20 bytes |
| DirectorChunk.MemoryMapSize | src/director/chunk.cpp:894-896 | for a map laid out as `write` emits it, `size()` is 24 bytes plus 20 per entry |
| DirectorChunk.ListChunk.constructor | src/director/chunk.cpp:734-738 | a new list chunk has an empty table and no items |
| DirectorChunk.ListChunk.ReadHeader | src/director/chunk.cpp:740-742 | `dataOffset` is the uint32 at the cursor, and the cursor moves 4 bytes |
| DirectorChunk.ListChunk.ReadOffsetTable | src/director/chunk.cpp:744-751 | at `dataOffset`, a uint16 count, then that many uint32 offsets, each at its own place; the cursor ends after the table |
| DirectorChunk.ListChunk.ReadItems | src/director/chunk.cpp:753-766 | `itemsLen` is the uint32 at the cursor, the item byte order is the stream's, and there is one view per table entry, measured from just after `itemsLen` |
| DirectorChunk.ListChunk.Read | src/director/chunk.cpp:734-738 | the whole list layout: header, table and items, each at the place the previous one gives |
| DirectorChunk.ListChunk.ReadString | src/director/chunk.cpp:768-774 | "" for an index past the table; otherwise the item's bytes up to its first NUL, defined exactly when the view lies inside the file |
| DirectorChunk.ListChunk.ReadPascalString | src/director/chunk.cpp:776-785 | "" past the table; otherwise the length-prefixed text of the item |
| DirectorChunk.ListChunk.ReadUint16 | src/director/chunk.cpp:787-793 | 0 past the table; otherwise the uint16 at the start of the item in the item byte order (0 when it is shorter) |
| DirectorChunk.ListChunk.ReadUint32 | src/director/chunk.cpp:795-801 | 0 past the table; otherwise the uint32 at the start of the item |
| DirectorChunk.ListChunk.UpdateOffsets | src/director/chunk.cpp:805-812 | the offsets become the running uint32 totals of the item sizes, and `itemsLen` their wrapped total |
| DirectorChunk.ListChunk.OffsetTableSize | src/director/chunk.cpp:828-833 | two bytes of count and four per offset |
| DirectorChunk.ListChunk.ItemsSize | src/director/chunk.cpp:835-841 | lays the items out, then counts `itemsLen` and its 4-byte field |
| DirectorChunk.ListChunk.Size | src/director/chunk.cpp:816-822 | the header, the table and the laid-out items; unless the items overflow a uint32 list, 10 bytes plus 4 per item plus the items' own total |
| DirectorChunk.ConfigChunk.constructor | src/director/chunk.cpp:407-462 | a config chunk holds the fields, checksum and byte order it is given |
| DirectorChunk.ConfigChunk.ComputeChecksum | src/director/chunk.cpp:519-620 | the running uint32 check computes the checksum function, or reports the division by zero |
| DirectorChunk.ConfigChunk.RunSteps2To10 | src/director/chunk.cpp:525-550 | steps 2 to 10 computed in place agree with the step list, undefined exactly when it is |
| DirectorChunk.ConfigChunk.RunSteps11To19 | src/director/chunk.cpp:552-587 | steps 11 to 19, with their version-dependent operands, agree with the step list |
| DirectorChunk.ConfigChunk.RunSteps20To28 | src/director/chunk.cpp:589-614 | steps 20 to 28 agree with the step list and are always defined |
| DirectorChunk.ConfigChunk.RefreshChecksum | src/director/chunk.cpp:473 | after the refresh `write` makes, the stored checksum matches the computed one, so `read` would not warn |
| DirectorChunk.ConfigChunk.Unprotect | src/director/chunk.cpp:622-627 | the fields become their unprotected form |
| DirectorFile.InfoTableRow | src/director/dirfile.cpp:91-107 | the chunk table has a row for exactly the entries that are neither free nor junk, each made from its entry under its own index |
| DirectorFile.KeptIdsRow | src/director/dirfile.cpp:91-107 | the table's ids are exactly the kept entries' indices |
| DirectorFile.KeptIdsIncreasing | src/director/dirfile.cpp:91-107 | the ids are in increasing order, the order in which the `std::map` iterates them |
| DirectorFile.BucketRow | src/director/dirfile.cpp:109 | each tag lists exactly the kept entries with that tag |
| DirectorFile.BucketIncreasing | src/director/dirfile.cpp:109 | each tag lists its ids in increasing order, as the loop pushes them |
| DirectorFile.ReadTableConsistent | src/director/dirfile.cpp:91-110 | what the loop builds from a table of int32 size is consistent: every row under its id, no free or junk row, and each tag listing exactly the ids of its rows, increasing |
| DirectorFile.ChunkOf | src/director/dirfile.cpp:465-511 | a chunk is made exactly for the tags `makeChunk` knows (an mmap also needs a non-negative count), keeps the tag asked for, reads an imap or mmap from the bytes, and can be written exactly when it is an imap, mmap, cast member or config |
| DirectorFile.ChunkOfView | src/director/dirfile.cpp:507-508 | a chunk is made from a view only when the view lies inside its buffer, and then from the view's bytes |
| DirectorFile.ChunkDataAt | src/director/dirfile.cpp:440-463 | the body is returned exactly when the header's tag and length are the expected ones (any length when UINT32_MAX is expected), as a view of the length in the header right after it |
| DirectorFile.ChunkAt | src/director/dirfile.cpp:434-438 | a chunk read at an offset has the tag asked for |
| DirectorFile.MapsAt | src/director/dirfile.cpp:81-89 | `readMemoryMap` yields an imap chunk and, where it points, an mmap chunk with at most int32-many entries |
| DirectorFile.EncodeU32Reads | src/director/dirfile.cpp:683-684 | a header word `writeChunk` writes reads back as itself in the same byte order |
| DirectorFile.ChunkDataRoundTrip | src/director/dirfile.cpp:440-463 | round trip: a chunk written as tag, length and body reads back, against its own tag and length, as a view of exactly that body |
| DirectorFile.CachedAsWritten | src/director/dirfile.cpp:368-370 | as written: whatever tag is asked for, a cached chunk is returned |
| DirectorFile.Cached | src/director/dirfile.cpp:368-387 | corrected: a cached chunk is returned only when its tag is the one asked for, and is an error otherwise |
| DirectorFile.InitialMapServedAsScript | src/director/dirfile.cpp:368-370 | after `readMemoryMap`, asking for script 1 hands back the initial map, while the checked lookup refuses |
| DirectorFile.NextFree | src/director/dirfile.cpp:625-631 | the free link from slot j is -1 or a slot at or after j |
| DirectorFile.NextFreeIsFirst | src/director/dirfile.cpp:625-631 | the link found from j is a free slot and no free slot lies between j and it; -1 means no free slot is left |
| DirectorFile.NextFreeSameTags | src/director/dirfile.cpp:625-631 | the free list depends only on the tags of the slots |
| DirectorFile.RegeneratedReadsBack | src/director/dirfile.cpp:549-632 | reading a generated map back gives the same chunk table: rows for slots 0 to 2 and every table id, with their tags, and none for free slots |
| DirectorFile.WrittenCodecRoundTrip | src/director/dirfile.cpp:690 | a written file is memory-mapped and is a cast exactly when the original was, so it reads back as the same kind of file |
| DirectorFile.FreeEntries | src/director/dirfile.cpp:567-576 | every slot starts as a free entry |
| DirectorFile.LinkFreeEntries | src/director/dirfile.cpp:624-631 | used slots are kept, each free slot links to the next free slot above it, and the head is the first free slot |
| DirectorFile.ReadRifxHeader | src/director/dirfile.cpp:47-57 | XFIR selects little-endian, the third word is the codec, and the cursor moves past the 12-byte header |
| DirectorFile.BuildTable | src/director/dirfile.cpp:91-110 | the loop builds exactly the row table, the id list and the tag lists of the entries |
| DirectorFile.HeaderEntries | src/director/dirfile.cpp:579-606 | the RIFX entry at 0, the imap at 12 with its 24 bytes, the mmap at 44 with its own size, the next offset after them, and nothing else changed |
| DirectorFile.PlaceStep | src/director/dirfile.cpp:608-620 | placing the next id above 2 where the previous one ends keeps the placement invariant |
| DirectorFile.PlaceEntries | src/director/dirfile.cpp:608-620 | only slots of table ids above 2 change; each gets its tag and length, and they are placed one after another from the start offset |
| DirectorFile.PlacedAll | src/director/dirfile.cpp:608-620 | once every id is placed, the placement is contiguous and ends where the last chunk ends |
| DirectorFile.LinkedSlots | src/director/dirfile.cpp:624-631 | linking keeps every used slot and gives each free slot the link to the next free one |
| DirectorFile.PlaceTable | src/director/dirfile.cpp:567-622 | the RIFX entry spans everything after its header, the imap and mmap are in place, unused slots are free, and table ids above 2 are placed contiguously with their tags and lengths |
| DirectorFile.LayOutEntries | src/director/dirfile.cpp:567-631 | the slots are laid out and then linked into the free list |
| DirectorFile.ContiguousFrame | src/director/dirfile.cpp:608-620 | placement depends only on the slots of the placed ids |
| DirectorFile.LaidOutIsGenerated | src/director/dirfile.cpp:549-632 | the laid-out slots under the standard headers form the map generated for the table |
| DirectorFile.GenerateFor | src/director/dirfile.cpp:549-632 | `generateMemoryMap` for a consistent table: standard headers, one slot per id up to the highest, no junk list, the free list from the first free slot, the mmap at 44 with its own size, and every table chunk placed in id order |
| DirectorFile.DirectorFile.constructor | src/director/dirfile.cpp:33-40 | a new file has nothing read: no table, no cache, no maps |
| DirectorFile.DirectorFile.Read | src/director/dirfile.cpp:46-69 | the byte order from the RIFX tag, the codec from the third word; afterburned exactly for FGDM/FGDC, then an error; an unsupported codec gives false; a memory-mapped codec succeeds exactly when its maps can be read, and the table is then built from them |
| DirectorFile.DirectorFile.IsCast | src/director/dirfile.cpp:687-691 | `isCast` (dirfile.cpp:819-821) decides the codec `writeChunk` writes: MC95 exactly for a cast (MC95 or FGDC) and MV93 for any other file, so a movie (MV93) is never a cast and the written file is a cast exactly when this one is |
| DirectorFile.DirectorFile.ReadMemoryMap | src/director/dirfile.cpp:81-111 | succeeds exactly when the imap and the mmap it points at can be read; both are then cached under ids 1 and 2 and the chunk table is consistent |
| DirectorFile.DirectorFile.ReadChunkData | src/director/dirfile.cpp:440-463 | the header is checked against the tag and length asked for, and the cursor moves past the header and body |
| DirectorFile.DirectorFile.ReadChunk | src/director/dirfile.cpp:434-438 | the checked data at the cursor, deserialised |
| DirectorFile.DirectorFile.MakeChunk | src/director/dirfile.cpp:465-511 | the chunk its tag selects: imap and mmap read from the view in the file's byte order, VWCF and DRCF config chunks read big-endian as `ConfigChunk::read` demands |
| DirectorFile.DirectorFile.GetChunkData | src/director/dirfile.cpp:377-432 | an error when the table has no row with that id and tag; a cached view is returned as it is; otherwise the body is read at the row's offset and remembered |
| DirectorFile.DirectorFile.GetChunk | src/director/dirfile.cpp:368-375 | as written: the cached chunk whatever its tag; otherwise the data is checked, deserialised and cached |
| DirectorFile.DirectorFile.GetChunkChecked | src/director/dirfile.cpp:368-375 | corrected: whatever it returns has the tag asked for |
| DirectorFile.DirectorFile.FirstChunkInfo | src/director/dirfile.cpp:350-356 | the row of the lowest id with the tag, and none exactly when no row has it |
| DirectorFile.DirectorFile.ChunkSize | src/director/dirfile.cpp:638-662 | a writable chunk that has been read is measured by its own size; otherwise its row decides (the font map's size, the uncompressed length when the compression is implemented, else the stored length); an id without a row gives 0 |
| DirectorFile.DirectorFile.GenerateInitialMap | src/director/dirfile.cpp:539-547 | version 1, pointing just past itself (offset 44), with the director version only from version 500 on |
| DirectorFile.DirectorFile.MaxChunkId | src/director/dirfile.cpp:551-556 | the highest table id, or 2 when there is none above it |
| DirectorFile.DirectorFile.Lengths | src/director/dirfile.cpp:614 | every table chunk gets its `chunkSize` in an int32 |
| DirectorFile.DirectorFile.GenerateMemoryMap | src/director/dirfile.cpp:549-632 | the stored map is the one generated for the table with those lengths |
| DirectorLingo.IntDatum | src/director/lingo.h:253-256 | `Datum(int)` is an int datum holding that value |
| DirectorLingo.TextDatum | src/director/lingo.h:261-264 | `Datum(type, string)` has that type and string and no list |
| DirectorLingo.ListDatum | src/director/lingo.h:265-268 | `Datum(type, list)` has that type and list and an empty string |
| DirectorLingo.GetValue | src/director/lingo.cpp:455-457 | a literal gives its own datum, and every other node a fresh void datum |
| DirectorLingo.ToInt | src/director/lingo.cpp:322-332 | `toInt` is the value of an int, the conversion of a float, and 0 for every other type |
| DirectorLingo.CallKindFollowsArgList | src/director/lingo.h:796-808 | a call is a statement exactly when its argument list is a no-return list, and a method call is classified the same way |
| DirectorLingo.Top | src/director/handler.cpp:163-170 | `pop` gives the top of the stack, or an error node when the stack is empty |
| DirectorLingo.Drop | src/director/handler.cpp:163-170 | `pop` leaves the stack without its top, and leaves an empty stack empty |
| DirectorLingo.Pops | src/director/handler.cpp:1088-1092 | n pops give n values |
| DirectorLingo.PopsAt | src/director/handler.cpp:1088-1092 | the k-th of n pops gives the value k below the top, or an error node once the stack ran out |
| DirectorLingo.DropNLeavesBottom | src/director/handler.cpp:1088-1092 | n pops leave all but the top n values, and an empty stack once there were fewer |
| DirectorLingo.PopsFromTop | src/director/handler.cpp:1088-1092 | both facts above for every pop of the sequence at once |
| DirectorLingo.ArgsOf | src/director/handler.cpp:708-731 | an argument list built from n pops has n items |
| DirectorLingo.Errors | src/director/handler.cpp:163-165 | each pop from an empty stack gives an error node |
| DirectorLingo.ArgsWithinStack | src/director/handler.cpp:708-731 | with at least n values on the stack the argument list is the top n values in their stack order, the first argument deepest |
| DirectorLingo.ArgsBeyondStack | src/director/handler.cpp:708-731 | with fewer than n values the list starts with an error node for each missing value and then holds the whole stack |
| DirectorLingo.QuotTowardZero | src/director/handler.cpp:766 | C's integer division by the variable multiplier rounds toward zero: the remainder has the sign of the dividend and is smaller than the divisor |
| DirectorLingo.ChunkRefPriority | src/director/handler.cpp:328-346 | `readChunkRef` builds a char, word, item or line chunk exactly when that kind's first bound is not the literal 0 and the kinds before it are, with that kind's bounds and the string; all four unset give the error comment |
| DirectorLingo.ChunkRef | src/director/handler.cpp:328-346 | the reference definition of `readChunkRef` that `ChunkRefPriority` and the chunk opcodes are stated over: a chunk expression holds the string and the bounds of a kind whose first bound is not the literal 0, and is of one of the four kinds; anything else is the unknown-chunk comment |
| DirectorLingo.Retyped | src/director/handler.cpp:673-686 | `pushlist` and `pushproplist` give a literal the new type and keep its other fields, and leave any other node as it is |
| DirectorLingo.RetypedKeepsItems | src/director/handler.cpp:673-686 | retyping keeps a node an expression (or not) and keeps its list items |
| DirectorLingo.FirstArgAsVariable | src/director/handler.cpp:907-912 | `objcallv4` keeps its argument list's type and length and replaces only the first item, by a variable named after that item's string; an empty or non-literal list is unchanged |
| DirectorLingo.ObjPropIndexAsWritten | src/director/lingo.h:1010-1020 | as written, the constructor keeps the object, the property and the first index |
| DirectorLingo.RangeIndexDroppedAsWritten | src/director/lingo.h:1016-1019 | as written, the range end is always lost: `obj.getProp(#p, i, i2)` builds the same node as `obj.getProp(#p, i)`, with no second index |
| DirectorLingo.ObjPropIndex | src/director/lingo.h:1010-1020 | the corrected constructor keeps both indexes |
| DirectorLingo.ObjCallRewrites | src/director/handler.cpp:1099-1168 | `getAt` with two arguments becomes `obj[i]`, `setAt` with three the assignment `obj[i] = val`, `getProp`/`setProp` with a symbol second argument keep a range end, and any other method stays an object call |
| DirectorLingo.ObjCallTranslation | src/director/handler.cpp:1099-1168 | the reference definition of the `objcall` rewriting that `ObjCallRewrites` and `TranslateNamedOp` are stated over: a method without a dedicated syntax stays the unchanged call, any call left a call is that call, and `hilite` and `delete` forms come from a one-argument list |
| DirectorLingo.PutTypeOf | src/director/handler.cpp:918 | the put type is the operand's second nibble, below 16 |
| DirectorLingo.VarTypeOf | src/director/handler.cpp:919 | the variable type is the operand's low nibble, below 16 |
| DirectorLingo.PutOperandFields | src/director/handler.cpp:916-923 | a byte operand is exactly its put type times 16 plus its variable type |
| DirectorLingo.TableName | src/director/lingo.cpp:313-318 | `getName` gives the table's entry for the id taken as unsigned, and "ERROR" when it has none |
| DirectorLoops.NewBytecode | src/director/lingo.h:348-351 | a new instruction keeps its opcode byte, operand and position, folds opcodes from 0x40 up onto 0x40-0x7f, and starts untagged with no owner loop (UINT32_MAX) |
| DirectorLoops.OperandWidth | src/director/handler.cpp:83-103 | opcodes from 0xc0 have a four-byte operand, from 0x80 two bytes, from 0x40 one byte, and lower ones none |
| DirectorLoops.OperandRange | src/director/handler.cpp:82-103 | a missing operand is 0; four-byte operands and the `pushint` operands are signed values of their width whose bytes are the ones read; the others are the unsigned value read |
| DirectorLoops.DecodeFacts | src/director/handler.cpp:75-107 | `readData` decodes instructions from the code's start, each the opcode byte at its position with the operand after it, each starting right after the previous one's operand, all before the code's end |
| DirectorLoops.DecodeFrom | src/director/handler.cpp:75-107 | the reference definition of `readData`'s decoding loop that `DecodeFacts` and `ReadData` are stated over: at most one instruction per byte before `end`, the first being the opcode byte at the start |
| DirectorLoops.DecodedEach | src/director/handler.cpp:77-105 | each decoded instruction is the byte at its position with its operand, and starts before the code's end |
| DirectorLoops.DecodedAt | src/director/handler.cpp:77-105 | the k-th decoded instruction is at or after the start and before the end, and is its opcode byte with its operand |
| DirectorLoops.DecodedConsecutive | src/director/handler.cpp:77-79 | each instruction starts right after its predecessor's opcode and operand |
| DirectorLoops.DecodedPositionsIncrease | src/director/handler.cpp:77-106 | decoded positions strictly increase, so no two instructions share one |
| DirectorLoops.PosMapIndexes | src/director/handler.cpp:106 | with increasing positions, `bytecodePosMap` maps each instruction's position to its index and holds nothing else |
| DirectorLoops.PosMapAfter | src/director/handler.cpp:106 | the reference definition of `bytecodePosMap` that `PosMapIndexes` is stated over: its keys are the earlier keys and the instructions' positions, and each new entry is an index among the appended instructions |
| DirectorLoops.PosMapAfterInRange | src/director/handler.cpp:104-106 | every index the map holds is an instruction's |
| DirectorLoops.IndexAt | src/director/handler.cpp:365 | looking a position up gives its index, and 0 (what `operator[]` inserts) for a position no instruction has |
| DirectorLoops.VarnamesTable | src/director/handler.cpp:113-121 | the table holds `count` ids, the k-th the 16-bit value at `offset + 2k` stored as int16 |
| DirectorLoops.VarnamesAreInt16 | src/director/handler.cpp:115-118 | every id is an int16, negative exactly when the stored value is 0x8000 or more |
| DirectorLoops.GetOpFor | src/director/handler.cpp:473-492 | a getter is found exactly for the five setters of a loop variable |
| DirectorLoops.IdentifyLoop | src/director/handler.cpp:448-516 | the result is a loop tag; a with-in result implies the seven instructions before and five after the jump exist, and a with-to result that the comparison and the condition's setter exist |
| DirectorLoops.IdentifyLoopCases | src/director/handler.cpp:448-516 | `identifyLoop` gives with-in exactly when that shape is there, with-to or down-to exactly when with-in is not and the counting shape with step 1 or -1 is, and repeat while otherwise |
| DirectorLoops.LoopEnd | src/director/handler.cpp:359-368 | corrected: a `jmpifz` closes a loop exactly when its jump target's index is at least 1 and the instruction before it is an `endrepeat`; the loop end is that index |
| DirectorLoops.ZeroTargetReadsPastEnd | src/director/handler.cpp:364-366 | as written, a jump target at index 0 (or at no instruction) makes `tagLoops` read at UINT32_MAX, past the end, where the corrected reading finds no loop |
| DirectorLoops.LoneJumpReadsPastEnd | src/director/handler.cpp:364-366 | as written, the handler made of the single instruction `jmpifz 0` reads out of bounds |
| DirectorLoops.CodeOf | src/director/handler.cpp:350-401 | forgetting tags keeps the number of instructions |
| DirectorLoops.SameCodeAt | src/director/handler.cpp:350-401 | codes that differ only in tags agree on every opcode, operand and position |
| DirectorLoops.SetTag | src/director/handler.cpp:371 | setting a tag changes no opcode, operand or position and, for a non-loop tag, adds no loop tag |
| DirectorLoops.SetOwned | src/director/handler.cpp:378-379 | setting a tag and owner changes no opcode, operand or position and, for a non-loop tag, adds no loop tag |
| DirectorLoops.SkipRange | src/director/handler.cpp:374-377 | skipping a range changes no opcode, operand or position and adds no loop tag |
| DirectorLoops.TagWithIn | src/director/handler.cpp:373-383 | the with-in tags change no opcode, operand or position and add no loop tag |
| DirectorLoops.TagWithTo | src/director/handler.cpp:384-395 | the with-to tags change no opcode, operand or position and add no loop tag |
| DirectorLoops.TagStep | src/director/handler.cpp:357-399 | one step of `tagLoops` changes no opcode, operand or position |
| DirectorLoops.TaggedUpTo | src/director/handler.cpp:357-401 | tagging keeps the number of instructions |
| DirectorLoops.LoopRecognitionIgnoresTags | src/director/handler.cpp:359-370 | whether a jump closes a loop, where, and which kind `identifyLoop` finds depend only on opcodes, operands and positions, so earlier tagging does not change them |
| DirectorLoops.TagStepTagsJump | src/director/handler.cpp:370-371 | a `jmpifz` that closes a loop gets the kind `identifyLoop` gives it |
| DirectorLoops.WithInLeavesStart | src/director/handler.cpp:373-383 | the with-in tags leave the loop's own `jmpifz` as it is unless a skipped index falls on it |
| DirectorLoops.WithToLeavesStart | src/director/handler.cpp:384-395 | the with-to tags leave the loop's own `jmpifz` as it is unless a skipped index falls on it |
| DirectorLoops.TagStepAddsNoOtherLoopTag | src/director/handler.cpp:370-399 | a step gives no instruction but its own `jmpifz` a loop tag |
| DirectorLoops.TagStepKeepsLoopTagsOnJumps | src/director/handler.cpp:357-401 | a step keeps the invariant that every loop tag sits on a `jmpifz` that closes a loop and names that loop's kind |
| DirectorLoops.LoopTagsOnlyOnLoopJumps | src/director/handler.cpp:357-401 | after `tagLoops` on untagged code, no opcode, operand or position changed, and every loop tag is on a `jmpifz` closing a loop and is the kind `identifyLoop` gives it |
| DirectorAst.OwnerOf | src/director/lingo.cpp:459-465 | every block but the handler's has a statement counting it among its blocks, and that statement was added to an earlier block, so `ancestorStatement` of a block always finds one |
| DirectorAst.EmptyArenaWellFormed | src/director/lingo.h:458 | the tree the translator starts from, the handler's block alone, is a well-formed arena of one block |
| DirectorAst.ExitTarget | src/director/lingo.cpp:433-447 | `exitBlock` moves to a block created before the current one, and leaves no current block exactly when it starts from the handler's block |
| DirectorAst.LeaveBlock | src/director/handler.cpp:527-536 | the closing loop of `translate` moves to an existing block or to none |
| DirectorAst.LeaveBlockDecreases | src/director/handler.cpp:527-536 | each pass of the closing loop, whether it enters the else block of an if or exits to the enclosing block, lowers a measure, so the loop ends |
| DirectorAst.WithChild | src/director/lingo.cpp:513-516 | `addChild` appends the child to block b's children and changes nothing else in any block |
| DirectorAst.WithChildKeepsTree | src/director/lingo.cpp:425-427 | adding a statement keeps the arena a tree, and changes no block's enclosing loop and no block's exit target |
| DirectorAst.NewStmt | src/director/handler.cpp:844-886 | a new block statement is added after the existing ones with its new blocks appended, the first ending at the jump target and an if's second block at UINT32_MAX; existing blocks and statements are kept |
| DirectorAst.NewStmtKeepsTree | src/director/handler.cpp:1190-1199 | adding a new block statement to an existing block and entering its block keeps the arena a tree |
| DirectorAst.NewStmtLoop | src/director/lingo.cpp:467-473 | inside a new statement's block, `ancestorLoop` finds that statement when it is a loop and otherwise the loop enclosing the block it was added to |
| DirectorAst.NewStmtKeepsLoops | src/director/lingo.cpp:467-473 | adding a statement changes no existing block's `ancestorLoop` |
| DirectorAst.WithElse | src/director/handler.cpp:809-815 | the else amendment sets `hasElse` on that if alone and sets the end of its second block to the jump target, changing nothing else |
| DirectorAst.WithElseKeepsTree | src/director/handler.cpp:809-815 | the else amendment keeps the arena a tree |
| DirectorHandler.RecordAt | src/director/handler.cpp:36-54 | the handler record's fields fit the widths they are read with: a signed 16-bit name id, 16-bit counts and 32-bit offsets; the stack height is 0 unless the file is capital-X |
| DirectorHandler.RecordFieldsAreItsBytes | src/director/handler.cpp:36-54 | the name id, the compiled length and offset, the line offset and the capital-X stack height are the unsigned values of their bytes at the record's fixed offsets |
| DirectorHandler.NameOr | src/director/handler.cpp:137-153 | an id inside the table gives its name; any other id gives the placeholder prefix followed by the id in decimal |
| DirectorHandler.PlaceholderSpellsIndex | src/director/handler.cpp:137-153 | a placeholder starts with its prefix and the rest reads back as the id, with a minus sign for a negative id |
| DirectorHandler.PlaceholdersDistinct | src/director/handler.cpp:137-153 | two different ids outside the table never get the same placeholder |
| DirectorHandler.NamesOf | src/director/handler.cpp:123-131 | the names table has one entry per id, each the script name of that id |
| DirectorHandler.VariableMultiplier | src/director/handler.cpp:172-180 | the multiplier for variable ids is never zero |
| DirectorHandler.WithGlobal | src/director/handler.cpp:182-187 | registering a global keeps the old list as a prefix and adds at most the one name; a script global is not added; a list without duplicates stays without |
| DirectorHandler.WithGlobalIdempotent | src/director/handler.cpp:182-187 | registering the same global twice gives the list registering it once gives |
| DirectorHandler.DropNStep | src/director/handler.cpp:1088-1092 | dropping n + 1 values is dropping n and then one more |
| DirectorHandler.PopsStep | src/director/handler.cpp:1088-1092 | the n + 1 values popped are the n values popped followed by the next top |
| DirectorHandler.BlockAfterExits | src/director/handler.cpp:527-554 | leaving the blocks that end at a position stops at a block that does not end there, or at no block; a current block that does not end there stays current |
| DirectorHandler.UnknownOpCommentSpellsOperand | src/director/handler.cpp:1178-1185 | the comment for an unknown opcode is its name, followed for a multi-byte opcode by a space and the operand in decimal |
| DirectorHandler.TopValues | src/director/handler.cpp:328-336 | n values popped, top first, with an error node for each value a short stack lacks |
| DirectorHandler.TopValuesArePops | src/director/handler.cpp:328-336 | the top values are what n pops return, and the stack left is the stack n drops leave |
| DirectorHandler.ChunkRefFrom | src/director/handler.cpp:328-346 | a chunk reference pops eight bounds and is either a comment or a chunk expression on the given string |
| DirectorHandler.InstructionAt | src/director/handler.cpp:77-105 | an instruction decoded at a byte position records that position, relative to the code start, and the opcode byte there |
| DirectorHandler.NextInstruction | src/director/handler.cpp:77-105 | the next instruction starts strictly after the current one |
| DirectorHandler.DecodeStep | src/director/handler.cpp:77-105 | the decoded code from a position is the instruction there followed by the code decoded from the next instruction |
| DirectorHandler.PosMapAfterStep | src/director/handler.cpp:106 | appending an instruction maps its position to its index and keeps the rest of the position map |
| DirectorHandler.JumpInLoop | src/director/handler.cpp:822-829 | a jump inside a loop is an exit repeat exactly when the instruction before its target is that loop's end repeat, a next repeat exactly when otherwise its target is that loop's next-repeat target, and nothing else |
| DirectorHandler.JumpTranslation | src/director/handler.cpp:822-832 | a jump becomes a statement, and outside any loop the comment that the jump was not identified |
| DirectorHandler.ArgPopStep | src/director/handler.cpp:708-731 | popping one more argument keeps the argument list and the stack left equal to those of popping them all at once |
| DirectorHandler.Handler.constructor | src/director/handler.cpp:518-521 | a new handler holds the given script tables and starts with no code, no names, an empty stack and the root block current |
| DirectorHandler.Handler.ReadRecord | src/director/handler.cpp:36-54 | the record read is the record at the stream position, and the stream moves past its fixed length |
| DirectorHandler.Handler.ReadRecordHead | src/director/handler.cpp:36-43 | the first seven fields read are those of the record at the stream position, and the stream moves 20 bytes |
| DirectorHandler.Handler.ReadRecordTail | src/director/handler.cpp:44-54 | the remaining fields read are those of the same record, and the stream ends at the record's end |
| DirectorHandler.Handler.ReadCode | src/director/handler.cpp:75-107 | the bytecode read is the code decoded from the compiled offset to its end, appended, with each position mapped to its index |
| DirectorHandler.Handler.ReadCodeStep | src/director/handler.cpp:77-106 | one instruction read keeps the code read so far a prefix of the decoded code and moves the stream forward |
| DirectorHandler.Handler.ReadInstruction | src/director/handler.cpp:78-104 | the instruction read is the one decoded at the stream position, and the stream moves to the next instruction |
| DirectorHandler.Handler.ReadData | src/director/handler.cpp:75-111 | reads the code, then the argument and local name id tables at their offsets, and the stream ends after the locals table |
| DirectorHandler.Handler.ReadVarnamesTable | src/director/handler.cpp:113-121 | the ids read are the 16-bit table at the offset, and the stream ends after it |
| DirectorHandler.Handler.ReadNames | src/director/handler.cpp:123-131 | the handler's name and its argument and local names are the script names of their ids |
| DirectorHandler.Handler.GetArgumentName | src/director/handler.cpp:137-141 | an argument id inside the table gives its name, any other gives UNKNOWN_ARG_ and the id |
| DirectorHandler.Handler.GetLocalName | src/director/handler.cpp:143-147 | a local id inside the table gives its name, any other gives UNKNOWN_LOCAL_ and the id |
| DirectorHandler.Handler.GetGlobalName | src/director/handler.cpp:149-153 | a global id inside the table gives its name, any other gives UNKNOWN_GLOBAL_ and the id |
| DirectorHandler.Handler.Multiplier | src/director/handler.cpp:172-180 | the handler's variable multiplier is never zero |
| DirectorHandler.Handler.RegisterGlobal | src/director/handler.cpp:182-187 | the globals become the list with the name registered once |
| DirectorHandler.Handler.Peek | src/director/handler.cpp:155-161 | returns the top of the stack, or an error node on an empty stack, and changes nothing |
| DirectorHandler.Handler.Pop | src/director/handler.cpp:163-170 | returns and removes the top of the stack; an empty stack gives an error node and stays empty |
| DirectorHandler.Handler.PopNext | src/director/handler.cpp:163-170 | the k-th pop from a stack returns its k-th value from the top, or an error node, and leaves the rest |
| DirectorHandler.Handler.PopFour | src/director/handler.cpp:330-333 | four more pops return the next four values from the top and leave the stack below them |
| DirectorHandler.Handler.PopBounds | src/director/handler.cpp:330-337 | the eight bounds are the eight values from the top, last line first, and the stack below them is left |
| DirectorHandler.Handler.ReadChunkRef | src/director/handler.cpp:328-346 | returns the chunk reference on the string and leaves the stack it leaves |
| DirectorHandler.Handler.VarFrom | src/director/handler.cpp:189-219 | a variable reference is an error exactly for an unknown type or a missing id; arguments and locals are named by the id divided toward zero by the multiplier; a field is a member of a cast from version 500 |
| DirectorHandler.Handler.ReadVar | src/director/handler.cpp:189-219 | returns the variable reference for the type and leaves the stack it leaves |
| DirectorHandler.Handler.MemberRefFrom | src/director/handler.cpp:650-658 | a member reference pops a cast id from version 500 and then the member id, and pops only the member id before |
| DirectorHandler.Handler.ReadMember | src/director/handler.cpp:650-658 | returns the member reference and leaves the stack it leaves |
| DirectorHandler.Handler.PropertyPops | src/director/handler.cpp:245-326 | a property reads at most ten values off the stack |
| DirectorHandler.Handler.PropertyFrom | src/director/handler.cpp:245-326 | an unknown property type gives the error comment with its number; member property types name the property from the member table; menu, menu item, sound and sprite properties keep the 32-bit property id |
| DirectorHandler.Handler.MemberPropertyFrom | src/director/handler.cpp:297-322 | a member property names the property from the member table, on a chunk for field and cast chunk types and otherwise on a member, field or cast reference |
| DirectorHandler.Handler.ReadV4Property | src/director/handler.cpp:245-326 | returns the property reference and leaves the stack it leaves |
| DirectorHandler.Handler.GetVarNameFromSet | src/director/handler.cpp:221-243 | returns the variable name of a set instruction, registering it when it is a global and changing no globals otherwise |
| DirectorHandler.Handler.SetVarName | src/director/handler.cpp:221-243 | any instruction other than a set gives ERROR |
| DirectorHandler.Handler.TagLoops | src/director/handler.cpp:350-401 | the code becomes the code with every loop tagged, start by start |
| DirectorHandler.Handler.TagLoopAt | src/director/handler.cpp:357-368 | one start index tags the loop it closes, if any |
| DirectorHandler.Handler.TagClosedLoop | src/director/handler.cpp:370-399 | tags the loop kind on the jump, then the kind's own instructions, as one tagging step does |
| DirectorHandler.Handler.SkipLoopRange | src/director/handler.cpp:374-377 | tags the instructions of the range as skipped |
| DirectorHandler.Handler.TagWithInAt | src/director/handler.cpp:373-383 | tags a repeat-with-in loop's setup and step instructions as the with-in rule does |
| DirectorHandler.Handler.TagWithInEndAt | src/director/handler.cpp:378-383 | marks the step `pushint8 1` as the next-repeat target owned by the loop, skips the `add`, skips the `endrepeat` owned by the loop, and skips the closing `pop 3` |
| DirectorHandler.Handler.TagWithToAt | src/director/handler.cpp:384-395 | tags a repeat-with-to loop's condition and step instructions as the with-to rule does |
| DirectorHandler.Handler.TagConditionAt | src/director/handler.cpp:385-388 | tags the two instructions around the condition start and the one before the jump as skipped |
| DirectorHandler.Handler.TagStepAt | src/director/handler.cpp:389-395 | tags the step's first instruction as the next-repeat target of the loop and the rest of the step as skipped |
| DirectorHandler.Handler.TranslateStackOp | src/director/handler.cpp:577-753 | each pushing, arithmetic and list opcode builds its node from the popped values and leaves the stack it leaves |
| DirectorHandler.Handler.TranslateValueOp | src/director/handler.cpp:577-1171 | the value opcodes, routed to their group methods, keep every stack entry an expression |
| DirectorHandler.Handler.TranslateBlockOp | src/director/handler.cpp:570-889 | `ret`, `startTell`, `endTell`, `jmp` and `jmpifz` keep the handler well formed and its stack of expressions, and record a translation for no instruction but this one |
| DirectorHandler.Handler.TranslateNamedOp | src/director/handler.cpp:754-1000 | each opcode that names a variable, property or handler builds its node on that name and registers a global exactly for the global accesses |
| DirectorHandler.Handler.TranslateChunkOp | src/director/handler.cpp:615-949 | the chunk opcodes use the chunk reference and turn an error comment into the translation, unchanged |
| DirectorHandler.Handler.HiliteChunk | src/director/handler.cpp:621-635 | the chunk of the popped field becomes a hilite statement, and an error comment stays the translation |
| DirectorHandler.Handler.PutChunk | src/director/handler.cpp:925-938 | the chunk of the variable the operand's low nibble names receives the popped value with the put type of its high nibble, and an error comment stays the translation |
| DirectorHandler.Handler.DeleteChunk | src/director/handler.cpp:939-949 | the chunk of the variable of the operand's type becomes a delete statement, and an error comment stays the translation |
| DirectorHandler.Handler.TranslateReferenceOp | src/director/handler.cpp:650-1171 | field, put, get, objcallv4 and chunk variable opcodes build their nodes from the variable and property references and leave the stacks they leave |
| DirectorHandler.Handler.TranslateSet | src/director/handler.cpp:956-978 | set assigns the popped value to the property reference, and an error comment stays the translation |
| DirectorHandler.Handler.PushArgList | src/director/handler.cpp:708-731 | an argument list literal of the operand count, in push order, of the kind the opcode gives, and the stack without them |
| DirectorHandler.Handler.Swap | src/director/handler.cpp:687-693 | swaps the two top values and otherwise leaves the stack, which keeps its values |
| DirectorHandler.Handler.PopN | src/director/handler.cpp:1088-1092 | drops the given number of values, none for a count that is not positive |
| DirectorHandler.Handler.Emit | src/director/handler.cpp:1190-1202 | an expression is pushed; a statement is added to the current block, which the outcome reports undefined when there is none; the next block is entered after a translated step |
| DirectorHandler.Handler.ExitBlock | src/director/handler.cpp:433-447 | leaving the current block moves to its exit target, and with no current block the outcome is undefined |
| DirectorHandler.Handler.ExitFinishedBlocks | src/director/handler.cpp:527-554 | leaves every block that ends at the position, and reports undefined if none is left |
| DirectorHandler.Handler.TranslateJmp | src/director/handler.cpp:802-834 | a jump that closes an if block gives the if its else block; otherwise it becomes the loop's exit or next repeat, or the comment, added to the current block; a zero target inside a loop is undefined |
| DirectorHandler.Handler.JmpIfZStatement | src/director/handler.cpp:839-889 | the tag picks the statement: repeat while and if on the popped condition, repeat with in when its set instruction exists, repeat with to otherwise; its blocks are the next ones |
| DirectorHandler.Handler.RepeatWithToStatement | src/director/handler.cpp:863-877 | a repeat-with-to loop is translated exactly when its end and condition start exist, on the variable set before the condition and the two popped bounds |
| DirectorHandler.Handler.OpenStatement | src/director/handler.cpp:844-886 | the statement is added to the current block and its first block becomes current, ending at the given position, and the enclosing loop becomes the statement when it is a loop |
| DirectorHandler.Handler.TranslateStartTell | src/director/handler.cpp:659-666 | a tell statement on the popped window opens a block that only endTell closes; undefined exactly when there is no current block |
| DirectorHandler.Handler.TranslateControlOp | src/director/handler.cpp:560-1187 | an unknown opcode becomes its comment and clears the stack; only the one translation is added |
| DirectorHandler.Handler.TranslateBytecode | src/director/handler.cpp:560-1202 | an instruction tagged as internal to a loop changes nothing; an unknown opcode becomes its comment and clears the stack; only the one translation is added |
| DirectorHandler.Handler.Translate | src/director/handler.cpp:518-558 | the code is tagged as tagLoops tags it, and every loop tag then sits on a jump the loop recognition identifies; translations are added only for instructions not internal to a loop |
| DirectorHandler.Handler.TranslateInstructions | src/director/handler.cpp:522-557 | the instruction loop keeps the handler well formed and adds translations only for instructions not internal to a loop |
| CommonOptions.FirstMatch | src/common/options.cpp:38-44 | the index returned is the first one from k whose entry matches; None exactly when no entry from k matches |
| CommonOptions.CommandOf | src/common/options.cpp:38-44 | `getCommand`, the definition `GetCommand` and `CommandNamesRoundTrip` are stated over: no entry with the name gives no command, and the first entry with the name gives its command |
| CommonOptions.SplitLong | src/common/options.cpp:159-166 | the split `SplitAtFirstEquals` and `LongOption` use: the name holds no `=`, without `=` it is all of the option, and with one the value is everything after the first `=` |
| CommonOptions.LongOption | src/common/options.cpp:157-174 | the long-option rule `ReadLongOption` is proved against: an accepted option is in the table, enabled for the command, named by the text before `=` and carries the text after it; anything else is refused with `Unknown option: --` and the name |
| CommonOptions.ShortOptions | src/common/options.cpp:176-197 | the short-option rule `ReadShortOptions` is proved against: the option the cluster settles on is in the table and enabled, is written `-` and its short name, and the flags before it stay recorded; a refusal is `Unknown option: ` and the one offending short option |
| CommonOptions.ParseFrom | src/common/options.cpp:143-249 | the option loop `Parse` is proved against: a successful loop keeps every flag and every string and enumeration option recorded before it |
| CommonOptions.ParseArgs | src/common/options.cpp:114-252 | `parse` as a whole, the definition `ParsedOptionsFiled` and `Options.Parse` are stated over: with no command argument it fails with `Command not specified`, an unknown command with `Unknown command: ` and the name, and a valid parse has a command |
| CommonOptions.ApplyOption | src/common/options.cpp:198-233 | an accepted option moves the argument index forward, by one more when the value is taken from the next argument, and never past the end of argv |
| CommonOptions.ArgStep | src/common/options.cpp:144-242 | an accepted argument moves the index strictly forward and never past the end of argv |
| CommonOptions.CommandNamesRoundTrip | src/common/options.cpp:15-44 | each registered command name looks up its own command; every other name gives no command |
| CommonOptions.CommandRequired | src/common/options.cpp:129-141 | a successful parse has a command argument that names a registered command, and that command is the one parsed |
| CommonOptions.SplitAtFirstEquals | src/common/options.cpp:159-166 | a long option splits at its first '=': the name holds no '=', and name, '=' and value rebuild the option; with no '=' the name is the whole option |
| CommonOptions.DisabledLongOptionRejected | src/common/options.cpp:168-174 | a long option that is unknown or not enabled for the command is refused with "Unknown option: --name" |
| CommonOptions.DisabledShortOptionRejected | src/common/options.cpp:177-186 | a cluster of short options is refused when it reaches an unknown or disabled letter before any letter that takes a value |
| CommonOptions.EnumArgumentMustMatch | src/common/options.cpp:209-224 | an enum option's value is accepted exactly when it names one of the option's values, and then that value is stored under the option's long name |
| CommonOptions.FlagTakesNoValue | src/common/options.cpp:228-234 | a flag given a value is refused; a flag given none is added to the set of flags seen and the index moves by one |
| CommonOptions.SecondPositionalRejected | src/common/options.cpp:235-242 | the first positional argument becomes the input file; a second one is refused with "Stray argument: " and the argument |
| CommonOptions.ParsedHasInput | src/common/options.cpp:143-249 | a successful parse has an input file, and a refused argument makes the whole parse fail |
| CommonOptions.InputKept | src/common/options.cpp:235-242 | once an input file is found, no later argument changes it |
| CommonOptions.ShortOptionsFiled | src/common/options.cpp:176-197 | the option a short cluster settles on is in the table and enabled for the command, and every flag it records is an enabled flag |
| CommonOptions.ApplyOptionFiled | src/common/options.cpp:198-233 | applying an enabled option keeps every recorded flag, string value and enum value filed under an enabled option of the matching kind |
| CommonOptions.ArgStepFiled | src/common/options.cpp:144-242 | one argument step keeps every recorded option filed under an enabled option of the matching kind |
| CommonOptions.ParseFromFiled | src/common/options.cpp:143-243 | the whole option loop keeps every recorded option filed under an enabled option of the matching kind |
| CommonOptions.ParsedOptionsFiled | src/common/options.cpp:114-252 | a successful parse records only options enabled for its command, each in the store of its kind, and has an input file |
| CommonOptions.Options.constructor | src/common/options.cpp:15-32 | a new Options holds the decompile and version commands and the six options of the source table, and is not yet valid |
| CommonOptions.Options.GetCommand | src/common/options.cpp:38-44 | returns the command of the first registered entry with the given name, or no command |
| CommonOptions.Options.GetLongOptionInfo | src/common/options.cpp:97-104 | returns the first option with the given long name, or None |
| CommonOptions.Options.GetShortOptionInfo | src/common/options.cpp:106-112 | returns the first option with the given short letter, or None |
| CommonOptions.Options.Parse | src/common/options.cpp:114-252 | sets the program name and command from argv; valid exactly when the whole parse succeeds, and then the input file and the three option stores are the parse's |
| CommonOptions.Options.ParseArg | src/common/options.cpp:144-242 | accepts an argument exactly when the argument step does, and then leaves the stores, input file and next index that step gives |
| CommonOptions.Options.ReadLongOption | src/common/options.cpp:157-174 | reads a long option as the long-option rule does, refusing unknown and disabled names |
| CommonOptions.Options.ReadShortOptions | src/common/options.cpp:176-197 | refuses a short cluster exactly when the short-option rule does, and otherwise records the flags that rule records |
| CommonOptions.Options.ApplyOptionArg | src/common/options.cpp:198-233 | accepts the option exactly when the option rule does, keeps the input file, and leaves the stores and next index that rule gives |
| CommonOptions.Options.FindEnum | src/common/options.cpp:209-218 | returns the index of the first enum value with the given name, or None |

## Left out

- UTF-8: names and strings are decoded one character per byte, so multi-byte UTF-8 text is not reassembled.
- Floating point: float literals (type 9) keep their raw bytes; `readDouble`, `readAppleFloat80`, `pushfloat`, `floatToString` and floats in `Datum.toInt` are not modelled.
- Afterburner maps and zlib decompression call a foreign library and are not modelled.
- Stream.ReadStream.constructor: the start position `p` of the source's constructors (default 0) is not a parameter; every reader starts at position 0, as every reader the modelled code builds does.
- File and console I/O, JSON output, the `dump*` and `writeToFile` methods and logging are not modelled.
- Cast bookkeeping: the MCsL, KEY*, CAS* and CASt readers are not parsed; such chunks become `CastChunk` values carrying only their tag. `createCasts` is not modelled: it builds a `Cast` from each entry of the MCsL list and the KEY* table and files it in `castMap`, `castMap1` and `castMap2` under its three ids, which needs the cast readers left out above. `linkScripts` is not modelled either: for every LctX context it attaches the Lnam chunk its `lnamSectionID` names as the context's script names, and for every section with an id above -1 it sets the script's context, reads the script's names, translates it (`Script.translate`, one `Handler.translate` per handler) and appends it to the context's scripts. The steps it is built from (`LingoScript.ReadNames`, `LingoTranslate.Translator.Translate`) are modelled on their own, but their composition across a movie is not.
- `readChunk`'s null-name default: every caller passes a name, so the case where the expected name is null is not modelled.
- The `padding`, `unknown0` and `link` arguments of `readChunk` are never checked; the model accepts and ignores them.
- Object identity: chunks and AST blocks are placed in arenas and referred to by index; `chunkMap`, a sparse JavaScript array, is a map from row index to chunk index.
- LingoLib.JsNumber: `Number(id)` is modelled for numbers, `true`, `undefined`, the empty list and strings of plain decimal digits; other strings (signs, spaces, hex, fractions) and lists of one or more items are taken as NaN, and a float id is not modelled.
- LingoLib.JsKey: a string names a table entry only when it is the canonical decimal text of a non-negative integer; keys inherited from `Object.prototype` (such as `constructor`) are taken to name no entry, and the text of a list is not spelled out.
- `toPseudocode` and the JSON forms of the AST are not modelled.
- AST rendering takes a fuel bound equal to the arena size; a block nesting deeper than the arena (which a well-formed arena cannot hold) renders the marker `StackOverflow`.
- `src/lingodec/handler.cpp` is not part of this model: the handler records, bytecode and name ids that `Script::read` reads through it are left out, and a script's handlers appear only as their generic-event marks.
- `src/lingodec/enums.h` is not part of this model: the positions of the event-script and factory-definition flag bits are parameters of each script (`ScriptFlagBits`).
- LingoDecScript.Script.SetContext: takes the context's names table instead of the context, since the context is only ever asked for names.
- LingoDecScript.LiteralValue: float literals (type 9) are not decoded; the record keeps the value it had.
- Script text and bytecode output (`writeScriptText`, `writeBytecodeText`, `parse`) of `Script` and `ScriptContext::parseScripts` are not modelled.
- The context's resolver is a pair of functions, `resolveNames` and `resolveScript`, with the scripts it can give collected in a set; how the resolver finds chunks in the file is not modelled.
- LingoDecContext.FileFactories: visits slots 1..entryCount in order, which is the key order in which the source's `std::map` iterates its filled slots; the insertion of a null parent described under Findings is modelled separately.
- LingoDecAst.DatumText: a float datum carries its `int` conversion and its `floatToString` text as given values, since floating point is not modelled.
- LingoDecAst.NodeText: `escapeString` and the binary operator name table are parameters (`Tables`); the node kinds other than literals, comments, errors and binary operators are `OtherNode`, standing for their rendered text.
- LingoDecAst.WellFormedDatum: a property list is assumed to hold an even number of items, as the source reads the items in pairs without a bound check.
- LingoDecAst.Tree: parent pointers are assumed to point at older nodes (`Ranked`), which holds for every tree the translator builds, since a node is always created after its parent.
- LingoTranslate.Translator.Translate: the effect of each instruction is stated on `TranslateBytecode`, `TranslateExpression` and `TranslateStatement`; the loop over the instructions states only that every instruction gets its translation, not the composition of their effects.
- DirectorMovie.Movie.LookupMmap: only the last mmap's rows are stated to reach chunks of their tags; an earlier mmap's rows are stated to be filed, since a later mmap may file a different chunk under the same index.
- DirectorHandler.Handler.TranslateBytecode: the effect of each opcode is stated on the group methods (`TranslateStackOp`, `TranslateNamedOp`, `TranslateChunkOp`, `TranslateReferenceOp`, `TranslateSet`, `TranslateJmp`, `JmpIfZStatement`, `TranslateStartTell`, `PushArgList`, `Swap`, `PopN`); the dispatch itself states only the unknown-opcode case, the internal-tag case and which translation it adds.
- DirectorHandler.Handler.TranslateValueOp: the value opcodes it routes are specified on the group methods it calls; its own contract states only that the stack still holds expressions.
- DirectorHandler.Handler.TranslateBlockOp: `ret`, `endTell`, `jmp`, `jmpifz` and `startTell` are specified on `TranslateJmp`, `JmpIfZStatement`, `OpenStatement` and `TranslateStartTell`; its own contract states only that the handler stays well formed and adds no other translation.
- DirectorHandler.Handler.JmpIfZStatement: for the repeat-with-to tags it states only that the statement is a repeat with to; the loop's variable and bounds are stated on `RepeatWithToStatement`.
- DirectorHandler.Handler.PushArgList: requires a non-negative count; a negative `obj` makes the source's `while (argCount)` count down through the most negative `int`, which is undefined behaviour, and the translator reports that case as `Undefined` before calling it.
- Case statements (`peek` and the `CasesStmtNode` machinery of `translate`) are not modelled: the translator stops with the outcome `Unmodelled("case statements")`.
- The C++ translator's undefined behaviour (a statement added with no current block, an instruction read before the first or past the last) ends translation with an `Undefined` outcome instead of being carried on. One indeterminate read is given a value instead: a `Datum` built from a string or a list leaves its `i` unset, and `readVar` reads `getValue()->i` whatever the datum is, so the model takes such a datum's `i` to be 0.
- `Handler::bytecodeText` and the C++ `Script::parse`/`writeScriptText` output are not modelled.
- Floats in the C++ translator: `pushfloat32` keeps its raw 32 bits and `Datum::toInt` of a float is the parameter `floatToInt`.
- Shared nodes: `shared_ptr` aliasing is not modelled; the `objcallv4` rewrite that changes the first argument's datum in place builds a new node instead.
- The translations of `Handler` are a map from instruction index to node (the source stores each on its `Bytecode`), and the `bytecodePosMap` lookup of a missing position, where `operator[]` inserts a 0, is read as 0 without growing the map.
- The opcode, movie property and member property name tables of `lingo.cpp` and the float conversion are parameters (`Tables`) of the handler.
- DirectorFile.DirectorFile.GetChunkData: chunks of an afterburner file, whose data is compressed, give an error instead of being read.
- CommonOptions: `printUsage` and `Common::warning` are console output and are not modelled; a refused argument gives its message without the trailing newline.
- CommonOptions: the `'\0'` short name is `None`; `addCommand`, `addOption`, `addStringOption` and `addEnumOption` are the table literals `CommandTable` and `OptionTable`; `getCommandName`, `getCommandDesc` and the option getters only read these tables and are not modelled.

## Findings

| source | as written | input that shows it | evidently intended | confidence | as-written member | corrected member |
|---|---|---|---|---|---|---|
| src/common/stream.cpp:222 | `std::min(dataSize, _size - p)` subtracts in `size_t`, which wraps once the cursor is past the end | a 4-byte buffer, cursor at 5, a 1-byte write: the copy length is 1, one byte past the buffer | copy nothing once the cursor is past the end | not executed | Stream.WriteSizeAsWrittenOverruns | Stream.WriteSizeAgreesInside |
| src/subchunk/script/Handler.ts:366 | the if's type is set from `AST.IfStatement.Type.if`, but `IfStatement` has no `Type`; the same member is read at 115, 349 and 361 | any `iftrue` instruction: reading `.if` of undefined throws | the kind names `"if"`, `"if_else"` and `"repeat_while"` that `setType` compares with | not executed | LingoTranslate.IfKindNameAsWrittenFails | LingoTranslate.KindNameRoundTrip |
| src/subchunk/script/Handler.ts:283 | `pushcons` looks the literal's type up in `lib.LiteralTypes`, which `lib.ts` does not define (it has `enum LiteralType`) | any `pushcons` instruction: indexing undefined throws | a string literal for type 1, an int literal for type 4 | not executed | LingoTranslate.PushconsAsWrittenFails | LingoTranslate.ConstantNode |
| src/subchunk/script/Handler.ts:230 | the lightstr branch for a line range builds the range from the item bounds | a chunk with only a line range set: the item bounds (0, 0) are used | the line bounds, as in the other chunk references | not executed | LingoTranslate.LightstrLineUsesItemBounds | LingoTranslate.ChunkRangePriority |
| src/subchunk/script/Handler.ts:337 | the jump's previous target is found at `index - 1` of the current instruction rather than of the jump target | a jmp out of a repeat whose own previous instruction is not endrepeat | test the instruction before the jump's target | not executed | LingoTranslate.ExitRepeatBecomesIfElseAsWritten | LingoTranslate.JmpPastEndRepeatExits |
| src/lingodec/context.cpp:57 | the parent is looked up with `std::map::operator[]`, which inserts a null pointer under a missing key, and `push_back` is then called through it | a factory script whose parent number is -1: slot 0 is never linked, so the parent is null | skip a factory whose parent slot is empty (or report it) | not executed | LingoDecContext.ParentMinusOneIsNull | LingoDecContext.FileFactories |
| src/director/dirfile.cpp:368-370 | `getChunk` returns a cached chunk without checking its tag, and `readMemoryMap` caches the initial map under id 1 | after `readMemoryMap`, `getChunk` asked for the `Lscr` chunk 1 returns the initial map | return a cached chunk only when its tag is the one asked for, else report the mismatch as `getChunkData` does | not executed | DirectorFile.InitialMapServedAsScript | DirectorFile.DirectorFile.GetChunkChecked |
| src/director/handler.cpp:364-366 | `bytecodePosMap[jmpPos]` gives 0 for a target at no instruction, and `bytecodeArray[endIndex - 1]` then reads at index `UINT32_MAX` | the handler made of the single instruction `jmpifz 0` | treat a target at index 0, or at no instruction, as closing no loop | not executed | DirectorLoops.ZeroTargetReadsPastEnd | DirectorLoops.LoopEnd |
| src/director/lingo.h:1016-1019 | the `ObjPropIndexExprNode` constructor keeps the first index and drops the second | `obj.getProp(#p, 1, 2)`: the node built equals the one for `obj.getProp(#p, 1)` | keep the range end as the second index | not executed | DirectorLingo.RangeIndexDroppedAsWritten | DirectorLingo.ObjPropIndex |

The rest of the model runs the corrected definitions: `Stream.WriteStream.WriteBytes` copies nothing once the cursor is past the end, the TypeScript translator (`LingoTranslate.Translator`) uses the corrected if kinds, `pushcons` lookup, line bounds and jump decision, and the C++ translator (`DirectorHandler.Handler`) tags loops with `LoopEnd` and builds `getProp` ranges with `ObjPropIndex`. `DirectorFile.DirectorFile.GetChunk` keeps the lookup as written, and `GetChunkChecked` beside it is the corrected lookup.
