/**
 * The JavaScript decompiler proper (`Handler.translate` and
 * `Handler.translateBytecode`): a symbolic run of one handler's bytecode
 * over a stack of expression nodes, closing blocks at their end positions
 * and building if, if/else and repeat-while statements from jump geometry.
 */
module LingoTranslate {
  import opened Bytes
  import opened Wrappers
  import opened LingoBytecode
  import opened LingoAst
  import opened LingoStack
  import opened LingoLiteral
  import opened LingoHandler
  import opened LingoProperty
  /** Float literals, which are not modelled. */
  const FloatUnmodelled: string := "float literals are not modelled"

  // ---------------------------------------------------------------------
  // Stack effects, stated on the stack's contents.

  /** Popping k entries of a stack that holds at least k leaves the rest underneath, in order. */
  lemma PopsLeaveBottom(items: seq<Node>, k: nat)
    requires k <= |items|
    ensures AfterPops(items, k) + seq(k, i requires 0 <= i < k => Popped(items, k - 1 - i)) == items
  {
    var bottom := AfterPops(items, k);
    var tops := seq(k, i requires 0 <= i < k => Popped(items, k - 1 - i));
    assert forall i :: 0 <= i < k ==> tops[i] == items[|items| - k + i];
    assert |bottom + tops| == |items|;
    forall i | 0 <= i < |items| ensures (bottom + tops)[i] == items[i] {
      if i >= |bottom| {
        assert (bottom + tops)[i] == tops[i - |bottom|];
      }
    }
  }

  /** The arena after adding `child` to block b. */
  function WithChild(blocks: seq<BlockRec>, b: nat, child: Node): (r: seq<BlockRec>)
    requires b < |blocks|
    ensures |r| == |blocks| && r[b].children == blocks[b].children + [child]
    ensures forall k :: 0 <= k < |blocks| && k != b ==> r[k] == blocks[k]
  {
    blocks[b := blocks[b].(children := blocks[b].children + [child])]
  }

  /** `ast.addStatement(statement)` happened: the statement was appended to the block that was current. */
  predicate StatementAdded(oldBlocks: seq<BlockRec>, oldCurrent: Option<nat>, newBlocks: seq<BlockRec>, statement: Node)
  {
    oldCurrent.Some? && oldCurrent.value < |oldBlocks| && newBlocks == WithChild(oldBlocks, oldCurrent.value, statement)
  }

  /** `argList.constructor === ListLiteral`: a call whose arguments are a plain list is an expression. */
  predicate IsExpressionCall(argList: Node)
  {
    argList.ListLit? && !argList.isArgList
  }

  // ---------------------------------------------------------------------
  // The dispatch table.

  /** The operator table of `handleBinaryOperator`. */
  function BinaryOperator(opcode: string): Option<string>
  {
    match opcode
    case "mul" => Some("*")
    case "add" => Some("+")
    case "sub" => Some("-")
    case "div" => Some("/")
    case "mod" => Some("mod")
    case "joinstr" => Some("&")
    case "joinpadstr" => Some("&&")
    case "lt" => Some("<")
    case "lteq" => Some("<=")
    case "nteq" => Some("<>")
    case "eq" => Some("=")
    case "gt" => Some(">")
    case "gteq" => Some(">=")
    case "and" => Some("and")
    case "or" => Some("or")
    case "containsstr" => Some("contains")
    case "contains0str" => Some("starts")
    case _ => None
  }

  /** The entry of `bytecodeHandlers`, grouped by what the handler does. */
  datatype Op =
    | RetOp | PushInt0Op | BinaryOp(symbol: string) | InvOp | NotOp
    | ChunkOp(hilite: bool) | SpriteOp(within: bool) | CastStrOp
    | PopOnlyOp | NoOp | WrapListOp | NewPropListOp | PushIntOp | NewListOp(isArgList: bool)
    | PushConsOp | PushSymbOp | GetVarOp(kind: VarKind) | SetVarOp(kind: VarKind)
    | JmpOp | EndRepeatOp | IfTrueOp | CallOp(callKind: CallKind) | CallObjOldOp
    | GetOp | SetOp | GetMoviePropOp | SetMoviePropOp | GetObjPropOp | SetObjPropOp
    | GetMovieInfoOp | CallObjOp | Unhandled

  /** `typeof bytecodeHandlers[opcode] === "function"`, and which handler. */
  function Classify(opcode: string): (r: Op)
    ensures r.BinaryOp? <==> BinaryOperator(opcode).Some?
    ensures r.BinaryOp? ==> r.symbol == BinaryOperator(opcode).value
  {
    var bin := BinaryOperator(opcode);
    if bin.Some? then BinaryOp(bin.value)
    else
      match opcode
      case "ret" => RetOp
      case "pushint0" => PushInt0Op
      case "inv" => InvOp
      case "not" => NotOp
      case "splitstr" => ChunkOp(false)
      case "lightstr" => ChunkOp(true)
      case "ontospr" => SpriteOp(false)
      case "intospr" => SpriteOp(true)
      case "caststr" => CastStrOp
      case "startobj" => PopOnlyOp
      case "stopobj" => NoOp
      case "wraplist" => WrapListOp
      case "newproplist" => NewPropListOp
      case "pushint" => PushIntOp
      case "newarglist" => NewListOp(true)
      case "newlist" => NewListOp(false)
      case "pushcons" => PushConsOp
      case "pushsymb" => PushSymbOp
      case "getglobal" => GetVarOp(Global)
      case "getprop" => GetVarOp(Property)
      case "getparam" => GetVarOp(Param)
      case "getlocal" => GetVarOp(Local)
      case "setglobal" => SetVarOp(Global)
      case "setprop" => SetVarOp(Property)
      case "setparam" => SetVarOp(Param)
      case "setlocal" => SetVarOp(Local)
      case "jmp" => JmpOp
      case "endrepeat" => EndRepeatOp
      case "iftrue" => IfTrueOp
      case "call_local" => CallOp(LocalCall)
      case "call_external" => CallOp(ExternalCall)
      case "callobj_old?" => CallObjOldOp
      case "op_59xx" => PopOnlyOp
      case "op_5bxx" => PopOnlyOp
      case "get" => GetOp
      case "set" => SetOp
      case "getmovieprop" => GetMoviePropOp
      case "setmovieprop" => SetMoviePropOp
      case "getobjprop" => GetObjPropOp
      case "setobjprop" => SetObjPropOp
      case "getmovieinfo" => GetMovieInfoOp
      case "callobj" => CallObjOp
      case _ => Unhandled
  }

  /** The handlers of `bytecodeHandlers` that touch only the stack. */
  predicate StackOnly(op: Op)
  {
    || op.PushInt0Op? || op.BinaryOp? || op.InvOp? || op.NotOp? || op.SpriteOp? || op.CastStrOp?
    || op.PopOnlyOp? || op.NoOp? || op.WrapListOp? || op.NewPropListOp? || op.PushIntOp? || op.NewListOp?
    || op.PushConsOp? || op.PushSymbOp? || op.GetVarOp? || op.CallObjOldOp? || op.GetMoviePropOp?
    || op.GetObjPropOp? || op.GetMovieInfoOp?
  }

  /** The stack-only handlers that build a node with `new` from popped operands. */
  predicate MakesNode(op: Op)
  {
    op.BinaryOp? || op.InvOp? || op.NotOp? || op.SpriteOp? || op.CastStrOp? || op.NewPropListOp? || op.GetObjPropOp?
  }

  /** The stack-only handlers that push a leaf and pop nothing. */
  predicate PushesLeaf(op: Op)
  {
    op.PushInt0Op? || op.PushIntOp? || op.PushConsOp? || op.PushSymbOp? || op.GetVarOp? || op.GetMoviePropOp?
  }

  /** How many entries a stack-only handler pops; `wraplist` pops one and puts it back. */
  function Arity(op: Op, obj: nat): nat
    requires StackOnly(op)
  {
    if op.BinaryOp? || op.SpriteOp? || op.CallObjOldOp? then 2
    else if op.NewListOp? then obj
    else if op.InvOp? || op.NotOp? || op.CastStrOp? || op.PopOnlyOp? || op.WrapListOp? || op.NewPropListOp?
         || op.GetObjPropOp? || op.GetMovieInfoOp? then 1
    else 0
  }

  /** The stack-only handlers that push nothing. */
  predicate OnlyDrops(op: Op)
  {
    op.PopOnlyOp? || op.NoOp? || op.CallObjOldOp?
  }

  /** Every mnemonic of the opcode tables has a handler: only "unk_" codes reach the default case. */
  lemma UnhandledOnlyForUnknownCodes(val: nat)
    ensures Classify(GetOpcode(val)) == Unhandled <==> TableName(val).None?
  {
    if TableName(val).Some? {
      if val < 0x40 {
        OneByteNamesHandled(val);
      } else {
        MultiByteNamesHandled(val % 0x40);
      }
    } else {
      var name := GetOpcode(val);
      assert name[..4] == UnknownPrefix;
      UnknownNamesUnhandled(name);
    }
  }

  /** No mnemonic of the handler table begins with the letter of the unknown prefix. */
  lemma UnknownNamesUnhandled(name: string)
    requires |name| > 0 && name[0] == 'u'
    ensures Classify(name) == Unhandled
  {
    assert BinaryOperator(name) == None;
  }

  lemma OneByteNamesHandled(code: nat)
    ensures OneByteName(code).Some? ==> Classify(OneByteName(code).value) != Unhandled
  {
    match code
    case _ =>
  }

  lemma MultiByteNamesHandled(code: nat)
    ensures MultiByteName(code).Some? ==> Classify(MultiByteName(code).value) != Unhandled
  {
    match code
    case _ =>
  }

  // ---------------------------------------------------------------------
  // Chunk expressions.

  /** `getValue() !== 0`: only the number 0 is strictly equal to 0. */
  function NotZero(n: Node): Result<bool>
  {
    var v :- GetValue(n);
    Ok(v != JNumber(0))
  }

  /**
   * Which chunk a `splitstr` or `lightstr` names: the first of char, word,
   * item and line whose first index is not 0, with that chunk's bounds;
   * none when all four are 0. Each test reads a value, so a `null` that is
   * reached is a TypeError.
   */
  function ChunkRange(firstChar: Node, lastChar: Node, firstWord: Node, lastWord: Node,
                      firstItem: Node, lastItem: Node, firstLine: Node, lastLine: Node): (r: Result<Option<(string, Node, Node)>>)
    ensures r.Err? ==> firstChar == Null || firstWord == Null || firstItem == Null || firstLine == Null
    ensures firstChar != Null && firstWord != Null && firstItem != Null && firstLine != Null ==> r.Ok?
  {
    var c :- NotZero(firstChar);
    if c then Ok(Some(("char", firstChar, lastChar)))
    else
      var w :- NotZero(firstWord);
      if w then Ok(Some(("word", firstWord, lastWord)))
      else
        var i :- NotZero(firstItem);
        if i then Ok(Some(("item", firstItem, lastItem)))
        else
          var l :- NotZero(firstLine);
          if l then Ok(Some(("line", firstLine, lastLine))) else Ok(None)
  }

  /** The selection as `lightstr` writes it: its line case takes the item bounds. */
  function LightChunkRangeAsWritten(firstChar: Node, lastChar: Node, firstWord: Node, lastWord: Node,
                                    firstItem: Node, lastItem: Node, firstLine: Node, lastLine: Node): Result<Option<(string, Node, Node)>>
  {
    var c :- NotZero(firstChar);
    if c then Ok(Some(("char", firstChar, lastChar)))
    else
      var w :- NotZero(firstWord);
      if w then Ok(Some(("word", firstWord, lastWord)))
      else
        var i :- NotZero(firstItem);
        if i then Ok(Some(("item", firstItem, lastItem)))
        else
          var l :- NotZero(firstLine);
          if l then Ok(Some(("line", firstItem, lastItem))) else Ok(None)
  }

  /** The chunk chosen is the first non-zero one, and its bounds are that chunk's own pair. */
  lemma ChunkRangePriority(fc: Node, lc: Node, fw: Node, lw: Node, fi: Node, li: Node, fl: Node, ll: Node)
    requires fc != Null && fw != Null && fi != Null && fl != Null
    ensures var r := ChunkRange(fc, lc, fw, lw, fi, li, fl, ll);
      && r.Ok?
      && (r.value.None? <==> GetValue(fc) == GetValue(fw) == GetValue(fi) == GetValue(fl) == Ok(JNumber(0)))
      && (GetValue(fc) != Ok(JNumber(0)) ==> r.value == Some(("char", fc, lc)))
      && (GetValue(fc) == Ok(JNumber(0)) && GetValue(fw) != Ok(JNumber(0)) ==> r.value == Some(("word", fw, lw)))
      && (GetValue(fc) == GetValue(fw) == Ok(JNumber(0)) && GetValue(fi) != Ok(JNumber(0)) ==> r.value == Some(("item", fi, li)))
      && (GetValue(fc) == GetValue(fw) == GetValue(fi) == Ok(JNumber(0)) && GetValue(fl) != Ok(JNumber(0)) ==> r.value == Some(("line", fl, ll)))
  {
    NotZeroOf(fc);
    NotZeroOf(fw);
    NotZeroOf(fi);
    NotZeroOf(fl);
  }

  lemma NotZeroOf(n: Node)
    requires n != Null
    ensures NotZero(n) == Ok(GetValue(n) != Ok(JNumber(0)))
  {
    assert GetValue(n).Ok?;
  }

  /**
   * The node `splitstr` or `lightstr` makes from the nine entries it pops,
   * top first: the string, then the last and first index of line, item,
   * word and char.
   */
  function ChunkNode(top: seq<Node>, hilite: bool): Result<Node>
    requires |top| == 9
  {
    var range :- ChunkRange(top[8], top[7], top[6], top[5], top[4], top[3], top[2], top[1]);
    if range.Some? then New(StringSplit(range.value.0, range.value.1, range.value.2, top[0], hilite)) else Ok(Null)
  }

  /** Where the two selections differ: a line range in a `lightstr` is highlighted with the item bounds. */
  lemma LightstrLineUsesItemBounds()
    ensures ChunkRange(IntLit(0), IntLit(0), IntLit(0), IntLit(0), IntLit(0), IntLit(0), IntLit(3), IntLit(5))
      == Ok(Some(("line", IntLit(3), IntLit(5))))
    ensures LightChunkRangeAsWritten(IntLit(0), IntLit(0), IntLit(0), IntLit(0), IntLit(0), IntLit(0), IntLit(3), IntLit(5))
      == Ok(Some(("line", IntLit(0), IntLit(0))))
  {
  }

  // ---------------------------------------------------------------------
  // If statement types.

  /** The type strings `IfStatement.toString` and `setType` compare against. */
  function IfKindName(kind: IfKind): string
  {
    match kind
    case If => "if"
    case IfElse => "if_else"
    case RepeatWhile => "repeat_while"
  }

  /** Which branch of `IfStatement.toString` a type string selects, if any. */
  function KindOfName(name: string): Option<IfKind>
  {
    if name == "if" then Some(If)
    else if name == "if_else" then Some(IfElse)
    else if name == "repeat_while" then Some(RepeatWhile)
    else None
  }

  /** Each type's string selects that type's rendering, so no two types share one. */
  lemma KindNameRoundTrip(kind: IfKind)
    ensures KindOfName(IfKindName(kind)) == Some(kind)
    ensures forall other: IfKind :: IfKindName(other) == IfKindName(kind) ==> other == kind
  {
  }

  /**
   * The type as the translator names it: `AST.IfStatement.Type.if`,
   * `.if_else`, `.repeat_while`. `IfStatement` declares no `Type` member,
   * so the lookup reads a property of `undefined`.
   */
  function IfKindNameAsWritten(kind: IfKind): (r: Result<string>)
    ensures r.Err?
  {
    Err(TypeError)
  }

  /** As written no type name can be produced: every `iftrue`, if/else check and retag throws. */
  lemma IfKindNameAsWrittenFails(kind: IfKind)
    ensures IfKindNameAsWritten(kind) == Err(TypeError)
    ensures KindOfName(IfKindName(kind)).Some?
  {
    KindNameRoundTrip(kind);
  }

  // ---------------------------------------------------------------------
  // Literals and names.

  /** `lib.LiteralType` read backwards: the type's name, or `undefined`. */
  function LiteralTypeName(t: nat): Option<string>
  {
    if t == StringType then Some("string")
    else if t == IntType then Some("int")
    else if t == FloatType then Some("float")
    else None
  }

  /**
   * `pushcons`, with the literal type looked up by name: a string or an
   * integer literal node, `null` for a type without a name; an index past
   * the table reads a field of `undefined`.
   */
  function ConstantNode(literals: seq<Literal>, obj: nat): (r: Result<Node>)
    requires forall k :: 0 <= k < |literals| ==> Resolved(literals[k])
    ensures r.Ok? && obj < |literals| && literals[obj].literalType == StringType ==>
      literals[obj].value.StringValue? && r.value == StringLit(literals[obj].value.s)
    ensures r.Ok? && obj < |literals| && literals[obj].literalType == IntType ==>
      literals[obj].value.IntValue? && r.value == IntLit(literals[obj].value.n)
    ensures r.Ok? <==> obj < |literals| && literals[obj].literalType != FloatType
  {
    if obj >= |literals| then Err(TypeError)
    else
      var lit := literals[obj];
      assert Resolved(lit);
      var name := LiteralTypeName(lit.literalType);
      if name == Some("string") then Ok(StringLit(lit.value.s))
      else if name == Some("int") then Ok(IntLit(lit.value.n))
      else if name == Some("float") then Err(FloatUnmodelled)
      else Ok(Null)
  }

  /** `pushcons` as written: `lib.LiteralTypes` does not exist, so indexing it is a TypeError for every literal. */
  function ConstantNodeAsWritten(literals: seq<Literal>, obj: nat): (r: Result<Node>)
    ensures r.Err?
  {
    Err(TypeError)
  }

  /** A string literal in the table is pushed as such by the corrected lookup and never by the one as written. */
  lemma PushconsAsWrittenFails(literals: seq<Literal>, obj: nat)
    requires forall k :: 0 <= k < |literals| ==> Resolved(literals[k])
    requires obj < |literals| && literals[obj].literalType == StringType
    ensures ConstantNode(literals, obj) == Ok(StringLit(literals[obj].value.s))
    ensures ConstantNodeAsWritten(literals, obj).Err?
  {
  }

  /** The reference node a name-table instruction builds. */
  function Reference(kind: VarKind, obj: nat, nameList: seq<string>, argumentNames: seq<Name>, localNames: seq<Name>): (r: Node)
    ensures r.VarRef? && r.kind == kind
    ensures kind == Param ==> r.varName == NameIn(argumentNames, obj)
    ensures kind == Local ==> r.varName == NameIn(localNames, obj)
    ensures kind in {Global, Property} ==> r.varName == NameAt(nameList, obj)
  {
    match kind
    case Global => VarRef(Global, NameAt(nameList, obj))
    case Property => VarRef(Property, NameAt(nameList, obj))
    case Param => VarRef(Param, NameIn(argumentNames, obj))
    case Local => VarRef(Local, NameIn(localNames, obj))
  }

  /** `toUpperCase` on the ASCII letters the mnemonics are made of. */
  function AsciiUpper(s: string): (r: string)
    ensures |r| == |s|
    ensures forall i :: 0 <= i < |s| ==> r[i] == if 'a' <= s[i] <= 'z' then (s[i] as int - 32) as char else s[i]
  {
    if s == [] then []
    else [if 'a' <= s[0] <= 'z' then (s[0] as int - 32) as char else s[0]] + AsciiUpper(s[1..])
  }

  /** The comment the default case adds: the mnemonic in capitals, then the operand if there is one. */
  function UnhandledComment(b: Bytecode): string
  {
    AsciiUpper(b.opcode()) + (if b.obj.Some? then " " + IntToString(b.obj.value) else "")
  }

  // ---------------------------------------------------------------------
  // Jumps.

  /** `bytecodeArray.indexOf(bytecodeByPos.get(p))`, or none when no instruction starts at p. */
  function IndexAt(code: seq<Bytecode>, byPos: map<nat, nat>, p: int): (r: Option<nat>)
    ensures r.Some? ==> r.value < |code|
  {
    if p >= 0 && p as nat in byPos && byPos[p as nat] < |code| then Some(byPos[p as nat]) else None
  }

  predicate IsEndRepeat(b: Bytecode)
  {
    b.opcode() == "endrepeat"
  }

  /** What a `jmp` does inside an if statement's block. */
  datatype JmpAction = NoJmpAction | AddExitRepeat | AddNextRepeat | MakeIfElse(targetPos: nat)

  /**
   * The decision of `jmp` in a block whose end is `blockEnd`: when the next
   * instruction starts at the block end and the jump lands just after an
   * `endrepeat`, it is `exit repeat`; else a jump onto an `endrepeat` is
   * `next repeat`; else a jump at the block end makes the if an if/else
   * whose second block ends at the target. Outside an if nothing happens.
   * The instruction before the target is the one looked at.
   */
  function JmpDecision(code: seq<Bytecode>, byPos: map<nat, nat>, index: nat, obj: nat, inIf: bool, blockEnd: Option<int>): (r: Result<JmpAction>)
    requires index < |code|
    ensures !inIf ==> r == Ok(NoJmpAction)
    ensures var t := IndexAt(code, byPos, code[index].pos + obj);
      r.Err? <==> inIf && (index + 1 >= |code| || t.None? || (blockEnd == Some(code[index + 1].pos as int) && t == Some(0)))
    ensures r.Ok? && r.value == AddExitRepeat ==>
      var t := IndexAt(code, byPos, code[index].pos + obj);
      index + 1 < |code| && blockEnd == Some(code[index + 1].pos as int) && t.Some? && t.value > 0 && IsEndRepeat(code[t.value - 1])
    ensures r.Ok? && r.value == AddNextRepeat ==>
      var t := IndexAt(code, byPos, code[index].pos + obj);
      t.Some? && IsEndRepeat(code[t.value])
    ensures r.Ok? && r.value.MakeIfElse? ==>
      index + 1 < |code| && blockEnd == Some(code[index + 1].pos as int) && r.value.targetPos == code[index].pos + obj
  {
    if !inIf then Ok(NoJmpAction)
    else if index + 1 >= |code| then Err(TypeError)
    else
      var targetPos := code[index].pos + obj;
      var target := IndexAt(code, byPos, targetPos);
      var atEnd := blockEnd == Some(code[index + 1].pos as int);
      if atEnd && (target.None? || target.value == 0) then Err(TypeError)
      else if atEnd && IsEndRepeat(code[target.value - 1]) then Ok(AddExitRepeat)
      else if target.None? then Err(TypeError)
      else if IsEndRepeat(code[target.value]) then Ok(AddNextRepeat)
      else if atEnd then Ok(MakeIfElse(targetPos))
      else Ok(NoJmpAction)
  }

  /** The decision as written: the instruction before the jump, not before its target, is checked for `endrepeat`. */
  function JmpDecisionAsWritten(code: seq<Bytecode>, byPos: map<nat, nat>, index: nat, obj: nat, inIf: bool, blockEnd: Option<int>): (r: Result<JmpAction>)
    requires index < |code|
    ensures !inIf ==> r == Ok(NoJmpAction)
    ensures r.Ok? && r.value == AddExitRepeat ==>
      0 < index && index + 1 < |code| && blockEnd == Some(code[index + 1].pos as int) && IsEndRepeat(code[index - 1])
  {
    if !inIf then Ok(NoJmpAction)
    else if index + 1 >= |code| then Err(TypeError)
    else
      var targetPos := code[index].pos + obj;
      var target := IndexAt(code, byPos, targetPos);
      var atEnd := blockEnd == Some(code[index + 1].pos as int);
      if atEnd && index == 0 then Err(TypeError)
      else if atEnd && IsEndRepeat(code[index - 1]) then Ok(AddExitRepeat)
      else if target.None? then Err(TypeError)
      else if IsEndRepeat(code[target.value]) then Ok(AddNextRepeat)
      else if atEnd then Ok(MakeIfElse(targetPos))
      else Ok(NoJmpAction)
  }

  /** A jump at the end of an if's block that lands just after an `endrepeat` leaves the loop. */
  lemma JmpPastEndRepeatExits(code: seq<Bytecode>, byPos: map<nat, nat>, index: nat, obj: nat, blockEnd: Option<int>)
    requires index + 1 < |code| && blockEnd == Some(code[index + 1].pos as int)
    requires IndexAt(code, byPos, code[index].pos + obj).Some?
    requires var t := IndexAt(code, byPos, code[index].pos + obj).value; t > 0 && IsEndRepeat(code[t - 1])
    ensures JmpDecision(code, byPos, index, obj, true, blockEnd) == Ok(AddExitRepeat)
  {
  }

  /** At the block end, a jump whose target is neither an `endrepeat` nor just after one makes an if/else ending at the target. */
  lemma JmpAtBlockEndMakesIfElse(code: seq<Bytecode>, byPos: map<nat, nat>, index: nat, obj: nat, blockEnd: Option<int>)
    requires index + 1 < |code| && blockEnd == Some(code[index + 1].pos as int)
    requires IndexAt(code, byPos, code[index].pos + obj).Some?
    requires var t := IndexAt(code, byPos, code[index].pos + obj).value;
      t > 0 && !IsEndRepeat(code[t - 1]) && !IsEndRepeat(code[t])
    ensures JmpDecision(code, byPos, index, obj, true, blockEnd) == Ok(MakeIfElse(code[index].pos + obj))
  {
  }

  /** `repeat while 1 / if 1 then exit repeat / end if / end repeat`, laid out as bytecode. */
  function ExitRepeatSample(): seq<Bytecode>
  {
    [ Bytecode(0x41, Some(1), 1, 0),   // pushint 1
      Bytecode(0x95, Some(11), 2, 2),  // iftrue  -> 13
      Bytecode(0x41, Some(1), 1, 5),   // pushint 1
      Bytecode(0x55, Some(4), 1, 7),   // iftrue  -> 11
      Bytecode(0x53, Some(4), 1, 9),   // jmp     -> 13
      Bytecode(0x54, Some(11), 1, 11), // endrepeat -> 0
      Bytecode(0x01, None, 0, 13) ]    // ret
  }

  function ExitRepeatSampleIndex(): map<nat, nat>
  {
    map[0 := 0, 2 := 1, 5 := 2, 7 := 3, 9 := 4, 11 := 5, 13 := 6]
  }

  /** On the sample, the decision as written turns the `exit repeat` into an if/else. */
  lemma ExitRepeatBecomesIfElseAsWritten()
    ensures JmpDecision(ExitRepeatSample(), ExitRepeatSampleIndex(), 4, 4, true, Some(11)) == Ok(AddExitRepeat)
    ensures JmpDecisionAsWritten(ExitRepeatSample(), ExitRepeatSampleIndex(), 4, 4, true, Some(11)) == Ok(MakeIfElse(13))
  {
    var code := ExitRepeatSample();
    assert code[5].opcode() == "endrepeat";
    assert code[3].opcode() == "iftrue";
    assert code[6].opcode() == "ret";
  }

  /** The tree of a handler being built, as a value: its blocks, its if statements and the current block. */
  datatype TreeState = TreeState(blocks: seq<BlockRec>, ifs: seq<IfRec>, current: Option<nat>)

  function Snapshot(a: Ast): TreeState
    reads a
  {
    TreeState(a.blocks, a.ifs, a.currentBlock)
  }

  /**
   * A handler that appends `node` to the current block once its operands
   * are not `null` (`ok`), leaving `rest` on the stack; a TypeError when an
   * operand is `null` or there is no current block.
   */
  predicate AddedEffect(node: Node, ok: bool, rest: seq<Node>, t: TreeState, s': seq<Node>, t': TreeState, res: Option<Node>)
  {
    && (res.Some? <==> ok && t.current.Some?)
    && (res.Some? ==> res.value == node && s' == rest && StatementAdded(t.blocks, t.current, t'.blocks, node))
    && t'.ifs == t.ifs && t'.current == t.current
  }

  /**
   * A call on the argument list popped from `s`: pushed when the list is a
   * plain list, added as a statement otherwise.
   */
  predicate CallEffect(node: Node, argList: Node, ok: bool, s: seq<Node>, t: TreeState, s': seq<Node>, t': TreeState, res: Option<Node>)
  {
    && (res.Some? <==> ok && (!IsExpressionCall(argList) ==> t.current.Some?))
    && (res.Some? ==>
      && res.value == node
      && (IsExpressionCall(argList) ==> s' == AfterPops(s, 1) + [node] && t'.blocks == t.blocks)
      && (!IsExpressionCall(argList) ==> s' == AfterPops(s, 1) && StatementAdded(t.blocks, t.current, t'.blocks, node)))
    && t'.ifs == t.ifs && t'.current == t.current
  }

  /** A node made by `new`, pushed onto what the pops left. */
  function PushedOnto(made: Result<Node>, rest: seq<Node>): Result<(Node, seq<Node>)>
  {
    var node :- made;
    Ok((node, rest + [node]))
  }

  /** The first `iftrue` at or after instruction j, as the `endrepeat` scan finds it. */
  function RepeatHeader(code: seq<Bytecode>, j: nat): Option<nat>
    decreases |code| - j
  {
    if j >= |code| then None
    else if code[j].opcode() == "iftrue" then Some(j)
    else RepeatHeader(code, j + 1)
  }

  /** The scan stops at the first `iftrue`: none is skipped, and none means there is none left. */
  lemma {:induction false} RepeatHeaderIsFirst(code: seq<Bytecode>, j: nat)
    ensures var h := RepeatHeader(code, j);
      && (h.Some? ==> j <= h.value < |code| && code[h.value].opcode() == "iftrue"
                        && forall k :: j <= k < h.value ==> code[k].opcode() != "iftrue")
      && (h.None? ==> forall k :: j <= k < |code| ==> code[k].opcode() != "iftrue")
    decreases |code| - j
  {
    if j >= |code| {
      assert RepeatHeader(code, j) == None;
    } else if code[j].opcode() == "iftrue" {
      assert RepeatHeader(code, j) == Some(j);
    } else {
      var h := RepeatHeader(code, j + 1);
      assert RepeatHeader(code, j) == h;
      RepeatHeaderIsFirst(code, j + 1);
      var end := if h.Some? then h.value else |code|;
      assert forall k :: j + 1 <= k < end ==> code[k].opcode() != "iftrue";
      assert forall k :: j <= k < end ==> code[k].opcode() != "iftrue";
    }
  }

  // ---------------------------------------------------------------------
  // The translator.

  /**
   * The state of `translate` for one handler: its code and names, the
   * script's tables, the tree being built, the operand stack, and the
   * translation each instruction left (`bytecode.translation`).
   */
  class Translator {
    const code: seq<Bytecode>
    const byPos: map<nat, nat>
    const nameList: seq<string>
    const handlerName: Name
    const argumentNames: seq<Name>
    const localNames: seq<Name>
    const handlerNames: seq<Name>
    const literals: seq<Literal>
    var ast: Ast
    var stack: Stack
    var translations: map<nat, Node>

    predicate Valid()
      reads this, ast
    {
      && ast.Valid() && ast.Ordered()
      && (forall k :: 0 <= k < |literals| ==> Resolved(literals[k]))
    }

    /**
     * A handler ready to translate: its decoded code and names, the names
     * of the script's handlers, the script's literals and the names table.
     */
    constructor (data: HandlerData, names: HandlerNames, handlerNames: seq<Name>, literals: seq<Literal>, nameList: seq<string>)
      requires forall k :: 0 <= k < |literals| ==> Resolved(literals[k])
      ensures code == data.bytecodeArray && byPos == data.bytecodeByPos
      ensures handlerName == names.name && argumentNames == names.argumentNames && localNames == names.localNames
      ensures this.handlerNames == handlerNames && this.literals == literals && this.nameList == nameList
      ensures translations == map[]
      ensures Valid()
    {
      code := data.bytecodeArray;
      byPos := data.bytecodeByPos;
      this.nameList := nameList;
      handlerName := names.name;
      argumentNames := names.argumentNames;
      localNames := names.localNames;
      this.handlerNames := handlerNames;
      this.literals := literals;
      ast := new Ast(names.name, names.argumentNames);
      stack := new Stack();
      translations := map[];
    }

    /** Whether leaving block b moves on to the second block of its if/else. */
    predicate EntersSecondBlock(b: nat)
      reads this, ast
      requires Valid() && b < |ast.blocks|
    {
      var owner := ast.blocks[b].owner;
      owner.IfOwner? && ast.ifs[owner.id].kind == IfElse && ast.ifs[owner.id].block1 == b
    }

    /**
     * One pass of the block-closing loop of `translate`: leave the current
     * block, and go on to the second block when the one left was the first
     * block of an if/else.
     */
    method LeaveBlock()
      requires Valid() && ast.currentBlock.Some?
      modifies ast`currentBlock
      ensures Valid()
      ensures var b := old(ast.currentBlock.value);
        ast.currentBlock == if EntersSecondBlock(b) then ast.ifs[ast.blocks[b].owner.id].block2 else ast.EnclosingBlock(b)
      ensures ast.ExitMeasure() < old(ast.ExitMeasure())
    {
      var b := ast.currentBlock.value;
      var owner := ast.blocks[b].owner;
      assert ast.BlockAfterItsIf(b, ast.blocks[b]);
      var _ := ast.ExitBlock();
      if owner.IfOwner? {
        var s := ast.ifs[owner.id];
        assert ast.IfInRange(owner.id, s);
        if s.kind == IfElse && b == s.block1 {
          ast.EnterBlock(s.block2.value);
        } else if s.parent.Some? {
          var p := s.parent.value;
          assert ast.BlockAfterItsIf(p, ast.blocks[p]);
        }
      }
    }

    /** The `while (pos === currentBlock.endPos)` loop of `translate`. */
    method ExitEndedBlocks(pos: nat) returns (r: Result<()>)
      requires Valid()
      modifies ast`currentBlock
      ensures Valid()
      ensures r.Err? <==> ast.currentBlock.None?
      ensures r.Ok? ==> ast.blocks[ast.currentBlock.value].endPos != Some(pos as int)
      ensures old(ast.currentBlock).Some? && old(ast.blocks[ast.currentBlock.value].endPos) != Some(pos as int) ==>
        ast.currentBlock == old(ast.currentBlock)
    {
      while ast.currentBlock.Some? && ast.blocks[ast.currentBlock.value].endPos == Some(pos as int)
        invariant Valid()
        invariant old(ast.currentBlock).Some? && old(ast.blocks[ast.currentBlock.value].endPos) != Some(pos as int) ==>
          ast.currentBlock == old(ast.currentBlock)
        decreases ast.ExitMeasure()
      {
        LeaveBlock();
      }
      r := if ast.currentBlock.None? then Err(TypeError) else Ok(());
    }

    /** `translate`: a fresh stack and tree, then each instruction in order once its ended blocks are closed. */
    method Translate() returns (r: Result<()>)
      requires Valid()
      modifies this
      ensures Valid() && fresh(ast)
      ensures ast.name == handlerName && ast.args == argumentNames
      ensures r.Ok? ==> forall k :: k in translations <==> 0 <= k < |code|
    {
      stack := new Stack();
      ast := new Ast(handlerName, argumentNames);
      translations := map[];
      var i := 0;
      while i < |code|
        invariant 0 <= i <= |code|
        invariant Valid() && fresh(ast) && fresh(stack)
        invariant ast.name == handlerName && ast.args == argumentNames
        invariant forall k :: k in translations <==> 0 <= k < i
      {
        var _ :- ExitEndedBlocks(code[i].pos);
        var _ :- TranslateBytecode(i);
        i := i + 1;
      }
      r := Ok(());
    }

    /** `translateBytecode`: runs the instruction's handler and records its translation. */
    method TranslateBytecode(index: nat) returns (r: Result<()>)
      requires Valid() && index < |code|
      modifies this, ast, stack
      ensures Valid() && ast == old(ast)
      ensures stack == old(stack) || fresh(stack)
      ensures ast.name == old(ast.name) && ast.args == old(ast.args)
      ensures r.Ok? ==> forall k :: k in translations <==> k in old(translations) || k == index
      ensures r.Ok? ==> translations == old(translations)[index := translations[index]]
      ensures var b := code[index];
        var op := Classify(b.opcode());
        var obj := if b.obj.Some? then b.obj.value else 0;
        && (StackOnly(op) ==>
              var step := ExpressionStep(op, obj, old(stack.items));
              && stack == old(stack) && Snapshot(ast) == old(Snapshot(ast))
              && (r.Ok? <==> step.Ok?)
              && (r.Ok? ==> translations[index] == step.value.0 && stack.items == step.value.1))
        && (op == Unhandled ==>
              && (r.Ok? <==> old(ast.currentBlock).Some?)
              && (r.Ok? ==> translations[index] == Error && stack.items == []
                            && StatementAdded(old(ast.blocks), old(ast.currentBlock), ast.blocks, Comment(UnhandledComment(b)))))
        && (!StackOnly(op) && op != Unhandled ==>
              && stack == old(stack)
              && StatementEffect(op, index, obj, old(translations), old(stack.items), old(Snapshot(ast)),
                                 stack.items, Snapshot(ast), if r.Ok? then Some(translations[index]) else None))
    {
      var b := code[index];
      var obj := if b.obj.Some? then b.obj.value else 0;
      var op := Classify(b.opcode());
      var t: Node;
      if op == Unhandled {
        t :- TranslateUnhandled(b);
      } else if StackOnly(op) {
        t :- TranslateExpression(op, obj);
      } else {
        t :- TranslateStatement(op, index, obj);
      }
      translations := translations[index := t];
      r := Ok(());
    }

    /**
     * What a handler that only works on the stack does to a stack `s`: its
     * translation and the stack it leaves, or an error where it throws.
     * The only errors are a TypeError and the float constant the model
     * leaves out, and the stack grows by at most the translation, which
     * then is its top.
     */
    function ExpressionStep(op: Op, obj: nat, s: seq<Node>): (r: Result<(Node, seq<Node>)>)
      requires StackOnly(op) && forall k :: 0 <= k < |literals| ==> Resolved(literals[k])
      ensures r.Err? ==> r.error == TypeError || (op.PushConsOp? && r.error == FloatUnmodelled)
      ensures r.Ok? ==> |r.value.1| <= |s| + 1
      ensures r.Ok? && !OnlyDrops(op) && !op.WrapListOp? ==> |r.value.1| > 0 && r.value.1[|r.value.1| - 1] == r.value.0
    {
      match op
      case PushInt0Op => Ok((IntLit(0), s + [IntLit(0)]))
      case BinaryOp(symbol) => PushedOnto(New(Binary(symbol, Popped(s, 1), Popped(s, 0))), AfterPops(s, 2))
      case InvOp => PushedOnto(New(Inverse(Popped(s, 0))), AfterPops(s, 1))
      case NotOp => PushedOnto(New(Not(Popped(s, 0))), AfterPops(s, 1))
      case SpriteOp(within) =>
        var node := if within then SpriteWithin(Popped(s, 0), Popped(s, 1)) else SpriteIntersects(Popped(s, 0), Popped(s, 1));
        PushedOnto(New(node), AfterPops(s, 2))
      case CastStrOp => PushedOnto(New(FieldRef(Popped(s, 0))), AfterPops(s, 1))
      case PopOnlyOp => Ok((Null, AfterPops(s, 1)))
      case NoOp => Ok((Null, s))
      case WrapListOp => Ok((Null, AfterPops(s, 1) + [Popped(s, 0)]))
      case NewPropListOp =>
        var v :- GetValue(Popped(s, 0));
        Ok((PropListLit(v), AfterPops(s, 1) + [PropListLit(v)]))
      case PushIntOp => Ok((IntLit(obj), s + [IntLit(obj)]))
      case NewListOp(isArgList) =>
        var start := SpliceStart(|s|, obj);
        var t := ListLit(s[start..], isArgList);
        Ok((t, s[..start] + [t]))
      case PushConsOp =>
        var c :- ConstantNode(literals, obj);
        Ok((c, s + [c]))
      case PushSymbOp => Ok((SymbolLit(NameAt(nameList, obj)), s + [SymbolLit(NameAt(nameList, obj))]))
      case GetVarOp(kind) =>
        var ref := Reference(kind, obj, nameList, argumentNames, localNames);
        Ok((ref, s + [ref]))
      case CallObjOldOp => Ok((Null, AfterPops(s, 2)))
      case GetMoviePropOp => Ok((MovieProp(NameAt(nameList, obj)), s + [MovieProp(NameAt(nameList, obj))]))
      case GetObjPropOp => PushedOnto(New(ObjProp(Popped(s, 0), NameAt(nameList, obj))), AfterPops(s, 1))
      case GetMovieInfoOp => Ok((MovieProp(NameAt(nameList, obj)), AfterPops(s, 1) + [MovieProp(NameAt(nameList, obj))]))
    }

    /**
     * A stack-only handler works on its operands and nothing below them:
     * the entries under the top `Arity` are kept, and the stack then holds
     * the translation (or, for `wraplist`, the entry it put back) unless
     * the handler only drops entries.
     */
    lemma ExpressionStepKeepsBelow(op: Op, obj: nat, s: seq<Node>)
      requires StackOnly(op) && Arity(op, obj) <= |s| && forall k :: 0 <= k < |literals| ==> Resolved(literals[k])
      ensures var step := ExpressionStep(op, obj, s);
        var keep := |s| - Arity(op, obj);
        step.Ok? ==>
          && |step.value.1| == keep + (if OnlyDrops(op) then 0 else 1)
          && step.value.1[..keep] == s[..keep]
          && (!OnlyDrops(op) && !op.WrapListOp? ==> step.value.1[keep] == step.value.0)
          && (op.WrapListOp? ==> step.value.1 == s)
    {
      var keep := |s| - Arity(op, obj);
      if op.WrapListOp? {
        assert AfterPops(s, 1) + [Popped(s, 0)] == s;
      } else if op.NewListOp? {
        assert SpliceStart(|s|, obj) == keep;
      }
    }

    /** The handlers that only work on the stack. */
    method TranslateExpression(op: Op, obj: nat) returns (r: Result<Node>)
      requires Valid() && StackOnly(op)
      modifies stack
      ensures var step := ExpressionStep(op, obj, old(stack.items));
        && (r.Ok? <==> step.Ok?)
        && (r.Ok? ==> r.value == step.value.0 && stack.items == step.value.1)
    {
      if MakesNode(op) {
        r := TranslateOperator(op, obj);
      } else if PushesLeaf(op) {
        r := TranslateLeaf(op, obj);
      } else {
        var t := TranslateStackShape(op, obj);
        r := Ok(t);
      }
    }

    /** The handlers that build a node from popped operands; `new` throws on a `null` one. */
    method TranslateOperator(op: Op, obj: nat) returns (r: Result<Node>)
      requires Valid() && StackOnly(op) && MakesNode(op)
      modifies stack
      ensures var step := ExpressionStep(op, obj, old(stack.items));
        && (r.Ok? <==> step.Ok?)
        && (r.Ok? ==> r.value == step.value.0 && stack.items == step.value.1)
    {
      if op.BinaryOp? || op.SpriteOp? {
        r := TranslatePairOperator(op, obj);
      } else if op.InvOp? || op.NotOp? || op.CastStrOp? {
        r := TranslateTopOperator(op, obj);
      } else {
        r := TranslateTopLookup(op, obj);
      }
    }

    /** The operators that wrap the top entry: `inv`, `not` and `caststr`. */
    method TranslateTopOperator(op: Op, obj: nat) returns (r: Result<Node>)
      requires Valid() && (op.InvOp? || op.NotOp? || op.CastStrOp?)
      modifies stack
      ensures var step := ExpressionStep(op, obj, old(stack.items));
        && (r.Ok? <==> step.Ok?)
        && (r.Ok? ==> r.value == step.value.0 && stack.items == step.value.1)
    {
      match op {
      case InvOp => r := TranslateUnary(false);
      case NotOp => r := TranslateUnary(true);
      case CastStrOp => r := TranslateCastStr();
      }
    }

    /** The operators that look the top entry up: `newproplist` and `getobjprop`. */
    method TranslateTopLookup(op: Op, obj: nat) returns (r: Result<Node>)
      requires Valid() && (op.NewPropListOp? || op.GetObjPropOp?)
      modifies stack
      ensures var step := ExpressionStep(op, obj, old(stack.items));
        && (r.Ok? <==> step.Ok?)
        && (r.Ok? ==> r.value == step.value.0 && stack.items == step.value.1)
    {
      match op {
      case NewPropListOp => r := TranslateNewPropList();
      case GetObjPropOp => r := TranslateGetObjProp(obj);
      }
    }

    /** The operators over the two top entries. */
    method TranslatePairOperator(op: Op, obj: nat) returns (r: Result<Node>)
      requires Valid() && (op.BinaryOp? || op.SpriteOp?)
      modifies stack
      ensures var step := ExpressionStep(op, obj, old(stack.items));
        && (r.Ok? <==> step.Ok?)
        && (r.Ok? ==> r.value == step.value.0 && stack.items == step.value.1)
    {
      match op {
      case BinaryOp(symbol) => r := TranslateBinary(symbol);
      case SpriteOp(within) => r := TranslateSprite(within);
      }
    }

    /** The handlers that push a node without popping anything. */
    method TranslateLeaf(op: Op, obj: nat) returns (r: Result<Node>)
      requires Valid() && StackOnly(op) && PushesLeaf(op)
      modifies stack
      ensures var step := ExpressionStep(op, obj, old(stack.items));
        && (r.Ok? <==> step.Ok?)
        && (r.Ok? ==> r.value == step.value.0 && stack.items == step.value.1)
    {
      match op {
      case PushInt0Op => var t := PushLeaf(IntLit(0)); r := Ok(t);
      case PushIntOp => var t := PushLeaf(IntLit(obj)); r := Ok(t);
      case PushConsOp =>
        var c :- ConstantNode(literals, obj);
        var t := PushLeaf(c);
        r := Ok(t);
      case PushSymbOp => var t := PushLeaf(SymbolLit(NameAt(nameList, obj))); r := Ok(t);
      case GetVarOp(kind) => var t := PushLeaf(Reference(kind, obj, nameList, argumentNames, localNames)); r := Ok(t);
      case GetMoviePropOp => var t := PushLeaf(MovieProp(NameAt(nameList, obj))); r := Ok(t);
      }
    }

    /** The handlers that drop, keep or regroup entries and never throw. */
    method TranslateStackShape(op: Op, obj: nat) returns (t: Node)
      requires Valid() && StackOnly(op) && !MakesNode(op) && !PushesLeaf(op)
      modifies stack
      ensures var step := ExpressionStep(op, obj, old(stack.items));
        step.Ok? && t == step.value.0 && stack.items == step.value.1
    {
      ghost var s := stack.items;
      match op {
      case PopOnlyOp => t := PopOnly();
      case NoOp => t := Null;
      case WrapListOp => t := WrapList(); assert s != [] ==> AfterPops(s, 1) + [Popped(s, 0)] == s;
      case NewListOp(isArgList) =>
        t := TranslateNewList(obj, isArgList);
        assert s[SpliceStart(|s|, obj)..] == t.items;
      case CallObjOldOp => t := PopTwo();
      case GetMovieInfoOp => t := TranslateGetMovieInfo(obj);
      }
    }

    /**
     * What a handler that adds statements or opens blocks does: `s` and `t`
     * are the stack and tree before, `s'` and `t'` after, `done` the
     * translations recorded so far and `res` the translation, none when
     * the handler throws. `get` is here too: it touches only the stack,
     * but how many entries it pops depends on the property id it pops
     * first. A handler that succeeds in a block of the arena grows the
     * stack by at most one entry.
     */
    ghost predicate StatementEffect(op: Op, index: nat, obj: nat, done: map<nat, Node>,
                                    s: seq<Node>, t: TreeState, s': seq<Node>, t': TreeState, res: Option<Node>)
      requires index < |code| && !StackOnly(op) && op != Unhandled
      ensures
        && StatementEffect(op, index, obj, done, s, t, s', t', res) && res.Some?
        && (t.current.Some? ==> t.current.value < |t.blocks|)
        ==> |s'| <= |s| + 1
    {
      match op
      case RetOp => AddedEffect(Exit, true, s, t, s', t', res)
      case SetVarOp(kind) =>
        AddedEffect(Assignment(Reference(kind, obj, nameList, argumentNames, localNames), Popped(s, 0)),
                    Popped(s, 0) != Null, AfterPops(s, 1), t, s', t', res)
      case SetMoviePropOp =>
        AddedEffect(Assignment(MovieProp(NameAt(nameList, obj)), Popped(s, 0)), Popped(s, 0) != Null, AfterPops(s, 1), t, s', t', res)
      case SetObjPropOp =>
        AddedEffect(Assignment(ObjProp(Popped(s, 1), NameAt(nameList, obj)), Popped(s, 0)),
                    Popped(s, 0) != Null && Popped(s, 1) != Null, AfterPops(s, 2), t, s', t', res)
      case ChunkOp(hilite) =>
        var node := ChunkNode(seq(9, j requires 0 <= j < 9 => Popped(s, j)), hilite);
        && (res.Some? ==> node.Ok? && res.value == node.value)
        && (node.Ok? && (!hilite || t.current.Some?) ==> res.Some?)
        && (res.Some? && !hilite ==> s' == AfterPops(s, 9) + [res.value] && t'.blocks == t.blocks)
        && (res.Some? && hilite ==> s' == AfterPops(s, 9) && StatementAdded(t.blocks, t.current, t'.blocks, res.value))
        && t'.ifs == t.ifs && t'.current == t.current
      case CallOp(kind) =>
        var argList := Popped(s, 0);
        var known := kind == LocalCall ==> obj < |handlerNames|;
        var callee := if kind == LocalCall && obj < |handlerNames| then handlerNames[obj] else NameAt(nameList, obj);
        CallEffect(Call(kind, callee, argList), argList, argList != Null && known, s, t, s', t', res)
      case CallObjOp =>
        var argList := Popped(s, 0);
        var node := if argList.ListLit? then ObjCall(ListShift(argList).value.0, NameAt(nameList, obj), ListShift(argList).value.1) else Null;
        CallEffect(node, argList, argList.ListLit?, s, t, s', t', res)
      case IfTrueOp =>
        && (res.Some? <==> Popped(s, 0) != Null && t.current.Some?)
        && (res.Some? && t.current.value < |t.blocks| ==>
          && res.value == IfRef(|t.ifs|)
          && s' == AfterPops(s, 1)
          && t'.ifs == t.ifs + [IfRec(If, Popped(s, 0), |t.blocks|, None, t.current)]
          && t'.blocks == WithChild(t.blocks, t.current.value, IfRef(|t.ifs|)) + [BlockRec([], Some(code[index].pos + obj), IfOwner(|t.ifs|))]
          && t'.current == Some(|t.blocks|))
      case JmpOp =>
        && s' == s && t'.current == t.current
        && (res.Some? ==> t.current.Some?)
        && (t.current.Some? && t.current.value < |t.blocks| ==>
          var owner := t.blocks[t.current.value].owner;
          var action := JmpDecision(code, byPos, index, obj, owner.IfOwner?, t.blocks[t.current.value].endPos);
          && (res.Some? <==> action.Ok?)
          && (res.Some? && action.value == NoJmpAction ==> res.value == Null && t' == t)
          && (res.Some? && action.value == AddExitRepeat ==> res.value == ExitRepeat && StatementAdded(t.blocks, t.current, t'.blocks, ExitRepeat))
          && (res.Some? && action.value == AddNextRepeat ==> res.value == NextRepeat && StatementAdded(t.blocks, t.current, t'.blocks, NextRepeat))
          && (res.Some? && action.value.MakeIfElse? && owner.IfOwner? && owner.id < |t.ifs| ==>
                && res.value == Null
                && t'.ifs == t.ifs[owner.id := t.ifs[owner.id].(kind := IfElse, block2 := Some(|t.blocks|))]
                && t'.blocks == t.blocks + [BlockRec([], Some(action.value.targetPos), IfOwner(owner.id))]))
      case EndRepeatOp =>
        var target := IndexAt(code, byPos, code[index].pos - obj);
        var h := if target.Some? then RepeatHeader(code, target.value) else None;
        && s' == s && t'.current == t.current
        && (res.Some? <==> h.Some? && h.value in done && done[h.value].IfRef? && done[h.value].id < |t.ifs|)
        && (res.Some? ==>
          var id := done[h.value].id;
          && res.value == Null
          && t'.ifs == t.ifs[id := t.ifs[id].(kind := RepeatWhile, block2 := None)]
          && t'.blocks == t.blocks)
      case GetOp =>
        var step := GetProperty(obj, s);
        && (res.Some? <==> step.Ok?)
        && (res.Some? ==> res.value == step.value.0 && s' == step.value.1 + [res.value])
        && t' == t
      case SetOp =>
        var step := SetProperty(obj, s);
        AddedEffect(if step.Ok? then step.value.0 else Null, step.Ok?, if step.Ok? then step.value.1 else s, t, s', t', res)
    }

    /**
     * Only `iftrue` enters a block: every other statement handler leaves the
     * current block as it was, and a successful `iftrue` moves to the block
     * it appended.
     */
    lemma OnlyIfTrueEntersBlock(op: Op, index: nat, obj: nat, done: map<nat, Node>,
                                s: seq<Node>, t: TreeState, s': seq<Node>, t': TreeState, res: Option<Node>)
      requires index < |code| && !StackOnly(op) && op != Unhandled
      requires StatementEffect(op, index, obj, done, s, t, s', t', res)
      requires t.current.Some? ==> t.current.value < |t.blocks|
      ensures !op.IfTrueOp? ==> t'.current == t.current
      ensures op.IfTrueOp? && res.Some? ==> t'.current == Some(|t.blocks|) && |t'.blocks| == |t.blocks| + 1
    {
      if op.IfTrueOp? && res.Some? {
        assert |WithChild(t.blocks, t.current.value, IfRef(|t.ifs|))| == |t.blocks|;
      }
    }

    /** The handlers that add statements or open blocks. */
    method TranslateStatement(op: Op, index: nat, obj: nat) returns (r: Result<Node>)
      requires Valid() && index < |code| && !StackOnly(op) && op != Unhandled
      modifies stack, ast
      ensures Valid()
      ensures StatementEffect(op, index, obj, translations, old(stack.items), old(Snapshot(ast)),
                              stack.items, Snapshot(ast), if r.Ok? then Some(r.value) else None)
    {
      match op {
      case RetOp => r := AddLeafStatement(Exit);
      case ChunkOp(hilite) => r := TranslateChunk(hilite);
      case SetVarOp(kind) => r := TranslateAssign(Reference(kind, obj, nameList, argumentNames, localNames));
      case JmpOp => r := TranslateJmp(index, obj);
      case EndRepeatOp => r := TranslateEndRepeat(index, obj);
      case IfTrueOp => r := TranslateIfTrue(index, obj);
      case CallOp(kind) => r := TranslateCall(kind, obj);
      case GetOp => r := TranslateGet(obj);
      case SetOp => r := TranslateSet(obj);
      case SetMoviePropOp => r := TranslateAssign(MovieProp(NameAt(nameList, obj)));
      case SetObjPropOp => r := TranslateSetObjProp(obj);
      case CallObjOp => r := TranslateCallObj(obj);
      }
    }

    /** Pushes a node no operand goes into. */
    method PushLeaf(n: Node) returns (t: Node)
      modifies stack
      ensures t == n && stack.items == old(stack.items) + [n]
    {
      stack.Push(n);
      t := n;
    }

    /** `ret`, `exit repeat`, `next repeat`: a statement without operands. */
    method AddLeafStatement(n: Node) returns (r: Result<Node>)
      requires Valid() && !n.IfRef?
      modifies ast
      ensures Valid()
      ensures r.Ok? <==> old(ast.currentBlock).Some?
      ensures r.Ok? ==> r.value == n && StatementAdded(old(ast.blocks), old(ast.currentBlock), ast.blocks, n)
      ensures ast.ifs == old(ast.ifs) && ast.currentBlock == old(ast.currentBlock)
    {
      var _ :- ast.AddStatement(n);
      r := Ok(n);
    }

    /**
     * `handleBinaryOperator`: pops the right operand, then the left, and
     * pushes the operator node; one entry fewer when two were there.
     */
    method TranslateBinary(op: string) returns (r: Result<Node>)
      modifies stack
      ensures var s := old(stack.items);
        var node := Binary(op, Popped(s, 1), Popped(s, 0));
        && (r.Ok? <==> Popped(s, 0) != Null && Popped(s, 1) != Null)
        && (r.Ok? ==> r.value == node && stack.items == AfterPops(s, 2) + [node])
        && (r.Ok? && |s| >= 2 ==> |stack.items| == |s| - 1)
    {
      ghost var s := stack.items;
      var y := stack.Pop();
      var x := stack.Pop();
      PopTwice(s);
      var node :- New(Binary(op, x, y));
      stack.Push(node);
      r := Ok(node);
    }

    /** `inv` and `not`: one operand popped, the operator node pushed. */
    method TranslateUnary(isNot: bool) returns (r: Result<Node>)
      modifies stack
      ensures var s := old(stack.items);
        var node := if isNot then Not(Popped(s, 0)) else Inverse(Popped(s, 0));
        && (r.Ok? <==> Popped(s, 0) != Null)
        && (r.Ok? ==> r.value == node && stack.items == AfterPops(s, 1) + [node])
    {
      var x := stack.Pop();
      var node :- New(if isNot then Not(x) else Inverse(x));
      stack.Push(node);
      r := Ok(node);
    }

    /** k consecutive `pop`s, in the order they happen. */
    method PopEntries(k: nat) returns (popped: seq<Node>)
      modifies stack
      ensures |popped| == k && forall j :: 0 <= j < k ==> popped[j] == Popped(old(stack.items), j)
      ensures stack.items == AfterPops(old(stack.items), k)
    {
      ghost var s := stack.items;
      popped := [];
      while |popped| < k
        invariant |popped| <= k
        invariant forall j :: 0 <= j < |popped| ==> popped[j] == Popped(s, j)
        invariant stack.items == AfterPops(s, |popped|)
      {
        var x := stack.Pop();
        popped := popped + [x];
      }
    }

    /**
     * `splitstr` and `lightstr`: nine entries, the string (or field) on top
     * and the first and last index of line, item, word and char below it.
     * `splitstr` pushes the chunk expression, `lightstr` adds it as a
     * highlight statement; `null` when every first index is 0.
     */
    method TranslateChunk(hilite: bool) returns (r: Result<Node>)
      requires Valid()
      modifies stack, ast
      ensures Valid()
      ensures var s := old(stack.items);
        var node := ChunkNode(seq(9, j requires 0 <= j < 9 => Popped(s, j)), hilite);
        && (r.Ok? ==> node.Ok? && r.value == node.value)
        && (node.Ok? && (!hilite || old(ast.currentBlock).Some?) ==> r.Ok?)
        && (r.Ok? && !hilite ==> stack.items == AfterPops(s, 9) + [r.value] && ast.blocks == old(ast.blocks))
        && (r.Ok? && hilite ==> stack.items == AfterPops(s, 9) && StatementAdded(old(ast.blocks), old(ast.currentBlock), ast.blocks, r.value))
      ensures ast.ifs == old(ast.ifs) && ast.currentBlock == old(ast.currentBlock)
    {
      ghost var s := stack.items;
      var top := PopEntries(9);
      assert top == seq(9, j requires 0 <= j < 9 => Popped(s, j));
      var node :- ChunkNode(top, hilite);
      if hilite {
        var _ :- ast.AddStatement(node);
      } else {
        stack.Push(node);
      }
      r := Ok(node);
    }

    /** `ontospr` and `intospr`: the first sprite is the top entry, the second the one below. */
    method TranslateSprite(within: bool) returns (r: Result<Node>)
      modifies stack
      ensures var s := old(stack.items);
        var node := if within then SpriteWithin(Popped(s, 0), Popped(s, 1)) else SpriteIntersects(Popped(s, 0), Popped(s, 1));
        && (r.Ok? <==> Popped(s, 0) != Null && Popped(s, 1) != Null)
        && (r.Ok? ==> r.value == node && stack.items == AfterPops(s, 2) + [node])
    {
      ghost var s := stack.items;
      var first := stack.Pop();
      var second := stack.Pop();
      PopTwice(s);
      var node :- New(if within then SpriteWithin(first, second) else SpriteIntersects(first, second));
      stack.Push(node);
      r := Ok(node);
    }

    /** `caststr`: a field reference to the popped ID. */
    method TranslateCastStr() returns (r: Result<Node>)
      modifies stack
      ensures var s := old(stack.items);
        && (r.Ok? <==> Popped(s, 0) != Null)
        && (r.Ok? ==> r.value == FieldRef(Popped(s, 0)) && stack.items == AfterPops(s, 1) + [r.value])
    {
      var id := stack.Pop();
      var node :- New(FieldRef(id));
      stack.Push(node);
      r := Ok(node);
    }

    /** `startobj`, `op_59xx` and `op_5bxx`: one entry dropped, no translation. */
    method PopOnly() returns (t: Node)
      modifies stack
      ensures t == Null && stack.items == AfterPops(old(stack.items), 1)
    {
      var _ := stack.Pop();
      t := Null;
    }

    /** `callobj_old?`: two entries dropped, no translation. */
    method PopTwo() returns (t: Node)
      modifies stack
      ensures t == Null && stack.items == AfterPops(old(stack.items), 2)
    {
      ghost var s := stack.items;
      var _ := stack.Pop();
      var _ := stack.Pop();
      PopTwice(s);
      t := Null;
    }

    /** `wraplist`: the top entry is popped and pushed back, so an empty stack gains an ERROR. */
    method WrapList() returns (t: Node)
      modifies stack
      ensures t == Null
      ensures old(stack.items) != [] ==> stack.items == old(stack.items)
      ensures old(stack.items) == [] ==> stack.items == [Error]
    {
      var list := stack.Pop();
      stack.Push(list);
      t := Null;
    }

    /** `newproplist`: the popped list's value becomes a property list. */
    method TranslateNewPropList() returns (r: Result<Node>)
      modifies stack
      ensures var s := old(stack.items);
        && (r.Ok? <==> Popped(s, 0) != Null)
        && (r.Ok? ==> r.value == PropListLit(GetValue(Popped(s, 0)).value) && stack.items == AfterPops(s, 1) + [r.value])
    {
      var list := stack.Pop();
      var v :- GetValue(list);
      var node := PropListLit(v);
      stack.Push(node);
      r := Ok(node);
    }

    /**
     * `newarglist` and `newlist`: the top n entries, in their stack order,
     * become one list that replaces them.
     */
    method TranslateNewList(n: nat, isArgList: bool) returns (t: Node)
      modifies stack
      ensures var s := old(stack.items);
        && t.ListLit? && t.isArgList == isArgList
        && stack.items == s[..SpliceStart(|s|, n)] + [t]
        && s[..SpliceStart(|s|, n)] + t.items == s
        && (n <= |s| ==> t.items == s[|s| - n..] && stack.items == AfterPops(s, n) + [t])
    {
      var items := stack.SpliceTop(n);
      t := ListLit(items, isArgList);
      stack.Push(t);
    }

    /**
     * A store (`setglobal`, `setprop`, `setparam`, `setlocal`,
     * `setmovieprop`): the value is popped and the assignment added as a
     * statement.
     */
    method TranslateAssign(target: Node) returns (r: Result<Node>)
      requires Valid() && target != Null
      modifies stack, ast
      ensures Valid()
      ensures var s := old(stack.items);
        var node := Assignment(target, Popped(s, 0));
        && (r.Ok? <==> Popped(s, 0) != Null && old(ast.currentBlock).Some?)
        && (r.Ok? ==> r.value == node && stack.items == AfterPops(s, 1)
                      && StatementAdded(old(ast.blocks), old(ast.currentBlock), ast.blocks, node))
      ensures ast.ifs == old(ast.ifs) && ast.currentBlock == old(ast.currentBlock)
    {
      var value := stack.Pop();
      var node :- New(Assignment(target, value));
      var _ :- ast.AddStatement(node);
      r := Ok(node);
    }

    /** `getobjprop`: the property of the popped object. */
    method TranslateGetObjProp(obj: nat) returns (r: Result<Node>)
      modifies stack
      ensures var s := old(stack.items);
        var node := ObjProp(Popped(s, 0), NameAt(nameList, obj));
        && (r.Ok? <==> Popped(s, 0) != Null)
        && (r.Ok? ==> r.value == node && stack.items == AfterPops(s, 1) + [node])
    {
      var receiver := stack.Pop();
      var node :- New(ObjProp(receiver, NameAt(nameList, obj)));
      stack.Push(node);
      r := Ok(node);
    }

    /** `setobjprop`: the value is on top, the object below it. */
    method TranslateSetObjProp(obj: nat) returns (r: Result<Node>)
      requires Valid()
      modifies stack, ast
      ensures Valid()
      ensures var s := old(stack.items);
        var node := Assignment(ObjProp(Popped(s, 1), NameAt(nameList, obj)), Popped(s, 0));
        && (r.Ok? <==> Popped(s, 0) != Null && Popped(s, 1) != Null && old(ast.currentBlock).Some?)
        && (r.Ok? ==> r.value == node && stack.items == AfterPops(s, 2)
                      && StatementAdded(old(ast.blocks), old(ast.currentBlock), ast.blocks, node))
      ensures ast.ifs == old(ast.ifs) && ast.currentBlock == old(ast.currentBlock)
    {
      ghost var s := stack.items;
      var value := stack.Pop();
      var receiver := stack.Pop();
      PopTwice(s);
      var prop :- New(ObjProp(receiver, NameAt(nameList, obj)));
      var node :- New(Assignment(prop, value));
      var _ :- ast.AddStatement(node);
      r := Ok(node);
    }

    /**
     * `get`: the property id on top, then the operands its kind takes;
     * the reference is pushed, `null` for an operand without a case.
     */
    method TranslateGet(obj: nat) returns (r: Result<Node>)
      modifies stack
      ensures var step := GetProperty(obj, old(stack.items));
        && (r.Ok? <==> step.Ok?)
        && (r.Ok? ==> r.value == step.value.0 && stack.items == step.value.1 + [r.value])
    {
      ghost var s := stack.items;
      var t := Null;
      if GetCase(obj) {
        var top := stack.Pop();
        var id :- GetValue(top);
        var n := GetOperandCount(obj, id);
        var operands := PopEntries(n);
        forall j | 0 <= j < n ensures operands[j] == Popped(s, 1 + j) {
          PopsCompose(s, 1, j);
        }
        PopsCompose(s, 1, n);
        t :- GetNode(obj, id, operands);
      }
      stack.Push(t);
      r := Ok(t);
    }

    /**
     * `set`: the property id on top, then the value and the property's
     * owner; the assignment (or `null`) is added to the current block.
     */
    method TranslateSet(obj: nat) returns (r: Result<Node>)
      requires Valid()
      modifies stack, ast
      ensures Valid()
      ensures var step := SetProperty(obj, old(stack.items));
        && (r.Ok? <==> step.Ok? && old(ast.currentBlock).Some?)
        && (r.Ok? ==> r.value == step.value.0 && stack.items == step.value.1
                      && StatementAdded(old(ast.blocks), old(ast.currentBlock), ast.blocks, r.value))
      ensures ast.ifs == old(ast.ifs) && ast.currentBlock == old(ast.currentBlock)
    {
      var t :- PopSetStatement(obj);
      var _ :- ast.AddStatement(t);
      r := Ok(t);
    }

    /** The pops of `set` and the statement it builds from them. */
    method PopSetStatement(obj: nat) returns (r: Result<Node>)
      modifies stack
      ensures var step := SetProperty(obj, old(stack.items));
        && (r.Ok? <==> step.Ok?)
        && (r.Ok? ==> r.value == step.value.0 && stack.items == step.value.1)
    {
      ghost var s := stack.items;
      var t := Null;
      if SetCase(obj) {
        var top := stack.Pop();
        var id :- GetValue(top);
        var n := SetOperandCount(obj);
        var operands := PopEntries(n);
        forall j | 0 <= j < n ensures operands[j] == Popped(s, 1 + j) {
          PopsCompose(s, 1, j);
        }
        PopsCompose(s, 1, n);
        t :- SetNode(obj, id, operands);
      }
      r := Ok(t);
    }

    /** `getmovieinfo`: one entry dropped, then the movie property pushed. */
    method TranslateGetMovieInfo(obj: nat) returns (t: Node)
      modifies stack
      ensures t == MovieProp(NameAt(nameList, obj)) && stack.items == AfterPops(old(stack.items), 1) + [t]
    {
      var _ := stack.Pop();
      t := MovieProp(NameAt(nameList, obj));
      stack.Push(t);
    }

    /**
     * `call_local` and `call_external`: the popped argument list goes into
     * the call; a call on a plain list is an expression and is pushed, any
     * other is added as a statement.
     */
    method TranslateCall(kind: CallKind, obj: nat) returns (r: Result<Node>)
      requires Valid()
      modifies stack, ast
      ensures Valid()
      ensures var s := old(stack.items);
        var argList := Popped(s, 0);
        && (r.Ok? <==> argList != Null && (kind == LocalCall ==> obj < |handlerNames|)
                       && (!IsExpressionCall(argList) ==> old(ast.currentBlock).Some?))
        && (r.Ok? ==>
          var callee := if kind == LocalCall then handlerNames[obj] else NameAt(nameList, obj);
          && r.value == Call(kind, callee, argList)
          && (IsExpressionCall(argList) ==> stack.items == AfterPops(s, 1) + [r.value] && ast.blocks == old(ast.blocks))
          && (!IsExpressionCall(argList) ==>
                stack.items == AfterPops(s, 1) && StatementAdded(old(ast.blocks), old(ast.currentBlock), ast.blocks, r.value)))
      ensures ast.ifs == old(ast.ifs) && ast.currentBlock == old(ast.currentBlock)
    {
      var argList := stack.Pop();
      if kind == LocalCall && obj >= |handlerNames| {
        return Err(TypeError);
      }
      var callee := if kind == LocalCall then handlerNames[obj] else NameAt(nameList, obj);
      var node :- New(Call(kind, callee, argList));
      if IsExpressionCall(argList) {
        stack.Push(node);
      } else {
        var _ :- ast.AddStatement(node);
      }
      r := Ok(node);
    }

    /**
     * `callobj`: the object is shifted off the front of the popped argument
     * list and the call takes the rest; pushed or added as for the other
     * calls.
     */
    method TranslateCallObj(obj: nat) returns (r: Result<Node>)
      requires Valid()
      modifies stack, ast
      ensures Valid()
      ensures var s := old(stack.items);
        var argList := Popped(s, 0);
        && (r.Ok? <==> argList.ListLit? && (!IsExpressionCall(argList) ==> old(ast.currentBlock).Some?))
        && (r.Ok? ==>
          var (first, rest) := ListShift(argList).value;
          && r.value == ObjCall(first, NameAt(nameList, obj), rest)
          && (IsExpressionCall(argList) ==> stack.items == AfterPops(s, 1) + [r.value] && ast.blocks == old(ast.blocks))
          && (!IsExpressionCall(argList) ==>
                stack.items == AfterPops(s, 1) && StatementAdded(old(ast.blocks), old(ast.currentBlock), ast.blocks, r.value)))
      ensures ast.ifs == old(ast.ifs) && ast.currentBlock == old(ast.currentBlock)
    {
      var argList := stack.Pop();
      var shifted :- ListShift(argList);
      var (first, rest) := shifted;
      // The shifted item is never `null` and the rest is a list: the constructor cannot fail.
      var node := ObjCall(first, NameAt(nameList, obj), rest);
      if IsExpressionCall(rest) {
        stack.Push(node);
      } else {
        var _ :- ast.AddStatement(node);
      }
      r := Ok(node);
    }

    /**
     * `iftrue`: pops the condition, makes an if statement whose first block
     * ends at `pos + obj`, adds it to the current block and enters the first
     * block.
     */
    method TranslateIfTrue(index: nat, obj: nat) returns (r: Result<Node>)
      requires Valid() && index < |code|
      modifies stack, ast
      ensures Valid()
      ensures var s := old(stack.items);
        var cond := Popped(s, 0);
        && (r.Ok? <==> cond != Null && old(ast.currentBlock).Some?)
        && (r.Ok? ==>
          var id := |old(ast.ifs)|;
          var b1 := |old(ast.blocks)|;
          var cur := old(ast.currentBlock).value;
          && r.value == IfRef(id)
          && stack.items == AfterPops(s, 1)
          && ast.ifs == old(ast.ifs) + [IfRec(If, cond, b1, None, Some(cur))]
          && ast.blocks == WithChild(old(ast.blocks), cur, IfRef(id)) + [BlockRec([], Some(code[index].pos + obj), IfOwner(id))]
          && ast.currentBlock == Some(b1))
    {
      var endPos := code[index].pos + obj;
      var condition := stack.Pop();
      if ast.currentBlock.None? {
        var _ := ast.NewIf(condition);
        return Err(TypeError);
      }
      ghost var cur := ast.currentBlock.value;
      ghost var blocks0 := ast.blocks;
      var made :- ast.NewIf(condition);
      var block1 := ast.ifs[made].block1;
      ast.SetEndPos(block1, endPos);
      var _ := ast.AddStatement(IfRef(made));
      ast.EnterBlock(block1);
      assert ast.blocks == WithChild(blocks0, cur, IfRef(made)) + [BlockRec([], Some(endPos), IfOwner(made))];
      r := Ok(IfRef(made));
    }

    /**
     * `jmp`: inside an if statement's block, adds `exit repeat` or `next
     * repeat`, or turns the if into an if/else whose second block ends at
     * the jump target; elsewhere it does nothing.
     */
    method TranslateJmp(index: nat, obj: nat) returns (r: Result<Node>)
      requires Valid() && index < |code|
      modifies ast
      ensures Valid()
      ensures r.Ok? ==> old(ast.currentBlock).Some?
      ensures old(ast.currentBlock).Some? ==>
        var cur := old(ast.currentBlock).value;
        var owner := old(ast.blocks[cur].owner);
        var action := JmpDecision(code, byPos, index, obj, owner.IfOwner?, old(ast.blocks[cur].endPos));
        && (r.Ok? <==> action.Ok?)
        && (r.Ok? && action.value == NoJmpAction ==> r.value == Null && ast.blocks == old(ast.blocks) && ast.ifs == old(ast.ifs))
        && (r.Ok? && action.value == AddExitRepeat ==> r.value == ExitRepeat && StatementAdded(old(ast.blocks), Some(cur), ast.blocks, ExitRepeat))
        && (r.Ok? && action.value == AddNextRepeat ==> r.value == NextRepeat && StatementAdded(old(ast.blocks), Some(cur), ast.blocks, NextRepeat))
        && (r.Ok? && action.value.MakeIfElse? ==>
              var b2 := |old(ast.blocks)|;
              && r.value == Null
              && ast.ifs == old(ast.ifs)[owner.id := old(ast.ifs)[owner.id].(kind := IfElse, block2 := Some(b2))]
              && ast.blocks == old(ast.blocks) + [BlockRec([], Some(action.value.targetPos), IfOwner(owner.id))])
      ensures ast.currentBlock == old(ast.currentBlock)
    {
      if ast.currentBlock.None? {
        return Err(TypeError);
      }
      var cur := ast.currentBlock.value;
      var owner := ast.blocks[cur].owner;
      var action :- JmpDecision(code, byPos, index, obj, owner.IfOwner?, ast.blocks[cur].endPos);
      match action
      case NoJmpAction => r := Ok(Null);
      case AddExitRepeat => r := AddLeafStatement(ExitRepeat);
      case AddNextRepeat => r := AddLeafStatement(NextRepeat);
      case MakeIfElse(targetPos) =>
        ast.SetType(owner.id, IfElse);
        ast.SetEndPos(ast.ifs[owner.id].block2.value, targetPos);
        r := Ok(Null);
    }

    /**
     * `endrepeat`: from the instruction its back-jump lands on, scans
     * forward to the first `iftrue` and retags that if statement as a
     * repeat-while loop.
     */
    method TranslateEndRepeat(index: nat, obj: nat) returns (r: Result<Node>)
      requires Valid() && index < |code|
      modifies ast
      ensures Valid()
      ensures var t := IndexAt(code, byPos, code[index].pos - obj);
        var h := if t.Some? then RepeatHeader(code, t.value) else None;
        && (r.Ok? <==> h.Some? && h.value in translations && translations[h.value].IfRef?
                       && translations[h.value].id < |old(ast.ifs)|)
        && (r.Ok? ==>
          var id := translations[h.value].id;
          && r.value == Null
          && ast.ifs == old(ast.ifs)[id := old(ast.ifs)[id].(kind := RepeatWhile, block2 := None)]
          && ast.blocks == old(ast.blocks))
      ensures ast.currentBlock == old(ast.currentBlock)
    {
      var t := IndexAt(code, byPos, code[index].pos - obj);
      if t.None? {
        return Err(TypeError);
      }
      var j := t.value;
      while true
        invariant t.value <= j
        invariant RepeatHeader(code, t.value) == RepeatHeader(code, j)
        invariant ast.ifs == old(ast.ifs) && ast.blocks == old(ast.blocks) && ast.currentBlock == old(ast.currentBlock)
        decreases |code| - j
      {
        if j >= |code| {
          return Err(TypeError);
        }
        if code[j].opcode() == "iftrue" {
          break;
        }
        j := j + 1;
      }
      if !(j in translations && translations[j].IfRef? && translations[j].id < |ast.ifs|) {
        return Err(TypeError);
      }
      ast.SetType(translations[j].id, RepeatWhile);
      r := Ok(Null);
    }

    /** An opcode without a handler: a comment naming it, then an empty stack; the translation is ERROR. */
    method TranslateUnhandled(b: Bytecode) returns (r: Result<Node>)
      requires Valid()
      modifies this, ast
      ensures Valid() && ast == old(ast)
      ensures r.Ok? <==> old(ast.currentBlock).Some?
      ensures r.Ok? ==>
        r.value == Error && fresh(stack) && stack.items == [] && StatementAdded(old(ast.blocks), old(ast.currentBlock), ast.blocks, Comment(UnhandledComment(b)))
      ensures r.Err? ==> stack == old(stack)
      ensures ast.ifs == old(ast.ifs) && ast.currentBlock == old(ast.currentBlock)
      ensures translations == old(translations)
    {
      var _ :- ast.AddStatement(Comment(UnhandledComment(b)));
      stack := new Stack();
      r := Ok(Error);
    }
  }
}
