/**
 * The values the director generation of the decompiler translates Lingo
 * bytecode into: the `Datum` record, the syntax-tree nodes that carry no
 * block of their own, and the pure helpers of the translator (the choice
 * of a chunk reference, the rewriting of object calls, the value stack's
 * pops). Statements that own blocks live in the handler's arena and are
 * referred to here by index (`StmtRef`).
 */
module DirectorLingo {
  import opened Bytes
  import opened Wrappers
  import LingoDecNames

  // ---------------------------------------------------------------------
  // Opcodes (the `OpCode` enumeration of `lingo.h`).

  const OpRet: byte := 0x01
  const OpRetFactory: byte := 0x02
  const OpPushZero: byte := 0x03
  const OpMul: byte := 0x04
  const OpAdd: byte := 0x05
  const OpSub: byte := 0x06
  const OpDiv: byte := 0x07
  const OpMod: byte := 0x08
  const OpInv: byte := 0x09
  const OpJoinStr: byte := 0x0a
  const OpJoinPadStr: byte := 0x0b
  const OpLt: byte := 0x0c
  const OpLtEq: byte := 0x0d
  const OpNtEq: byte := 0x0e
  const OpEq: byte := 0x0f
  const OpGt: byte := 0x10
  const OpGtEq: byte := 0x11
  const OpAnd: byte := 0x12
  const OpOr: byte := 0x13
  const OpNot: byte := 0x14
  const OpContainsStr: byte := 0x15
  const OpContains0Str: byte := 0x16
  const OpGetChunk: byte := 0x17
  const OpHiliteChunk: byte := 0x18
  const OpOntoSpr: byte := 0x19
  const OpIntoSpr: byte := 0x1a
  const OpGetField: byte := 0x1b
  const OpStartTell: byte := 0x1c
  const OpEndTell: byte := 0x1d
  const OpPushList: byte := 0x1e
  const OpPushPropList: byte := 0x1f
  const OpSwap: byte := 0x21
  const OpPushInt8: byte := 0x41
  const OpPushArgListNoRet: byte := 0x42
  const OpPushArgList: byte := 0x43
  const OpPushCons: byte := 0x44
  const OpPushSymb: byte := 0x45
  const OpPushVarRef: byte := 0x46
  const OpGetGlobal2: byte := 0x48
  const OpGetGlobal: byte := 0x49
  const OpGetProp: byte := 0x4a
  const OpGetParam: byte := 0x4b
  const OpGetLocal: byte := 0x4c
  const OpSetGlobal2: byte := 0x4e
  const OpSetGlobal: byte := 0x4f
  const OpSetProp: byte := 0x50
  const OpSetParam: byte := 0x51
  const OpSetLocal: byte := 0x52
  const OpJmp: byte := 0x53
  const OpEndRepeat: byte := 0x54
  const OpJmpIfZ: byte := 0x55
  const OpLocalCall: byte := 0x56
  const OpExtCall: byte := 0x57
  const OpObjCallV4: byte := 0x58
  const OpPut: byte := 0x59
  const OpPutChunk: byte := 0x5a
  const OpDeleteChunk: byte := 0x5b
  const OpGet: byte := 0x5c
  const OpSet: byte := 0x5d
  const OpGetMovieProp: byte := 0x5f
  const OpSetMovieProp: byte := 0x60
  const OpGetObjProp: byte := 0x61
  const OpSetObjProp: byte := 0x62
  const OpTellCall: byte := 0x63
  const OpPeek: byte := 0x64
  const OpPop: byte := 0x65
  const OpTheBuiltin: byte := 0x66
  const OpObjCall: byte := 0x67
  const OpPushChunkVarRef: byte := 0x6d
  const OpPushInt16: byte := 0x6e
  const OpPushInt32: byte := 0x6f
  const OpGetChainedProp: byte := 0x70
  const OpPushFloat32: byte := 0x71
  const OpGetTopLevelProp: byte := 0x72

  /** The opcodes translated as a binary operator on the two topmost values. */
  predicate IsBinaryOp(op: byte)
  {
    OpMul <= op <= OpMod || OpJoinStr <= op <= OpOr || op == OpContainsStr || op == OpContains0Str
  }

  // The chunk kinds of `ChunkExprType` and the put kinds of `PutType`.
  const ChunkChar: int := 0x01
  const ChunkWord: int := 0x02
  const ChunkItem: int := 0x03
  const ChunkLine: int := 0x04
  const PutInto: int := 0x01
  const PutAfter: int := 0x02
  const PutBefore: int := 0x03

  /** The line ending of Lingo source text (`kLingoLineEnding`). */
  const LingoLineEnding: char := '\r'

  // ---------------------------------------------------------------------
  // Literal values and nodes.

  datatype DatumType =
    | DatumVoid | DatumSymbol | DatumVarRef | DatumString | DatumInt
    | DatumFloat | DatumList | DatumArgList | DatumArgListNoRet | DatumPropList

  /**
   * A `Datum`: its type tag and every field it carries, so that retyping a
   * datum keeps its other fields as the source does. Floating point is not
   * modelled: `f` holds the bits of the single-precision operand it was
   * pushed from. The source leaves `i` and `f` unset outside an int or a
   * float; here they are 0.
   */
  datatype Datum = Datum(datumType: DatumType, i: int, f: int, s: string, l: seq<Node>)

  /**
   * A syntax-tree node. A statement that owns blocks (if, the repeats and
   * tell) is an entry of the handler's arena, referred to by `StmtRef`.
   * An absent cast id is `None`.
   */
  datatype Node =
    | ErrorNode
    | CommentNode(text: string)
    | LiteralNode(value: Datum)
    | StmtRef(id: nat)
    | ExitStmtNode
    | InverseOpNode(operand: Node)
    | NotOpNode(operand: Node)
    | BinaryOpNode(opcode: byte, left: Node, right: Node)
    | ChunkExprNode(chunkType: int, first: Node, last: Node, str: Node)
    | ChunkHiliteStmtNode(chunk: Node)
    | ChunkDeleteStmtNode(chunk: Node)
    | SpriteIntersectsExprNode(firstSprite: Node, secondSprite: Node)
    | SpriteWithinExprNode(firstSprite: Node, secondSprite: Node)
    | MemberExprNode(memberType: string, memberID: Node, castID: Option<Node>)
    | VarNode(varName: string)
    | AssignmentStmtNode(variable: Node, val: Node, forceVerbose: bool)
    | CallNode(name: string, argList: Node)
    | ObjCallNode(name: string, argList: Node)
    | ObjCallV4Node(obj: Node, argList: Node)
    | TheExprNode(prop: string)
    | LastStringChunkExprNode(chunkType: int, str: Node)
    | StringChunkCountExprNode(chunkType: int, str: Node)
    | MenuPropExprNode(menuID: Node, propID: nat)
    | MenuItemPropExprNode(menuID: Node, itemID: Node, propID: nat)
    | SoundPropExprNode(soundID: Node, propID: nat)
    | SpritePropExprNode(spriteID: Node, propID: nat)
    | ThePropExprNode(obj: Node, prop: string)
    | ObjPropExprNode(obj: Node, prop: string)
    | ObjBracketExprNode(obj: Node, index: Node)
    | ObjPropIndexExprNode(obj: Node, prop: string, index: Node, index2: Option<Node>)
    | ExitRepeatStmtNode
    | NextRepeatStmtNode
    | PutStmtNode(putType: int, variable: Node, val: Node)
    | WhenStmtNode(event: int, script: string)

  /** The datum a fresh `Datum()` is: void. */
  const VoidDatum: Datum := Datum(DatumVoid, 0, 0, "", [])

  /** `Datum(int)`. */
  function IntDatum(i: int): (r: Datum)
    ensures r.datumType == DatumInt && r.i == i
  {
    Datum(DatumInt, i, 0, "", [])
  }

  /** `Datum(type, string)`. */
  function TextDatum(t: DatumType, s: string): (r: Datum)
    ensures r.datumType == t && r.s == s && r.l == []
  {
    Datum(t, 0, 0, s, [])
  }

  /** `Datum(type, list)`. */
  function ListDatum(t: DatumType, l: seq<Node>): (r: Datum)
    ensures r.datumType == t && r.l == l && r.s == ""
  {
    Datum(t, 0, 0, "", l)
  }

  /** `Node::getValue`: a literal's datum, and a fresh void datum for any other node. */
  function GetValue(n: Node): (r: Datum)
    ensures n.LiteralNode? ==> r == n.value
    ensures !n.LiteralNode? ==> r == VoidDatum
  {
    if n.LiteralNode? then n.value else VoidDatum
  }

  /**
   * `Datum::toInt`: an int's value, a float's conversion (given, as floating
   * point is not modelled), and 0 for every other type.
   */
  function ToInt(d: Datum, floatToInt: int -> int): (r: int)
    ensures d.datumType == DatumInt ==> r == d.i
    ensures d.datumType == DatumFloat ==> r == floatToInt(d.f)
    ensures d.datumType != DatumInt && d.datumType != DatumFloat ==> r == 0
  {
    match d.datumType
    case DatumInt => d.i
    case DatumFloat => floatToInt(d.f)
    case _ => 0
  }

  /**
   * Whether a node is an expression, which the translator pushes on the
   * stack, rather than a statement or a comment, which it adds to the
   * current block. A call is a statement exactly when its argument list is
   * of the no-return kind.
   */
  predicate IsExpression(n: Node)
  {
    match n
    case ErrorNode => true
    case LiteralNode(_) => true
    case InverseOpNode(_) => true
    case NotOpNode(_) => true
    case BinaryOpNode(_, _, _) => true
    case ChunkExprNode(_, _, _, _) => true
    case SpriteIntersectsExprNode(_, _) => true
    case SpriteWithinExprNode(_, _) => true
    case MemberExprNode(_, _, _) => true
    case VarNode(_) => true
    case TheExprNode(_) => true
    case LastStringChunkExprNode(_, _) => true
    case StringChunkCountExprNode(_, _) => true
    case MenuPropExprNode(_, _) => true
    case MenuItemPropExprNode(_, _, _) => true
    case SoundPropExprNode(_, _) => true
    case SpritePropExprNode(_, _) => true
    case ThePropExprNode(_, _) => true
    case ObjPropExprNode(_, _) => true
    case ObjBracketExprNode(_, _) => true
    case ObjPropIndexExprNode(_, _, _, _) => true
    case CallNode(_, a) => GetValue(a).datumType != DatumArgListNoRet
    case ObjCallNode(_, a) => GetValue(a).datumType != DatumArgListNoRet
    case ObjCallV4Node(_, a) => GetValue(a).datumType != DatumArgListNoRet
    case _ => false
  }

  /** A call is an expression or a statement according to its argument list alone. */
  lemma CallKindFollowsArgList(name: string, argList: Node)
    ensures IsExpression(CallNode(name, argList)) <==> !(argList.LiteralNode? && argList.value.datumType == DatumArgListNoRet)
    ensures IsExpression(CallNode(name, argList)) == IsExpression(ObjCallNode(name, argList))
  {
  }

  // ---------------------------------------------------------------------
  // The value stack's pops.

  /** `pop` on a stack: the top value, or an error node when the stack is empty. */
  function Top(s: seq<Node>): (r: Node)
    ensures |s| > 0 ==> r == s[|s| - 1]
    ensures |s| == 0 ==> r == ErrorNode
  {
    if |s| == 0 then ErrorNode else s[|s| - 1]
  }

  /** The stack `pop` leaves: without its top, and empty when it was empty. */
  function Drop(s: seq<Node>): (r: seq<Node>)
    ensures |s| > 0 ==> r == s[..|s| - 1]
    ensures |s| == 0 ==> r == []
  {
    if |s| == 0 then [] else s[..|s| - 1]
  }

  /** The values `n` successive pops give, in the order they are popped. */
  function Pops(s: seq<Node>, n: nat): (r: seq<Node>)
    ensures |r| == n
    decreases n
  {
    if n == 0 then [] else [Top(s)] + Pops(Drop(s), n - 1)
  }

  /** The stack left after `n` successive pops. */
  function DropN(s: seq<Node>, n: nat): (r: seq<Node>)
    decreases n
  {
    if n == 0 then s else DropN(Drop(s), n - 1)
  }

  /** The smaller of two naturals. */
  function Min(a: nat, b: nat): nat { if a <= b then a else b }

  /** The `k`th pop takes the value `k` below the top, or an error node once the stack is empty. */
  lemma {:induction false} PopsAt(s: seq<Node>, n: nat, k: nat)
    requires k < n
    ensures Pops(s, n)[k] == if k < |s| then s[|s| - 1 - k] else ErrorNode
    decreases k
  {
    if k > 0 {
      PopsAt(Drop(s), n - 1, k - 1);
      assert Pops(s, n)[k] == Pops(Drop(s), n - 1)[k - 1];
    }
  }

  /** Popping `n` times leaves the stack's bottom: all but its top `n` values. */
  lemma {:induction false} DropNLeavesBottom(s: seq<Node>, n: nat)
    ensures DropN(s, n) == s[..|s| - Min(n, |s|)]
    decreases n
  {
    if n > 0 {
      DropNLeavesBottom(Drop(s), n - 1);
      if |s| > 0 {
        assert Drop(s)[..|Drop(s)| - Min(n - 1, |Drop(s)|)] == s[..|s| - Min(n, |s|)];
      }
    }
  }

  /**
   * Popping `n` times takes the stack's values from the top down, then
   * error nodes once the stack is empty; it leaves the bottom of the stack.
   */
  lemma PopsFromTop(s: seq<Node>, n: nat)
    ensures forall k :: 0 <= k < n ==> Pops(s, n)[k] == if k < |s| then s[|s| - 1 - k] else ErrorNode
    ensures DropN(s, n) == s[..|s| - Min(n, |s|)]
  {
    forall k | 0 <= k < n
      ensures Pops(s, n)[k] == if k < |s| then s[|s| - 1 - k] else ErrorNode
    {
      PopsAt(s, n, k);
    }
    DropNLeavesBottom(s, n);
  }

  /**
   * The argument list the `pusharglist` loop builds: each popped value is
   * inserted at the front, so the list keeps the stack's order.
   */
  function ArgsOf(s: seq<Node>, n: nat): (r: seq<Node>)
    ensures |r| == n
    decreases n
  {
    if n == 0 then [] else ArgsOf(Drop(s), n - 1) + [Top(s)]
  }

  /** An error node for each pop that found the stack empty. */
  function Errors(n: nat): (r: seq<Node>)
    ensures |r| == n && forall k :: 0 <= k < n ==> r[k] == ErrorNode
  {
    seq(n, _ => ErrorNode)
  }

  /** With enough values on the stack, the argument list is its top `n` values in stack order. */
  lemma {:induction false} ArgsWithinStack(s: seq<Node>, n: nat)
    requires n <= |s|
    ensures ArgsOf(s, n) == s[|s| - n..]
    decreases n
  {
    if n > 0 {
      ArgsWithinStack(Drop(s), n - 1);
      assert Drop(s)[|Drop(s)| - (n - 1)..] + [Top(s)] == s[|s| - n..];
    }
  }

  /** With too few values, the argument list is an error node per missing value, then the whole stack. */
  lemma {:induction false} ArgsBeyondStack(s: seq<Node>, n: nat)
    requires n > |s|
    ensures ArgsOf(s, n) == Errors(n - |s|) + s
    decreases n
  {
    if |s| == 0 {
      if n > 1 {
        ArgsBeyondStack(s, n - 1);
      } else {
        assert ArgsOf(s, 0) == [];
      }
      assert Errors(n - 1) + [ErrorNode] == Errors(n);
    } else {
      ArgsBeyondStack(Drop(s), n - 1);
      assert Errors(n - |s|) + Drop(s) + [Top(s)] == Errors(n - |s|) + s;
    }
  }

  // ---------------------------------------------------------------------
  // Pure parts of the translator.

  /** C's `/` on `int`: the quotient rounded toward zero, for a positive divisor. */
  function QuotTowardZero(a: int, m: nat): (r: int)
    requires m > 0
    ensures 0 <= a ==> 0 <= a - m * r < m
    ensures a < 0 ==> -(m as int) < a - m * r <= 0
  {
    if a >= 0 then a / m else -((-a) / m)
  }

  /**
   * Whether a node is the literal integer 0, which marks an unused bound of
   * a chunk reference.
   */
  predicate IsZeroLiteral(n: Node)
  {
    n.LiteralNode? && n.value.datumType == DatumInt && ToInt(n.value, x => x) == 0
  }

  /**
   * `readChunkRef` once its eight bounds are popped: `popped` holds them in
   * pop order (last line, first line, last item, first item, last word,
   * first word, last char, first char). The first kind, in the order char,
   * word, item, line, whose first bound is not the literal 0 is chosen.
   */
  function ChunkRef(str: Node, popped: seq<Node>): (r: Node)
    requires |popped| == 8
    ensures r.ChunkExprNode? ==> r.str == str && !IsZeroLiteral(r.first)
    ensures r.ChunkExprNode? ==> r.chunkType in {ChunkChar, ChunkWord, ChunkItem, ChunkLine}
    ensures !r.ChunkExprNode? ==> r == CommentNode("ERROR: Unknown chunk expression type")
  {
    if !IsZeroLiteral(popped[7]) then ChunkExprNode(ChunkChar, popped[7], popped[6], str)
    else if !IsZeroLiteral(popped[5]) then ChunkExprNode(ChunkWord, popped[5], popped[4], str)
    else if !IsZeroLiteral(popped[3]) then ChunkExprNode(ChunkItem, popped[3], popped[2], str)
    else if !IsZeroLiteral(popped[1]) then ChunkExprNode(ChunkLine, popped[1], popped[0], str)
    else CommentNode("ERROR: Unknown chunk expression type")
  }

  /**
   * The chunk reference is of a kind exactly when that kind's first bound
   * is set and every kind before it, in the order char, word, item, line,
   * has its first bound 0; it then holds that kind's bounds and the string.
   * All four unset give the error comment.
   */
  lemma ChunkRefPriority(str: Node, popped: seq<Node>)
    requires |popped| == 8
    ensures var r := ChunkRef(str, popped);
      && (r == ChunkExprNode(ChunkChar, popped[7], popped[6], str) <==> !IsZeroLiteral(popped[7]))
      && (r == ChunkExprNode(ChunkWord, popped[5], popped[4], str) <==>
           IsZeroLiteral(popped[7]) && !IsZeroLiteral(popped[5]))
      && (r == ChunkExprNode(ChunkItem, popped[3], popped[2], str) <==>
           IsZeroLiteral(popped[7]) && IsZeroLiteral(popped[5]) && !IsZeroLiteral(popped[3]))
      && (r == ChunkExprNode(ChunkLine, popped[1], popped[0], str) <==>
           IsZeroLiteral(popped[7]) && IsZeroLiteral(popped[5]) && IsZeroLiteral(popped[3]) && !IsZeroLiteral(popped[1]))
      && (r.CommentNode? <==>
           IsZeroLiteral(popped[7]) && IsZeroLiteral(popped[5]) && IsZeroLiteral(popped[3]) && IsZeroLiteral(popped[1]))
  {
    var r := ChunkRef(str, popped);
    if !IsZeroLiteral(popped[7]) {
      assert r == ChunkExprNode(ChunkChar, popped[7], popped[6], str);
    } else if !IsZeroLiteral(popped[5]) {
      assert r == ChunkExprNode(ChunkWord, popped[5], popped[4], str);
    } else if !IsZeroLiteral(popped[3]) {
      assert r == ChunkExprNode(ChunkItem, popped[3], popped[2], str);
    } else if !IsZeroLiteral(popped[1]) {
      assert r == ChunkExprNode(ChunkLine, popped[1], popped[0], str);
    } else {
      assert r.CommentNode?;
    }
  }

  /**
   * `list->getValue()->type = t` on the popped node of `pushlist` and
   * `pushproplist`: a literal's datum takes the new type and keeps its other
   * fields; any other node is unchanged, since its value is a fresh copy.
   */
  function Retyped(n: Node, t: DatumType): (r: Node)
    ensures n.LiteralNode? ==> r.LiteralNode? && r.value == n.value.(datumType := t)
    ensures !n.LiteralNode? ==> r == n
  {
    if n.LiteralNode? then LiteralNode(n.value.(datumType := t)) else n
  }

  /** Retyping a literal as a list keeps it an expression and keeps its items. */
  lemma RetypedKeepsItems(n: Node, t: DatumType)
    requires t == DatumList || t == DatumPropList
    ensures IsExpression(Retyped(n, t)) == IsExpression(n)
    ensures GetValue(Retyped(n, t)).l == GetValue(n).l
  {
  }

  /**
   * The `objcallv4` rewriting of its argument list: the first item, a
   * symbol naming the methodName, becomes a variable of the same name. A list
   * that is not a literal, or is empty, is unchanged.
   */
  function FirstArgAsVariable(argList: Node): (r: Node)
    ensures !argList.LiteralNode? || |argList.value.l| == 0 ==> r == argList
    ensures argList.LiteralNode? && |argList.value.l| > 0 ==>
      r.LiteralNode? && r.value.datumType == argList.value.datumType &&
      |r.value.l| == |argList.value.l| &&
      r.value.l[0] == VarNode(GetValue(argList.value.l[0]).s) &&
      r.value.l[1..] == argList.value.l[1..]
  {
    if argList.LiteralNode? && |argList.value.l| > 0 then
      var l := argList.value.l;
      LiteralNode(argList.value.(l := l[0 := VarNode(GetValue(l[0]).s)]))
    else argList
  }

  /**
   * The node `ObjPropIndexExprNode`'s constructor builds, as written: it
   * tests the member `index2`, which is still null, instead of the
   * parameter, so the second index is always dropped.
   */
  function ObjPropIndexAsWritten(obj: Node, prop: string, index: Node, index2: Option<Node>): (r: Node)
    ensures r.ObjPropIndexExprNode? && r.obj == obj && r.prop == prop && r.index == index
  {
    var member: Option<Node> := None;
    ObjPropIndexExprNode(obj, prop, index, if member.Some? then index2 else None)
  }

  /** `obj.getProp(#p, i, i2)` loses its range end: it reads as `obj.p[i]`. */
  lemma RangeIndexDroppedAsWritten(obj: Node, prop: string, index: Node, last: Node)
    ensures ObjPropIndexAsWritten(obj, prop, index, Some(last)) == ObjPropIndexAsWritten(obj, prop, index, None)
    ensures ObjPropIndexAsWritten(obj, prop, index, Some(last)).index2 == None
  {
  }

  /** The node `ObjPropIndexExprNode`'s constructor is evidently meant to build: both indexes kept. */
  function ObjPropIndex(obj: Node, prop: string, index: Node, index2: Option<Node>): (r: Node)
    ensures r.ObjPropIndexExprNode? && r.obj == obj && r.prop == prop && r.index == index && r.index2 == index2
  {
    ObjPropIndexExprNode(obj, prop, index, index2)
  }

  /** Whether the `i`th of the arguments is a symbol literal. */
  predicate IsSymbolArg(args: seq<Node>, i: nat)
  {
    i < |args| && GetValue(args[i]).datumType == DatumSymbol
  }

  /**
   * The translation of `objcall` of the method `methodName` on the argument
   * list `argList`: the calls that have a dedicated syntax become it, by
   * method name and argument count; any other call stays a call.
   */
  function ObjCallTranslation(methodName: string, argList: Node): (r: Node)
    ensures !IsRewrittenMethod(methodName) ==> r == ObjCallNode(methodName, argList)
    ensures r.ObjCallNode? ==> r == ObjCallNode(methodName, argList)
    ensures r.ChunkHiliteStmtNode? || r.ChunkDeleteStmtNode? ==> |GetValue(argList).l| == 1
  {
    var args := GetValue(argList).l;
    var n := |args|;
    if methodName == "getAt" && n == 2 then
      ObjBracketExprNode(args[0], args[1])
    else if methodName == "setAt" && n == 3 then
      AssignmentStmtNode(ObjBracketExprNode(args[0], args[1]), args[2], false)
    else if (methodName == "getProp" || methodName == "getPropRef") && (n == 3 || n == 4) && IsSymbolArg(args, 1) then
      ObjPropIndex(args[0], GetValue(args[1]).s, args[2], if n == 4 then Some(args[3]) else None)
    else if methodName == "setProp" && (n == 4 || n == 5) && IsSymbolArg(args, 1) then
      AssignmentStmtNode(
        ObjPropIndex(args[0], GetValue(args[1]).s, args[2], if n == 5 then Some(args[3]) else None),
        args[n - 1], false)
    else if methodName == "count" && n == 2 && IsSymbolArg(args, 1) then
      ObjPropExprNode(ObjPropExprNode(args[0], GetValue(args[1]).s), "count")
    else if (methodName == "setContents" || methodName == "setContentsAfter" || methodName == "setContentsBefore") && n == 2 then
      PutStmtNode(
        if methodName == "setContents" then PutInto else if methodName == "setContentsAfter" then PutAfter else PutBefore,
        args[0], args[1])
    else if methodName == "hilite" && n == 1 then
      ChunkHiliteStmtNode(args[0])
    else if methodName == "delete" && n == 1 then
      ChunkDeleteStmtNode(args[0])
    else
      ObjCallNode(methodName, argList)
  }

  /** The methods `objcall` gives a dedicated syntax. */
  predicate IsRewrittenMethod(methodName: string)
  {
    methodName in {"getAt", "setAt", "getProp", "getPropRef", "setProp", "count",
               "setContents", "setContentsAfter", "setContentsBefore", "hilite", "delete"}
  }

  /**
   * The rewritten forms keep the call's arguments: the bracket, range and
   * put forms take the object and the value from the list in order, and a
   * method without a dedicated syntax is always left a call.
   */
  lemma ObjCallRewrites(methodName: string, argList: Node)
    ensures var args := GetValue(argList).l;
      (methodName == "getAt" && |args| == 2 ==> ObjCallTranslation(methodName, argList) == ObjBracketExprNode(args[0], args[1])) &&
      (methodName == "setAt" && |args| == 3 ==>
        ObjCallTranslation(methodName, argList) == AssignmentStmtNode(ObjBracketExprNode(args[0], args[1]), args[2], false)) &&
      (methodName == "getProp" && |args| == 4 && IsSymbolArg(args, 1) ==>
        ObjCallTranslation(methodName, argList).index2 == Some(args[3])) &&
      (methodName == "setProp" && |args| == 5 && IsSymbolArg(args, 1) ==>
        ObjCallTranslation(methodName, argList).val == args[4] &&
        ObjCallTranslation(methodName, argList).variable.index2 == Some(args[3]))
    ensures !IsRewrittenMethod(methodName) ==> ObjCallTranslation(methodName, argList) == ObjCallNode(methodName, argList)
  {
  }

  /** Whether a property set must be a `when` statement: a script that starts with a space or holds a line break. */
  predicate IsWhenScript(script: string)
  {
    |script| > 0 && (script[0] == ' ' || LingoLineEnding in script)
  }

  /**
   * The put kind and the variable kind packed in the operand of `put` and
   * `putchunk`: bits 4 to 7 and bits 0 to 3, read from the operand's two's
   * complement form.
   */
  function PutTypeOf(obj: int): (r: int)
    ensures 0 <= r < 16
  {
    (U32(obj) / 16) % 16
  }

  function VarTypeOf(obj: int): (r: int)
    ensures 0 <= r < 16
  {
    U32(obj) % 16
  }

  /** An operand that fits in a byte is exactly its two packed fields. */
  lemma PutOperandFields(obj: int)
    requires 0 <= obj < 0x100
    ensures obj == 16 * PutTypeOf(obj) + VarTypeOf(obj)
  {
  }

  /** `Lingo::getName(table, id)`, whose `id` is unsigned: a negative id wraps. */
  function TableName(table: map<nat, string>, id: int): (r: string)
    ensures U32(id) in table ==> r == table[U32(id)]
    ensures U32(id) !in table ==> r == "ERROR"
  {
    LingoDecNames.GetStandardName(table, U32(id))
  }
}
