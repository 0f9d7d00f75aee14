/**
 * The syntax tree of the C++ decompiler, as far as its literal values,
 * binary operators and block nesting go. Expressions are values; blocks
 * and statements, which the translator links by parent pointers and moves
 * between, live in an arena addressed by index, -1 standing for a null
 * pointer. Rendering appends to a code writer, which puts the indentation
 * before the first text of a line.
 */
module LingoDecAst {
  import opened Bytes
  import opened CodeWriter
  import LingoDecNames

  // ---------------------------------------------------------------------
  // Literal values and expressions.

  /** The four list shapes a datum can have. */
  datatype ListType = List | ArgList | ArgListNoRet | PropList

  /**
   * A literal value (`Datum`). Floating point is not modelled: a float
   * carries its conversion to `int` (toward zero) and the text
   * `floatToString` gives it.
   */
  datatype Datum =
    | VoidDatum
    | SymbolDatum(s: string)
    | VarRefDatum(s: string)
    | StringDatum(s: string)
    | IntDatum(i: int)
    | FloatDatum(truncated: int, text: string)
    | ListDatum(listType: ListType, l: seq<Node>)

  /**
   * An expression node. `OtherNode` stands for any node kind whose rendering
   * is not part of this model, together with the text it writes.
   */
  datatype Node =
    | ErrorNode
    | CommentNode(text: string)
    | LiteralNode(value: Datum)
    | BinaryOpNode(opcode: nat, left: Node, right: Node)
    | OtherNode(text: string)

  /**
   * The static name table of binary operators and `escapeString`, whose
   * definition is not part of this model.
   */
  datatype Tables = Tables(binaryOpNames: map<nat, string>, escape: string -> string)

  /** `Datum::toInt`: an int's value, a float's truncation, 0 for anything else. */
  function ToInt(d: Datum): (r: int)
    ensures d.IntDatum? ==> r == d.i
    ensures d.FloatDatum? ==> r == d.truncated
    ensures !d.IntDatum? && !d.FloatDatum? ==> r == 0
  {
    match d
    case IntDatum(i) => i
    case FloatDatum(t, _) => t
    case _ => 0
  }

  /** An int datum converts back to the integer it was made from. */
  lemma ToIntOfInt(i: int)
    ensures ToInt(IntDatum(i)) == i
  {
  }

  // The opcodes of the binary operators.
  const OpMul: nat := 0x04
  const OpAdd: nat := 0x05
  const OpSub: nat := 0x06
  const OpDiv: nat := 0x07
  const OpMod: nat := 0x08
  const OpLt: nat := 0x0c
  const OpLtEq: nat := 0x0d
  const OpNtEq: nat := 0x0e
  const OpEq: nat := 0x0f
  const OpGt: nat := 0x10
  const OpGtEq: nat := 0x11
  const OpAnd: nat := 0x12
  const OpOr: nat := 0x13

  /** `BinaryOpNode::getPrecedence`: 1 binds tightest; 0 marks an operator that is never parenthesised around. */
  function Precedence(opcode: nat): (r: nat)
    ensures r <= 5
    ensures r == 1 <==> opcode in {OpMul, OpDiv, OpMod}
    ensures r == 2 <==> opcode in {OpAdd, OpSub}
    ensures r == 3 <==> opcode in {OpLt, OpLtEq, OpNtEq, OpEq, OpGt, OpGtEq}
    ensures r == 4 <==> opcode == OpAnd
    ensures r == 5 <==> opcode == OpOr
  {
    if opcode == OpMul || opcode == OpDiv || opcode == OpMod then 1
    else if opcode == OpAdd || opcode == OpSub then 2
    else if opcode == OpLt || opcode == OpLtEq || opcode == OpNtEq || opcode == OpEq || opcode == OpGt || opcode == OpGtEq then 3
    else if opcode == OpAnd then 4
    else if opcode == OpOr then 5
    else 0
  }

  /** Multiplicative operators bind tighter than additive ones, additive than comparisons, comparisons than `and`, `and` than `or`. */
  lemma PrecedenceOrder()
    ensures Precedence(OpMul) < Precedence(OpAdd) < Precedence(OpEq) < Precedence(OpAnd) < Precedence(OpOr)
  {
  }

  /** The left operand is wrapped in parentheses: the operator has a precedence and the operand is an operator of another one. */
  predicate ParenLeft(n: Node)
    requires n.BinaryOpNode?
  {
    Precedence(n.opcode) != 0 && n.left.BinaryOpNode? && Precedence(n.left.opcode) != Precedence(n.opcode)
  }

  /** The right operand is wrapped in parentheses: the operator has a precedence and the operand is any operator. */
  predicate ParenRight(n: Node)
    requires n.BinaryOpNode?
  {
    Precedence(n.opcode) != 0 && n.right.BinaryOpNode?
  }

  /** Props lists hold key and value pairs, so an even number of entries, all the way down. */
  predicate WellFormed(n: Node)
    decreases n, 0
  {
    match n
    case LiteralNode(d) => WellFormedDatum(d)
    case BinaryOpNode(_, a, b) => WellFormed(a) && WellFormed(b)
    case _ => true
  }

  predicate WellFormedDatum(d: Datum)
    decreases d, 1
  {
    d.ListDatum? ==>
      (d.listType == PropList ==> |d.l| % 2 == 0) &&
      forall k :: 0 <= k < |d.l| ==> WellFormed(d.l[k])
  }

  /** How a string literal is written: the names of the special characters, EMPTY, or the text in quotes. */
  function StringText(t: Tables, s: string, sum: bool): (r: string)
  {
    if |s| == 0 then "EMPTY"
    else if |s| == 1 && s[0] == 3 as char then "ENTER"
    else if |s| == 1 && s[0] == 8 as char then "BACKSPACE"
    else if |s| == 1 && s[0] == '\t' then "TAB"
    else if |s| == 1 && s[0] == '\r' then "RETURN"
    else if |s| == 1 && s[0] == '"' then "QUOTE"
    else if sum then "\"" + t.escape(s) + "\""
    else "\"" + s + "\""
  }

  /** The text `writeScriptText` gives a node. */
  function NodeText(t: Tables, n: Node, sum: bool): (r: string)
    requires WellFormed(n)
    ensures n.CommentNode? ==> |r| >= 3 && r[..3] == "-- "
    ensures n.BinaryOpNode? && ParenLeft(n) ==> |r| > 0 && r[0] == '('
    decreases n, 2
  {
    match n
    case ErrorNode => "ERROR"
    case CommentNode(text) => "-- " + text
    case LiteralNode(d) => DatumText(t, d, sum)
    case BinaryOpNode(op, a, b) =>
      var pl := ParenLeft(n);
      var pr := ParenRight(n);
      (if pl then "(" else "") + NodeText(t, a, sum) + (if pl then ")" else "")
      + " " + LingoDecNames.GetStandardName(t.binaryOpNames, op) + " "
      + (if pr then "(" else "") + NodeText(t, b, sum) + (if pr then ")" else "")
    case OtherNode(text) => text
  }

  /** The text `Datum::writeScriptText` gives a datum. */
  function DatumText(t: Tables, d: Datum, sum: bool): (r: string)
    requires WellFormedDatum(d)
    ensures d.IntDatum? ==> |r| > 0 && (r[0] == '-' <==> d.i < 0)
    ensures d.SymbolDatum? ==> |r| > 0 && r[0] == '#'
    ensures d.ListDatum? && d.listType in {List, PropList} ==> |r| >= 2 && r[0] == '[' && r[|r| - 1] == ']'
    decreases d, 2
  {
    match d
    case VoidDatum => "VOID"
    case SymbolDatum(s) => "#" + s
    case VarRefDatum(s) => s
    case StringDatum(s) => StringText(t, s, sum)
    case IntDatum(i) => IntToString(i)
    case FloatDatum(_, text) => text
    case ListDatum(lt, l) =>
      (if lt == PropList || lt == List then "[" else "") + EntriesText(t, d, sum)
      + (if lt == PropList || lt == List then "]" else "")
  }

  /** What a list datum writes between its brackets. */
  function EntriesText(t: Tables, d: Datum, sum: bool): string
    requires d.ListDatum? && WellFormedDatum(d)
    decreases d, 1, |d.l| + 1
  {
    if d.listType != PropList then ItemsText(t, d, |d.l|, sum)
    else if |d.l| == 0 then ":"
    else PairsText(t, d, |d.l| / 2, sum)
  }

  /** The first k entries of a list datum, separated by ", ". */
  function ItemsText(t: Tables, d: Datum, k: nat, sum: bool): string
    requires d.ListDatum? && WellFormedDatum(d) && k <= |d.l|
    decreases d, 1, k
  {
    if k == 0 then ""
    else ItemsText(t, d, k - 1, sum) + (if k == 1 then "" else ", ") + NodeText(t, d.l[k - 1], sum)
  }

  /** The first k key and value pairs of a property list datum, separated by ", ". */
  function PairsText(t: Tables, d: Datum, k: nat, sum: bool): string
    requires d.ListDatum? && WellFormedDatum(d) && 2 * k <= |d.l|
    decreases d, 1, k
  {
    if k == 0 then ""
    else
      PairsText(t, d, k - 1, sum) + (if k == 1 then "" else ", ")
      + NodeText(t, d.l[2 * k - 2], sum) + ": " + NodeText(t, d.l[2 * k - 1], sum)
  }

  // ----- what the renderer promises --------------------------------------

  /** A single special character is written by its name; the empty string is EMPTY. */
  lemma SpecialStrings(t: Tables, sum: bool)
    ensures DatumText(t, StringDatum(""), sum) == "EMPTY"
    ensures DatumText(t, StringDatum([3 as char]), sum) == "ENTER"
    ensures DatumText(t, StringDatum([8 as char]), sum) == "BACKSPACE"
    ensures DatumText(t, StringDatum("\t"), sum) == "TAB"
    ensures DatumText(t, StringDatum("\r"), sum) == "RETURN"
    ensures DatumText(t, StringDatum("\""), sum) == "QUOTE"
  {
  }

  /** Any other string is written in quotes, escaped only for the summary form. */
  lemma QuotedStrings(t: Tables, s: string, sum: bool)
    requires |s| >= 2 || (|s| == 1 && s[0] !in {3 as char, 8 as char, '\t', '\r', '"'})
    ensures DatumText(t, StringDatum(s), sum) == "\"" + (if sum then t.escape(s) else s) + "\""
  {
  }

  /** An int is written in decimal, and its value is read back from the text. */
  lemma IntText(t: Tables, i: int, sum: bool)
    ensures i >= 0 ==> ParseDigits(DatumText(t, IntDatum(i), sum), 10) == i
    ensures i < 0 ==>
      DatumText(t, IntDatum(i), sum)[0] == '-' && ParseDigits(DatumText(t, IntDatum(i), sum)[1..], 10) == -i
  {
    IntToStringRoundTrip(i);
  }

  /** Only a plain list is bracketed: an argument list of the same items is the text between its brackets. */
  lemma OnlyListsBracketed(t: Tables, l: seq<Node>, sum: bool)
    requires WellFormedDatum(ListDatum(List, l))
    ensures WellFormedDatum(ListDatum(ArgList, l)) && WellFormedDatum(ListDatum(ArgListNoRet, l))
    ensures DatumText(t, ListDatum(List, l), sum) == "[" + DatumText(t, ListDatum(ArgList, l), sum) + "]"
    ensures DatumText(t, ListDatum(ArgListNoRet, l), sum) == DatumText(t, ListDatum(ArgList, l), sum)
  {
    ItemsSameForAnyType(t, ListDatum(List, l), ListDatum(ArgList, l), |l|, sum);
    ItemsSameForAnyType(t, ListDatum(ArgListNoRet, l), ListDatum(ArgList, l), |l|, sum);
  }

  /** The items text depends on the entries only, not on the list type. */
  lemma {:induction false} ItemsSameForAnyType(t: Tables, d: Datum, e: Datum, k: nat, sum: bool)
    requires d.ListDatum? && e.ListDatum? && d.l == e.l && WellFormedDatum(d) && WellFormedDatum(e)
    requires k <= |d.l|
    ensures ItemsText(t, d, k, sum) == ItemsText(t, e, k, sum)
    decreases k
  {
    if k > 1 {
      ItemsSameForAnyType(t, d, e, k - 1, sum);
    }
  }

  /** An empty property list is written "[:]", an empty list "[]" and an empty argument list not at all. */
  lemma EmptyLists(t: Tables, sum: bool)
    ensures DatumText(t, ListDatum(PropList, []), sum) == "[:]"
    ensures DatumText(t, ListDatum(List, []), sum) == "[]"
    ensures DatumText(t, ListDatum(ArgList, []), sum) == ""
  {
  }

  /** Two items of a list are joined by ", ". */
  lemma TwoItems(t: Tables, a: Node, b: Node, sum: bool)
    requires WellFormed(a) && WellFormed(b)
    ensures WellFormedDatum(ListDatum(List, [a, b]))
    ensures DatumText(t, ListDatum(List, [a, b]), sum) == "[" + NodeText(t, a, sum) + ", " + NodeText(t, b, sum) + "]"
  {
    var d := ListDatum(List, [a, b]);
    assert d.l[0] == a && d.l[1] == b;
    ListOfTwo(t, d, sum);
  }

  /** The text of a two-entry list. */
  lemma ListOfTwo(t: Tables, d: Datum, sum: bool)
    requires d.ListDatum? && d.listType == List && |d.l| == 2 && WellFormed(d.l[0]) && WellFormed(d.l[1])
    ensures WellFormedDatum(d)
    ensures DatumText(t, d, sum) == "[" + NodeText(t, d.l[0], sum) + ", " + NodeText(t, d.l[1], sum) + "]"
  {
    TwoWellFormed(d);
    BracketedList(t, d, sum);
    ItemsOfTwo(t, d, sum);
    Bracketed(NodeText(t, d.l[0], sum), ", ", NodeText(t, d.l[1], sum));
  }

  /** A plain list writes its items text between brackets. */
  lemma BracketedList(t: Tables, d: Datum, sum: bool)
    requires d.ListDatum? && d.listType == List && WellFormedDatum(d)
    ensures DatumText(t, d, sum) == "[" + ItemsText(t, d, |d.l|, sum) + "]"
  {
  }

  /** A property list of at least one pair writes its pairs text between brackets. */
  lemma BracketedPropList(t: Tables, d: Datum, sum: bool)
    requires d.ListDatum? && d.listType == PropList && WellFormedDatum(d) && |d.l| > 0
    ensures DatumText(t, d, sum) == "[" + PairsText(t, d, |d.l| / 2, sum) + "]"
  {
  }

  /** Bracketing three parts is bracketing their concatenation. */
  lemma Bracketed(x: string, y: string, z: string)
    ensures "[" + (x + y + z) + "]" == "[" + x + y + z + "]"
  {
  }

  /** A list datum of two well-formed entries that is not an odd property list is well formed. */
  lemma TwoWellFormed(d: Datum)
    requires d.ListDatum? && |d.l| == 2 && WellFormed(d.l[0]) && WellFormed(d.l[1])
    ensures WellFormedDatum(d)
  {
    forall k | 0 <= k < |d.l|
      ensures WellFormed(d.l[k])
    {
      assert k == 0 || k == 1;
    }
  }

  /** The items text of a two-entry list. */
  lemma ItemsOfTwo(t: Tables, d: Datum, sum: bool)
    requires d.ListDatum? && WellFormedDatum(d) && |d.l| == 2
    ensures ItemsText(t, d, 2, sum) == NodeText(t, d.l[0], sum) + ", " + NodeText(t, d.l[1], sum)
  {
    var empty: string := "";
    var ta := NodeText(t, d.l[0], sum);
    assert ItemsText(t, d, 1, sum) == empty + empty + ta;
    assert empty + empty + ta == ta;
  }

  /** A property list of one pair writes its key, ": " and its value. */
  lemma OnePair(t: Tables, a: Node, b: Node, sum: bool)
    requires WellFormed(a) && WellFormed(b)
    ensures WellFormedDatum(ListDatum(PropList, [a, b]))
    ensures DatumText(t, ListDatum(PropList, [a, b]), sum) == "[" + NodeText(t, a, sum) + ": " + NodeText(t, b, sum) + "]"
  {
    var e := ListDatum(PropList, [a, b]);
    assert e.l[0] == a && e.l[1] == b;
    PropListOfOne(t, e, sum);
  }

  /** The text of a property list of one pair. */
  lemma PropListOfOne(t: Tables, d: Datum, sum: bool)
    requires d.ListDatum? && d.listType == PropList && |d.l| == 2 && WellFormed(d.l[0]) && WellFormed(d.l[1])
    ensures WellFormedDatum(d)
    ensures DatumText(t, d, sum) == "[" + NodeText(t, d.l[0], sum) + ": " + NodeText(t, d.l[1], sum) + "]"
  {
    TwoWellFormed(d);
    BracketedPropList(t, d, sum);
    PairsOfOne(t, d, sum);
    Bracketed(NodeText(t, d.l[0], sum), ": ", NodeText(t, d.l[1], sum));
  }

  /** The pairs text of a property list of one pair. */
  lemma PairsOfOne(t: Tables, d: Datum, sum: bool)
    requires d.ListDatum? && WellFormedDatum(d) && |d.l| == 2
    ensures PairsText(t, d, 1, sum) == NodeText(t, d.l[0], sum) + ": " + NodeText(t, d.l[1], sum)
  {
    var empty: string := "";
    var ta, tb := NodeText(t, d.l[0], sum), NodeText(t, d.l[1], sum);
    assert PairsText(t, d, 0, sum) == empty;
    assert PairsText(t, d, 1, sum) == empty + empty + ta + ": " + tb;
    assert empty + empty + ta == ta;
  }

  /**
   * Left-nested operators of one precedence are written without parentheses,
   * so `a - b - c` keeps its reading; the same operators nested to the right
   * are parenthesised, so `a - (b - c)` keeps its own.
   */
  lemma SamePrecedenceNesting(t: Tables, op: nat, a: Node, b: Node, c: Node, sum: bool)
    requires Precedence(op) != 0 && WellFormed(a) && WellFormed(b) && WellFormed(c)
    ensures var l := BinaryOpNode(op, BinaryOpNode(op, a, b), c);
      !ParenLeft(l) && (ParenRight(l) <==> c.BinaryOpNode?)
    ensures var r := BinaryOpNode(op, a, BinaryOpNode(op, b, c));
      ParenRight(r) && (ParenLeft(r) <==> a.BinaryOpNode? && Precedence(a.opcode) != Precedence(op))
  {
  }

  /** An operator of a looser precedence on the left is parenthesised: `(a + b) * c` keeps its reading. */
  lemma LooserLeftParenthesised(t: Tables, op: nat, inner: nat, a: Node, b: Node, c: Node, sum: bool)
    requires Precedence(op) != 0 && Precedence(inner) != Precedence(op)
    requires WellFormed(a) && WellFormed(b) && WellFormed(c)
    ensures var n := BinaryOpNode(op, BinaryOpNode(inner, a, b), c);
      ParenLeft(n) && NodeText(t, n, sum)[0] == '('
  {
  }

  /** Around an operator without precedence nothing is parenthesised. */
  lemma NoPrecedenceNoParens(n: Node)
    requires n.BinaryOpNode? && Precedence(n.opcode) == 0
    ensures !ParenLeft(n) && !ParenRight(n)
  {
  }

  /** `CallNode::noParens`: only the statements `put` and `return` are written without parentheses. */
  function NoParens(isStatement: bool, name: string): (r: bool)
    ensures r ==> isStatement
    ensures isStatement ==> (r <==> name in {"put", "return"})
  {
    isStatement && (name == "put" || name == "return")
  }

  // ---------------------------------------------------------------------
  // Writing to a code writer.

  /**
   * The writer went from stream s0 and flag w0 to stream s and flag w by
   * appending `text`, the indentation `indent` first if the line had none
   * and the text is not empty.
   */
  predicate Appended(s0: string, w0: bool, indent: string, text: string, s: string, w: bool)
  {
    s == s0 + (if text == "" || w0 then "" else indent) + text && w == (w0 || text != "")
  }

  /** Two appends in a row are one append of both texts: the indentation comes once. */
  lemma AppendedTwice(s0: string, w0: bool, indent: string, a: string, s1: string, w1: bool, b: string, s2: string, w2: bool)
    requires Appended(s0, w0, indent, a, s1, w1) && Appended(s1, w1, indent, b, s2, w2)
    ensures Appended(s0, w0, indent, a + b, s2, w2)
  {
    if a == "" {
      assert a + b == b;
    } else {
      assert s2 == s0 + (if w0 then "" else indent) + a + b;
    }
  }

  /** The indentation the writer would put before text on the current line. */
  function IndentOf(code: CodeWriter): string
    reads code
  {
    Repeat(code.indentation, code.indentationLevel)
  }

  /** One `write` call, stated as an append. */
  method Put(code: CodeWriter, str: string)
    modifies code`stream, code`indentationWritten
    ensures Appended(old(code.stream), old(code.indentationWritten), IndentOf(code), str, code.stream, code.indentationWritten)
  {
    code.Write(str);
  }

  /** One `write` call after `done` was appended since stream s0 and flag w0: now `done + str` is. */
  method PutAfter(code: CodeWriter, ghost s0: string, ghost w0: bool, ghost done: string, str: string) returns (ghost now: string)
    requires Appended(s0, w0, IndentOf(code), done, code.stream, code.indentationWritten)
    modifies code`stream, code`indentationWritten
    ensures now == done + str
    ensures Appended(s0, w0, IndentOf(code), now, code.stream, code.indentationWritten)
  {
    ghost var s1, w1 := code.stream, code.indentationWritten;
    code.Write(str);
    AppendedTwice(s0, w0, IndentOf(code), done, s1, w1, str, code.stream, code.indentationWritten);
    now := done + str;
  }

  /** `Node::writeScriptText` for the node kinds modelled here. */
  method WriteNode(code: CodeWriter, t: Tables, n: Node, sum: bool)
    requires WellFormed(n)
    modifies code`stream, code`indentationWritten
    ensures Appended(old(code.stream), old(code.indentationWritten), IndentOf(code), NodeText(t, n, sum), code.stream, code.indentationWritten)
    decreases n, 3
  {
    match n
    case ErrorNode => Put(code, "ERROR");
    case CommentNode(text) =>
      ghost var done := PutAfter(code, code.stream, code.indentationWritten, "", "-- ");
      done := PutAfter(code, old(code.stream), old(code.indentationWritten), done, text);
    case LiteralNode(d) => WriteDatum(code, t, d, sum);
    case BinaryOpNode(op, a, b) => WriteBinaryOp(code, t, n, sum);
    case OtherNode(text) => Put(code, text);
  }

  /** A node written after `done` was appended since stream s0 and flag w0: now `done` and the node's text are. */
  method WriteNodeAfter(code: CodeWriter, t: Tables, n: Node, sum: bool, ghost s0: string, ghost w0: bool, ghost done: string)
    returns (ghost now: string)
    requires WellFormed(n)
    requires Appended(s0, w0, IndentOf(code), done, code.stream, code.indentationWritten)
    modifies code`stream, code`indentationWritten
    ensures now == done + NodeText(t, n, sum)
    ensures Appended(s0, w0, IndentOf(code), now, code.stream, code.indentationWritten)
    decreases n, 4
  {
    ghost var s1, w1 := code.stream, code.indentationWritten;
    WriteNode(code, t, n, sum);
    AppendedTwice(s0, w0, IndentOf(code), done, s1, w1, NodeText(t, n, sum), code.stream, code.indentationWritten);
    now := done + NodeText(t, n, sum);
  }

  /** `BinaryOpNode::writeScriptText`: each operand in parentheses when the precedence rule asks for them. */
  method WriteBinaryOp(code: CodeWriter, t: Tables, n: Node, sum: bool)
    requires n.BinaryOpNode? && WellFormed(n)
    modifies code`stream, code`indentationWritten
    ensures Appended(old(code.stream), old(code.indentationWritten), IndentOf(code), NodeText(t, n, sum), code.stream, code.indentationWritten)
    decreases n, 2
  {
    var parenLeft := ParenLeft(n);
    var parenRight := ParenRight(n);
    var openLeft, closeLeft := if parenLeft then "(" else "", if parenLeft then ")" else "";
    var openRight, closeRight := if parenRight then "(" else "", if parenRight then ")" else "";
    var name := LingoDecNames.GetStandardName(t.binaryOpNames, n.opcode);
    ghost var s0, w0 := code.stream, code.indentationWritten;
    Put(code, openLeft);
    ghost var done := openLeft;
    done := WriteNodeAfter(code, t, n.left, sum, s0, w0, done);
    done := PutAfter(code, s0, w0, done, closeLeft);
    done := PutAfter(code, s0, w0, done, " ");
    done := PutAfter(code, s0, w0, done, name);
    done := PutAfter(code, s0, w0, done, " ");
    done := PutAfter(code, s0, w0, done, openRight);
    done := WriteNodeAfter(code, t, n.right, sum, s0, w0, done);
    done := PutAfter(code, s0, w0, done, closeRight);
    assert done == NodeText(t, n, sum);
  }

  /** `Datum::writeScriptText`. */
  method WriteDatum(code: CodeWriter, t: Tables, d: Datum, sum: bool)
    requires WellFormedDatum(d)
    modifies code`stream, code`indentationWritten
    ensures Appended(old(code.stream), old(code.indentationWritten), IndentOf(code), DatumText(t, d, sum), code.stream, code.indentationWritten)
    decreases d, 3
  {
    match d
    case VoidDatum => Put(code, "VOID");
    case SymbolDatum(s) => Put(code, "#" + s);
    case VarRefDatum(s) => Put(code, s);
    case StringDatum(s) => Put(code, StringText(t, s, sum));
    case IntDatum(i) => Put(code, IntToString(i));
    case FloatDatum(_, text) => Put(code, text);
    case ListDatum(lt, l) => WriteList(code, t, d, sum);
  }

  /** The list case: brackets for a list or property list, none for an argument list. */
  method WriteList(code: CodeWriter, t: Tables, d: Datum, sum: bool)
    requires d.ListDatum? && WellFormedDatum(d)
    modifies code`stream, code`indentationWritten
    ensures Appended(old(code.stream), old(code.indentationWritten), IndentOf(code), DatumText(t, d, sum), code.stream, code.indentationWritten)
    decreases d, 2
  {
    var bracketed := d.listType == PropList || d.listType == List;
    var opening, closing := if bracketed then "[" else "", if bracketed then "]" else "";
    ghost var s0, w0 := code.stream, code.indentationWritten;
    Put(code, opening);
    ghost var s1, w1 := code.stream, code.indentationWritten;
    if d.listType != PropList {
      WriteItems(code, t, d, sum);
    } else if |d.l| == 0 {
      Put(code, ":");
    } else {
      WritePairs(code, t, d, sum);
    }
    ghost var inner := EntriesText(t, d, sum);
    AppendedTwice(s0, w0, IndentOf(code), opening, s1, w1, inner, code.stream, code.indentationWritten);
    ghost var done := PutAfter(code, s0, w0, opening + inner, closing);
  }

  /** The loop over the entries of a list, ", " between them. */
  method WriteItems(code: CodeWriter, t: Tables, d: Datum, sum: bool)
    requires d.ListDatum? && WellFormedDatum(d)
    modifies code`stream, code`indentationWritten
    ensures Appended(old(code.stream), old(code.indentationWritten), IndentOf(code), ItemsText(t, d, |d.l|, sum), code.stream, code.indentationWritten)
    decreases d, 1
  {
    ghost var s0, w0 := code.stream, code.indentationWritten;
    ghost var done := "";
    var i := 0;
    while i < |d.l|
      invariant 0 <= i <= |d.l|
      invariant done == ItemsText(t, d, i, sum)
      invariant Appended(s0, w0, IndentOf(code), done, code.stream, code.indentationWritten)
    {
      done := PutAfter(code, s0, w0, done, if i == 0 then "" else ", ");
      done := WriteNodeAfter(code, t, d.l[i], sum, s0, w0, done);
      i := i + 1;
    }
  }

  /** The loop over the key and value pairs of a property list, ", " between pairs and ": " inside them. */
  method WritePairs(code: CodeWriter, t: Tables, d: Datum, sum: bool)
    requires d.ListDatum? && WellFormedDatum(d) && d.listType == PropList
    modifies code`stream, code`indentationWritten
    ensures Appended(old(code.stream), old(code.indentationWritten), IndentOf(code), PairsText(t, d, |d.l| / 2, sum), code.stream, code.indentationWritten)
    decreases d, 1
  {
    ghost var s0, w0 := code.stream, code.indentationWritten;
    ghost var done := "";
    var i := 0;
    ghost var k := 0;
    while i < |d.l|
      invariant 0 <= i <= |d.l| && i == 2 * k
      invariant done == PairsText(t, d, k, sum)
      invariant Appended(s0, w0, IndentOf(code), done, code.stream, code.indentationWritten)
    {
      done := PutAfter(code, s0, w0, done, if i == 0 then "" else ", ");
      done := WriteNodeAfter(code, t, d.l[i], sum, s0, w0, done);
      done := PutAfter(code, s0, w0, done, ": ");
      done := WriteNodeAfter(code, t, d.l[i + 1], sum, s0, w0, done);
      i := i + 2;
      k := k + 1;
    }
    assert k == |d.l| / 2;
  }

  // ---------------------------------------------------------------------
  // Blocks and statements.

  /** The kinds of tree node that matter for block nesting. A label (a case of a `case` statement) is neither a block nor a statement. */
  datatype TreeKind = HandlerKind | BlockKind | StatementKind | LabelKind

  /** Every parent pointer is null (-1) or points at an older node, so walking up always ends. */
  predicate Ranked(parent: seq<int>)
  {
    forall i :: 0 <= i < |parent| ==> -1 <= parent[i] < i
  }

  /** The nodes met walking up from a (a itself first) until a null parent. */
  function Chain(parent: seq<int>, a: int): (c: seq<nat>)
    requires Ranked(parent) && -1 <= a < |parent|
    ensures forall i :: 0 <= i < |c| ==> c[i] <= a
    ensures a != -1 ==> |c| > 0 && c[0] == a
    decreases a + 1
  {
    if a == -1 then [] else [a as nat] + Chain(parent, parent[a])
  }

  /** The first statement met walking up from a, a itself included, or -1. */
  function AncestorFrom(kind: seq<TreeKind>, parent: seq<int>, a: int): (r: int)
    requires |kind| == |parent| && Ranked(parent) && -1 <= a < |parent|
    ensures -1 <= r <= a
    ensures r != -1 ==> kind[r] == StatementKind
    decreases a + 1
  {
    if a == -1 then -1
    else if kind[a] == StatementKind then a
    else AncestorFrom(kind, parent, parent[a])
  }

  /** The walk stops at the nearest statement: it is on the chain and no node below it on the chain is a statement; -1 means there is none. */
  lemma {:induction false} AncestorIsNearestStatement(kind: seq<TreeKind>, parent: seq<int>, a: int)
    requires |kind| == |parent| && Ranked(parent) && -1 <= a < |parent|
    ensures var c, r := Chain(parent, a), AncestorFrom(kind, parent, a);
      && (r == -1 <==> forall i :: 0 <= i < |c| ==> kind[c[i]] != StatementKind)
      && (r != -1 ==> r in c && forall i :: 0 <= i < |c| && c[i] > r ==> kind[c[i]] != StatementKind)
    decreases a + 1
  {
    if a != -1 {
      var c := Chain(parent, a);
      assert c == [a as nat] + Chain(parent, parent[a]);
      AncestorIsNearestStatement(kind, parent, parent[a]);
      if kind[a] != StatementKind {
        var tail := Chain(parent, parent[a]);
        assert forall i :: 1 <= i < |c| ==> c[i] == tail[i - 1];
        var r := AncestorFrom(kind, parent, a);
        assert r == AncestorFrom(kind, parent, parent[a]);
        if r == -1 {
          assert forall i :: 0 <= i < |c| ==> kind[c[i]] != StatementKind by {
            forall i | 0 <= i < |c|
              ensures kind[c[i]] != StatementKind
            {
              if i > 0 {
                assert c[i] == tail[i - 1];
              }
            }
          }
        } else {
          assert r in tail;
          var j :| 0 <= j < |tail| && tail[j] == r;
          assert c[j + 1] == r && kind[c[j + 1]] == StatementKind;
          forall i | 0 <= i < |c| && c[i] > r
            ensures kind[c[i]] != StatementKind
          {
            if i > 0 {
              assert c[i] == tail[i - 1];
            }
          }
        }
      }
    }
  }

  /** Where `exitBlock` leaves the translator: the block holding the nearest statement above block b, or -1. */
  function ExitTarget(kind: seq<TreeKind>, parent: seq<int>, b: int): (r: int)
    requires |kind| == |parent| && Ranked(parent) && 0 <= b < |parent|
    ensures r == -1 || (0 <= r < b && kind[r] == BlockKind)
  {
    var s := AncestorFrom(kind, parent, parent[b]);
    if s == -1 then -1
    else if parent[s] != -1 && kind[parent[s]] == BlockKind then parent[s]
    else -1
  }

  /** Leaving the block of a statement returns to the block the statement was added to. */
  lemma ExitReturnsToEnclosingBlock(kind: seq<TreeKind>, parent: seq<int>, outer: nat, stmt: nat, inner: nat)
    requires |kind| == |parent| && Ranked(parent) && inner < |parent|
    requires parent[inner] == stmt && parent[stmt] == outer
    requires kind[outer] == BlockKind && kind[stmt] == StatementKind
    ensures ExitTarget(kind, parent, inner) == outer
  {
  }

  /** A case block is left through its labels to the block holding the `case` statement. */
  lemma ExitThroughLabels(kind: seq<TreeKind>, parent: seq<int>, outer: nat, stmt: nat, caseLabel: nat, inner: nat)
    requires |kind| == |parent| && Ranked(parent) && inner < |parent|
    requires parent[inner] == caseLabel && parent[caseLabel] == stmt && parent[stmt] == outer
    requires kind[outer] == BlockKind && kind[stmt] == StatementKind && kind[caseLabel] == LabelKind
    ensures ExitTarget(kind, parent, inner) == outer
  {
    assert AncestorFrom(kind, parent, caseLabel) == AncestorFrom(kind, parent, stmt);
  }

  /** The tree of one handler (`AST`): a handler node, its block, and the nodes the translator adds. */
  class Tree {
    var kind: seq<TreeKind>
    var parent: seq<int>
    var children: seq<seq<nat>>
    var currentBlock: int

    predicate Valid()
      reads this
    {
      && |kind| == |parent| == |children| >= 2
      && Ranked(parent)
      && kind[0] == HandlerKind && parent[0] == -1
      && kind[1] == BlockKind && parent[1] == 0
      && (currentBlock == -1 || (0 <= currentBlock < |kind| && kind[currentBlock] == BlockKind))
    }

    /** The handler node and its block, which is where translation starts. */
    constructor ()
      ensures Valid() && |kind| == 2 && currentBlock == 1 && children == [[], []]
    {
      kind := [HandlerKind, BlockKind];
      parent := [-1, 0];
      children := [[], []];
      currentBlock := 1;
    }

    /** A new node of kind k, not yet attached anywhere. */
    method NewNode(k: TreeKind) returns (n: nat)
      requires Valid()
      modifies this`kind, this`parent, this`children
      ensures Valid()
      ensures n == old(|kind|)
      ensures kind == old(kind) + [k] && parent == old(parent) + [-1] && children == old(children) + [[]]
    {
      n := |kind|;
      kind := kind + [k];
      parent := parent + [-1];
      children := children + [[]];
    }

    /** The block a statement or label owns, made in the owner's constructor and parented to it. */
    method NewBlock(owner: nat) returns (b: nat)
      requires Valid() && owner < |kind|
      modifies this`kind, this`parent, this`children
      ensures Valid()
      ensures b == old(|kind|)
      ensures kind == old(kind) + [BlockKind] && parent == old(parent) + [owner] && children == old(children) + [[]]
    {
      b := |kind|;
      kind := kind + [BlockKind];
      parent := parent + [owner];
      children := children + [[]];
    }

    /** `BlockNode::addChild` on the current block (`AST::addStatement`): the child is appended and parented to the block. */
    method AddStatement(child: nat)
      requires Valid() && currentBlock != -1 && currentBlock < child < |kind|
      modifies this`parent, this`children
      ensures Valid()
      ensures parent == old(parent)[child := currentBlock]
      ensures children == old(children)[currentBlock := old(children)[currentBlock] + [child]]
    {
      parent := parent[child := currentBlock];
      children := children[currentBlock := children[currentBlock] + [child]];
    }

    /** `AST::enterBlock`. */
    method EnterBlock(b: nat)
      requires Valid() && b < |kind| && kind[b] == BlockKind
      modifies this`currentBlock
      ensures Valid() && currentBlock == b
    {
      currentBlock := b;
    }

    /** `Node::ancestorStatement` of node n: the loop up the parent pointers. */
    method AncestorStatement(n: nat) returns (ancestor: int)
      requires Valid() && n < |kind|
      ensures ancestor == AncestorFrom(kind, parent, parent[n])
    {
      ancestor := parent[n];
      while ancestor != -1 && kind[ancestor] != StatementKind
        invariant -1 <= ancestor < |kind|
        invariant AncestorFrom(kind, parent, ancestor) == AncestorFrom(kind, parent, parent[n])
        decreases ancestor + 1
      {
        ancestor := parent[ancestor];
      }
    }

    /** `AST::exitBlock`: to the block holding the nearest statement above the current block, or to null. */
    method ExitBlock()
      requires Valid() && currentBlock != -1
      modifies this`currentBlock
      ensures Valid()
      ensures currentBlock == ExitTarget(kind, parent, old(currentBlock))
    {
      var ancestor := AncestorStatement(currentBlock);
      if ancestor == -1 {
        currentBlock := -1;
        return;
      }
      var block := parent[ancestor];
      if block == -1 || kind[block] != BlockKind {
        currentBlock := -1;
        return;
      }
      currentBlock := block;
    }

    /** The handler's own block has no statement above it: leaving it ends translation with no current block. */
    lemma ExitRootBlock()
      requires Valid()
      ensures ExitTarget(kind, parent, 1) == -1
    {
      assert AncestorFrom(kind, parent, 0) == AncestorFrom(kind, parent, -1);
    }
  }
}
