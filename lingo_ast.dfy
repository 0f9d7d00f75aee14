/**
 * The syntax tree of the JavaScript decompiler. Expressions never change
 * once built, so they are values. Blocks and if statements are the only
 * objects that change after construction: blocks gain children and an end
 * position, and an if statement changes its type and replaces its second
 * block. They live in an arena addressed by index, so an index stands for
 * an object reference and sharing is kept.
 */
module LingoAst {
  import opened Wrappers
  import opened Bytes

  /** Dereferencing `null` or `undefined`, or calling a method an object lacks. */
  const TypeError: string := "TypeError"
  /** Recursion deeper than the renderer's depth bound (a JavaScript stack overflow). */
  const StackOverflow: string := "RangeError: Maximum call stack size exceeded"

  /** A name taken from a JavaScript array: `undefined` when the index is past the end. */
  type Name = Option<string>

  function NameAt(names: seq<string>, id: int): (r: Name)
    ensures r.Some? <==> 0 <= id < |names|
    ensures r.Some? ==> r.value == names[id]
  {
    if 0 <= id < |names| then Some(names[id]) else None
  }

  function NameIn(names: seq<Name>, id: int): (r: Name)
    ensures 0 <= id < |names| ==> r == names[id]
    ensures !(0 <= id < |names|) ==> r == None
  {
    if 0 <= id < |names| then names[id] else None
  }

  datatype VarKind = Global | Property | Local | Param
  datatype CallKind = LocalCall | ExternalCall
  datatype IfKind = If | IfElse | RepeatWhile

  /**
   * A node of the tree. `Null` is a JavaScript `null` where the translator
   * stores one (a translation that produced nothing). `IfRef` points at an
   * if statement in the arena. The argument list of a call is whatever was
   * on the stack, not necessarily a list.
   */
  datatype Node =
    | Null
    | Error
    | Todo
    | Comment(text: string)
    | IntLit(n: int)
    | StringLit(s: string)
    | ListLit(items: seq<Node>, isArgList: bool)
    | PropListLit(propValue: JsValue)
    | SymbolLit(symbol: Name)
    | Exit
    | Inverse(operand: Node)
    | Not(operand: Node)
    | Binary(op: string, left: Node, right: Node)
    | StringSplit(chunkType: string, first: Node, last: Node, str: Node, hilite: bool)
    | SpriteIntersects(firstSprite: Node, secondSprite: Node)
    | SpriteWithin(firstSprite: Node, secondSprite: Node)
    | FieldRef(fieldID: Node)
    | VarRef(kind: VarKind, varName: Name)
    | Assignment(variable: Node, value: Node)
    | IfRef(id: nat)
    | Call(callKind: CallKind, callee: Name, argList: Node)
    | ObjCall(obj: Node, selector: Name, argList: Node)
    | MovieProp(property: Name)
    | TimeExpr(option: Name)
    | LastChunk(lastType: Name, lastOf: Node)
    | ChunkCount(countType: Name, countOf: Node)
    | MenuProp(menuID: Node, menuProperty: Name)
    | MenuItemProp(itemMenuID: Node, itemID: Node, itemProperty: Name)
    | SoundProp(soundID: Node, soundProperty: Name)
    | SpriteProp(spriteID: Node, spriteProperty: Name)
    | ObjCount(countedObj: Name)
    | CastProp(castID: Node, castProperty: Name)
    | FieldProp(propFieldID: Node, fieldProperty: Name)
    | ObjProp(propObj: Node, objProperty: Name)
    | ExitRepeat
    | NextRepeat

  /** What `getValue()` returns: a literal's value, or `true` for any other node. */
  datatype JsValue = JNumber(num: int) | JString(str: string) | JArray(elems: seq<Node>) | JTrue | JUndefined

  /** `node.getValue()`; on `null` it is a TypeError. */
  function GetValue(n: Node): (r: Result<JsValue>)
    ensures r.Err? <==> n == Null
    ensures r.Err? ==> r.error == TypeError
    ensures n.IntLit? ==> r == Ok(JNumber(n.n))
  {
    match n
    case Null => Err(TypeError)
    case IntLit(v) => Ok(JNumber(v))
    case StringLit(s) => Ok(JString(s))
    case ListLit(items, _) => Ok(JArray(items))
    case PropListLit(v) => Ok(v)
    case SymbolLit(name) => Ok(if name.Some? then JString(name.value) else JUndefined)
    case _ => Ok(JTrue)
  }

  /** JavaScript truthiness of a value. */
  predicate Truthy(v: JsValue)
  {
    match v
    case JNumber(x) => x != 0
    case JString(s) => s != []
    case JArray(_) => true
    case JTrue => true
    case JUndefined => false
  }

  /** The operands a node's constructor dereferences (`operand.parent = this`). */
  function Operands(n: Node): seq<Node>
  {
    match n
    case Inverse(x) => [x]
    case Not(x) => [x]
    case Binary(_, l, r) => [l, r]
    case StringSplit(_, f, l, s, _) => [f, l, s]
    case SpriteIntersects(a, b) => [a, b]
    case SpriteWithin(a, b) => [a, b]
    case FieldRef(f) => [f]
    case Assignment(v, x) => [v, x]
    case Call(_, _, a) => [a]
    case ObjCall(o, _, a) => [a, o]
    case LastChunk(_, s) => [s]
    case ChunkCount(_, s) => [s]
    case MenuProp(m, _) => [m]
    case MenuItemProp(m, i, _) => [m, i]
    case SoundProp(s, _) => [s]
    case SpriteProp(s, _) => [s]
    case CastProp(c, _) => [c]
    case FieldProp(f, _) => [f]
    case ObjProp(o, _) => [o]
    case _ => []
  }

  /** `new X(...)`: the node, or a TypeError when the constructor dereferences a `null` operand. */
  function New(n: Node): (r: Result<Node>)
    ensures r.Ok? ==> r.value == n
    ensures r.Err? <==> Null in Operands(n)
  {
    if Null in Operands(n) then Err(TypeError) else Ok(n)
  }

  /**
   * `ListLiteral.shift()`: the first item (ERROR when the list is empty or
   * the item is `null`) and the list without it. Any other node has no
   * `shift` method.
   */
  function ListShift(n: Node): (r: Result<(Node, Node)>)
    ensures r.Ok? <==> n.ListLit?
    ensures n.ListLit? && n.items == [] ==> r == Ok((Error, n))
    ensures n.ListLit? && n.items != [] ==> r.value.1 == n.(items := n.items[1..])
    ensures n.ListLit? && n.items != [] && n.items[0] != Null ==> [r.value.0] + r.value.1.items == n.items
    ensures r.Ok? ==> r.value.0 != Null
  {
    match n
    case ListLit(items, isArgList) =>
      if items == [] then Ok((Error, n))
      else Ok((if items[0] == Null then Error else items[0], ListLit(items[1..], isArgList)))
    case _ => Err(TypeError)
  }

  // ---------------------------------------------------------------- text

  function RenderName(name: Name): string
  {
    if name.Some? then name.value else "undefined"
  }

  /** `Array.join(sep)`. */
  function Join(parts: seq<string>, sep: string): string
  {
    if parts == [] then ""
    else if |parts| == 1 then parts[0]
    else parts[0] + sep + Join(parts[1..], sep)
  }

  /** `args.join(", ")`: an `undefined` entry joins as the empty string. */
  function JoinNames(names: seq<Name>): string
  {
    Join(seq(|names|, i requires 0 <= i < |names| => if names[i].Some? then names[i].value else ""), ", ")
  }

  /** Every line break followed by the block indentation: `text.split("\n").join("\n  ")`. */
  function Reindent(s: string): (r: string)
    ensures |r| >= |s|
  {
    if s == [] then []
    else (if s[0] == '\n' then "\n  " else [s[0]]) + Reindent(s[1..])
  }

  /** Removes one level of block indentation after every line break. */
  function Dedent(s: string): string
  {
    if s == [] then []
    else if |s| >= 3 && s[..3] == "\n  " then "\n" + Dedent(s[3..])
    else [s[0]] + Dedent(s[1..])
  }

  /** Indenting a child's text loses nothing: the child's own text comes back. */
  lemma {:induction false} ReindentRoundTrip(s: string)
    ensures Dedent(Reindent(s)) == s
  {
    if s != [] {
      ReindentRoundTrip(s[1..]);
      var r := Reindent(s);
      if s[0] == '\n' {
        assert r == "\n  " + Reindent(s[1..]);
        assert r[..3] == "\n  ";
        assert r[3..] == Reindent(s[1..]);
      } else {
        assert r == [s[0]] + Reindent(s[1..]);
        assert r[1..] == Reindent(s[1..]);
        assert |r| >= 3 ==> r[..3][0] == s[0] != '\n';
        assert Dedent(r) == [s[0]] + Dedent(r[1..]);
      }
    }
  }

  /** Every line break in the text is followed by two spaces. */
  predicate LinesIndented(s: string)
  {
    s == [] || ((s[0] == '\n' ==> |s| >= 3 && s[1] == ' ' && s[2] == ' ') && LinesIndented(s[1..]))
  }

  lemma {:induction false} LinesIndentedConcat(a: string, b: string)
    requires LinesIndented(a) && LinesIndented(b)
    ensures LinesIndented(a + b)
  {
    if a != [] {
      assert (a + b)[1..] == a[1..] + b;
      assert (a + b)[0] == a[0];
      if a[0] == '\n' {
        assert (a + b)[1] == a[1] && (a + b)[2] == a[2];
      }
      LinesIndentedConcat(a[1..], b);
    } else {
      assert a + b == b;
    }
  }

  lemma IndentLeadIndented()
    ensures LinesIndented("\n  ")
  {
    var lead := "\n  ";
    assert LinesIndented(lead[1..][1..][1..]);
    assert LinesIndented(lead[1..][1..]);
    assert LinesIndented(lead[1..]);
  }

  lemma {:induction false} ReindentIndents(s: string)
    ensures LinesIndented(Reindent(s))
  {
    if s != [] {
      ReindentIndents(s[1..]);
      var head := if s[0] == '\n' then "\n  " else [s[0]];
      assert LinesIndented(head) by {
        if s[0] == '\n' {
          IndentLeadIndented();
        } else {
          assert head[1..] == [];
        }
      }
      LinesIndentedConcat(head, Reindent(s[1..]));
    }
  }

  /** The text of one child in a block: a line break, the indentation and the re-indented child. */
  lemma ChildLineIndented(text: string)
    ensures LinesIndented("\n  " + Reindent(text))
  {
    ReindentIndents(text);
    IndentLeadIndented();
    LinesIndentedConcat("\n  ", Reindent(text));
  }

  const Backspace: char := 8 as char
  const FormFeed: char := 12 as char

  /** `JSON.stringify` of one character inside a string literal. */
  function JsonEscapeChar(c: char): (r: string)
    ensures |r| >= 1
  {
    if c == '"' then "\\\""
    else if c == '\\' then "\\\\"
    else if c == Backspace then "\\b"
    else if c == FormFeed then "\\f"
    else if c == '\n' then "\\n"
    else if c == '\r' then "\\r"
    else if c == '\t' then "\\t"
    else if c < ' ' then "\\u00" + [DigitChar(c as int / 16, false), DigitChar(c as int % 16, false)]
    else [c]
  }

  function JsonEscape(s: string): string
  {
    if s == [] then [] else JsonEscapeChar(s[0]) + JsonEscape(s[1..])
  }

  /** `JSON.stringify` of a string. */
  function JsonQuote(s: string): string
  {
    "\"" + JsonEscape(s) + "\""
  }

  /** Reads the escapes `JSON.stringify` writes back into characters. */
  function JsonUnescape(s: string): string
  {
    if s == [] then []
    else if s[0] == '\\' && |s| >= 2 && s[1] in "\"\\bfnrt" then
      [EscapedChar(s[1])] + JsonUnescape(s[2..])
    else if s[0] == '\\' && |s| >= 6 && s[1] == 'u' && s[2] == '0' && s[3] == '0'
            && DigitValue(s[4]) < 2 && DigitValue(s[5]) < 16 then
      [(DigitValue(s[4]) * 16 + DigitValue(s[5])) as char] + JsonUnescape(s[6..])
    else [s[0]] + JsonUnescape(s[1..])
  }

  function EscapedChar(c: char): char
  {
    match c
    case 'b' => Backspace
    case 'f' => FormFeed
    case 'n' => '\n'
    case 'r' => '\r'
    case 't' => '\t'
    case _ => c
  }

  lemma JsonEscapeCharRoundTrip(c: char, rest: string)
    ensures JsonUnescape(JsonEscapeChar(c) + rest) == [c] + JsonUnescape(rest)
  {
    var e := JsonEscapeChar(c) + rest;
    if c == '"' || c == '\\' || c == Backspace || c == FormFeed || c == '\n' || c == '\r' || c == '\t' {
      assert e[2..] == rest;
    } else if c < ' ' {
      DigitRoundTrip(c as int / 16, false);
      DigitRoundTrip(c as int % 16, false);
      assert e[6..] == rest;
      assert DigitValue(e[4]) * 16 + DigitValue(e[5]) == c as int;
    } else {
      assert e[1..] == rest;
    }
  }

  /** A string literal's text reads back as the string: escaping loses nothing. */
  lemma {:induction false} JsonEscapeRoundTrip(s: string)
    ensures JsonUnescape(JsonEscape(s)) == s
  {
    if s != [] {
      JsonEscapeRoundTrip(s[1..]);
      JsonEscapeCharRoundTrip(s[0], JsonEscape(s[1..]));
    }
  }

  // ---------------------------------------------------------------- arena

  /** Who holds a block: the handler (the root block) or an if statement. */
  datatype Owner = HandlerOwner | IfOwner(id: nat)

  datatype BlockRec = BlockRec(children: seq<Node>, endPos: Option<int>, owner: Owner)

  /** An if statement: its type, condition, blocks and the block it was added to. */
  datatype IfRec = IfRec(kind: IfKind, condition: Node, block1: nat, block2: Option<nat>, parent: Option<nat>)

  /**
   * The two exceptions rendering can throw: a TypeError (a `null` reached,
   * an index past the arena) or the stack overflow of nesting too deep.
   */
  predicate Thrown(r: Result<string>)
  {
    r.Err? ==> r.error == TypeError || r.error == StackOverflow
  }

  /** `toString` of any node; `fuel` bounds the nesting of if statements. */
  function RenderNode(n: Node, blocks: seq<BlockRec>, ifs: seq<IfRec>, fuel: nat): (r: Result<string>)
    ensures Thrown(r)
    ensures n == Null ==> r == Err(TypeError)
    decreases fuel, 0, n
  {
    match n
    case Null => Err(TypeError)
    case Error => Ok("ERROR")
    case Todo => Ok("TODO")
    case Comment(t) => Ok("-- " + t)
    case IntLit(v) => Ok(IntToString(v))
    case StringLit(s) => Ok(JsonQuote(s))
    case ListLit(items, _) =>
      var s :- JoinItems(items, blocks, ifs, fuel);
      Ok("[" + s + "]")
    case PropListLit(v) => RenderPropList(v, blocks, ifs, fuel)
    case SymbolLit(name) => Ok("#" + RenderName(name))
    case Exit => Ok("exit")
    case Inverse(x) =>
      var a :- RenderNode(x, blocks, ifs, fuel);
      Ok("-" + a)
    case Not(x) =>
      var a :- RenderNode(x, blocks, ifs, fuel);
      Ok("not " + a)
    case Binary(op, l, r) =>
      var a :- RenderNode(l, blocks, ifs, fuel);
      var b :- RenderNode(r, blocks, ifs, fuel);
      Ok(a + " " + op + " " + b)
    case StringSplit(t, first, last, str, hilite) =>
      var s :- RenderNode(str, blocks, ifs, fuel);
      var f :- RenderNode(first, blocks, ifs, fuel);
      var lv :- GetValue(last);
      var l :- if Truthy(lv) then RenderNode(last, blocks, ifs, fuel) else Ok("");
      var range := if Truthy(lv) then f + ".." + l else f;
      Ok(s + "." + t + "[" + range + "]" + (if hilite then ".hilite()" else ""))
    case SpriteIntersects(a, b) =>
      var x :- RenderNode(a, blocks, ifs, fuel);
      var y :- RenderNode(b, blocks, ifs, fuel);
      Ok("sprite(" + x + ").intersects(" + y + ")")
    case SpriteWithin(a, b) =>
      var x :- RenderNode(a, blocks, ifs, fuel);
      var y :- RenderNode(b, blocks, ifs, fuel);
      Ok("sprite(" + x + ").within(" + y + ")")
    case FieldRef(f) =>
      var x :- RenderNode(f, blocks, ifs, fuel);
      Ok("field(" + x + ")")
    case VarRef(_, name) => Ok(RenderName(name))
    case Assignment(v, x) =>
      var a :- RenderNode(v, blocks, ifs, fuel);
      var b :- RenderNode(x, blocks, ifs, fuel);
      Ok(a + " = " + b)
    case IfRef(id) =>
      if fuel == 0 then Err(StackOverflow) else RenderIf(id, blocks, ifs, fuel - 1)
    case Call(_, callee, argList) => RenderCall(callee, argList, blocks, ifs, fuel)
    case ObjCall(obj, m, argList) =>
      var o :- RenderNode(obj, blocks, ifs, fuel);
      var c :- RenderCall(m, argList, blocks, ifs, fuel);
      Ok(o + "." + c)
    case MovieProp(p) => Ok("the " + RenderName(p))
    case TimeExpr(p) => Ok("the " + RenderName(p))
    case LastChunk(t, s) =>
      var x :- RenderNode(s, blocks, ifs, fuel);
      Ok("the last " + RenderName(t) + " in " + x)
    case ChunkCount(t, s) =>
      var x :- RenderNode(s, blocks, ifs, fuel);
      Ok("the number of " + RenderName(t) + " in " + x)
    case MenuProp(m, p) =>
      var x :- RenderNode(m, blocks, ifs, fuel);
      Ok("menu(" + x + ")." + RenderName(p))
    case MenuItemProp(m, i, p) =>
      var x :- RenderNode(m, blocks, ifs, fuel);
      var y :- RenderNode(i, blocks, ifs, fuel);
      Ok("menu(" + x + ").item(" + y + ")." + RenderName(p))
    case SoundProp(s, p) =>
      var x :- RenderNode(s, blocks, ifs, fuel);
      Ok("sound(" + x + ")." + RenderName(p))
    case SpriteProp(s, p) =>
      var x :- RenderNode(s, blocks, ifs, fuel);
      Ok("sprite(" + x + ")." + RenderName(p))
    case ObjCount(o) => Ok("the number of " + RenderName(o) + "s")
    case CastProp(c, p) =>
      var x :- RenderNode(c, blocks, ifs, fuel);
      Ok("sprite(" + x + ")." + RenderName(p))
    case FieldProp(f, p) =>
      var x :- RenderNode(f, blocks, ifs, fuel);
      Ok("field(" + x + ")." + RenderName(p))
    case ObjProp(o, p) =>
      var x :- RenderNode(o, blocks, ifs, fuel);
      Ok(x + "." + RenderName(p))
    case ExitRepeat => Ok("exit repeat")
    case NextRepeat => Ok("next repeat")
  }

  /** `value.join(", ")` over list items: a `null` item joins as the empty string. */
  function JoinItems(items: seq<Node>, blocks: seq<BlockRec>, ifs: seq<IfRec>, fuel: nat): (r: Result<string>)
    ensures Thrown(r)
    decreases fuel, 0, items
  {
    if items == [] then Ok("")
    else
      var h :- if items[0] == Null then Ok("") else RenderNode(items[0], blocks, ifs, fuel);
      if |items| == 1 then Ok(h)
      else
        var t :- JoinItems(items[1..], blocks, ifs, fuel);
        Ok(h + ", " + t)
  }

  /** `CallStatement.toString`: the argument list must be a list to have `toStringNoBrackets`. */
  function RenderCall(callee: Name, argList: Node, blocks: seq<BlockRec>, ifs: seq<IfRec>, fuel: nat): (r: Result<string>)
    ensures Thrown(r)
    decreases fuel, 0, argList
  {
    match argList
    case ListLit(items, _) =>
      var s :- JoinItems(items, blocks, ifs, fuel);
      Ok(RenderName(callee) + "(" + s + ")")
    case _ => Err(TypeError)
  }

  /**
   * `PropListLiteral.toString` walks its value two entries at a time. The
   * value is whatever `getValue()` gave: a list's items, a string's
   * characters, or a scalar whose `length` is undefined (no pairs).
   */
  function RenderPropList(v: JsValue, blocks: seq<BlockRec>, ifs: seq<IfRec>, fuel: nat): (r: Result<string>)
    ensures Thrown(r)
    decreases fuel, 0, v
  {
    match v
    case JArray(items) =>
      var s :- PairsFrom(items, 0, blocks, ifs, fuel);
      Ok("[" + s + "]")
    case JString(s) => Ok("[" + CharPairsFrom(s, 0) + "]")
    case JUndefined => Err(TypeError)
    case _ => Ok("[]")
  }

  function PairsFrom(items: seq<Node>, i: nat, blocks: seq<BlockRec>, ifs: seq<IfRec>, fuel: nat): (r: Result<string>)
    ensures Thrown(r)
    decreases fuel, 0, items, |items| - i
  {
    if i >= |items| then Ok("")
    else
      var key :- ElementText(items, i, blocks, ifs, fuel);
      var value :- ElementText(items, i + 1, blocks, ifs, fuel);
      var rest :- PairsFrom(items, i + 2, blocks, ifs, fuel);
      Ok(key + ":" + value + (if i < |items| - 2 then ", " else "") + rest)
  }

  /** An array element in string concatenation: `null` and `undefined` print as words. */
  function ElementText(items: seq<Node>, k: nat, blocks: seq<BlockRec>, ifs: seq<IfRec>, fuel: nat): (r: Result<string>)
    ensures Thrown(r)
    decreases fuel, 0, items, 0
  {
    if k >= |items| then Ok("undefined")
    else if items[k] == Null then Ok("null")
    else RenderNode(items[k], blocks, ifs, fuel)
  }

  function CharPairsFrom(s: string, i: nat): string
    decreases |s| - i
  {
    if i >= |s| then ""
    else
      var value := if i + 1 < |s| then [s[i + 1]] else "undefined";
      [s[i]] + ":" + value + (if i < |s| - 2 then ", " else "") + CharPairsFrom(s, i + 2)
  }

  /** `IfStatement.toString` by type; an if/else whose second block is missing prints `null`. */
  function RenderIf(id: nat, blocks: seq<BlockRec>, ifs: seq<IfRec>, fuel: nat): (r: Result<string>)
    ensures Thrown(r)
    ensures id >= |ifs| ==> r == Err(TypeError)
    ensures r.Ok? && ifs[id].kind != RepeatWhile ==> |r.value| >= 10 && r.value[..3] == "if " && r.value[|r.value| - 7..] == "\nend if"
    ensures r.Ok? && ifs[id].kind == RepeatWhile ==> |r.value| >= 24 && r.value[..13] == "repeat while " && r.value[|r.value| - 11..] == "\nend repeat"
    decreases fuel, 2
  {
    if id >= |ifs| then Err(TypeError)
    else
      var s := ifs[id];
      var c :- RenderNode(s.condition, blocks, ifs, fuel);
      var b1 :- RenderBlock(s.block1, blocks, ifs, fuel);
      match s.kind
      case If => Ok("if " + c + " then" + b1 + "\nend if")
      case IfElse =>
        var b2 :- if s.block2.Some? then RenderBlock(s.block2.value, blocks, ifs, fuel) else Ok("null");
        Ok("if " + c + " then" + b1 + "\nelse" + b2 + "\nend if")
      case RepeatWhile => Ok("repeat while " + c + b1 + "\nend repeat")
  }

  /** `Block.toString`: each child on its own line, indented, with its own lines indented too. */
  function RenderBlock(b: nat, blocks: seq<BlockRec>, ifs: seq<IfRec>, fuel: nat): (r: Result<string>)
    ensures Thrown(r)
    ensures b >= |blocks| ==> r == Err(TypeError)
    ensures r.Ok? && blocks[b].children == [] ==> r.value == ""
    ensures r.Ok? && blocks[b].children != [] ==> |r.value| >= 3 && r.value[..3] == "\n  "
    decreases fuel, 1
  {
    if b >= |blocks| then Err(TypeError) else RenderChildren(blocks[b].children, blocks, ifs, fuel)
  }

  function RenderChildren(children: seq<Node>, blocks: seq<BlockRec>, ifs: seq<IfRec>, fuel: nat): (r: Result<string>)
    ensures Thrown(r)
    ensures r.Ok? && children == [] ==> r.value == ""
    ensures r.Ok? && children != [] ==> |r.value| >= 3 && r.value[..3] == "\n  "
    decreases fuel, 0, children
  {
    if children == [] then Ok("")
    else
      var h :- RenderNode(children[0], blocks, ifs, fuel);
      var t :- RenderChildren(children[1..], blocks, ifs, fuel);
      Ok("\n  " + Reindent(h) + t)
  }

  /** A block's text starts every line with the indentation, whatever its children print. */
  lemma {:induction false} BlockLinesIndented(children: seq<Node>, blocks: seq<BlockRec>, ifs: seq<IfRec>, fuel: nat)
    requires RenderChildren(children, blocks, ifs, fuel).Ok?
    ensures LinesIndented(RenderChildren(children, blocks, ifs, fuel).value)
  {
    if children != [] {
      var h := RenderNode(children[0], blocks, ifs, fuel).value;
      BlockLinesIndented(children[1..], blocks, ifs, fuel);
      ChildLineIndented(h);
      LinesIndentedConcat("\n  " + Reindent(h), RenderChildren(children[1..], blocks, ifs, fuel).value);
    }
  }

  /** A block renders exactly when none of its children is `null` or fails to render. */
  lemma {:induction false} BlockRendersIffChildrenDo(children: seq<Node>, blocks: seq<BlockRec>, ifs: seq<IfRec>, fuel: nat)
    ensures RenderChildren(children, blocks, ifs, fuel).Ok?
        <==> forall k :: 0 <= k < |children| ==> RenderNode(children[k], blocks, ifs, fuel).Ok?
  {
    if children != [] {
      BlockRendersIffChildrenDo(children[1..], blocks, ifs, fuel);
      assert forall k :: 1 <= k < |children| ==> children[k] == children[1..][k - 1];
    }
  }

  /** `Handler.toString`: the `on` line, the handler's block, then `end`. */
  function RenderHandler(name: Name, args: seq<Name>, blocks: seq<BlockRec>, ifs: seq<IfRec>): (r: Result<string>)
    ensures Thrown(r)
    ensures r.Ok? <==> RenderBlock(0, blocks, ifs, |ifs| + 1).Ok?
    ensures r.Ok? ==> |r.value| >= 9 && r.value[..3] == "on " && r.value[|r.value| - 4..] == "\nend"
  {
    var body :- RenderBlock(0, blocks, ifs, |ifs| + 1);
    Ok("on " + RenderName(name) + "(" + JoinNames(args) + ")" + body + "\nend")
  }

  /**
   * The tree of one handler: the handler's name and arguments, the arena of
   * blocks and if statements, and the block statements are added to. Block
   * 0 is the handler's own block.
   */
  class Ast {
    const name: Name
    const args: seq<Name>
    var blocks: seq<BlockRec>
    var ifs: seq<IfRec>
    var currentBlock: Option<nat>

    /** Every index in the arena points inside it, and owners and blocks agree. */
    predicate Valid()
      reads this
    {
      && |blocks| > 0
      && blocks[0].owner == HandlerOwner
      && (currentBlock.Some? ==> currentBlock.value < |blocks|)
      && (forall b :: 0 <= b < |blocks| ==> OwnerInRange(blocks[b]))
      && (forall i :: 0 <= i < |ifs| ==> IfInRange(i, ifs[i]))
    }

    predicate OwnerInRange(rec: BlockRec)
      reads this
    {
      rec.owner.IfOwner? ==> rec.owner.id < |ifs|
    }

    predicate IfInRange(i: nat, s: IfRec)
      reads this
    {
      && s.block1 < |blocks| && blocks[s.block1].owner == IfOwner(i)
      && (s.block2.Some? ==> s.block1 < s.block2.value < |blocks| && blocks[s.block2.value].owner == IfOwner(i))
      && (s.kind == IfElse ==> s.block2.Some?)
      && (s.parent.Some? ==> s.parent.value < |blocks|)
    }

    /**
     * The nesting is a tree built outwards-in: an if statement's blocks
     * come after the block it was added to, so leaving blocks always ends.
     */
    predicate Ordered()
      reads this
      requires Valid()
    {
      forall b :: 0 <= b < |blocks| ==> BlockAfterItsIf(b, blocks[b])
    }

    predicate BlockAfterItsIf(b: nat, rec: BlockRec)
      reads this
      requires Valid() && b < |blocks| && rec == blocks[b]
    {
      rec.owner.IfOwner? ==>
        var s := ifs[rec.owner.id];
        s.block1 <= b && (s.parent.Some? ==> s.parent.value < s.block1)
    }

    /**
     * A measure that drops each time the translator leaves a block, and
     * also when it moves from the first block of an if/else to the second.
     */
    function ExitMeasure(): nat
      reads this
      requires Valid() && Ordered()
    {
      match currentBlock
      case None => 0
      case Some(b) =>
        match blocks[b].owner
        case HandlerOwner => 2 * b + 2
        case IfOwner(id) => 2 * ifs[id].block1 + (if b == ifs[id].block1 then 2 else 1)
    }

    /** The block holding the statement that owns block b (`b.parent.parent`). */
    function EnclosingBlock(b: nat): Option<nat>
      reads this
      requires Valid() && b < |blocks|
    {
      match blocks[b].owner
      case HandlerOwner => None
      case IfOwner(id) => ifs[id].parent
    }

    /** `new AST(new Handler(name, args))`: the handler's block is the current block and its owner is the handler. */
    constructor (name: Name, args: seq<Name>)
      ensures this.name == name && this.args == args
      ensures blocks == [BlockRec([], None, HandlerOwner)] && ifs == []
      ensures currentBlock == Some(0)
      ensures Valid() && Ordered()
    {
      this.name := name;
      this.args := args;
      blocks := [BlockRec([], None, HandlerOwner)];
      ifs := [];
      currentBlock := Some(0);
    }

    /** `AST.toString`: the handler's text, which fails only by a thrown TypeError or stack overflow. */
    function ToString(): (r: Result<string>)
      reads this
      ensures Thrown(r)
      ensures r.Ok? ==> |blocks| > 0 && |r.value| >= 9 && r.value[..3] == "on " && r.value[|r.value| - 4..] == "\nend"
    {
      RenderHandler(name, args, blocks, ifs)
    }

    /** `Block.addChild`: appends the child; an if statement records the block as its parent. */
    method AddChild(b: nat, child: Node)
      requires Valid() && b < |blocks|
      modifies this
      ensures blocks == old(blocks)[b := old(blocks)[b].(children := old(blocks)[b].children + [child])]
      ensures child.IfRef? && child.id < |old(ifs)| ==> ifs == old(ifs)[child.id := old(ifs)[child.id].(parent := Some(b))]
      ensures !(child.IfRef? && child.id < |old(ifs)|) ==> ifs == old(ifs)
      ensures currentBlock == old(currentBlock)
      ensures Valid()
      ensures old(Ordered()) && (child.IfRef? && child.id < |ifs| ==> b < ifs[child.id].block1) ==> Ordered()
    {
      blocks := blocks[b := blocks[b].(children := blocks[b].children + [child])];
      if child.IfRef? && child.id < |ifs| {
        ifs := ifs[child.id := ifs[child.id].(parent := Some(b))];
      }
      assert forall i :: 0 <= i < |ifs| ==> IfInRange(i, ifs[i]) by {
        forall i | 0 <= i < |ifs| ensures IfInRange(i, ifs[i]) {
          assert old(IfInRange(i, ifs[i]));
        }
      }
      assert forall k :: 0 <= k < |blocks| ==> OwnerInRange(blocks[k]) by {
        forall k | 0 <= k < |blocks| ensures OwnerInRange(blocks[k]) {
          assert old(OwnerInRange(blocks[k]));
        }
      }
    }

    /** `AST.addStatement`: adds to the current block; with no current block it is a TypeError. */
    method AddStatement(statement: Node) returns (r: Result<()>)
      requires Valid()
      modifies this
      ensures r.Err? <==> old(currentBlock).None?
      ensures r.Err? ==> blocks == old(blocks) && ifs == old(ifs)
      ensures r.Ok? ==> var b := old(currentBlock).value;
        blocks == old(blocks)[b := old(blocks)[b].(children := old(blocks)[b].children + [statement])]
      ensures statement.IfRef? && statement.id < |old(ifs)| && r.Ok? ==>
        ifs == old(ifs)[statement.id := old(ifs)[statement.id].(parent := old(currentBlock))]
      ensures !(statement.IfRef? && statement.id < |old(ifs)|) ==> ifs == old(ifs)
      ensures currentBlock == old(currentBlock)
      ensures Valid()
      ensures old(Ordered())
        && (statement.IfRef? && statement.id < |ifs| && currentBlock.Some? ==> currentBlock.value < ifs[statement.id].block1)
        ==> Ordered()
    {
      if currentBlock.None? {
        return Err(TypeError);
      }
      AddChild(currentBlock.value, statement);
      r := Ok(());
    }

    /** `AST.enterBlock`. */
    method EnterBlock(b: nat)
      requires Valid() && b < |blocks|
      modifies this`currentBlock
      ensures currentBlock == Some(b)
      ensures Valid()
    {
      currentBlock := Some(b);
    }

    /** `AST.exitBlock`: moves to the block holding the statement that owns the current block. */
    method ExitBlock() returns (r: Result<()>)
      requires Valid()
      modifies this`currentBlock
      ensures r.Err? <==> old(currentBlock).None?
      ensures r.Ok? ==> currentBlock == old(EnclosingBlock(currentBlock.value))
      ensures r.Err? ==> currentBlock == old(currentBlock)
      ensures Valid()
    {
      if currentBlock.None? {
        return Err(TypeError);
      }
      currentBlock := EnclosingBlock(currentBlock.value);
      r := Ok(());
    }

    /**
     * `new IfStatement("if", condition)`: a fresh if statement with a fresh
     * first block owned by it and no second block.
     */
    method NewIf(condition: Node) returns (r: Result<nat>)
      requires Valid()
      modifies this
      ensures condition == Null ==> r.Err? && blocks == old(blocks) && ifs == old(ifs)
      ensures condition != Null ==>
        && r == Ok(|old(ifs)|)
        && ifs == old(ifs) + [IfRec(If, condition, |old(blocks)|, None, None)]
        && blocks == old(blocks) + [BlockRec([], None, IfOwner(|old(ifs)|))]
      ensures currentBlock == old(currentBlock)
      ensures Valid()
      ensures old(Ordered()) ==> Ordered()
    {
      if condition == Null {
        return Err(TypeError);
      }
      var id := |ifs|;
      ghost var oldBlocks := blocks;
      ghost var oldIfs := ifs;
      ghost var wasOrdered := Ordered();
      ifs := ifs + [IfRec(If, condition, |blocks|, None, None)];
      blocks := blocks + [BlockRec([], None, IfOwner(id))];
      assert forall k :: 0 <= k < |blocks| ==> OwnerInRange(blocks[k]);
      assert forall i :: 0 <= i < |ifs| ==> IfInRange(i, ifs[i]) by {
        forall i | 0 <= i < |ifs| ensures IfInRange(i, ifs[i]) {
          if i < id {
            assert old(IfInRange(i, ifs[i]));
          }
        }
      }
      if wasOrdered {
        forall b | 0 <= b < |blocks| ensures BlockAfterItsIf(b, blocks[b]) {
          if b < |oldBlocks| {
            assert old(BlockAfterItsIf(b, blocks[b]));
          }
        }
      }
      r := Ok(id);
    }

    /**
     * `IfStatement.setType`: the new type; if/else gets a fresh second block
     * owned by the if statement, any other type drops the second block.
     */
    method SetType(id: nat, kind: IfKind)
      requires Valid() && id < |ifs|
      modifies this
      ensures kind == IfElse ==>
        && ifs == old(ifs)[id := old(ifs)[id].(kind := kind, block2 := Some(|old(blocks)|))]
        && blocks == old(blocks) + [BlockRec([], None, IfOwner(id))]
      ensures kind != IfElse ==>
        ifs == old(ifs)[id := old(ifs)[id].(kind := kind, block2 := None)] && blocks == old(blocks)
      ensures currentBlock == old(currentBlock)
      ensures Valid()
      ensures old(Ordered()) ==> Ordered()
    {
      ghost var oldBlocks := blocks;
      ghost var wasOrdered := Ordered();
      if kind == IfElse {
        var b2 := |blocks|;
        blocks := blocks + [BlockRec([], None, IfOwner(id))];
        ifs := ifs[id := ifs[id].(kind := kind, block2 := Some(b2))];
      } else {
        ifs := ifs[id := ifs[id].(kind := kind, block2 := None)];
      }
      assert forall k :: 0 <= k < |blocks| ==> OwnerInRange(blocks[k]);
      assert forall i :: 0 <= i < |ifs| ==> IfInRange(i, ifs[i]) by {
        forall i | 0 <= i < |ifs| ensures IfInRange(i, ifs[i]) {
          if i != id {
            assert old(IfInRange(i, ifs[i]));
          } else {
            assert old(IfInRange(i, ifs[i]));
          }
        }
      }
      if wasOrdered {
        forall b | 0 <= b < |blocks| ensures BlockAfterItsIf(b, blocks[b]) {
          if b < |oldBlocks| {
            assert old(BlockAfterItsIf(b, blocks[b]));
          }
        }
      }
    }

    /** `block.endPos = pos`. */
    method SetEndPos(b: nat, pos: int)
      requires Valid() && b < |blocks|
      modifies this
      ensures blocks == old(blocks)[b := old(blocks)[b].(endPos := Some(pos))]
      ensures ifs == old(ifs) && currentBlock == old(currentBlock)
      ensures Valid()
      ensures old(Ordered()) ==> Ordered()
    {
      ghost var wasOrdered := Ordered();
      blocks := blocks[b := blocks[b].(endPos := Some(pos))];
      assert forall k :: 0 <= k < |blocks| ==> OwnerInRange(blocks[k]) by {
        forall k | 0 <= k < |blocks| ensures OwnerInRange(blocks[k]) {
          assert old(OwnerInRange(blocks[k]));
        }
      }
      assert forall i :: 0 <= i < |ifs| ==> IfInRange(i, ifs[i]) by {
        forall i | 0 <= i < |ifs| ensures IfInRange(i, ifs[i]) {
          assert old(IfInRange(i, ifs[i]));
        }
      }
      if wasOrdered {
        forall k | 0 <= k < |blocks| ensures BlockAfterItsIf(k, blocks[k]) {
          assert old(BlockAfterItsIf(k, blocks[k]));
        }
      }
    }
  }
}
