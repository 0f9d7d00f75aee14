/**
 * The bytecode of a handler in the director generation: how `readData`
 * decodes it from the script chunk, how instructions are found by
 * position, and how `tagLoops` recognises the four kinds of repeat loop
 * and marks the instructions that belong to each loop's own machinery.
 */
module DirectorLoops {
  import opened Bytes
  import opened Wrappers
  import opened Stream
  import opened DirectorLingo
  import LingoDecNames

  /** `BytecodeTag`: how translation treats an instruction. */
  datatype Tag =
    | TagNone | TagSkip | TagRepeatWhile | TagRepeatWithIn | TagRepeatWithTo
    | TagRepeatWithDownTo | TagNextRepeatTarget

  /** The four tags a loop's opening `jmpifz` can get. */
  predicate IsLoopTag(t: Tag)
  {
    t.TagRepeatWhile? || t.TagRepeatWithIn? || t.TagRepeatWithTo? || t.TagRepeatWithDownTo?
  }

  /**
   * One instruction: its raw opcode byte, the normalised opcode, the
   * operand, its position relative to the start of the handler's code, its
   * tag and the index of the loop that owns it. A bytecode's translation is
   * kept by the handler, indexed like the instruction.
   */
  datatype Bytecode = Bytecode(opID: byte, opcode: byte, obj: int, pos: nat, tag: Tag, ownerLoop: nat)

  /** The `Bytecode` constructor: the opcode normalised, no tag and no owner (UINT32_MAX). */
  function NewBytecode(op: byte, obj: int, pos: nat): (b: Bytecode)
    ensures b.opID == op && b.obj == obj && b.pos == pos
    ensures b.opcode == LingoDecNames.NormalOpcode(op) && b.tag == TagNone && b.ownerLoop == UINT32_MAX
  {
    Bytecode(op, LingoDecNames.NormalOpcode(op), obj, pos, TagNone, UINT32_MAX)
  }

  // ---------------------------------------------------------------------
  // Decoding (`readData`).

  /** The operand's width: four bytes from 0xc0, two from 0x80, one from 0x40, none below. */
  function OperandWidth(op: byte): (r: nat)
    ensures r == if op >= 0xc0 then 4 else if op >= 0x80 then 2 else if op >= 0x40 then 1 else 0
  {
    if op >= 0xc0 then 4 else if op >= 0x80 then 2 else if op >= 0x40 then 1 else 0
  }

  /**
   * The operand of the instruction `op` read at `p` (past its opcode): four
   * bytes are signed; two bytes are signed for `pushint8` and `pushint16`;
   * one byte is signed for `pushint8`; every other operand is unsigned.
   * Bytes past the end of the data read as 0.
   */
  function OperandAt(data: seq<byte>, p: nat, op: byte, le: bool): int
  {
    var opcode := LingoDecNames.NormalOpcode(op);
    if op >= 0xc0 then Signed(UintOrZero(data, p, 4, le), 0x1_0000_0000)
    else if op >= 0x80 then
      if opcode == OpPushInt16 || opcode == OpPushInt8 then Signed(UintOrZero(data, p, 2, le), 0x1_0000)
      else UintOrZero(data, p, 2, le)
    else if op >= 0x40 then
      if opcode == OpPushInt8 then Signed(ByteOrZero(data, p), 0x100) else ByteOrZero(data, p)
    else 0
  }

  /**
   * The operand's range: signed values of its width for the sign-extended
   * cases, unsigned ones for the rest, and 0 without an operand.
   */
  lemma OperandRange(data: seq<byte>, p: nat, op: byte, le: bool)
    ensures var obj := OperandAt(data, p, op, le);
      var opcode := LingoDecNames.NormalOpcode(op);
      var w := OperandWidth(op);
      var signed := w == 4 || (w == 2 && (opcode == OpPushInt16 || opcode == OpPushInt8)) || (w == 1 && opcode == OpPushInt8);
      && (w == 0 ==> obj == 0)
      && (w > 0 && signed ==> -(Pow256(w) as int) / 2 <= obj < Pow256(w) / 2 && obj % Pow256(w) == UintOrZero(data, p, w, le))
      && (w > 0 && !signed ==> obj == UintOrZero(data, p, w, le))
  {
    Pow256Values();
    if OperandWidth(op) == 1 {
      assert UintOrZero(data, p, 1, le) == ByteOrZero(data, p) by {
        if Fits(data, p, 1) {
          assert data[p..p + 1] == [data[p]];
          assert LE([data[p]]) == data[p] && BE([data[p]]) == data[p];
        }
      }
    }
  }

  /**
   * The instructions `readData` decodes from `p` while the stream is before
   * `end`, with positions taken relative to `base`, where the code starts.
   * Each takes at least its opcode byte, so there are at most `end - p`.
   */
  function DecodeFrom(data: seq<byte>, p: nat, base: nat, end: nat, le: bool): (r: seq<Bytecode>)
    requires base <= p
    ensures |r| <= if p < end then end - p else 0
    ensures |r| > 0 ==> r[0].pos == p - base && r[0].opID == ByteOrZero(data, p)
    decreases end - p
  {
    if p >= end then []
    else
      var op := ByteOrZero(data, p);
      [NewBytecode(op, OperandAt(data, p + 1, op, le), p - base)] + DecodeFrom(data, p + 1 + OperandWidth(op), base, end, le)
  }

  /**
   * Each decoded instruction is the opcode byte at its position with the
   * operand after it, untagged; the first is at `p`, each next one starts
   * right after its predecessor's operand, and all start before `end`.
   */
  lemma {:induction false} DecodeFacts(data: seq<byte>, p: nat, base: nat, end: nat, le: bool)
    requires base <= p
    ensures var code := DecodeFrom(data, p, base, end, le);
      && (|code| > 0 ==> code[0].pos == p - base)
      && (forall k :: 0 <= k < |code| ==>
           && code[k].pos + base < end
           && code[k].opID == ByteOrZero(data, base + code[k].pos)
           && code[k] == NewBytecode(code[k].opID, OperandAt(data, base + code[k].pos + 1, code[k].opID, le), code[k].pos))
      && (forall k :: 0 <= k < |code| - 1 ==> code[k + 1].pos == code[k].pos + 1 + OperandWidth(code[k].opID))
  {
    DecodedEach(data, p, base, end, le);
    DecodedConsecutive(data, p, base, end, le);
  }

  /** Each decoded instruction is the opcode at its position with its operand, and starts before `end`. */
  lemma DecodedEach(data: seq<byte>, p: nat, base: nat, end: nat, le: bool)
    requires base <= p
    ensures var code := DecodeFrom(data, p, base, end, le);
      && (|code| > 0 ==> code[0].pos == p - base)
      && (forall k :: 0 <= k < |code| ==>
           && code[k].pos + base < end
           && code[k].opID == ByteOrZero(data, base + code[k].pos)
           && code[k] == NewBytecode(code[k].opID, OperandAt(data, base + code[k].pos + 1, code[k].opID, le), code[k].pos))
  {
    var code := DecodeFrom(data, p, base, end, le);
    forall k | 0 <= k < |code|
      ensures && code[k].pos + base < end
              && code[k].opID == ByteOrZero(data, base + code[k].pos)
              && code[k] == NewBytecode(code[k].opID, OperandAt(data, base + code[k].pos + 1, code[k].opID, le), code[k].pos)
    {
      DecodedAt(data, p, base, end, le, k);
    }
  }

  /** The instruction at index `k` of a decoding, by induction on `k`. */
  lemma {:induction false} DecodedAt(data: seq<byte>, p: nat, base: nat, end: nat, le: bool, k: nat)
    requires base <= p && k < |DecodeFrom(data, p, base, end, le)|
    ensures var b := DecodeFrom(data, p, base, end, le)[k];
      && p - base <= b.pos && b.pos + base < end
      && b.opID == ByteOrZero(data, base + b.pos)
      && b == NewBytecode(b.opID, OperandAt(data, base + b.pos + 1, b.opID, le), b.pos)
    decreases k
  {
    var op := ByteOrZero(data, p);
    var next := p + 1 + OperandWidth(op);
    if k > 0 {
      DecodedAt(data, next, base, end, le, k - 1);
      assert DecodeFrom(data, p, base, end, le)[k] == DecodeFrom(data, next, base, end, le)[k - 1];
    }
  }

  /** Each decoded instruction starts right after its predecessor's operand. */
  lemma {:induction false} DecodedConsecutive(data: seq<byte>, p: nat, base: nat, end: nat, le: bool)
    requires base <= p
    ensures var code := DecodeFrom(data, p, base, end, le);
      forall k :: 0 <= k < |code| - 1 ==> code[k + 1].pos == code[k].pos + 1 + OperandWidth(code[k].opID)
    decreases end - p
  {
    if p < end {
      var op := ByteOrZero(data, p);
      var next := p + 1 + OperandWidth(op);
      DecodedConsecutive(data, next, base, end, le);
      DecodedEach(data, next, base, end, le);
      var rest := DecodeFrom(data, next, base, end, le);
      var code := DecodeFrom(data, p, base, end, le);
      assert code == [code[0]] + rest;
      assert forall k :: 0 < k < |code| ==> code[k] == rest[k - 1];
    }
  }

  /** Decoded positions strictly increase, so no two instructions share a position. */
  lemma DecodedPositionsIncrease(data: seq<byte>, p: nat, base: nat, end: nat, le: bool)
    requires base <= p
    ensures var code := DecodeFrom(data, p, base, end, le);
      forall i, j :: 0 <= i < j < |code| ==> code[i].pos < code[j].pos
  {
    DecodeFacts(data, p, base, end, le);
    var code := DecodeFrom(data, p, base, end, le);
    forall i, j | 0 <= i < j < |code| ensures code[i].pos < code[j].pos {
      var k := i;
      while k < j
        invariant i <= k <= j
        invariant code[i].pos <= code[k].pos
        invariant k > i ==> code[i].pos < code[k].pos
      {
        k := k + 1;
      }
    }
  }

  /** `bytecodePosMap` after the instructions `code` were appended after `offset` others, in order. */
  function PosMapAfter(m: map<nat, nat>, offset: nat, code: seq<Bytecode>): (r: map<nat, nat>)
    ensures r.Keys == m.Keys + set k | 0 <= k < |code| :: code[k].pos
    ensures forall q :: q in r && q !in m ==> offset <= r[q] < offset + |code|
  {
    if code == [] then m
    else PosMapAfter(m, offset, code[..|code| - 1])[code[|code| - 1].pos := offset + |code| - 1]
  }

  /** The position map indexes `code`: each instruction by its position, and nothing else. */
  predicate IndexedByPos(code: seq<Bytecode>, posMap: map<nat, nat>)
  {
    && (forall k :: 0 <= k < |code| ==> code[k].pos in posMap && posMap[code[k].pos] == k)
    && (forall p :: p in posMap ==> posMap[p] < |code| && code[posMap[p]].pos == p)
  }

  /** When positions strictly increase, the map `readData` builds indexes every instruction by its own position. */
  lemma {:induction false} PosMapIndexes(code: seq<Bytecode>)
    requires forall i, j :: 0 <= i < j < |code| ==> code[i].pos < code[j].pos
    ensures IndexedByPos(code, PosMapAfter(map[], 0, code))
  {
    if code != [] {
      var init := code[..|code| - 1];
      var b := code[|code| - 1];
      PosMapIndexes(init);
      var m := PosMapAfter(map[], 0, init);
      assert b.pos !in m;
      forall k | 0 <= k < |code|
        ensures code[k].pos in PosMapAfter(map[], 0, code) && PosMapAfter(map[], 0, code)[code[k].pos] == k
      {
        if k < |init| {
          assert code[k] == init[k];
        }
      }
    }
  }

  /** Every index the position map holds is an instruction of `code`. */
  predicate PosMapInRange(posMap: map<nat, nat>, n: nat)
  {
    forall p :: p in posMap ==> posMap[p] < n
  }

  /** Appending instructions keeps the map's indexes inside the longer code. */
  lemma {:induction false} PosMapAfterInRange(m: map<nat, nat>, offset: nat, code: seq<Bytecode>)
    requires PosMapInRange(m, offset)
    ensures PosMapInRange(PosMapAfter(m, offset, code), offset + |code|)
  {
    if code != [] {
      PosMapAfterInRange(m, offset, code[..|code| - 1]);
    }
  }

  /**
   * `bytecodePosMap[p]`: `std::map::operator[]` gives 0 for a position
   * that is not an instruction's (and inserts it, which changes no later
   * lookup).
   */
  function IndexAt(posMap: map<nat, nat>, p: nat): (r: nat)
    ensures p in posMap ==> r == posMap[p]
    ensures p !in posMap ==> r == 0
  {
    if p in posMap then posMap[p] else 0
  }

  /** `readVarnamesTable`: `count` uint16 values from `offset`, each stored in an int16. */
  function VarnamesTable(data: seq<byte>, offset: nat, count: nat, le: bool): (r: seq<int>)
    ensures |r| == count
    ensures forall k :: 0 <= k < count ==> r[k] == Signed(UintOrZero(data, offset + 2 * k, 2, le), 0x1_0000)
  {
    seq(count, k requires 0 <= k < count => Signed(UintOrZero(data, offset + 2 * k, 2, le), 0x1_0000))
  }

  /** The stored name ids are the int16 values: ids from 0x8000 up read as negative. */
  lemma VarnamesAreInt16(data: seq<byte>, offset: nat, count: nat, le: bool)
    ensures forall k :: 0 <= k < count ==>
      var id := VarnamesTable(data, offset, count, le)[k];
      -0x8000 <= id < 0x8000 && (id < 0 <==> UintOrZero(data, offset + 2 * k, 2, le) >= 0x8000)
  {
  }

  /**
   * `readRecord`'s fields, in the order they are read. `stackHeight` is
   * read only for scripts whose context is `LctX`.
   */
  datatype HandlerRecord = HandlerRecord(
    nameID: int, vectorPos: nat, compiledLen: nat, compiledOffset: nat,
    argumentCount: nat, argumentOffset: nat, localsCount: nat, localsOffset: nat,
    unknown0Count: nat, unknown0Offset: nat, unknown1: nat, unknown2: nat,
    lineCount: nat, lineOffset: nat, stackHeight: nat)

  // ---------------------------------------------------------------------
  // Loop identification (`isRepeatWithIn`, `identifyLoop`, `tagLoops`).

  /** `getName` through the script's names table. */
  function NameOf(names: seq<string>, id: int): string
  {
    LingoDecNames.NameIn(names, id)
  }

  /** An id inside the table gives its entry; any other id gives "UNKNOWN_NAME_" followed by the id in decimal. */
  lemma NameOfCases(names: seq<string>, id: int)
    ensures -1 < id < |names| ==> NameOf(names, id) == names[id]
    ensures var r, prefix := NameOf(names, id), "UNKNOWN_NAME_";
      !(-1 < id < |names|) ==>
        && |r| > |prefix| && r[..|prefix|] == prefix
        && (id >= 0 ==> ParseDigits(r[|prefix|..], 10) == id)
        && (id < 0 ==> r[|prefix|] == '-' && ParseDigits(r[|prefix| + 1..], 10) == -id)
  {
    if !(-1 < id < |names|) {
      var r, prefix := NameOf(names, id), "UNKNOWN_NAME_";
      assert r[|prefix|..] == IntToString(id);
      IntToStringRoundTrip(id);
      if id < 0 {
        assert r[|prefix| + 1..] == IntToString(id)[1..];
      }
    }
  }

  /** Whether instruction `k` has opcode `op` and operand `obj`. */
  predicate Is(code: seq<Bytecode>, k: nat, op: byte, obj: int)
    requires k < |code|
  {
    code[k].opcode == op && code[k].obj == obj
  }

  /** The setters a `repeat with` loop can assign its variable by. */
  predicate IsSetOp(op: byte)
  {
    op == OpSetGlobal || op == OpSetProp || op == OpSetParam || op == OpSetLocal
  }

  /**
   * `isRepeatWithIn`: the instructions around the `jmpifz` at `s` and
   * before the loop's end `e` are the fixed sequence a
   * `repeat with v in list` loop compiles to.
   */
  predicate IsRepeatWithIn(code: seq<Bytecode>, names: seq<string>, s: nat, e: nat)
    requires s < |code| && e < |code|
  {
    if s < 7 || s > |code| - 6 then false
    else if !Is(code, s - 7, OpPeek, 0) then false
    else if !Is(code, s - 6, OpPushArgList, 1) then false
    else if !(code[s - 5].opcode == OpExtCall && NameOf(names, code[s - 5].obj) == "count") then false
    else if !Is(code, s - 4, OpPushInt8, 1) then false
    else if !Is(code, s - 3, OpPeek, 0) then false
    else if !Is(code, s - 2, OpPeek, 2) then false
    else if code[s - 1].opcode != OpLtEq then false
    else if !Is(code, s + 1, OpPeek, 2) then false
    else if !Is(code, s + 2, OpPeek, 1) then false
    else if !Is(code, s + 3, OpPushArgList, 2) then false
    else if !(code[s + 4].opcode == OpExtCall && NameOf(names, code[s + 4].obj) == "getAt") then false
    else if !IsSetOp(code[s + 5].opcode) then false
    else if e < 3 then false
    else if !Is(code, e - 3, OpPushInt8, 1) then false
    else if code[e - 2].opcode != OpAdd then false
    else if !Is(code, e, OpPop, 3) then false
    else true
  }

  /** The getter that reads back what a setter wrote, if the opcode is a setter of a loop variable. */
  function GetOpFor(setOp: byte): (r: Option<byte>)
    ensures r.Some? <==> setOp in {OpSetGlobal, OpSetGlobal2, OpSetProp, OpSetParam, OpSetLocal}
  {
    if setOp == OpSetGlobal then Some(OpGetGlobal)
    else if setOp == OpSetGlobal2 then Some(OpGetGlobal2)
    else if setOp == OpSetProp then Some(OpGetProp)
    else if setOp == OpSetParam then Some(OpGetParam)
    else if setOp == OpSetLocal then Some(OpGetLocal)
    else None
  }

  /**
   * Where the loop's condition starts: the target of the backward jump of
   * the `endrepeat` at `e - 1` (its position minus its operand, in uint32).
   */
  function ConditionStart(code: seq<Bytecode>, posMap: map<nat, nat>, e: nat): nat
    requires 1 <= e <= |code|
  {
    IndexAt(posMap, U32(code[e - 1].pos - code[e - 1].obj))
  }

  /**
   * `identifyLoop`, check by check: a `repeat with ... in` loop first; then
   * the with-to form, counting up after `lteq` or down after `gteq`, whose
   * variable is set before the condition, read at its start, and stepped
   * by 1 or -1 before the `endrepeat`; any failed check makes it a
   * `repeat while` loop.
   */
  function IdentifyLoop(code: seq<Bytecode>, posMap: map<nat, nat>, names: seq<string>, s: nat, e: nat): (r: Tag)
    requires s < |code| && 1 <= e < |code| && PosMapInRange(posMap, |code|)
    ensures IsLoopTag(r)
    ensures r.TagRepeatWithIn? ==> 7 <= s && s + 5 < |code| && 3 <= e
    ensures r.TagRepeatWithTo? || r.TagRepeatWithDownTo? ==> 1 <= s && 5 <= e && 1 <= ConditionStart(code, posMap, e)
  {
    if IsRepeatWithIn(code, names, s, e) then TagRepeatWithIn
    else if s < 1 then TagRepeatWhile
    else if code[s - 1].opcode != OpLtEq && code[s - 1].opcode != OpGtEq then TagRepeatWhile
    else
      var up := code[s - 1].opcode == OpLtEq;
      var cs := ConditionStart(code, posMap, e);
      if cs < 1 then TagRepeatWhile
      else
        var getOp := GetOpFor(code[cs - 1].opcode);
        if getOp.None? then TagRepeatWhile
        else
          var setOp := code[cs - 1].opcode;
          var varID := code[cs - 1].obj;
          if !Is(code, cs, getOp.value, varID) then TagRepeatWhile
          else if e < 5 then TagRepeatWhile
          else if !Is(code, e - 5, OpPushInt8, if up then 1 else -1) then TagRepeatWhile
          else if !Is(code, e - 4, getOp.value, varID) then TagRepeatWhile
          else if code[e - 3].opcode != OpAdd then TagRepeatWhile
          else if !Is(code, e - 2, setOp, varID) then TagRepeatWhile
          else if up then TagRepeatWithTo
          else TagRepeatWithDownTo
  }

  /**
   * The with-to loop shape as one condition: the comparison before the
   * `jmpifz` gives the direction, and the setter before the condition,
   * the getter at its start, the step of 1 or -1, the getter, `add` and
   * the setter before the `endrepeat` all name the same variable.
   */
  predicate WithToShape(code: seq<Bytecode>, posMap: map<nat, nat>, s: nat, e: nat, up: bool)
    requires s < |code| && 1 <= e < |code| && PosMapInRange(posMap, |code|)
  {
    var cs := ConditionStart(code, posMap, e);
    && 1 <= s && 1 <= cs && 5 <= e
    && code[s - 1].opcode == (if up then OpLtEq else OpGtEq)
    && GetOpFor(code[cs - 1].opcode).Some?
    && var getOp := GetOpFor(code[cs - 1].opcode).value;
       var varID := code[cs - 1].obj;
       && Is(code, cs, getOp, varID)
       && Is(code, e - 5, OpPushInt8, if up then 1 else -1)
       && Is(code, e - 4, getOp, varID)
       && code[e - 3].opcode == OpAdd
       && Is(code, e - 2, code[cs - 1].opcode, varID)
  }

  /**
   * `identifyLoop` gives each loop kind exactly when its shape is there,
   * with-in taking precedence, and falls back to `repeat while` whenever
   * neither shape is complete.
   */
  lemma IdentifyLoopCases(code: seq<Bytecode>, posMap: map<nat, nat>, names: seq<string>, s: nat, e: nat)
    requires s < |code| && 1 <= e < |code| && PosMapInRange(posMap, |code|)
    ensures var r := IdentifyLoop(code, posMap, names, s, e);
      var withIn := IsRepeatWithIn(code, names, s, e);
      && (r.TagRepeatWithIn? <==> withIn)
      && (r.TagRepeatWithTo? <==> !withIn && WithToShape(code, posMap, s, e, true))
      && (r.TagRepeatWithDownTo? <==> !withIn && WithToShape(code, posMap, s, e, false))
      && (r.TagRepeatWhile? <==> !withIn && !WithToShape(code, posMap, s, e, true) && !WithToShape(code, posMap, s, e, false))
  {
  }

  /**
   * The loop a `jmpifz` at `s` closes, as `tagLoops` is evidently meant to
   * find it: its jump target's index `e`, when the instruction before the
   * target is an `endrepeat`. A target that is no instruction's position,
   * or is the first instruction, closes no loop.
   */
  function LoopEnd(code: seq<Bytecode>, posMap: map<nat, nat>, s: nat): (r: Option<nat>)
    requires s < |code| && PosMapInRange(posMap, |code|)
    ensures r.Some? ==> code[s].opcode == OpJmpIfZ && 1 <= r.value < |code| && code[r.value - 1].opcode == OpEndRepeat
    ensures r.Some? ==> r.value == IndexAt(posMap, U32(code[s].pos + code[s].obj))
    ensures r.None? <==> (code[s].opcode != OpJmpIfZ ||
      var e := IndexAt(posMap, U32(code[s].pos + code[s].obj)); e < 1 || code[e - 1].opcode != OpEndRepeat)
  {
    if code[s].opcode != OpJmpIfZ then None
    else
      var e := IndexAt(posMap, U32(code[s].pos + code[s].obj));
      if e >= 1 && code[e - 1].opcode == OpEndRepeat then Some(e) else None
  }

  /**
   * The index `tagLoops` reads the closing `endrepeat` at, as written: the
   * target's index minus one in uint32, which wraps to UINT32_MAX when the
   * target index is 0.
   */
  function EndRepeatIndexAsWritten(code: seq<Bytecode>, posMap: map<nat, nat>, s: nat): (r: nat)
    requires s < |code|
  {
    U32(IndexAt(posMap, U32(code[s].pos + code[s].obj)) - 1)
  }

  /**
   * A `jmpifz` whose target is the first instruction, or no instruction's
   * position, makes `tagLoops` read the instruction at UINT32_MAX, past the
   * end of any handler's code: a lone `jmpifz 0` at position 0 does.
   */
  lemma ZeroTargetReadsPastEnd(code: seq<Bytecode>, posMap: map<nat, nat>, s: nat)
    requires s < |code| < UINT32_MAX && PosMapInRange(posMap, |code|)
    requires IndexAt(posMap, U32(code[s].pos + code[s].obj)) == 0
    ensures EndRepeatIndexAsWritten(code, posMap, s) == UINT32_MAX >= |code|
    ensures LoopEnd(code, posMap, s).None?
  {
  }

  lemma LoneJumpReadsPastEnd()
    ensures var code := [NewBytecode(OpJmpIfZ, 0, 0)];
      EndRepeatIndexAsWritten(code, map[0 := 0], 0) >= |code|
  {
    ZeroTargetReadsPastEnd([NewBytecode(OpJmpIfZ, 0, 0)], map[0 := 0], 0);
  }

  // ---------------------------------------------------------------------
  // Tagging.

  /** An instruction without its tag and owner. */
  function Untagged(b: Bytecode): Bytecode
  {
    b.(tag := TagNone, ownerLoop := 0)
  }

  /** The instructions of `code` without their tags and owners. */
  function CodeOf(code: seq<Bytecode>): (r: seq<Bytecode>)
    ensures |r| == |code|
  {
    seq(|code|, k requires 0 <= k < |code| => Untagged(code[k]))
  }

  /** Two codes that differ at most in their tags and owners. */
  predicate SameCode(a: seq<Bytecode>, b: seq<Bytecode>)
  {
    CodeOf(a) == CodeOf(b)
  }

  /** No instruction of `r` has a loop tag that it did not have in `code`. */
  predicate NoNewLoopTags(r: seq<Bytecode>, code: seq<Bytecode>)
  {
    |r| == |code| && forall k :: 0 <= k < |r| && IsLoopTag(r[k].tag) ==> r[k].tag == code[k].tag
  }

  /** Codes that differ only in tags agree on every opcode, operand and position. */
  lemma SameCodeAt(a: seq<Bytecode>, b: seq<Bytecode>, k: nat)
    requires SameCode(a, b) && k < |a|
    ensures |a| == |b| && a[k].opID == b[k].opID && a[k].opcode == b[k].opcode && a[k].obj == b[k].obj && a[k].pos == b[k].pos
  {
    assert CodeOf(a)[k] == CodeOf(b)[k];
  }

  /** Instruction `k` with a new tag. */
  function SetTag(code: seq<Bytecode>, k: nat, t: Tag): (r: seq<Bytecode>)
    requires k < |code|
    ensures |r| == |code| && SameCode(r, code)
    ensures !IsLoopTag(t) ==> NoNewLoopTags(r, code)
  {
    assert CodeOf(code[k := code[k].(tag := t)]) == CodeOf(code);
    code[k := code[k].(tag := t)]
  }

  /** Instruction `k` with a new tag and owner. */
  function SetOwned(code: seq<Bytecode>, k: nat, t: Tag, owner: nat): (r: seq<Bytecode>)
    requires k < |code|
    ensures |r| == |code| && SameCode(r, code)
    ensures !IsLoopTag(t) ==> NoNewLoopTags(r, code)
  {
    assert CodeOf(code[k := code[k].(tag := t, ownerLoop := owner)]) == CodeOf(code);
    code[k := code[k].(tag := t, ownerLoop := owner)]
  }

  /** Instructions `lo` to `hi`, inclusive, tagged `TagSkip`. */
  function SkipRange(code: seq<Bytecode>, lo: nat, hi: int): (r: seq<Bytecode>)
    requires hi < |code|
    ensures |r| == |code| && SameCode(r, code) && NoNewLoopTags(r, code)
  {
    var r := seq(|code|, k requires 0 <= k < |code| => if lo <= k <= hi then code[k].(tag := TagSkip) else code[k]);
    assert CodeOf(r) == CodeOf(code);
    r
  }

  /**
   * The tags of a `repeat with ... in` loop opened at `s` and closed at `e`:
   * the seven instructions before the `jmpifz` and the five after it are
   * skipped; the step `pushint8 1` is where `next repeat` jumps; the `add`,
   * the `endrepeat` and the closing `pop 3` are skipped.
   */
  function TagWithIn(code: seq<Bytecode>, s: nat, e: nat): (r: seq<Bytecode>)
    requires 7 <= s && s + 5 < |code| && 3 <= e < |code|
    ensures |r| == |code| && SameCode(r, code) && NoNewLoopTags(r, code)
  {
    var c := SkipRange(SkipRange(code, s - 7, s - 1), s + 1, s + 5);
    SetTag(SetOwned(SetTag(SetOwned(c, e - 3, TagNextRepeatTarget, s), e - 2, TagSkip), e - 1, TagSkip, s), e, TagSkip)
  }

  /**
   * The tags of a `repeat with ... to` loop: the setter and getter at the
   * condition's start and the comparison are skipped; the step is where
   * `next repeat` jumps; the getter, `add`, setter and `endrepeat` after it
   * are skipped.
   */
  function TagWithTo(code: seq<Bytecode>, s: nat, e: nat, cs: nat): (r: seq<Bytecode>)
    requires 1 <= s < |code| && 5 <= e < |code| && 1 <= cs < |code|
    ensures |r| == |code| && SameCode(r, code) && NoNewLoopTags(r, code)
  {
    var c := SetTag(SetTag(SetTag(code, cs - 1, TagSkip), cs, TagSkip), s - 1, TagSkip);
    var d := SetTag(SetTag(SetTag(SetOwned(c, e - 5, TagNextRepeatTarget, s), e - 4, TagSkip), e - 3, TagSkip), e - 2, TagSkip);
    SetOwned(d, e - 1, TagSkip, s)
  }

  /** One step of `tagLoops`: the tags the instruction at `s` gives when it opens a loop. */
  function TagStep(code: seq<Bytecode>, posMap: map<nat, nat>, names: seq<string>, s: nat): (r: seq<Bytecode>)
    requires s < |code| && PosMapInRange(posMap, |code|)
    ensures |r| == |code| && SameCode(r, code)
  {
    var end := LoopEnd(code, posMap, s);
    if end.None? then code
    else
      var e := end.value;
      var loopType := IdentifyLoop(code, posMap, names, s, e);
      var c := SetTag(code, s, loopType);
      if loopType.TagRepeatWithIn? then TagWithIn(c, s, e)
      else if loopType.TagRepeatWithTo? || loopType.TagRepeatWithDownTo? then TagWithTo(c, s, e, ConditionStart(code, posMap, e))
      else SetOwned(c, e - 1, TagNextRepeatTarget, s)
  }

  /** `tagLoops` after the first `n` instructions were looked at. */
  function TaggedUpTo(code: seq<Bytecode>, posMap: map<nat, nat>, names: seq<string>, n: nat): (r: seq<Bytecode>)
    requires n <= |code| && PosMapInRange(posMap, |code|)
    ensures |r| == |code|
  {
    if n == 0 then code else TagStep(TaggedUpTo(code, posMap, names, n - 1), posMap, names, n - 1)
  }

  /** Loop recognition looks only at opcodes, operands and positions. */
  lemma LoopRecognitionIgnoresTags(a: seq<Bytecode>, b: seq<Bytecode>, posMap: map<nat, nat>, names: seq<string>, s: nat)
    requires SameCode(a, b) && s < |a| && PosMapInRange(posMap, |a|)
    ensures LoopEnd(a, posMap, s) == LoopEnd(b, posMap, s)
    ensures LoopEnd(a, posMap, s).Some? ==>
      var e := LoopEnd(a, posMap, s).value;
      IdentifyLoop(a, posMap, names, s, e) == IdentifyLoop(b, posMap, names, s, e) &&
      ConditionStart(a, posMap, e) == ConditionStart(b, posMap, e)
  {
    forall k | 0 <= k < |a| ensures a[k].opcode == b[k].opcode && a[k].obj == b[k].obj && a[k].pos == b[k].pos {
      SameCodeAt(a, b, k);
    }
    if LoopEnd(a, posMap, s).Some? {
      var e := LoopEnd(a, posMap, s).value;
      assert IsRepeatWithIn(a, names, s, e) == IsRepeatWithIn(b, names, s, e);
    }
  }

  /**
   * The instruction at `s` keeps the loop tag its step gives it: a
   * `jmpifz` that closes a loop is tagged with its kind, since none of the
   * loop's own instructions that are skipped or stepped are a `jmpifz`.
   */
  lemma TagStepTagsJump(code: seq<Bytecode>, posMap: map<nat, nat>, names: seq<string>, s: nat)
    requires s < |code| && PosMapInRange(posMap, |code|) && LoopEnd(code, posMap, s).Some?
    ensures TagStep(code, posMap, names, s)[s].tag == IdentifyLoop(code, posMap, names, s, LoopEnd(code, posMap, s).value)
  {
    var e := LoopEnd(code, posMap, s).value;
    var t := IdentifyLoop(code, posMap, names, s, e);
    var c := SetTag(code, s, t);
    IdentifyLoopCases(code, posMap, names, s, e);
    if t.TagRepeatWithIn? {
      assert code[e - 3].opcode == OpPushInt8 && code[e - 2].opcode == OpAdd && code[e].opcode == OpPop;
      WithInLeavesStart(c, s, e);
    } else if t.TagRepeatWithTo? || t.TagRepeatWithDownTo? {
      var cs := ConditionStart(code, posMap, e);
      assert WithToShape(code, posMap, s, e, t.TagRepeatWithTo?);
      assert code[e - 5].opcode == OpPushInt8 && code[e - 3].opcode == OpAdd;
      assert code[cs - 1].opcode != OpJmpIfZ && code[cs].opcode != OpJmpIfZ;
      assert code[e - 4].opcode != OpJmpIfZ && code[e - 2].opcode != OpJmpIfZ;
      WithToLeavesStart(c, s, e, cs);
    }
  }

  /** The with-in tags leave the `jmpifz` alone when none of the closing instructions is it. */
  lemma WithInLeavesStart(c: seq<Bytecode>, s: nat, e: nat)
    requires 7 <= s && s + 5 < |c| && 3 <= e < |c|
    requires s != e - 3 && s != e - 2 && s != e - 1 && s != e
    ensures TagWithIn(c, s, e)[s] == c[s]
  {
  }

  /** The with-to tags leave the `jmpifz` alone when none of the instructions they mark is it. */
  lemma WithToLeavesStart(c: seq<Bytecode>, s: nat, e: nat, cs: nat)
    requires 1 <= s < |c| && 5 <= e < |c| && 1 <= cs < |c|
    requires s != cs - 1 && s != cs && s != e - 5 && s != e - 4 && s != e - 3 && s != e - 2 && s != e - 1
    ensures TagWithTo(c, s, e, cs)[s] == c[s]
  {
  }

  /** Apart from the jump it looks at, a step of tagging gives no instruction a loop tag. */
  lemma TagStepAddsNoOtherLoopTag(code: seq<Bytecode>, posMap: map<nat, nat>, names: seq<string>, s: nat)
    requires s < |code| && PosMapInRange(posMap, |code|)
    ensures forall k :: 0 <= k < |code| && k != s && IsLoopTag(TagStep(code, posMap, names, s)[k].tag) ==>
      TagStep(code, posMap, names, s)[k].tag == code[k].tag
  {
    var end := LoopEnd(code, posMap, s);
    if end.Some? {
      var e := end.value;
      var loopType := IdentifyLoop(code, posMap, names, s, e);
      var c := SetTag(code, s, loopType);
      assert forall k :: 0 <= k < |code| && k != s ==> c[k] == code[k];
    }
  }

  /** The tag at `k` is the loop kind `identifyLoop` gives the loop that the `jmpifz` at `k` closes. */
  predicate LoopTagIdentified(tag: Tag, code: seq<Bytecode>, posMap: map<nat, nat>, names: seq<string>, k: nat)
    requires k < |code| && PosMapInRange(posMap, |code|)
  {
    LoopEnd(code, posMap, k).Some? && tag == IdentifyLoop(code, posMap, names, k, LoopEnd(code, posMap, k).value)
  }

  /** Every loop tag in `code` is on a `jmpifz` that closes a loop, and names that loop's kind. */
  predicate LoopTagsOnJumps(code: seq<Bytecode>, posMap: map<nat, nat>, names: seq<string>)
    requires PosMapInRange(posMap, |code|)
  {
    forall k :: 0 <= k < |code| && IsLoopTag(code[k].tag) ==> LoopTagIdentified(code[k].tag, code, posMap, names, k)
  }

  /** A step of tagging puts a loop tag only on the jump it looks at, and the one it puts there is the loop's kind. */
  lemma TagStepKeepsLoopTagsOnJumps(code: seq<Bytecode>, posMap: map<nat, nat>, names: seq<string>, s: nat)
    requires s < |code| && PosMapInRange(posMap, |code|) && LoopTagsOnJumps(code, posMap, names)
    ensures LoopTagsOnJumps(TagStep(code, posMap, names, s), posMap, names)
  {
    var r := TagStep(code, posMap, names, s);
    TagStepAddsNoOtherLoopTag(code, posMap, names, s);
    forall k | 0 <= k < |r| && IsLoopTag(r[k].tag)
      ensures LoopTagIdentified(r[k].tag, r, posMap, names, k)
    {
      LoopRecognitionIgnoresTags(r, code, posMap, names, k);
      if k == s && LoopEnd(code, posMap, s).Some? {
        TagStepTagsJump(code, posMap, names, s);
      } else {
        assert LoopTagIdentified(code[k].tag, code, posMap, names, k);
      }
    }
  }

  /**
   * `tagLoops` puts a loop tag only on a `jmpifz` whose jump target follows
   * an `endrepeat`, and that tag is the kind `identifyLoop` gives the loop,
   * when the code starts with no loop tags.
   */
  lemma {:induction false} LoopTagsOnlyOnLoopJumps(code: seq<Bytecode>, posMap: map<nat, nat>, names: seq<string>, n: nat)
    requires n <= |code| && PosMapInRange(posMap, |code|)
    requires forall k :: 0 <= k < |code| ==> !IsLoopTag(code[k].tag)
    ensures SameCode(TaggedUpTo(code, posMap, names, n), code)
    ensures forall k :: 0 <= k < |code| && IsLoopTag(TaggedUpTo(code, posMap, names, n)[k].tag) ==>
      LoopTagIdentified(TaggedUpTo(code, posMap, names, n)[k].tag, code, posMap, names, k)
  {
    if n > 0 {
      var prev := TaggedUpTo(code, posMap, names, n - 1);
      LoopTagsOnlyOnLoopJumps(code, posMap, names, n - 1);
      assert LoopTagsOnJumps(prev, posMap, names) by {
        forall k | 0 <= k < |prev| && IsLoopTag(prev[k].tag)
          ensures LoopTagIdentified(prev[k].tag, prev, posMap, names, k)
        {
          LoopRecognitionIgnoresTags(prev, code, posMap, names, k);
        }
      }
      TagStepKeepsLoopTagsOnJumps(prev, posMap, names, n - 1);
      var r := TaggedUpTo(code, posMap, names, n);
      forall k | 0 <= k < |code| && IsLoopTag(r[k].tag)
        ensures LoopTagIdentified(r[k].tag, code, posMap, names, k)
      {
        LoopRecognitionIgnoresTags(r, code, posMap, names, k);
        assert LoopTagIdentified(r[k].tag, r, posMap, names, k);
      }
    }
  }
}
