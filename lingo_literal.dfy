/**
 * Literal records of a script chunk (`Literal.readRecord` and
 * `Literal.readData`): a type and an offset, then, for every type but
 * integers, a length-prefixed value stored in the literals data section.
 */
module LingoLiteral {
  import opened Bytes
  import opened Wrappers
  import opened DataStream

  const StringType: nat := 1
  const IntType: nat := 4
  const FloatType: nat := 9

  /**
   * What `literal.value` holds: nothing for a type outside 1, 4 and 9, the
   * bytes as characters for a string, the offset itself for an integer, and
   * the eight raw bytes of a double (not interpreted here).
   */
  datatype LiteralValue = Unset | StringValue(s: string) | IntValue(n: nat) | DoubleBytes(bytes: seq<byte>)

  datatype Literal = Literal(literalType: nat, offset: nat, length: Option<nat>, value: LiteralValue)

  /** The literal values `readData` produces for each type. */
  predicate Resolved(lit: Literal)
  {
    && (lit.literalType == StringType ==> lit.value.StringValue?)
    && (lit.literalType == IntType ==> lit.value.IntValue?)
  }

  /** `readRecord`: a uint32 type, then a uint32 offset. */
  method ReadRecord(ds: DataStream) returns (r: Result<Literal>)
    modifies ds`position
    ensures r.Ok? <==> old(ds.position) + 8 <= |ds.buffer|
    ensures r.Ok? ==>
      && r.value.literalType == UintAt(ds.buffer, old(ds.position), 4, ds.endianness).value
      && r.value.offset == UintAt(ds.buffer, old(ds.position) + 4, 4, ds.endianness).value
      && r.value.length == None && r.value.value == Unset
      && ds.position == old(ds.position) + 8
  {
    var t :- ds.ReadUint32();
    var offset :- ds.ReadUint32();
    r := Ok(Literal(t, offset, None, Unset));
  }

  /**
   * `readData`: an integer is its own offset and nothing is read; any other
   * type reads a uint32 length at `startOffset + offset`; a string is the
   * `length - 1` bytes that follow; a double the next eight bytes.
   */
  method ReadData(ds: DataStream, lit: Literal, startOffset: nat) returns (r: Result<Literal>)
    modifies ds`position
    ensures r.Ok? ==> r.value.literalType == lit.literalType && r.value.offset == lit.offset
    ensures lit.literalType == IntType ==>
      r == Ok(lit.(value := IntValue(lit.offset))) && ds.position == old(ds.position)
    ensures lit.literalType != IntType ==>
      var at := startOffset + lit.offset;
      && (r.Ok? <==> at + 4 <= |ds.buffer| && (lit.literalType == FloatType ==> at + 12 <= |ds.buffer|))
      && (r.Ok? ==> r.value.length == Some(UintAt(ds.buffer, at, 4, ds.endianness).value))
    ensures r.Ok? && lit.literalType == StringType ==>
      var at := startOffset + lit.offset;
      r.value.value == StringValue(CharsOf(Window(ds.buffer, at + 4, r.value.length.value - 1)))
    ensures r.Ok? && lit.literalType == FloatType ==>
      var at := startOffset + lit.offset;
      r.value.value == DoubleBytes(ds.buffer[at + 4..at + 12])
    ensures r.Ok? && lit.literalType !in {StringType, IntType, FloatType} ==> r.value.value == lit.value
  {
    if lit.literalType == IntType {
      return Ok(lit.(value := IntValue(lit.offset)));
    }
    ds.Seek(startOffset + lit.offset);
    var length :- ds.ReadUint32();
    var value := lit.value;
    if lit.literalType == StringType {
      var s := ds.ReadString(length as int - 1);
      value := StringValue(s);
    } else if lit.literalType == FloatType {
      if ds.position + 8 > |ds.buffer| {
        return Err(RangeError);
      }
      var bytes := ds.ReadBytes(8);
      value := DoubleBytes(bytes);
    }
    r := Ok(lit.(length := Some(length), value := value));
  }
}
