/**
 * The byte reader of the JavaScript generation: a buffer, a cursor and a
 * byte-order flag. Node's Buffer integer reads raise a RangeError for a
 * position outside the buffer before the cursor moves; slices and string
 * conversions clamp at the end of the buffer instead.
 */
module DataStream {
  import opened Bytes
  import opened Wrappers

  const BIG_ENDIAN: bool := false
  const LITTLE_ENDIAN: bool := true

  const RangeError: string := "RangeError"

  /**
   * `buffer.slice(start, start + len)`: the part of [start, start + len)
   * inside the buffer; a range that ends before it starts is empty.
   */
  function Window(buffer: seq<byte>, start: nat, len: int): (r: seq<byte>)
    ensures len <= 0 ==> r == []
    ensures |r| <= if len <= 0 then 0 else len
    ensures start + len <= |buffer| && len >= 0 ==> r == buffer[start..start + len]
    ensures start < |buffer| < start + len ==> r == buffer[start..]
    ensures start >= |buffer| ==> r == []
  {
    if len <= 0 then []
    else
      var lo := if start <= |buffer| then start else |buffer|;
      var hi := if start + len <= |buffer| then start + len else |buffer|;
      buffer[lo..hi]
  }

  /** An unsigned `width`-byte field at `pos`, or a RangeError when it does not fit. */
  function UintAt(buffer: seq<byte>, pos: nat, width: nat, littleEndian: bool): (r: Result<nat>)
    ensures r.Ok? <==> pos + width <= |buffer|
    ensures r.Ok? ==> r.value < Pow256(width)
  {
    if pos + width <= |buffer| then Ok(Unsigned(buffer[pos..pos + width], littleEndian)) else Err(RangeError)
  }

  /** A signed `width`-byte field at `pos` (two's complement). */
  function IntAt(buffer: seq<byte>, pos: nat, width: nat, littleEndian: bool): (r: Result<int>)
    requires width > 0
    ensures r.Ok? <==> pos + width <= |buffer|
    ensures r.Ok? ==> -(Pow256(width) / 2) <= r.value < Pow256(width) / 2
    ensures r.Ok? ==> r.value % Pow256(width) == UintAt(buffer, pos, width, littleEndian).value
  {
    match UintAt(buffer, pos, width, littleEndian)
    case Ok(u) =>
      assert Pow256(width) % 2 == 0;
      Ok(Signed(u, Pow256(width)))
    case Err(e) => Err(e)
  }

  /** Four characters as `readFourCC` returns them: reversed when the stream is little-endian. */
  function FourCCAt(buffer: seq<byte>, pos: nat, littleEndian: bool): (r: string)
    ensures |r| <= 4
    ensures pos + 4 <= |buffer| && !littleEndian ==> r == CharsOf(buffer[pos..pos + 4])
    ensures pos + 4 <= |buffer| && littleEndian ==> r == Reverse(CharsOf(buffer[pos..pos + 4]))
  {
    var s := CharsOf(Window(buffer, pos, 4));
    if littleEndian then Reverse(s) else s
  }

  /** A four-character code written in the opposite byte order reads as its reverse. */
  lemma FourCCByteOrder(buffer: seq<byte>, pos: nat)
    requires pos + 4 <= |buffer|
    ensures FourCCAt(buffer, pos, LITTLE_ENDIAN) == Reverse(FourCCAt(buffer, pos, BIG_ENDIAN))
  {
  }

  class DataStream {
    const buffer: seq<byte>
    var position: nat
    var endianness: bool

    constructor (buffer: seq<byte>, endianness: bool)
      ensures this.buffer == buffer && this.endianness == endianness && position == 0
    {
      this.buffer := buffer;
      this.endianness := endianness;
      position := 0;
    }

    method Seek(pos: nat)
      modifies this`position
      ensures position == pos
    {
      position := pos;
    }

    method Skip(n: nat)
      modifies this`position
      ensures position == old(position) + n
    {
      position := position + n;
    }

    function EndOfFile(): (r: bool)
      reads this
      ensures r <==> UintAt(buffer, position, 1, endianness).Err?
    {
      position >= |buffer|
    }

    method ReadBytes(length: nat) returns (r: seq<byte>)
      modifies this`position
      ensures r == Window(buffer, old(position), length)
      ensures position == old(position) + length
    {
      r := Window(buffer, position, length);
      position := position + length;
    }

    /** Shared shape of every integer read: the field if it fits, and the cursor moved past it. */
    method ReadUint(width: nat) returns (r: Result<nat>)
      modifies this`position
      ensures r == UintAt(buffer, old(position), width, endianness)
      ensures position == if r.Ok? then old(position) + width else old(position)
    {
      r := UintAt(buffer, position, width, endianness);
      if r.Ok? {
        position := position + width;
      }
    }

    method ReadUint8() returns (r: Result<nat>)
      modifies this`position
      ensures r == UintAt(buffer, old(position), 1, endianness)
      ensures r.Ok? ==> r.value == buffer[old(position)]
      ensures position == if r.Ok? then old(position) + 1 else old(position)
    {
      r := ReadUint(1);
      if r.Ok? {
        assert buffer[old(position)..old(position) + 1] == [buffer[old(position)]];
        assert BE([buffer[old(position)]]) == buffer[old(position)] by {
          assert [buffer[old(position)]][..0] == [];
        }
      }
    }

    method ReadInt8() returns (r: Result<int>)
      modifies this`position
      ensures r == IntAt(buffer, old(position), 1, endianness)
      ensures position == if r.Ok? then old(position) + 1 else old(position)
    {
      var u :- ReadUint(1);
      Pow256Values();
      r := Ok(Signed(u, 0x100));
    }

    method ReadUint16() returns (r: Result<nat>)
      modifies this`position
      ensures r == UintAt(buffer, old(position), 2, endianness)
      ensures position == if r.Ok? then old(position) + 2 else old(position)
    {
      r := ReadUint(2);
    }

    method ReadInt16() returns (r: Result<int>)
      modifies this`position
      ensures r == IntAt(buffer, old(position), 2, endianness)
      ensures position == if r.Ok? then old(position) + 2 else old(position)
    {
      var u :- ReadUint(2);
      Pow256Values();
      r := Ok(Signed(u, 0x1_0000));
    }

    /**
     * Three separate byte reads combined with shifts; the shifted bytes do
     * not overlap, so the bitwise or is a sum.
     */
    method ReadUint24() returns (r: Result<nat>)
      modifies this`position
      ensures r == UintAt(buffer, old(position), 3, endianness)
      ensures position == if r.Ok? then old(position) + 3 else old(position)
    {
      if position + 3 > |buffer| {
        return Err(RangeError);
      }
      var b0: int, b1: int, b2: int := buffer[position], buffer[position + 1], buffer[position + 2];
      var field := buffer[position..position + 3];
      assert field == [b0, b1, b2];
      ThreeBytes(b0, b1, b2);
      if endianness {
        r := Ok(b0 + b1 * 0x100 + b2 * 0x1_0000);
      } else {
        r := Ok(b0 * 0x1_0000 + b1 * 0x100 + b2);
      }
      position := position + 3;
    }

    method ReadUint32() returns (r: Result<nat>)
      modifies this`position
      ensures r == UintAt(buffer, old(position), 4, endianness)
      ensures position == if r.Ok? then old(position) + 4 else old(position)
    {
      r := ReadUint(4);
    }

    method ReadInt32() returns (r: Result<int>)
      modifies this`position
      ensures r == IntAt(buffer, old(position), 4, endianness)
      ensures position == if r.Ok? then old(position) + 4 else old(position)
    {
      var u :- ReadUint(4);
      Pow256Values();
      r := Ok(Signed(u, 0x1_0000_0000));
    }

    /** A negative length reads nothing and moves the cursor back. */
    method ReadString(length: int) returns (r: string)
      requires position + length >= 0
      modifies this`position
      ensures r == CharsOf(Window(buffer, old(position), length))
      ensures position == old(position) + length
    {
      r := CharsOf(Window(buffer, position, length));
      position := position + length;
    }

    method ReadFourCC() returns (r: string)
      modifies this`position
      ensures r == FourCCAt(buffer, old(position), endianness)
      ensures position == old(position) + 4
    {
      r := CharsOf(Window(buffer, position, 4));
      if endianness {
        r := Reverse(r);
      }
      position := position + 4;
    }
  }
}
