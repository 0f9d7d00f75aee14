/**
 * The byte reader and writer of the C++ generation. A read that would end
 * past the buffer still moves the cursor by its full width and yields 0 or ""
 * instead of failing; `eof` and `pastEOF` tell the caller afterwards.
 */
module Stream {
  import opened Bytes
  import opened Wrappers

  /** The values of a stream's `endianness` field: little-endian is `true`. */
  const BigEndian: bool := false
  const LittleEndian: bool := true

  /** Bytes [p, p + n) when they lie inside the buffer. */
  predicate Fits(data: seq<byte>, p: nat, n: nat) { p + n <= |data| }

  /** What an unsigned read of `n` bytes at `p` returns: the field, or 0 when it runs past the end. */
  function UintOrZero(data: seq<byte>, p: nat, n: nat, littleEndian: bool): (r: nat)
    ensures r < Pow256(n)
    ensures !Fits(data, p, n) ==> r == 0
    ensures Fits(data, p, n) ==> r == Unsigned(data[p..p + n], littleEndian)
  {
    if Fits(data, p, n) then Unsigned(data[p..p + n], littleEndian) else 0
  }

  /** The text a `char *` holds: everything before the first NUL byte. */
  function CString(s: seq<byte>): (r: string)
    ensures |r| <= |s|
    ensures r == CharsOf(s[..|r|])
    ensures forall i :: 0 <= i < |r| ==> r[i] != 0 as char
    ensures |r| < |s| ==> s[|r|] == 0
  {
    if s == [] || s[0] == 0 then [] else [CharOf(s[0])] + CString(s[1..])
  }

  /** A string without NUL bytes survives the trip through a `char *` unchanged. */
  lemma {:induction false} CStringOfPlainText(s: seq<byte>)
    requires forall i :: 0 <= i < |s| ==> s[i] != 0
    ensures CString(s) == CharsOf(s)
  {
    if s != [] {
      CStringOfPlainText(s[1..]);
    }
  }

  /** One step of `readVarInt`: the 7 low bits appended below the previous value, kept to 32 bits. */
  function VarIntStep(acc: nat, b: byte): (r: nat)
    ensures r < 0x1_0000_0000
  {
    U32(acc * 0x80 + b % 0x80)
  }

  /** While fewer than 32 bits are gathered nothing is lost to the wrap-around. */
  lemma StepWithoutWrap(acc: nat, b: byte)
    requires acc < 0x200_0000
    ensures VarIntStep(acc, b) == acc * 0x80 + b % 0x80
  {
    assert 0 <= acc * 0x80 + b % 0x80 < 0x1_0000_0000;
  }

  /** The byte `readUint8` yields at `p`: the byte, or 0 past the end. */
  function ByteOrZero(data: seq<byte>, p: nat): (r: byte)
    ensures p < |data| ==> r == data[p]
    ensures p >= |data| ==> r == 0
  {
    if p < |data| then data[p] else 0
  }

  /**
   * A variable-length integer starting at `p` with `acc` already gathered:
   * the value and the cursor after its last byte (the first one whose high bit
   * is clear, or the first byte past the end, which reads as 0).
   */
  function VarIntFrom(data: seq<byte>, p: nat, acc: nat): (r: (nat, nat))
    ensures p < r.1 <= (if p < |data| then |data| else p) + 1
    ensures r.0 < 0x1_0000_0000
    ensures ByteOrZero(data, r.1 - 1) < 0x80
    ensures forall k :: p <= k < r.1 - 1 ==> ByteOrZero(data, k) >= 0x80
    decreases |data| - p
  {
    var b := ByteOrZero(data, p);
    if b >= 0x80 then VarIntFrom(data, p + 1, VarIntStep(acc, b)) else (VarIntStep(acc, b), p + 1)
  }

  /** A byte below 0x80 is a whole integer: its own value, one byte long. */
  lemma OneByteVarInt(data: seq<byte>, p: nat)
    requires p < |data| && data[p] < 0x80
    ensures VarIntFrom(data, p, 0) == (data[p], p + 1)
  {
  }

  /** Two bytes, the first with its high bit set, hold 14 bits: the first byte's low 7 bits above the second's. */
  lemma TwoByteVarInt(data: seq<byte>, p: nat)
    requires p + 1 < |data| && data[p] >= 0x80 && data[p + 1] < 0x80
    ensures VarIntFrom(data, p, 0) == ((data[p] as int - 0x80) * 0x80 + data[p + 1], p + 2)
  {
    var hi: int := data[p] as int - 0x80;
    StepWithoutWrap(0, data[p]);
    StepWithoutWrap(hi, data[p + 1]);
    assert VarIntFrom(data, p, 0) == VarIntFrom(data, p + 1, hi);
  }

  /**
   * The writer's copy length exactly as written: `std::min(dataSize, _size - p)`
   * with the subtraction done in 64-bit `size_t`, which wraps when the cursor
   * is already past the end.
   */
  function WriteSizeAsWritten(size: nat, p: nat, dataSize: nat): (r: nat)
    requires size < 0x1_0000_0000_0000_0000 && p < 0x1_0000_0000_0000_0000
    ensures r <= dataSize
  {
    var room := (size - p) % 0x1_0000_0000_0000_0000;
    if dataSize < room then dataSize else room
  }

  /** After a clamped write the cursor sits past the end, and the next 1-byte write still copies 1 byte there. */
  lemma WriteSizeAsWrittenOverruns()
    ensures WriteSizeAsWritten(4, 3, 2) == 1
    ensures WriteSizeAsWritten(4, 5, 1) == 1
  {
  }

  /** The copy length the clamp is meant to give: never more than the room left, none once past the end. */
  function WriteSize(size: nat, p: nat, dataSize: nat): (r: nat)
    ensures r <= dataSize
    ensures p + r <= size || r == 0
    ensures p < size ==> r == (if dataSize < size - p then dataSize else size - p)
    ensures p >= size ==> r == 0
  {
    if p >= size then 0 else if dataSize < size - p then dataSize else size - p
  }

  /** Where the cursor is not past the end the two agree; past it only the corrected one copies nothing. */
  lemma WriteSizeAgreesInside(size: nat, p: nat, dataSize: nat)
    requires p <= size < 0x1_0000_0000_0000_0000
    ensures WriteSizeAsWritten(size, p, dataSize) == WriteSize(size, p, dataSize)
  {
  }

  /**
   * A window of `size` bytes at `start` in a buffer, as a `BufferView` holds
   * it. Nothing checks the bounds when a view is made.
   */
  datatype ByteView = ByteView(buffer: seq<byte>, start: nat, size: nat)
  {
    /** The window lies inside its buffer. */
    predicate Inside() { start + size <= |buffer| }

    /**
     * The bytes in the window; None when it reaches past the end of its
     * buffer, where reading it would read memory that is not the buffer's.
     */
    function Contents(): (r: Option<seq<byte>>)
      ensures r.Some? <==> Inside()
      ensures r.Some? ==> |r.value| == size && forall k :: 0 <= k < size ==> r.value[k] == buffer[start + k]
    {
      if Inside() then Some(buffer[start..start + size]) else None
    }
  }

  class ReadStream {
    const data: seq<byte>
    var pos: nat
    var endianness: bool

    constructor (data: seq<byte>, endianness: bool)
      ensures this.data == data && this.endianness == endianness && pos == 0
    {
      this.data := data;
      this.endianness := endianness;
      pos := 0;
    }

    function Size(): nat { |data| }

    method Seek(p: nat)
      modifies this`pos
      ensures pos == p
    {
      pos := p;
    }

    method Skip(len: nat)
      modifies this`pos
      ensures pos == old(pos) + len
    {
      pos := pos + len;
    }

    /** No byte is left to read. */
    function Eof(): (r: bool)
      reads this
      ensures r <==> !Fits(data, pos, 1)
    {
      pos >= Size()
    }

    /** The cursor has gone beyond the last byte: the last read did not fit. */
    function PastEOF(): (r: bool)
      reads this
      ensures r ==> Eof()
      ensures r <==> pos > 0 && !Fits(data, pos - 1, 1)
    {
      pos > Size()
    }

    method ReadUint(n: nat) returns (r: nat)
      modifies this`pos
      ensures r == UintOrZero(data, old(pos), n, endianness)
      ensures pos == old(pos) + n
      ensures PastEOF() <==> r == 0 && !Fits(data, old(pos), n)
    {
      var p := pos;
      pos := pos + n;
      if PastEOF() {
        return 0;
      }
      r := Unsigned(data[p..p + n], endianness);
    }

    method ReadUint8() returns (r: byte)
      modifies this`pos
      ensures r == ByteOrZero(data, old(pos))
      ensures pos == old(pos) + 1
    {
      var u := ReadUint(1);
      if Fits(data, old(pos), 1) {
        var s := data[old(pos)..old(pos) + 1];
        assert s == [data[old(pos)]] && s[..0] == [];
      }
      Pow256Values();
      r := u;
    }

    method ReadInt8() returns (r: int)
      modifies this`pos
      ensures r == Signed(ByteOrZero(data, old(pos)), 0x100)
      ensures pos == old(pos) + 1
    {
      var u := ReadUint8();
      r := Signed(u, 0x100);
    }

    method ReadUint16() returns (r: nat)
      modifies this`pos
      ensures r == UintOrZero(data, old(pos), 2, endianness) && r < 0x1_0000
      ensures pos == old(pos) + 2
    {
      Pow256Values();
      r := ReadUint(2);
    }

    method ReadInt16() returns (r: int)
      modifies this`pos
      ensures r == Signed(UintOrZero(data, old(pos), 2, endianness), 0x1_0000)
      ensures pos == old(pos) + 2
    {
      var u := ReadUint16();
      r := Signed(u, 0x1_0000);
    }

    method ReadUint32() returns (r: nat)
      modifies this`pos
      ensures r == UintOrZero(data, old(pos), 4, endianness) && r < 0x1_0000_0000
      ensures pos == old(pos) + 4
    {
      Pow256Values();
      r := ReadUint(4);
    }

    method ReadInt32() returns (r: int)
      modifies this`pos
      ensures r == Signed(UintOrZero(data, old(pos), 4, endianness), 0x1_0000_0000)
      ensures pos == old(pos) + 4
    {
      var u := ReadUint32();
      r := Signed(u, 0x1_0000_0000);
    }

    method ReadVarInt() returns (val: nat)
      modifies this`pos
      ensures (val, pos) == VarIntFrom(data, old(pos), 0)
    {
      val := 0;
      var b := ReadUint8();
      val := VarIntStep(val, b);
      while b >= 0x80
        invariant b >= 0x80 ==> pos <= |data|
        invariant VarIntFrom(data, old(pos), 0) ==
          if b >= 0x80 then VarIntFrom(data, pos, val) else (val, pos)
        decreases if b >= 0x80 then |data| + 1 - pos else 0
      {
        b := ReadUint8();
        val := VarIntStep(val, b);
      }
    }

    /** A view of the next `len` bytes; the cursor moves past them whether or not they are in the buffer. */
    method ReadByteView(len: nat) returns (v: ByteView)
      modifies this`pos
      ensures v == ByteView(data, old(pos), len)
      ensures pos == old(pos) + len
    {
      v := ByteView(data, pos, len);
      pos := pos + len;
    }

    method ReadString(len: nat) returns (r: string)
      modifies this`pos
      ensures r == if Fits(data, old(pos), len) then CString(data[old(pos)..old(pos) + len]) else ""
      ensures pos == old(pos) + len
    {
      var p := pos;
      pos := pos + len;
      if PastEOF() {
        return "";
      }
      r := CString(data[p..p + len]);
    }

    method ReadPascalString() returns (r: string)
      modifies this`pos
      ensures var len := ByteOrZero(data, old(pos));
        pos == old(pos) + 1 + len &&
        r == if Fits(data, old(pos) + 1, len) then CString(data[old(pos) + 1..old(pos) + 1 + len]) else ""
    {
      var len := ReadUint8();
      r := ReadString(len);
    }
  }

  class WriteStream {
    const data: array<byte>
    var pos: nat

    constructor (data: array<byte>)
      ensures this.data == data && pos == 0
    {
      this.data := data;
      pos := 0;
    }

    /**
     * Copies as much of `src` as fits from the cursor and moves the cursor by
     * the full length. This is the corrected clamp (see WriteSizeAsWritten).
     */
    method WriteBytes(src: seq<byte>) returns (written: nat)
      modifies data, this`pos
      ensures written == WriteSize(data.Length, old(pos), |src|)
      ensures pos == old(pos) + |src|
      ensures data[..] == if written == 0 then old(data[..])
        else old(data[..])[..old(pos)] + src[..written] + old(data[..])[old(pos) + written..]
    {
      var p := pos;
      pos := pos + |src|;
      written := WriteSize(data.Length, p, |src|);
      var i := 0;
      while i < written
        invariant 0 <= i <= written
        invariant pos == p + |src|
        invariant forall k :: 0 <= k < data.Length ==>
          data[k] == if p <= k < p + i then src[k - p] else old(data[k])
      {
        data[p + i] := src[i];
        i := i + 1;
      }
      if written > 0 {
        assert data[..] == old(data[..])[..p] + src[..written] + old(data[..])[p + written..];
      }
    }
  }
}
