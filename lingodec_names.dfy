/**
 * Name tables of the C++ decompiler: the mnemonic of an opcode, a lookup in
 * a static name table, and the names chunk (`Lnam`) of a script context,
 * read big-endian through the C++ stream, whose reads past the end yield 0
 * or "" instead of failing. `ScriptNamesChunk` of the container reader is
 * the same code as `ScriptNames` and is modelled by it.
 */
module LingoDecNames {
  import opened Bytes
  import opened Stream
  import LingoContext

  // ---------------------------------------------------------------------
  // Static names.

  /** The code an opcode's mnemonic is filed under: codes with an operand are reduced to 0x40 + code % 0x40. */
  function NormalOpcode(id: byte): (r: byte)
    ensures id < 0x40 ==> r == id
    ensures id >= 0x40 ==> 0x40 <= r < 0x80 && r % 0x40 == id % 0x40
  {
    if id >= 0x40 then 0x40 + id % 0x40 else id
  }

  /** Normalising twice is normalising once. */
  lemma NormalOpcodeIdempotent(id: byte)
    ensures NormalOpcode(NormalOpcode(id)) == NormalOpcode(id)
  {
  }

  /**
   * `StandardNames::getOpcodeName`: the mnemonic the table files under the
   * normalised code, or "unk" and the code as two upper-case hex digits.
   */
  function GetOpcodeName(opcodeNames: map<nat, string>, id: byte): (r: string)
    ensures NormalOpcode(id) in opcodeNames ==> r == opcodeNames[NormalOpcode(id)]
    ensures NormalOpcode(id) !in opcodeNames ==>
      |r| == 5 && r[..3] == "unk" && DigitValue(r[3]) * 16 + DigitValue(r[4]) == NormalOpcode(id)
  {
    var code := NormalOpcode(id);
    if code in opcodeNames then opcodeNames[code] else "unk" + Hex2(code)
  }

  /** Two codes with an operand that agree modulo 0x40 share a mnemonic, whatever the table. */
  lemma CongruentOpcodesShareName(opcodeNames: map<nat, string>, a: byte, b: byte)
    requires a >= 0x40 && b >= 0x40 && a % 0x40 == b % 0x40
    ensures GetOpcodeName(opcodeNames, a) == GetOpcodeName(opcodeNames, b)
  {
  }

  /** Distinct unknown codes get distinct placeholder mnemonics: the code can be read back from the name. */
  lemma UnknownOpcodeNamesDistinct(opcodeNames: map<nat, string>, a: byte, b: byte)
    requires NormalOpcode(a) !in opcodeNames && NormalOpcode(b) !in opcodeNames
    requires NormalOpcode(a) != NormalOpcode(b)
    ensures GetOpcodeName(opcodeNames, a) != GetOpcodeName(opcodeNames, b)
  {
  }

  /** `StandardNames::getName`: the table's entry, or "ERROR" for an id it lacks. */
  function GetStandardName(nameMap: map<nat, string>, id: nat): (r: string)
    ensures id in nameMap ==> r == nameMap[id]
    ensures id !in nameMap ==> r == "ERROR"
  {
    if id in nameMap then nameMap[id] else "ERROR"
  }

  // ---------------------------------------------------------------------
  // The names chunk.

  /** The Pascal string whose length byte is at p, as `readUint8` then `readString` yield it. */
  function PascalAt(data: seq<byte>, p: nat): (r: string)
    ensures |r| <= ByteOrZero(data, p)
  {
    var len := ByteOrZero(data, p);
    if Fits(data, p + 1, len) then CString(data[p + 1..p + 1 + len]) else ""
  }

  /** The cursor after the Pascal string whose length byte is at p. */
  function PascalEnd(data: seq<byte>, p: nat): (r: nat)
    ensures r > p
  {
    p + 1 + ByteOrZero(data, p)
  }

  /**
   * `count` more names from p appended to `acc`, as the loop of `read`
   * appends them, and the cursor after the last one. Nothing fails: a name
   * past the end reads as "".
   */
  function NamesOnto(data: seq<byte>, p: nat, count: nat, acc: seq<string>): (r: (seq<string>, nat))
    decreases count
  {
    if count == 0 then (acc, p)
    else NamesOnto(data, PascalEnd(data, p), count - 1, acc + [PascalAt(data, p)])
  }

  /** Exactly `count` names are read, after the ones already there, and the cursor never moves back. */
  lemma {:induction false} NamesOntoShape(data: seq<byte>, p: nat, count: nat, acc: seq<string>)
    ensures |NamesOnto(data, p, count, acc).0| == |acc| + count
    ensures NamesOnto(data, p, count, acc).0[..|acc|] == acc
    ensures NamesOnto(data, p, count, acc).1 >= p + count
    decreases count
  {
    if count > 0 {
      var more := acc + [PascalAt(data, p)];
      NamesOntoShape(data, PascalEnd(data, p), count - 1, more);
      assert more[..|acc|] == acc;
    }
  }

  /** Every name is at most 255 characters, since its length is one byte. */
  lemma {:induction false} NamesOntoShort(data: seq<byte>, p: nat, count: nat, acc: seq<string>)
    requires LingoContext.AllShort(acc)
    ensures LingoContext.AllShort(NamesOnto(data, p, count, acc).0)
    decreases count
  {
    if count > 0 {
      LingoContext.AllShortPush(acc, PascalAt(data, p));
      NamesOntoShort(data, PascalEnd(data, p), count - 1, acc + [PascalAt(data, p)]);
    }
  }

  /** A name that survives storage: one byte per character, at most 255 of them, and no NUL. */
  predicate Plain(name: string)
  {
    LingoContext.Storable(name) && forall i :: 0 <= i < |name| ==> name[i] != 0 as char
  }

  /** A plain name stored at p with its length byte reads back, and the cursor lands where `rest` starts. */
  lemma PlainNameStored(data: seq<byte>, p: nat, n: string, rest: seq<byte>)
    requires Plain(n)
    requires var enc := [|n| as byte] + LingoContext.BytesOf(n) + rest;
      p + |enc| <= |data| && data[p..p + |enc|] == enc
    ensures PascalAt(data, p) == n && PascalEnd(data, p) == p + 1 + |n|
    ensures var next := p + 1 + |n|; data[next..next + |rest|] == rest
  {
    var nb := LingoContext.BytesOf(n);
    var head: seq<byte> := [|n| as byte];
    LingoContext.SliceParts(data, p, head, nb, rest);
    assert data[p] == data[p..p + 1][0] == |n|;
    assert ByteOrZero(data, p) == |n|;
    assert forall i :: 0 <= i < |nb| ==> nb[i] != 0 by {
      forall i | 0 <= i < |nb|
        ensures nb[i] != 0
      {
        assert CharsOf(nb)[i] == n[i];
      }
    }
    assert |head| == 1 && |nb| == |n|;
    assert data[p + 1..p + 1 + |n|] == nb;
    assert Fits(data, p + 1, |n|);
    CStringOfPlainText(nb);
    PascalAtFits(data, p, nb);
  }

  /** The Pascal string at p whose bytes all fit is the C string of the bytes after the length byte. */
  lemma PascalAtFits(data: seq<byte>, p: nat, body: seq<byte>)
    requires p + 1 + |body| <= |data| && data[p] == |body| && data[p + 1..p + 1 + |body|] == body
    ensures PascalAt(data, p) == CString(body)
  {
    var len := ByteOrZero(data, p);
    assert len == |body|;
    assert Fits(data, p + 1, len);
    assert data[p + 1..p + 1 + len] == body;
  }

  /** Names that are all plain. */
  predicate AllPlain(names: seq<string>)
  {
    forall k :: 0 <= k < |names| ==> Plain(names[k])
  }

  /** A names table of plain names stored at p reads back as those names, appended in order. */
  lemma {:induction false} NamesOntoAt(data: seq<byte>, p: nat, names: seq<string>, acc: seq<string>)
    requires AllPlain(names)
    requires var enc := LingoContext.EncodeNames(names);
      p + |enc| <= |data| && data[p..p + |enc|] == enc
    ensures NamesOnto(data, p, |names|, acc) == (acc + names, p + |LingoContext.EncodeNames(names)|)
    decreases |names|
  {
    if names == [] {
      assert acc + names == acc;
    } else {
      var n := names[0];
      var tail := names[1..];
      FirstNameStored(data, p, names);
      NamesOntoAt(data, p + 1 + |n|, tail, acc + [n]);
      LingoContext.PushThenAppend(acc, n, tail, names);
    }
  }

  /**
   * The first name of a stored table of plain names reads back, and the rest
   * of the table is stored where it ends.
   */
  lemma FirstNameStored(data: seq<byte>, p: nat, names: seq<string>)
    requires names != [] && AllPlain(names)
    requires var enc := LingoContext.EncodeNames(names);
      p + |enc| <= |data| && data[p..p + |enc|] == enc
    ensures var n := names[0];
      var rest := LingoContext.EncodeNames(names[1..]);
      && AllPlain(names[1..])
      && names == [n] + names[1..]
      && PascalAt(data, p) == n && PascalEnd(data, p) == p + 1 + |n|
      && p + 1 + |n| + |rest| <= |data| && data[p + 1 + |n|..p + 1 + |n| + |rest|] == rest
      && |LingoContext.EncodeNames(names)| == 1 + |n| + |rest|
  {
    var n := names[0];
    PlainTail(names);
    var rest := LingoContext.EncodeNames(names[1..]);
    EncodeFirstName(names);
    PlainNameStored(data, p, n, rest);
  }

  /** The names after the first of a table of plain names are plain too. */
  lemma PlainTail(names: seq<string>)
    requires names != [] && AllPlain(names)
    ensures Plain(names[0]) && AllPlain(names[1..]) && names == [names[0]] + names[1..]
  {
    var tail := names[1..];
    forall k | 0 <= k < |tail|
      ensures Plain(tail[k])
    {
      assert tail[k] == names[k + 1];
    }
  }

  /** A table is stored as its first name's length byte and bytes, then the rest of the table. */
  lemma EncodeFirstName(names: seq<string>)
    requires names != [] && AllPlain(names)
    ensures Plain(names[0]) && AllPlain(names[1..])
    ensures LingoContext.EncodeNames(names)
      == [|names[0]| as byte] + LingoContext.BytesOf(names[0]) + LingoContext.EncodeNames(names[1..])
  {
    PlainTail(names);
  }

  /** What `read` does to the names table: the names of a stored table come back in order, and the cursor stops at its end. */
  lemma NamesRoundTrip(names: seq<string>, tail: seq<byte>)
    requires AllPlain(names)
    ensures NamesOnto(LingoContext.EncodeNames(names) + tail, 0, |names|, []) ==
      (names, |LingoContext.EncodeNames(names)|)
  {
    var enc := LingoContext.EncodeNames(names);
    assert (enc + tail)[0..|enc|] == enc;
    NamesOntoAt(enc + tail, 0, names, []);
    assert [] + names == names;
  }

  /** The placeholder for a name id outside the table. */
  function UnknownName(id: int): (r: string)
  {
    "UNKNOWN_NAME_" + IntToString(id)
  }

  /** The name an id stands for in a names table: its entry, or the placeholder that spells the id. */
  function NameIn(names: seq<string>, id: int): string
  {
    if -1 < id < |names| then names[id] else UnknownName(id)
  }

  /** Distinct ids get distinct placeholders: the id can be read back from the text. */
  lemma UnknownNamesDistinct(a: int, b: int)
    requires a != b
    ensures UnknownName(a) != UnknownName(b)
  {
    if UnknownName(a) == UnknownName(b) {
      var prefix := "UNKNOWN_NAME_";
      assert IntToString(a) == UnknownName(a)[|prefix|..];
      assert IntToString(b) == UnknownName(b)[|prefix|..];
      IntToStringRoundTrip(a);
      IntToStringRoundTrip(b);
    }
  }

  /** The loop of `read`: `count` Pascal strings from the cursor, in order. */
  method ReadNameTable(stream: ReadStream, count: nat) returns (names: seq<string>)
    modifies stream`pos
    ensures (names, stream.pos) == NamesOnto(stream.data, old(stream.pos), count, [])
  {
    names := [];
    var i := 0;
    while i < count
      invariant 0 <= i <= count
      invariant NamesOnto(stream.data, old(stream.pos), count, []) ==
        NamesOnto(stream.data, stream.pos, count - i, names)
    {
      var p := stream.pos;
      var length := stream.ReadUint8();
      var name := stream.ReadString(length);
      assert name == PascalAt(stream.data, p) && stream.pos == PascalEnd(stream.data, p);
      names := names + [name];
      i := i + 1;
    }
  }

  /** The names chunk (`ScriptNames`): its header and the names it lists. */
  class ScriptNames {
    var unknown0: int
    var unknown1: int
    var len1: nat
    var len2: nat
    var namesOffset: nat
    var namesCount: nat
    var names: seq<string>

    constructor ()
      ensures names == [] && namesCount == 0
    {
      names := [];
      namesCount := 0;
    }

    /**
     * `read`: big-endian whatever the file's byte order; the header from the
     * cursor, then `namesCount` Pascal strings from `namesOffset`.
     */
    method Read(stream: ReadStream)
      modifies this, stream`pos, stream`endianness
      ensures stream.endianness == BigEndian
      ensures HeaderIs(stream.data, old(stream.pos))
      ensures (names, stream.pos) == NamesOnto(stream.data, namesOffset, namesCount, [])
    {
      stream.endianness := BigEndian;
      ReadHeader(stream);
      stream.Seek(namesOffset);
      names := ReadNameTable(stream, namesCount);
    }

    /** The header fields hold what the big-endian header at p says. */
    predicate HeaderIs(data: seq<byte>, p: nat)
      reads this
    {
      && unknown0 == Signed(UintOrZero(data, p, 4, BigEndian), 0x1_0000_0000)
      && unknown1 == Signed(UintOrZero(data, p + 4, 4, BigEndian), 0x1_0000_0000)
      && len1 == UintOrZero(data, p + 8, 4, BigEndian)
      && len2 == UintOrZero(data, p + 12, 4, BigEndian)
      && namesOffset == UintOrZero(data, p + 16, 2, BigEndian)
      && namesCount == UintOrZero(data, p + 18, 2, BigEndian)
    }

    /** The six header fields, read in order from the cursor. */
    method ReadHeader(stream: ReadStream)
      requires stream.endianness == BigEndian
      modifies this`unknown0, this`unknown1, this`len1, this`len2, this`namesOffset, this`namesCount, stream`pos
      ensures HeaderIs(stream.data, old(stream.pos)) && stream.pos == old(stream.pos) + 20
      ensures names == old(names)
    {
      unknown0 := stream.ReadInt32();
      unknown1 := stream.ReadInt32();
      len1 := stream.ReadUint32();
      len2 := stream.ReadUint32();
      namesOffset := stream.ReadUint16();
      namesCount := stream.ReadUint16();
    }

    /** `validName`: the id indexes the table. */
    predicate ValidName(id: int): (r: bool)
      reads this
      ensures r ==> 0 <= id < |names| && GetName(id) == names[id]
      ensures !r ==> GetName(id) == UnknownName(id)
    {
      -1 < id < |names|
    }

    /** `getName`: the name an id indexes, or a placeholder that spells the id. */
    function GetName(id: int): (r: string)
      reads this
      ensures 0 <= id < |names| ==> r == names[id]
      ensures !(0 <= id < |names|) ==> r == UnknownName(id)
    {
      NameIn(names, id)
    }

    /** A placeholder never stands for two ids: distinct out-of-range ids get distinct names. */
    lemma UnknownNamesApart(a: int, b: int)
      requires !ValidName(a) && !ValidName(b) && a != b
      ensures GetName(a) != GetName(b)
    {
      UnknownNamesDistinct(a, b);
    }
  }
}
