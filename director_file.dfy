/**
 * The director file of the C++ generation (src/director/dirfile.cpp): how a
 * RIFX container is opened, how its memory map becomes the chunk table, how
 * chunks are fetched and parsed on demand, and how a fresh memory map is laid
 * out before the movie is written back.
 */
module DirectorFile {
  import opened Bytes
  import opened Wrappers
  import opened Stream
  import opened DirectorChunk

  // Four-character codes, as the big-endian uint32 of their characters.
  const RIFX: nat := 0x5249_4658
  const XFIR: nat := 0x5846_4952
  const MV93: nat := 0x4d56_3933
  const MC95: nat := 0x4d43_3935
  const FGDM: nat := 0x4647_444d
  const FGDC: nat := 0x4647_4443
  const IMAP: nat := 0x696d_6170
  const MMAP: nat := 0x6d6d_6170
  const FREE: nat := 0x6672_6565
  const JUNK: nat := 0x6a75_6e6b
  const CASStar: nat := 0x4341_532a
  const CASt: nat := 0x4341_5374
  const KEYStar: nat := 0x4b45_592a
  const Lctx: nat := 0x4c63_7478
  const LctX: nat := 0x4c63_7458
  const Lnam: nat := 0x4c6e_616d
  const Lscr: nat := 0x4c73_6372
  const VWCF: nat := 0x5657_4346
  const DRCF: nat := 0x4452_4346
  const MCsL: nat := 0x4d43_734c

  /** The RIFX header (tag, length, codec) and the header of every other chunk (tag, length). */
  const RIFXHeaderSize: nat := 12
  const ChunkHeaderSize: nat := 8

  // ------------------------------------------------------------ the chunk table

  /** How a chunk's bytes are stored; only an afterburned file uses anything but `NullCompression`. */
  datatype Compression = NullCompression | ZlibCompression | SndCompression | FontMapCompression | OtherCompression

  predicate CompressionImplemented(c: Compression) { c == ZlibCompression || c == SndCompression }

  /** A row of the chunk table: which chunk, where it starts and how long it is. */
  datatype ChunkInfo = ChunkInfo(id: int, fourCC: nat, len: nat, uncompressedLen: nat, offset: int, compression: Compression)

  /** Entries the chunk table leaves out: unused and junk slots. */
  predicate Skipped(e: MapEntry) { e.fourCC == FREE || e.fourCC == JUNK }

  /** The row made for entry i; the int32 length is stored as uint32. */
  function InfoOf(i: nat, e: MapEntry): ChunkInfo
  {
    ChunkInfo(i, e.fourCC, U32(e.len), U32(e.len), e.offset, NullCompression)
  }

  /** The rows made from the first n entries, keyed by id. */
  function InfoTable(entries: seq<MapEntry>, n: nat): map<int, ChunkInfo>
    requires n <= |entries|
  {
    if n == 0 then map[]
    else if Skipped(entries[n - 1]) then InfoTable(entries, n - 1)
    else InfoTable(entries, n - 1)[n - 1 := InfoOf(n - 1, entries[n - 1])]
  }

  /** The ids of those rows in the order `std::map` visits them. */
  function KeptIds(entries: seq<MapEntry>, n: nat): seq<int>
    requires n <= |entries|
  {
    if n == 0 then []
    else if Skipped(entries[n - 1]) then KeptIds(entries, n - 1)
    else KeptIds(entries, n - 1) + [n - 1]
  }

  /** The ids listed under a tag; a tag never seen lists none. */
  function Bucket(byTag: map<nat, seq<int>>, t: nat): seq<int>
  {
    if t in byTag then byTag[t] else []
  }

  /** `chunkIDsByFourCC` after the first n entries: each kept id is appended to its tag's list. */
  function IdsByTag(entries: seq<MapEntry>, n: nat): map<nat, seq<int>>
    requires n <= |entries|
  {
    if n == 0 then map[]
    else
      var m := IdsByTag(entries, n - 1);
      var t := entries[n - 1].fourCC;
      if Skipped(entries[n - 1]) then m else m[t := Bucket(m, t) + [n - 1]]
  }

  predicate Increasing(ids: seq<int>)
  {
    forall i, j :: 0 <= i < j < |ids| ==> ids[i] < ids[j]
  }

  /**
   * The three views of the chunk table agree: the id list is the table's key
   * set in increasing order, every row is filed under its own id and tag, the
   * ids fit an int32 slot count, and each tag lists exactly the ids of its
   * rows, in increasing order.
   */
  ghost predicate Consistent(info: map<int, ChunkInfo>, ids: seq<int>, byTag: map<nat, seq<int>>)
  {
    && Increasing(ids)
    && (forall id :: id in info <==> id in ids)
    && (forall id :: id in info ==>
          0 <= id < 0x7FFF_FFFF && info[id].id == id && info[id].fourCC != FREE && info[id].fourCC != JUNK)
    && (forall t, id :: id in Bucket(byTag, t) <==> id in info && info[id].fourCC == t)
    && (forall t :: Increasing(Bucket(byTag, t)))
  }

  /** The table holds a row for exactly the kept entries, made from that entry. */
  lemma {:induction false} InfoTableRow(entries: seq<MapEntry>, n: nat, id: int)
    requires n <= |entries|
    ensures id in InfoTable(entries, n) <==> 0 <= id < n && !Skipped(entries[id])
    ensures id in InfoTable(entries, n) ==> InfoTable(entries, n)[id] == InfoOf(id, entries[id])
  {
    if n > 0 {
      InfoTableRow(entries, n - 1, id);
    }
  }

  /** The id list holds exactly the kept entries' indices. */
  lemma {:induction false} KeptIdsRow(entries: seq<MapEntry>, n: nat, id: int)
    requires n <= |entries|
    ensures id in KeptIds(entries, n) <==> 0 <= id < n && !Skipped(entries[id])
  {
    if n > 0 {
      KeptIdsRow(entries, n - 1, id);
    }
  }

  /** A list of ids below n stays increasing when n is appended. */
  lemma AppendIncreasing(ids: seq<int>, n: int)
    requires Increasing(ids) && forall id :: id in ids ==> id < n
    ensures Increasing(ids + [n])
  {
    forall i, j | 0 <= i < j < |ids| + 1
      ensures (ids + [n])[i] < (ids + [n])[j]
    {
      if j == |ids| {
        assert ids[i] in ids;
      }
    }
  }

  /** The id list is in increasing order. */
  lemma {:induction false} KeptIdsIncreasing(entries: seq<MapEntry>, n: nat)
    requires n <= |entries|
    ensures Increasing(KeptIds(entries, n))
  {
    if n > 0 {
      KeptIdsIncreasing(entries, n - 1);
      var ids := KeptIds(entries, n - 1);
      forall id | id in ids
        ensures id < n - 1
      {
        KeptIdsRow(entries, n - 1, id);
      }
      if !Skipped(entries[n - 1]) {
        AppendIncreasing(ids, n - 1);
      }
    }
  }

  /** Each tag lists exactly the kept entries with that tag. */
  lemma {:induction false} BucketRow(entries: seq<MapEntry>, n: nat, t: nat, id: int)
    requires n <= |entries|
    ensures id in Bucket(IdsByTag(entries, n), t) <==> 0 <= id < n && !Skipped(entries[id]) && entries[id].fourCC == t
  {
    if n > 0 {
      BucketRow(entries, n - 1, t, id);
    }
  }

  /** Each tag lists its ids in increasing order. */
  lemma {:induction false} BucketIncreasing(entries: seq<MapEntry>, n: nat, t: nat)
    requires n <= |entries|
    ensures Increasing(Bucket(IdsByTag(entries, n), t))
  {
    if n > 0 {
      BucketIncreasing(entries, n - 1, t);
      var b := Bucket(IdsByTag(entries, n - 1), t);
      if !Skipped(entries[n - 1]) && entries[n - 1].fourCC == t {
        forall id | id in b
          ensures id < n - 1
        {
          BucketRow(entries, n - 1, t, id);
        }
        AppendIncreasing(b, n - 1);
        assert Bucket(IdsByTag(entries, n), t) == b + [n - 1];
      }
    }
  }

  /** What `readMemoryMap` builds from an entry table of int32 size is a consistent chunk table. */
  lemma ReadTableConsistent(entries: seq<MapEntry>)
    requires |entries| <= 0x7FFF_FFFF
    ensures Consistent(InfoTable(entries, |entries|), KeptIds(entries, |entries|), IdsByTag(entries, |entries|))
  {
    var n := |entries|;
    var info := InfoTable(entries, n);
    KeptIdsIncreasing(entries, n);
    forall id
      ensures id in info <==> id in KeptIds(entries, n)
      ensures id in info ==> 0 <= id < 0x7FFF_FFFF && info[id].id == id && info[id].fourCC != FREE && info[id].fourCC != JUNK
    {
      InfoTableRow(entries, n, id);
      KeptIdsRow(entries, n, id);
    }
    forall t, id
      ensures id in Bucket(IdsByTag(entries, n), t) <==> id in info && info[id].fourCC == t
    {
      InfoTableRow(entries, n, id);
      BucketRow(entries, n, t, id);
    }
    forall t
      ensures Increasing(Bucket(IdsByTag(entries, n), t))
    {
      BucketIncreasing(entries, n, t);
    }
  }

  // ------------------------------------------------------------------ chunks

  /** What a chunk was parsed into. The readers of cast, key table, script, name and cast list chunks are not part of this model. */
  datatype ChunkBody =
    | InitialMapBody(initial: InitialMap)
    | MemoryMapBody(memory: MemoryMap)
    | ConfigBody(len: int)
    | CastMemberBody
    | UnparsedBody

  datatype Chunk = Chunk(fourCC: nat, body: ChunkBody)

  /** Chunks whose `write` is implemented: the initial map, memory map, config and cast member chunks. */
  predicate Writable(c: Chunk) { !c.body.UnparsedBody? }

  /** The tags `makeChunk` can deserialise. */
  predicate KnownTag(t: nat)
  {
    t == IMAP || t == MMAP || t == CASStar || t == CASt || t == KEYStar || t == Lctx || t == LctX
    || t == Lnam || t == Lscr || t == VWCF || t == DRCF || t == MCsL
  }

  /** The config chunk's own length, its first field, which it always reads big-endian. */
  function ConfigLength(bytes: seq<byte>): int
  {
    Signed(UintOrZero(bytes, 0, 2, BigEndian), 0x1_0000)
  }

  /** The chunk `makeChunk` builds from the bytes of a chunk with the given tag. */
  function ChunkOf(fourCC: nat, bytes: seq<byte>, le: bool): (r: Result<Chunk>)
    ensures r.Ok? ==> r.value.fourCC == fourCC
    ensures r.Ok? <==> KnownTag(fourCC) && (fourCC == MMAP ==> MemoryMapAt(bytes, 0, le).Ok?)
    ensures r.Ok? && fourCC == IMAP ==> r.value.body == InitialMapBody(InitialMapAt(bytes, 0, le))
    ensures r.Ok? && fourCC == MMAP ==> r.value.body == MemoryMapBody(MemoryMapAt(bytes, 0, le).value)
    ensures r.Ok? ==> (Writable(r.value) <==> fourCC == IMAP || fourCC == MMAP || fourCC == CASt || fourCC == VWCF || fourCC == DRCF)
  {
    if fourCC == IMAP then Ok(Chunk(fourCC, InitialMapBody(InitialMapAt(bytes, 0, le))))
    else if fourCC == MMAP then
      match MemoryMapAt(bytes, 0, le)
      case Ok(m) => Ok(Chunk(fourCC, MemoryMapBody(m)))
      case Err(e) => Err(e)
    else if fourCC == VWCF || fourCC == DRCF then Ok(Chunk(fourCC, ConfigBody(ConfigLength(bytes))))
    else if fourCC == CASt then Ok(Chunk(fourCC, CastMemberBody))
    else if KnownTag(fourCC) then Ok(Chunk(fourCC, UnparsedBody))
    else Err("could not deserialize chunk")
  }

  /** The chunk made from a view; a view reaching past its buffer cannot be read. */
  function ChunkOfView(fourCC: nat, view: ByteView, le: bool): (r: Result<Chunk>)
    ensures r.Ok? ==> view.Inside() && r == ChunkOf(fourCC, view.Contents().value, le)
  {
    match view.Contents()
    case None => Err("chunk runs past the end of the file")
    case Some(bytes) => ChunkOf(fourCC, bytes, le)
  }

  /**
   * What `readChunkData` returns for a header at p: the view of the body
   * when the header's tag is the expected one and its length the expected
   * one (any length when UINT32_MAX is expected), an error otherwise.
   */
  function ChunkDataAt(data: seq<byte>, p: nat, le: bool, fourCC: nat, len: nat): (r: Result<ByteView>)
    ensures r.Ok? <==> UintOrZero(data, p, 4, le) == fourCC && (len == UINT32_MAX || UintOrZero(data, p + 4, 4, le) == len)
    ensures r.Ok? ==> r.value == ByteView(data, p + ChunkHeaderSize, UintOrZero(data, p + 4, 4, le))
  {
    var validFourCC := UintOrZero(data, p, 4, le);
    var validLen := UintOrZero(data, p + 4, 4, le);
    var n := if len == UINT32_MAX then validLen else len;
    if fourCC != validFourCC || n != validLen then Err("chunk header does not match")
    else Ok(ByteView(data, p + ChunkHeaderSize, n))
  }

  /** `readChunk`: the header at p checked, then its body deserialised. */
  function ChunkAt(data: seq<byte>, p: nat, le: bool, fourCC: nat, len: nat): (r: Result<Chunk>)
    ensures r.Ok? ==> r.value.fourCC == fourCC
  {
    match ChunkDataAt(data, p, le, fourCC, len)
    case Err(e) => Err(e)
    case Ok(view) => ChunkOfView(fourCC, view, le)
  }

  /** The initial map chunk at p and the memory map chunk it points at, as `readMemoryMap` reads them. */
  function MapsAt(data: seq<byte>, p: nat, le: bool): (r: Result<(Chunk, Chunk)>)
    ensures r.Ok? ==> r.value.0.fourCC == IMAP && r.value.0.body.InitialMapBody?
    ensures r.Ok? ==> r.value.1.fourCC == MMAP && r.value.1.body.MemoryMapBody?
    ensures r.Ok? ==> |r.value.1.body.memory.mapArray| <= 0x7FFF_FFFF
  {
    match ChunkAt(data, p, le, IMAP, UINT32_MAX)
    case Err(e) => Err(e)
    case Ok(initial) =>
      match ChunkAt(data, initial.body.initial.mmapOffset, le, MMAP, UINT32_MAX)
      case Err(e) => Err(e)
      case Ok(mmap) => Ok((initial, mmap))
  }

  /** A chunk header as `writeChunk` emits it: the tag, then the length, in the file's byte order. */
  function EncodeU32(x: nat, le: bool): (r: seq<byte>)
    requires x < 0x1_0000_0000
    ensures |r| == 4
  {
    Pow256Values();
    if le then EncodeLE(x, 4) else Reverse(EncodeLE(x, 4))
  }

  lemma EncodeU32Reads(x: nat, le: bool)
    requires x < 0x1_0000_0000
    ensures Unsigned(EncodeU32(x, le), le) == x
  {
    Pow256Values();
    var s := EncodeLE(x, 4);
    if !le {
      BEIsReversedLE(Reverse(s));
      assert Reverse(Reverse(s)) == s;
    }
  }

  /** A chunk written as header and body reads back, by the length in its header, as a view of exactly that body. */
  lemma ChunkDataRoundTrip(fourCC: nat, body: seq<byte>, rest: seq<byte>, le: bool)
    requires fourCC < 0x1_0000_0000 && |body| < 0x1_0000_0000
    ensures var data := EncodeU32(fourCC, le) + EncodeU32(|body|, le) + body + rest;
      && ChunkDataAt(data, 0, le, fourCC, UINT32_MAX) == Ok(ByteView(data, 8, |body|))
      && ChunkDataAt(data, 0, le, fourCC, |body|) == Ok(ByteView(data, 8, |body|))
      && ByteView(data, 8, |body|).Contents() == Some(body)
  {
    var data := EncodeU32(fourCC, le) + EncodeU32(|body|, le) + body + rest;
    assert data[0..4] == EncodeU32(fourCC, le);
    assert data[4..8] == EncodeU32(|body|, le);
    assert data[8..8 + |body|] == body;
    EncodeU32Reads(fourCC, le);
    EncodeU32Reads(|body|, le);
  }

  // ------------------------------------------------------- the chunk cache

  /** The cache lookup at the head of `getChunk`: a cached chunk is returned whatever tag was asked for. */
  function CachedAsWritten(cache: map<int, Chunk>, fourCC: nat, id: int): (r: Option<Chunk>)
    ensures r.Some? <==> id in cache
    ensures r.Some? ==> r.value == cache[id]
  {
    if id in cache then Some(cache[id]) else None
  }

  /** The lookup with the tag check the uncached path makes: a cached chunk of another tag is an error. */
  function Cached(cache: map<int, Chunk>, fourCC: nat, id: int): (r: Option<Result<Chunk>>)
    ensures r.Some? <==> id in cache
    ensures r.Some? ==> (r.value.Ok? <==> cache[id].fourCC == fourCC)
    ensures r.Some? && r.value.Ok? ==> r.value.value == cache[id] && r.value.value.fourCC == fourCC
  {
    if id !in cache then None
    else if cache[id].fourCC != fourCC then Some(Err("cached chunk has another tag"))
    else Some(Ok(cache[id]))
  }

  /**
   * After `readMemoryMap`, id 1 holds the initial map. Asked for a script
   * with id 1, the cache hands back the initial map, which the caller then
   * treats as a script; the checked lookup refuses.
   */
  lemma InitialMapServedAsScript(initial: InitialMap)
    ensures var c := Chunk(IMAP, InitialMapBody(initial));
      && CachedAsWritten(map[1 := c], Lscr, 1) == Some(c) && c.fourCC != Lscr
      && Cached(map[1 := c], Lscr, 1).value.Err?
  {
  }

  // ---------------------------------------------------------- generated maps

  /** A slot nothing uses, as `generateMemoryMap` first fills every slot. */
  const FreeEntry: MapEntry := MapEntry(FREE, 0, 0, 12, 0, 0)

  /** The first free slot at or after j, or -1: the free list as it reads from j on. */
  function NextFree(e: seq<MapEntry>, j: nat): (r: int)
    ensures r == -1 || j <= r < |e|
    decreases |e| - j
  {
    if j >= |e| then -1
    else if e[j].fourCC == FREE then j
    else NextFree(e, j + 1)
  }

  /** The link found from j is a free slot, and no free slot lies between j and it; -1 means none is left. */
  lemma {:induction false} NextFreeIsFirst(e: seq<MapEntry>, j: nat)
    ensures var r := NextFree(e, j);
      && (r == -1 || e[r].fourCC == FREE)
      && forall k :: j <= k < |e| && (r == -1 || k < r) ==> e[k].fourCC != FREE
    decreases |e| - j
  {
    if j < |e| && e[j].fourCC != FREE {
      NextFreeIsFirst(e, j + 1);
    }
  }

  /** The free list depends only on the tags. */
  lemma {:induction false} NextFreeSameTags(e: seq<MapEntry>, f: seq<MapEntry>, j: nat)
    requires |e| == |f| && forall k :: 0 <= k < |e| ==> e[k].fourCC == f[k].fourCC
    ensures NextFree(e, j) == NextFree(f, j)
    decreases |e| - j
  {
    if j < |e| {
      NextFreeSameTags(e, f, j + 1);
    }
  }

  /** The placed chunk k starts where the chunk placed before it ends, or at `start` when it is the first. */
  predicate StartsAfter(e: seq<MapEntry>, ids: seq<int>, k: nat, start: int)
    requires k < |ids| && forall i :: 0 <= i < |ids| ==> 0 <= ids[i] < |e|
  {
    e[ids[k]].offset ==
      if k > 0 && ids[k - 1] > 2 then I32(e[ids[k - 1]].offset + e[ids[k - 1]].len + ChunkHeaderSize) else start
  }

  /** Where the last placed chunk ends (`start` when no chunk is placed): the end of the file. */
  function EndOf(e: seq<MapEntry>, ids: seq<int>, start: int): int
    requires forall i :: 0 <= i < |ids| ==> 0 <= ids[i] < |e|
  {
    if |ids| > 0 && ids[|ids| - 1] > 2 then
      I32(e[ids[|ids| - 1]].offset + e[ids[|ids| - 1]].len + ChunkHeaderSize)
    else start
  }

  /** Every table id above 2 is placed, one after another in id order, from `start` on. */
  predicate Contiguous(e: seq<MapEntry>, ids: seq<int>, start: int)
    requires forall i :: 0 <= i < |ids| ==> 0 <= ids[i] < |e|
  {
    forall k {:trigger StartsAfter(e, ids, k, start)} :: 0 <= k < |ids| && ids[k] > 2 ==> StartsAfter(e, ids, k, start)
  }

  /**
   * The slots of a generated map: the RIFX, imap and mmap chunks in slots
   * 0 to 2, each table id above 2 in its own slot with its tag, and every
   * other slot free.
   */
  ghost predicate Regenerated(info: map<int, ChunkInfo>, e: seq<MapEntry>)
  {
    && |e| >= 3
    && e[0].fourCC == RIFX && e[1].fourCC == IMAP && e[2].fourCC == MMAP
    && (forall id :: id in info ==> 0 <= id < |e|)
    && (forall id :: id in info && id > 2 ==> e[id].fourCC == info[id].fourCC)
    && (forall j :: 2 < j < |e| && j !in info ==> e[j].fourCC == FREE)
  }

  /**
   * Reading a generated map back gives the same chunk table: a row for
   * slots 0 to 2 and for every table id, each with its tag, and none for
   * the free slots.
   */
  lemma RegeneratedReadsBack(info: map<int, ChunkInfo>, ids: seq<int>, byTag: map<nat, seq<int>>, e: seq<MapEntry>)
    requires Consistent(info, ids, byTag) && Regenerated(info, e)
    ensures forall id :: id in InfoTable(e, |e|) <==> 0 <= id <= 2 || id in info
    ensures forall id :: id in info && id > 2 ==> InfoTable(e, |e|)[id].fourCC == info[id].fourCC
  {
    forall id
      ensures id in InfoTable(e, |e|) <==> 0 <= id <= 2 || id in info
      ensures id in info && id > 2 ==> InfoTable(e, |e|)[id].fourCC == info[id].fourCC
    {
      InfoTableRow(e, |e|, id);
    }
  }

  /** The codec `writeChunk` gives the RIFX chunk: a cast stays a cast, a movie a movie, both memory-mapped. */
  function WrittenCodec(codec: nat): nat
  {
    if CastCodec(codec) then MC95 else MV93
  }

  /** `isCast`: the codec of a cast file, memory-mapped or afterburned. */
  predicate CastCodec(codec: nat) { codec == MC95 || codec == FGDC }

  /** A written file is read back through its memory map, as the same kind of file. */
  lemma WrittenCodecRoundTrip(codec: nat)
    ensures WrittenCodec(codec) == MV93 || WrittenCodec(codec) == MC95
    ensures CastCodec(WrittenCodec(codec)) == CastCodec(codec)
  {
  }

  /** The chunk's `size()`, for the chunks that implement `write`; a cast member's size is given. */
  function WrittenSize(c: Chunk, memberSize: nat): nat
  {
    match c.body
    case InitialMapBody(_) => InitialMapSize
    case MemoryMapBody(m) => MemoryMapSize(m)
    case ConfigBody(len) => U64(len)
    case CastMemberBody => memberSize
    case UnparsedBody => 0
  }

  /** Fills `count` slots with free entries. */
  method FreeEntries(count: nat) returns (entries: seq<MapEntry>)
    ensures |entries| == count && forall j :: 0 <= j < count ==> entries[j] == FreeEntry
  {
    entries := [];
    while |entries| < count
      invariant |entries| <= count
      invariant forall j :: 0 <= j < |entries| ==> entries[j] == FreeEntry
    {
      entries := entries + [FreeEntry];
    }
  }

  /** Links the free slots from the last down to slot 0: each points at the next free slot above it. */
  method LinkFreeEntries(entries0: seq<MapEntry>) returns (entries: seq<MapEntry>, freeHead: int)
    ensures |entries| == |entries0|
    ensures freeHead == NextFree(entries, 0)
    ensures forall j :: 0 <= j < |entries| ==>
      entries[j] == if entries0[j].fourCC == FREE then entries0[j].(next := NextFree(entries, j + 1)) else entries0[j]
  {
    entries := entries0;
    freeHead := -1;
    var id := |entries0| - 1;
    while id >= 0
      invariant -1 <= id < |entries0| && |entries| == |entries0|
      invariant freeHead == NextFree(entries0, id + 1)
      invariant forall j :: 0 <= j <= id ==> entries[j] == entries0[j]
      invariant forall j :: id < j < |entries| ==>
        entries[j] == if entries0[j].fourCC == FREE then entries0[j].(next := NextFree(entries0, j + 1)) else entries0[j]
    {
      if entries[id].fourCC == FREE {
        entries := entries[id := entries[id].(next := freeHead)];
        freeHead := id;
      }
      id := id - 1;
    }
    forall j | 0 <= j <= |entries|
      ensures NextFree(entries0, j) == NextFree(entries, j)
    {
      NextFreeSameTags(entries0, entries, j);
    }
  }

  /** The RIFX header at the cursor: its tag selects the byte order, and its third word is the codec. */
  method ReadRifxHeader(s: ReadStream) returns (codec: nat)
    modifies s`pos, s`endianness
    ensures s.endianness == (UintOrZero(s.data, old(s.pos), 4, BigEndian) == XFIR)
    ensures codec == UintOrZero(s.data, old(s.pos) + 8, 4, s.endianness)
    ensures s.pos == old(s.pos) + RIFXHeaderSize
  {
    s.endianness := BigEndian;
    var metaFourCC := s.ReadUint32();
    if metaFourCC == XFIR {
      s.endianness := LittleEndian;
    }
    var _ := s.ReadUint32();
    codec := s.ReadUint32();
  }

  /** The loop of `readMemoryMap`: a row and a tag listing for every entry that is neither free nor junk. */
  method BuildTable(entries: seq<MapEntry>) returns (info: map<int, ChunkInfo>, ids: seq<int>, byTag: map<nat, seq<int>>)
    ensures info == InfoTable(entries, |entries|) && ids == KeptIds(entries, |entries|) && byTag == IdsByTag(entries, |entries|)
  {
    info, ids, byTag := map[], [], map[];
    var i := 0;
    while i < |entries|
      invariant 0 <= i <= |entries|
      invariant info == InfoTable(entries, i) && ids == KeptIds(entries, i) && byTag == IdsByTag(entries, i)
    {
      var e := entries[i];
      if !(e.fourCC == FREE || e.fourCC == JUNK) {
        info := info[i := InfoOf(i, e)];
        ids := ids + [i];
        byTag := byTag[e.fourCC := (if e.fourCC in byTag then byTag[e.fourCC] else []) + [i]];
      }
      i := i + 1;
    }
  }

  /** The RIFX, imap and mmap entries of a generated map, laid out from offset 0; the RIFX length is filled in last. */
  method HeaderEntries(entries0: seq<MapEntry>, mmapLen: int) returns (entries: seq<MapEntry>, nextOffset: int)
    requires |entries0| >= 3
    ensures |entries| == |entries0| && forall j :: 3 <= j < |entries| ==> entries[j] == entries0[j]
    ensures entries[0] == MapEntry(RIFX, entries0[0].len, 0, 1, 0, 0)
    ensures entries[1] == MapEntry(IMAP, InitialMapSize, RIFXHeaderSize, 1, 0, 0)
    ensures entries[2] == MapEntry(MMAP, mmapLen, 44, 0, 0, 0)
    ensures nextOffset == I32(44 + mmapLen + ChunkHeaderSize)
  {
    entries := entries0;
    nextOffset := 0;
    entries := entries[0 := MapEntry(RIFX, entries[0].len, nextOffset, 1, 0, 0)];
    nextOffset := nextOffset + RIFXHeaderSize;
    entries := entries[1 := MapEntry(IMAP, InitialMapSize, nextOffset, 1, 0, 0)];
    nextOffset := nextOffset + InitialMapSize + ChunkHeaderSize;
    entries := entries[2 := MapEntry(MMAP, mmapLen, nextOffset, 0, 0, 0)];
    nextOffset := I32(nextOffset + mmapLen + ChunkHeaderSize);
  }

  /** The well-formed inputs of a placement: increasing ids inside the map, each with a row and a length, and no row a free slot. */
  predicate PlacementInputs(count: nat, ids: seq<int>, info: map<int, ChunkInfo>, lengths: map<int, int>)
  {
    && Increasing(ids)
    && (forall i :: 0 <= i < |ids| ==> 0 <= ids[i] < count && ids[i] in info && ids[i] in lengths)
    && (forall id :: id in info ==> info[id].fourCC != FREE)
  }

  /** The first k ids are placed, nothing else has changed, and `end` is where the last one placed ends. */
  ghost predicate PlacedUpTo(entries0: seq<MapEntry>, entries: seq<MapEntry>, ids: seq<int>, info: map<int, ChunkInfo>, lengths: map<int, int>,
    start: int, k: nat, end: int)
    requires PlacementInputs(|entries0|, ids, info, lengths) && k <= |ids| && |entries| == |entries0|
  {
    && (forall j :: 0 <= j < |entries| && entries[j] != entries0[j] ==> j > 2 && j in ids)
    && (forall i :: 0 <= i < k && ids[i] > 2 ==> entries[ids[i]] == MapEntry(info[ids[i]].fourCC, lengths[ids[i]], entries[ids[i]].offset, 0, 0, 0))
    && (forall i {:trigger StartsAfter(entries, ids, i, start)} :: 0 <= i < k && ids[i] > 2 ==> StartsAfter(entries, ids, i, start))
    && end == if k > 0 && ids[k - 1] > 2 then I32(entries[ids[k - 1]].offset + entries[ids[k - 1]].len + ChunkHeaderSize) else start
  }

  /** Placing the next id above 2 at `end` keeps the placement invariant. */
  lemma PlaceStep(entries0: seq<MapEntry>, before: seq<MapEntry>, ids: seq<int>, info: map<int, ChunkInfo>, lengths: map<int, int>,
    start: int, k: nat, end: int)
    requires PlacementInputs(|entries0|, ids, info, lengths) && k < |ids| && |before| == |entries0| && ids[k] > 2
    requires PlacedUpTo(entries0, before, ids, info, lengths, start, k, end)
    ensures PlacedUpTo(entries0, before[ids[k] := MapEntry(info[ids[k]].fourCC, lengths[ids[k]], end, 0, 0, 0)], ids, info, lengths,
      start, k + 1, I32(end + lengths[ids[k]] + ChunkHeaderSize))
  {
    var id := ids[k];
    var placed := MapEntry(info[ids[k]].fourCC, lengths[ids[k]], end, 0, 0, 0);
    var entries := before[id := placed];
    PlaceKeepsOthers(entries0, before, ids, info, lengths, start, k, end, entries);
    PlaceKeepsRows(entries0, before, ids, info, lengths, start, k, end, entries);
    PlaceKeepsStarts(entries0, before, ids, info, lengths, start, k, end, entries);
    assert entries[id] == placed;
  }

  /** Placing id k changes only that slot, which is a table id above 2. */
  lemma PlaceKeepsOthers(entries0: seq<MapEntry>, before: seq<MapEntry>, ids: seq<int>, info: map<int, ChunkInfo>, lengths: map<int, int>,
    start: int, k: nat, end: int, entries: seq<MapEntry>)
    requires PlacementInputs(|entries0|, ids, info, lengths) && k < |ids| && |before| == |entries0| && ids[k] > 2
    requires PlacedUpTo(entries0, before, ids, info, lengths, start, k, end)
    requires entries == before[ids[k] := MapEntry(info[ids[k]].fourCC, lengths[ids[k]], end, 0, 0, 0)]
    ensures forall j :: 0 <= j < |entries| && entries[j] != entries0[j] ==> j > 2 && j in ids
  {
    assert ids[k] in ids;
    forall j | 0 <= j < |entries| && entries[j] != entries0[j]
      ensures j > 2 && j in ids
    {
      if j != ids[k] {
        assert entries[j] == before[j];
      }
    }
  }

  /** Placing id k gives it its row's tag and length and keeps the rows placed before it. */
  lemma PlaceKeepsRows(entries0: seq<MapEntry>, before: seq<MapEntry>, ids: seq<int>, info: map<int, ChunkInfo>, lengths: map<int, int>,
    start: int, k: nat, end: int, entries: seq<MapEntry>)
    requires PlacementInputs(|entries0|, ids, info, lengths) && k < |ids| && |before| == |entries0| && ids[k] > 2
    requires PlacedUpTo(entries0, before, ids, info, lengths, start, k, end)
    requires entries == before[ids[k] := MapEntry(info[ids[k]].fourCC, lengths[ids[k]], end, 0, 0, 0)]
    ensures forall i :: 0 <= i < k + 1 && ids[i] > 2 ==>
      entries[ids[i]] == MapEntry(info[ids[i]].fourCC, lengths[ids[i]], entries[ids[i]].offset, 0, 0, 0)
  {
    forall i | 0 <= i < k + 1 && ids[i] > 2
      ensures entries[ids[i]] == MapEntry(info[ids[i]].fourCC, lengths[ids[i]], entries[ids[i]].offset, 0, 0, 0)
    {
      if i < k {
        assert ids[i] < ids[k];
        assert entries[ids[i]] == before[ids[i]];
      }
    }
  }

  /** Placing id k at `end` keeps every placed id starting where the one before it ends. */
  lemma PlaceKeepsStarts(entries0: seq<MapEntry>, before: seq<MapEntry>, ids: seq<int>, info: map<int, ChunkInfo>, lengths: map<int, int>,
    start: int, k: nat, end: int, entries: seq<MapEntry>)
    requires PlacementInputs(|entries0|, ids, info, lengths) && k < |ids| && |before| == |entries0| && ids[k] > 2
    requires PlacedUpTo(entries0, before, ids, info, lengths, start, k, end)
    requires entries == before[ids[k] := MapEntry(info[ids[k]].fourCC, lengths[ids[k]], end, 0, 0, 0)]
    ensures forall i {:trigger StartsAfter(entries, ids, i, start)} :: 0 <= i < k + 1 && ids[i] > 2 ==> StartsAfter(entries, ids, i, start)
  {
    assert forall i :: 0 <= i < k ==> ids[i] < ids[k] && entries[ids[i]] == before[ids[i]];
    forall i | 0 <= i <= k && ids[i] > 2
      ensures StartsAfter(entries, ids, i, start)
    {
      if i < k {
        assert StartsAfter(before, ids, i, start);
      }
    }
  }

  /**
   * The second walk over the table in `generateMemoryMap`: each id above 2
   * gets its tag and length and starts where the one placed before it ends.
   */
  method PlaceEntries(entries0: seq<MapEntry>, ids: seq<int>, info: map<int, ChunkInfo>, lengths: map<int, int>, start: int)
    returns (entries: seq<MapEntry>, end: int)
    requires PlacementInputs(|entries0|, ids, info, lengths)
    ensures |entries| == |entries0|
    ensures forall j :: 0 <= j < |entries| && entries[j] != entries0[j] ==> j > 2 && j in ids
    ensures forall i :: 0 <= i < |ids| && ids[i] > 2 ==> entries[ids[i]] == MapEntry(info[ids[i]].fourCC, lengths[ids[i]], entries[ids[i]].offset, 0, 0, 0)
    ensures Contiguous(entries, ids, start) && end == EndOf(entries, ids, start)
  {
    entries := entries0;
    end := start;
    var k := 0;
    while k < |ids|
      invariant 0 <= k <= |ids| && |entries| == |entries0|
      invariant PlacedUpTo(entries0, entries, ids, info, lengths, start, k, end)
    {
      if ids[k] > 2 {
        PlaceStep(entries0, entries, ids, info, lengths, start, k, end);
        entries := entries[ids[k] := MapEntry(info[ids[k]].fourCC, lengths[ids[k]], end, 0, 0, 0)];
        end := I32(end + lengths[ids[k]] + ChunkHeaderSize);
      } else if k > 0 {
        assert ids[k - 1] < ids[k];
      }
      k := k + 1;
    }
    PlacedAll(entries0, entries, ids, info, lengths, start, end);
  }

  /** Once every id is placed, the placement is contiguous and ends where the last placed chunk ends. */
  lemma PlacedAll(entries0: seq<MapEntry>, entries: seq<MapEntry>, ids: seq<int>, info: map<int, ChunkInfo>, lengths: map<int, int>, start: int, end: int)
    requires PlacementInputs(|entries0|, ids, info, lengths) && |entries| == |entries0|
    requires PlacedUpTo(entries0, entries, ids, info, lengths, start, |ids|, end)
    ensures forall j :: 0 <= j < |entries| && entries[j] != entries0[j] ==> j > 2 && j in ids
    ensures forall i :: 0 <= i < |ids| && ids[i] > 2 ==> entries[ids[i]] == MapEntry(info[ids[i]].fourCC, lengths[ids[i]], entries[ids[i]].offset, 0, 0, 0)
    ensures Contiguous(entries, ids, start) && end == EndOf(entries, ids, start)
  {
  }

  /**
   * Linking the free slots of a map laid out for a table keeps every used
   * slot and gives each free slot the link to the next free slot after it.
   */
  lemma LinkedSlots(ids: seq<int>, placed: seq<MapEntry>, linked: seq<MapEntry>)
    requires |placed| >= 3 && |linked| == |placed|
    requires placed[0].fourCC == RIFX && placed[1].fourCC == IMAP && placed[2].fourCC == MMAP
    requires forall j :: 2 < j < |placed| && j !in ids ==> placed[j] == FreeEntry
    requires forall j :: 0 <= j < |linked| ==>
      linked[j] == if placed[j].fourCC == FREE then placed[j].(next := NextFree(linked, j + 1)) else placed[j]
    ensures forall j :: 0 <= j < |linked| && placed[j].fourCC != FREE ==> linked[j] == placed[j]
    ensures forall j :: 2 < j < |linked| && j !in ids ==> linked[j] == FreeEntry.(next := NextFree(linked, j + 1))
  {
  }

  /**
   * The entries `generateMemoryMap` lays out for a table with ids `ids` in
   * increasing order, rows `info` and rewritten lengths `lengths`: the RIFX chunk at 0 spanning
   * the file, the initial map at 12, the memory map at 44, every id above 2
   * with its tag and length, placed one after another, and every other slot
   * free and linked to the next free slot.
   */
  ghost predicate LaidOut(e: seq<MapEntry>, ids: seq<int>, info: map<int, ChunkInfo>, lengths: map<int, int>)
    requires PlacementInputs(|e|, ids, info, lengths) && |e| >= 3
  {
    var start := I32(44 + e[2].len + ChunkHeaderSize);
    && e[0] == MapEntry(RIFX, I32(EndOf(e, ids, start) - ChunkHeaderSize), 0, 1, 0, 0)
    && e[1] == MapEntry(IMAP, InitialMapSize, RIFXHeaderSize, 1, 0, 0)
    && e[2] == MapEntry(MMAP, e[2].len, 44, 0, 0, 0)
    && (forall i :: 0 <= i < |ids| && ids[i] > 2 ==> e[ids[i]] == MapEntry(info[ids[i]].fourCC, lengths[ids[i]], e[ids[i]].offset, 0, 0, 0))
    && (forall j :: 2 < j < |e| && j !in ids ==> e[j] == FreeEntry.(next := NextFree(e, j + 1)))
    && Contiguous(e, ids, start)
  }

  /** The first three steps of `generateMemoryMap`'s layout: fill with free slots, lay out the three maps, place the chunks. */
  method PlaceTable(count: nat, ids: seq<int>, info: map<int, ChunkInfo>, lengths: map<int, int>, mmapLen: int)
    returns (placed: seq<MapEntry>, start: int)
    requires count >= 3 && PlacementInputs(count, ids, info, lengths)
    ensures |placed| == count && start == I32(44 + mmapLen + ChunkHeaderSize)
    ensures placed[0] == MapEntry(RIFX, I32(EndOf(placed, ids, start) - ChunkHeaderSize), 0, 1, 0, 0)
    ensures placed[1] == MapEntry(IMAP, InitialMapSize, RIFXHeaderSize, 1, 0, 0)
    ensures placed[2] == MapEntry(MMAP, mmapLen, 44, 0, 0, 0)
    ensures forall j :: 2 < j < count && j !in ids ==> placed[j] == FreeEntry
    ensures forall i :: 0 <= i < |ids| && ids[i] > 2 ==> placed[ids[i]] == MapEntry(info[ids[i]].fourCC, lengths[ids[i]], placed[ids[i]].offset, 0, 0, 0)
    ensures Contiguous(placed, ids, start)
  {
    var free := FreeEntries(count);
    var headed;
    headed, start := HeaderEntries(free, mmapLen);
    var end;
    placed, end := PlaceEntries(headed, ids, info, lengths, start);
    ghost var unpatched := placed;
    placed := placed[0 := placed[0].(len := I32(end - ChunkHeaderSize))];
    ContiguousFrame(unpatched, placed, ids, start);
  }

  /** The body of `generateMemoryMap` once the table is known: lay out the table, then link the free slots. */
  method LayOutEntries(count: nat, ids: seq<int>, info: map<int, ChunkInfo>, lengths: map<int, int>, mmapLen: int)
    returns (entries: seq<MapEntry>, freeHead: int)
    requires count >= 3 && PlacementInputs(count, ids, info, lengths)
    ensures |entries| == count && entries[2].len == mmapLen
    ensures LaidOut(entries, ids, info, lengths)
    ensures freeHead == NextFree(entries, 0)
  {
    var placed, start := PlaceTable(count, ids, info, lengths, mmapLen);
    entries, freeHead := LinkFreeEntries(placed);
    LinkedSlots(ids, placed, entries);
    ContiguousFrame(placed, entries, ids, start);
  }

  /** Placement reads only the entries of the placed ids, so changing any other entry keeps it. */
  lemma ContiguousFrame(e: seq<MapEntry>, f: seq<MapEntry>, ids: seq<int>, start: int)
    requires |e| == |f| && forall i :: 0 <= i < |ids| ==> 0 <= ids[i] < |e|
    requires forall i :: 0 <= i < |ids| && ids[i] > 2 ==> f[ids[i]] == e[ids[i]]
    ensures Contiguous(e, ids, start) ==> Contiguous(f, ids, start)
    ensures EndOf(f, ids, start) == EndOf(e, ids, start)
  {
    if Contiguous(e, ids, start) {
      forall k | 0 <= k < |ids| && ids[k] > 2
        ensures StartsAfter(f, ids, k, start)
      {
        assert StartsAfter(e, ids, k, start);
      }
    }
  }

  /**
   * The slots of a map generated for a chunk table whose ids above 2 get the
   * lengths `lengths`: the RIFX chunk at 0 spanning everything after its
   * header, the initial map at 12, each table id above 2 in its slot with its
   * tag and length, the table's chunks placed one after another in id order
   * after the memory map, and every other slot free and linked, in
   * increasing order.
   */
  ghost predicate SlotsFor(e: seq<MapEntry>, info: map<int, ChunkInfo>, ids: seq<int>, lengths: map<int, int>)
    requires |e| >= 3
  {
    && (forall i :: 0 <= i < |ids| ==> 0 <= ids[i] < |e|)
    && e[0] == MapEntry(RIFX, I32(EndOf(e, ids, I32(44 + e[2].len + ChunkHeaderSize)) - ChunkHeaderSize), 0, 1, 0, 0)
    && e[1] == MapEntry(IMAP, InitialMapSize, RIFXHeaderSize, 1, 0, 0)
    && (forall id :: id in info && id > 2 ==> id < |e| && id in lengths && e[id] == MapEntry(info[id].fourCC, lengths[id], e[id].offset, 0, 0, 0))
    && (forall j :: 2 < j < |e| && j !in info ==> e[j] == FreeEntry.(next := NextFree(e, j + 1)))
    && Contiguous(e, ids, I32(44 + e[2].len + ChunkHeaderSize))
  }

  /**
   * The memory map `generateMemoryMap` builds for a chunk table: standard
   * 24/20-byte headers, one slot per id up to the highest (at least 2), no
   * junk list, the free list starting at the first free slot, the memory map
   * itself at 44 with its own size, a slot for every row of the table, and
   * the slots of `SlotsFor`.
   */
  ghost predicate GeneratedFor(m: MemoryMap, info: map<int, ChunkInfo>, ids: seq<int>, lengths: map<int, int>)
  {
    var e := m.mapArray;
    && m.headerLength == 24 && m.entryLength == 20 && m.chunkCountMax == |e| && m.chunkCountUsed == |e|
    && m.junkHead == -1 && m.junkHead2 == -1 && m.freeHead == NextFree(e, 0)
    && Regenerated(info, e)
    && (|e| == 3 || |e| - 1 in info)
    && e[2] == MapEntry(MMAP, I32(MemoryMapSize(m)), 44, 0, 0, 0)
    && SlotsFor(e, info, ids, lengths)
  }

  /** The entries laid out for a consistent table, stored with the standard headers, form the map generated for that table. */
  lemma LaidOutIsGenerated(info: map<int, ChunkInfo>, ids: seq<int>, byTag: map<nat, seq<int>>, lengths: map<int, int>, m: MemoryMap)
    requires Consistent(info, ids, byTag)
    requires |m.mapArray| >= 3 && PlacementInputs(|m.mapArray|, ids, info, lengths)
    requires |m.mapArray| == 3 || |m.mapArray| - 1 in info
    requires m.headerLength == 24 && m.entryLength == 20 && m.chunkCountMax == |m.mapArray| && m.chunkCountUsed == |m.mapArray|
    requires m.junkHead == -1 && m.junkHead2 == -1 && m.freeHead == NextFree(m.mapArray, 0)
    requires LaidOut(m.mapArray, ids, info, lengths) && m.mapArray[2].len == I32(MemoryMapSize(m))
    ensures GeneratedFor(m, info, ids, lengths)
  {
    var e := m.mapArray;
    forall id | id in info
      ensures 0 <= id < |e| && (id > 2 ==> id in lengths && e[id] == MapEntry(info[id].fourCC, lengths[id], e[id].offset, 0, 0, 0))
    {
      assert id in ids;
    }
    forall j | 2 < j < |e| && j !in info
      ensures e[j] == FreeEntry.(next := NextFree(e, j + 1))
    {
      assert j !in ids;
    }
  }

  /** `generateMemoryMap` for a consistent table whose highest id, or 2, is `maxID`. */
  method GenerateFor(info: map<int, ChunkInfo>, ids: seq<int>, byTag: map<nat, seq<int>>, lengths: map<int, int>, maxID: int)
    returns (m: MemoryMap)
    requires Consistent(info, ids, byTag) && forall id :: id in info ==> id in lengths
    requires maxID >= 2 && (forall id :: id in info ==> id <= maxID) && (maxID == 2 || maxID in info)
    ensures GeneratedFor(m, info, ids, lengths)
  {
    var count := maxID + 1;
    forall k | 0 <= k < |ids|
      ensures ids[k] in info && ids[k] in lengths && ids[k] < count
    {
      assert ids[k] in ids;
    }
    var mmapLen := I32(MemoryMapSize(MemoryMap(24, 20, count, count, -1, -1, -1, [])));
    var entries, freeHead := LayOutEntries(count, ids, info, lengths, mmapLen);
    m := MemoryMap(24, 20, count, count, -1, -1, freeHead, entries);
    LaidOutIsGenerated(info, ids, byTag, lengths, m);
  }

  // ------------------------------------------------------------- the file

  class DirectorFile {
    var stream: ReadStream?
    var endianness: bool
    var codec: nat
    var afterburned: bool
    var chunkInfo: map<int, ChunkInfo>
    /** The ids of `chunkInfo` in increasing order, the order in which the source iterates its `std::map`. */
    var chunkIds: seq<int>
    var chunkIDsByFourCC: map<nat, seq<int>>
    var deserializedChunks: map<int, Chunk>
    var cachedChunkViews: map<int, ByteView>
    var initialMap: Option<InitialMap>
    var memoryMap: Option<MemoryMap>

    constructor ()
      ensures Fresh()
    {
      stream := null;
      endianness := BigEndian;
      codec := 0;
      afterburned := false;
      chunkInfo := map[];
      chunkIds := [];
      chunkIDsByFourCC := map[];
      deserializedChunks := map[];
      cachedChunkViews := map[];
      initialMap := None;
      memoryMap := None;
    }

    /** A file that nothing has been read into. */
    predicate Fresh()
      reads this
    {
      && stream == null && !afterburned && chunkInfo == map[] && chunkIds == [] && chunkIDsByFourCC == map[]
      && deserializedChunks == map[] && cachedChunkViews == map[] && initialMap.None? && memoryMap.None?
    }

    /** The file reads from its stream, in the byte order it found. */
    predicate Open()
      reads this, stream
    {
      stream != null && stream.endianness == endianness
    }

    ghost predicate TableConsistent()
      reads this`chunkInfo, this`chunkIds, this`chunkIDsByFourCC
    {
      Consistent(chunkInfo, chunkIds, chunkIDsByFourCC)
    }

    /** The state `readMemoryMap` leaves: both maps cached under ids 1 and 2 and the chunk table built from the entries. */
    predicate Loaded(maps: (Chunk, Chunk))
      requires maps.1.body.MemoryMapBody?
      reads this`deserializedChunks, this`chunkInfo, this`chunkIds, this`chunkIDsByFourCC
    {
      var e := maps.1.body.memory.mapArray;
      && deserializedChunks == map[1 := maps.0, 2 := maps.1]
      && chunkInfo == InfoTable(e, |e|) && chunkIds == KeptIds(e, |e|) && chunkIDsByFourCC == IdsByTag(e, |e|)
    }

    /** A chunk with this id and tag is in the table. */
    predicate ChunkExists(fourCC: nat, id: int)
      reads this`chunkInfo
    {
      id in chunkInfo && chunkInfo[id].fourCC == fourCC
    }

    /**
     * `isCast`: the file is a cast (MC95 or FGDC), never a movie (MV93).
     * It decides the codec `writeChunk` writes, a cast's MC95 or a movie's
     * MV93, and the written file is a cast again exactly when this one is.
     */
    predicate IsCast(): (r: bool)
      reads this`codec
      ensures r <==> codec == MC95 || codec == FGDC
      ensures codec == MV93 ==> !r
      ensures r <==> WrittenCodec(codec) == MC95
      ensures !r <==> WrittenCodec(codec) == MV93
      ensures CastCodec(WrittenCodec(codec)) == r
    {
      CastCodec(codec)
    }

    /**
     * Opens the file at the stream's cursor: XFIR selects little-endian, a
     * memory-mapped codec reads the memory map, and any other codec but the
     * afterburner ones is unsupported. Ok(true) is where the key table would
     * be read next.
     */
    method Read(s: ReadStream) returns (r: Result<bool>)
      requires Fresh()
      modifies this`stream, this`endianness, this`codec, this`afterburned, this`deserializedChunks,
        this`chunkInfo, this`chunkIds, this`chunkIDsByFourCC, s`pos, s`endianness
      ensures stream == s && Open()
      ensures endianness == (UintOrZero(s.data, old(s.pos), 4, BigEndian) == XFIR)
      ensures codec == UintOrZero(s.data, old(s.pos) + 8, 4, endianness)
      ensures afterburned <==> codec == FGDM || codec == FGDC
      ensures afterburned ==> r.Err?
      ensures codec != MV93 && codec != MC95 && !afterburned ==> r == Ok(false)
      ensures codec == MV93 || codec == MC95 ==> (r.Ok? <==> MapsAt(s.data, old(s.pos) + RIFXHeaderSize, endianness).Ok?)
      ensures (codec == MV93 || codec == MC95) && r.Ok? ==>
        r.value && Loaded(MapsAt(s.data, old(s.pos) + RIFXHeaderSize, endianness).value) && TableConsistent()
    {
      stream := s;
      codec := ReadRifxHeader(s);
      endianness := s.endianness;
      if codec == MV93 || codec == MC95 {
        var loaded := ReadMemoryMap();
        if loaded.Err? {
          return Err(loaded.error);
        }
        r := Ok(true);
      } else if codec == FGDM || codec == FGDC {
        afterburned := true;
        r := Err("afterburner maps are not modelled");
      } else {
        r := Ok(false);
      }
    }

    /** Reads the initial map, follows it to the memory map, and builds the chunk table from the memory map's entries. */
    method ReadMemoryMap() returns (r: Result<()>)
      requires Open() && chunkInfo == map[] && chunkIds == [] && chunkIDsByFourCC == map[] && deserializedChunks == map[]
      modifies stream`pos, this`deserializedChunks, this`chunkInfo, this`chunkIds, this`chunkIDsByFourCC
      ensures r.Ok? <==> MapsAt(stream.data, old(stream.pos), endianness).Ok?
      ensures r.Ok? ==> Loaded(MapsAt(stream.data, old(stream.pos), endianness).value) && TableConsistent()
    {
      var imapResult := ReadChunk(IMAP, UINT32_MAX);
      if imapResult.Err? {
        return Err(imapResult.error);
      }
      var initial := imapResult.value;
      deserializedChunks := deserializedChunks[1 := initial];
      stream.Seek(initial.body.initial.mmapOffset);
      var mmapResult := ReadChunk(MMAP, UINT32_MAX);
      if mmapResult.Err? {
        return Err(mmapResult.error);
      }
      var mmap := mmapResult.value;
      deserializedChunks := deserializedChunks[2 := mmap];
      var entries := mmap.body.memory.mapArray;
      chunkInfo, chunkIds, chunkIDsByFourCC := BuildTable(entries);
      ReadTableConsistent(entries);
      r := Ok(());
    }

    /** `readChunkData`: checks the header at the cursor and returns a view of the body after it. */
    method ReadChunkData(fourCC: nat, len: nat) returns (r: Result<ByteView>)
      requires Open()
      modifies stream`pos
      ensures r == ChunkDataAt(stream.data, old(stream.pos), endianness, fourCC, len)
      ensures stream.pos == old(stream.pos) + ChunkHeaderSize + (if r.Ok? then r.value.size else 0)
    {
      var validFourCC := stream.ReadUint32();
      var validLen := stream.ReadUint32();
      var n := len;
      if n == UINT32_MAX {
        n := validLen;
      }
      if fourCC != validFourCC || n != validLen {
        return Err("chunk header does not match");
      }
      var view := stream.ReadByteView(n);
      r := Ok(view);
    }

    /** `readChunk`: the data at the cursor, deserialised. */
    method ReadChunk(fourCC: nat, len: nat) returns (r: Result<Chunk>)
      requires Open()
      modifies stream`pos
      ensures r == ChunkAt(stream.data, old(stream.pos), endianness, fourCC, len)
    {
      var view := ReadChunkData(fourCC, len);
      if view.Err? {
        return Err(view.error);
      }
      r := MakeChunk(fourCC, view.value);
    }

    /** `makeChunk`: reads the chunk's bytes with the reader its tag selects. */
    method MakeChunk(fourCC: nat, view: ByteView) returns (r: Result<Chunk>)
      ensures r == ChunkOfView(fourCC, view, endianness)
    {
      if !view.Inside() {
        return Err("chunk runs past the end of the file");
      }
      var bytes := view.buffer[view.start..view.start + view.size];
      assert view.Contents() == Some(bytes);
      if fourCC == IMAP {
        var s := new ReadStream(bytes, endianness);
        var initial := ReadInitialMap(s);
        r := Ok(Chunk(fourCC, InitialMapBody(initial)));
      } else if fourCC == MMAP {
        var s := new ReadStream(bytes, endianness);
        var mmap := DirectorChunk.ReadMemoryMap(s);
        if mmap.Err? {
          return Err(mmap.error);
        }
        r := Ok(Chunk(fourCC, MemoryMapBody(mmap.value)));
      } else if fourCC == VWCF || fourCC == DRCF {
        var s := new ReadStream(bytes, BigEndian);
        var len := s.ReadInt16();
        r := Ok(Chunk(fourCC, ConfigBody(len)));
      } else if fourCC == CASt {
        r := Ok(Chunk(fourCC, CastMemberBody));
      } else if KnownTag(fourCC) {
        r := Ok(Chunk(fourCC, UnparsedBody));
      } else {
        r := Err("could not deserialize chunk");
      }
    }

    /** `getChunkData`: the body of a table chunk, checked against its row and remembered. */
    method GetChunkData(fourCC: nat, id: int) returns (r: Result<ByteView>)
      requires Open()
      modifies stream`pos, this`cachedChunkViews
      ensures !ChunkExists(fourCC, id) ==> r.Err? && stream.pos == old(stream.pos) && cachedChunkViews == old(cachedChunkViews)
      ensures ChunkExists(fourCC, id) && id in old(cachedChunkViews) ==>
        r == Ok(old(cachedChunkViews)[id]) && stream.pos == old(stream.pos) && cachedChunkViews == old(cachedChunkViews)
      ensures ChunkExists(fourCC, id) && id !in old(cachedChunkViews) && afterburned ==>
        r.Err? && stream.pos == old(stream.pos) && cachedChunkViews == old(cachedChunkViews)
      ensures ChunkExists(fourCC, id) && id !in old(cachedChunkViews) && !afterburned ==>
        && r == ChunkDataAt(stream.data, U64(chunkInfo[id].offset), endianness, fourCC, chunkInfo[id].len)
        && stream.pos == U64(chunkInfo[id].offset) + ChunkHeaderSize + (if r.Ok? then r.value.size else 0)
        && cachedChunkViews == if r.Ok? then old(cachedChunkViews)[id := r.value] else old(cachedChunkViews)
    {
      if id !in chunkInfo {
        return Err("could not find chunk");
      }
      var info := chunkInfo[id];
      if fourCC != info.fourCC {
        return Err("chunk has another tag");
      }
      if id in cachedChunkViews {
        return Ok(cachedChunkViews[id]);
      }
      if afterburned {
        return Err("afterburner chunk data is not modelled");
      }
      stream.Seek(U64(info.offset));
      r := ReadChunkData(fourCC, info.len);
      if r.Ok? {
        cachedChunkViews := cachedChunkViews[id := r.value];
      }
    }

    /** `getChunk` as written: a cached chunk is returned without looking at the tag asked for. */
    method GetChunk(fourCC: nat, id: int) returns (r: Result<Chunk>)
      requires Open()
      modifies stream`pos, this`cachedChunkViews, this`deserializedChunks
      ensures CachedAsWritten(old(deserializedChunks), fourCC, id).Some? ==>
        r == Ok(old(deserializedChunks)[id]) && deserializedChunks == old(deserializedChunks)
      ensures id !in old(deserializedChunks) && !ChunkExists(fourCC, id) ==> r.Err?
      ensures id !in old(deserializedChunks) ==>
        && (r.Ok? ==> r.value.fourCC == fourCC && deserializedChunks == old(deserializedChunks)[id := r.value])
        && (r.Err? ==> deserializedChunks == old(deserializedChunks))
    {
      if id in deserializedChunks {
        return Ok(deserializedChunks[id]);
      }
      var view := GetChunkData(fourCC, id);
      if view.Err? {
        return Err(view.error);
      }
      r := MakeChunk(fourCC, view.value);
      if r.Ok? {
        deserializedChunks := deserializedChunks[id := r.value];
      }
    }

    /** `getChunk` with the tag check on the cached path too: whatever it returns has the tag asked for. */
    method GetChunkChecked(fourCC: nat, id: int) returns (r: Result<Chunk>)
      requires Open()
      modifies stream`pos, this`cachedChunkViews, this`deserializedChunks
      ensures r.Ok? ==> r.value.fourCC == fourCC
      ensures Cached(old(deserializedChunks), fourCC, id).Some? ==>
        r == Cached(old(deserializedChunks), fourCC, id).value && deserializedChunks == old(deserializedChunks)
      ensures id !in old(deserializedChunks) && !ChunkExists(fourCC, id) ==> r.Err?
      ensures id !in old(deserializedChunks) ==>
        deserializedChunks == if r.Ok? then old(deserializedChunks)[id := r.value] else old(deserializedChunks)
    {
      var hit := Cached(deserializedChunks, fourCC, id);
      if hit.Some? {
        return hit.value;
      }
      var view := GetChunkData(fourCC, id);
      if view.Err? {
        return Err(view.error);
      }
      r := MakeChunk(fourCC, view.value);
      if r.Ok? {
        deserializedChunks := deserializedChunks[id := r.value];
      }
    }

    /** `getFirstChunkInfo`: the row of the lowest id with the tag, if any. */
    function FirstChunkInfo(fourCC: nat): (r: Option<ChunkInfo>)
      requires TableConsistent()
      reads this`chunkInfo, this`chunkIds, this`chunkIDsByFourCC
      ensures r.Some? <==> exists id :: id in chunkInfo && chunkInfo[id].fourCC == fourCC
      ensures r.Some? ==> r.value.fourCC == fourCC && r.value.id in chunkInfo && r.value == chunkInfo[r.value.id]
      ensures r.Some? ==> forall id :: id in chunkInfo && chunkInfo[id].fourCC == fourCC ==> r.value.id <= id
    {
      var ids := Bucket(chunkIDsByFourCC, fourCC);
      if |ids| > 0 then
        assert ids[0] in ids;
        Some(chunkInfo[ids[0]])
      else
        assert forall id :: id in chunkInfo && chunkInfo[id].fourCC == fourCC ==> id in ids;
        None
    }

    /**
     * `chunkSize`: a chunk that implements `write` and has been read is
     * measured by its `size()`; any other by its row: the font map's size for
     * a font map, the uncompressed length when its compression is
     * implemented, else the stored length. A cast member's size and the font
     * map's size are given.
     */
    function ChunkSize(id: int, memberSize: int -> nat, fontMapSize: nat): (r: nat)
      reads this`deserializedChunks, this`chunkInfo
      ensures id in deserializedChunks && Writable(deserializedChunks[id]) ==>
        r == WrittenSize(deserializedChunks[id], memberSize(id))
      ensures !(id in deserializedChunks && Writable(deserializedChunks[id])) && id in chunkInfo && chunkInfo[id].compression == NullCompression ==>
        r == chunkInfo[id].len
      ensures !(id in deserializedChunks && Writable(deserializedChunks[id])) && id !in chunkInfo ==> r == 0
    {
      if id in deserializedChunks && Writable(deserializedChunks[id]) then
        WrittenSize(deserializedChunks[id], memberSize(id))
      else if id !in chunkInfo then 0
      else
        var info := chunkInfo[id];
        if info.compression == FontMapCompression then fontMapSize
        else if CompressionImplemented(info.compression) then info.uncompressedLen
        else info.len
    }

    /** `generateInitialMap`: version 1, pointing just past itself, where the memory map will be placed. */
    method GenerateInitialMap(version: nat, configDirectorVersion: int)
      modifies this`initialMap
      ensures initialMap == Some(InitialMap(1, 44, if version < 500 then 0 else U32(configDirectorVersion), 0, 0, 0))
      ensures initialMap.value.mmapOffset == RIFXHeaderSize + ChunkHeaderSize + InitialMapSize
    {
      var directorVersion := if version < 500 then 0 else U32(configDirectorVersion);
      initialMap := Some(InitialMap(1, RIFXHeaderSize + ChunkHeaderSize + InitialMapSize, directorVersion, 0, 0, 0));
    }

    /** The highest table id, and at least 2, the memory map's own id. */
    method MaxChunkId() returns (maxID: int)
      requires TableConsistent()
      ensures maxID >= 2 && (forall id :: id in chunkInfo ==> id <= maxID) && (maxID == 2 || maxID in chunkInfo)
      ensures maxID < 0x7FFF_FFFF
    {
      maxID := 2;
      var k := 0;
      while k < |chunkIds|
        invariant 0 <= k <= |chunkIds| && 2 <= maxID < 0x7FFF_FFFF
        invariant forall i :: 0 <= i < k ==> chunkIds[i] <= maxID
        invariant maxID == 2 || maxID in chunkIds
      {
        assert chunkIds[k] in chunkIds;
        if chunkIds[k] > maxID {
          maxID := chunkIds[k];
        }
        k := k + 1;
      }
      assert forall id :: id in chunkInfo ==> id in chunkIds;
    }

    /** The length `generateMemoryMap` gives each table chunk: its `chunkSize`, stored in the entry's int32. */
    function Lengths(memberSize: int -> nat, fontMapSize: nat): (r: map<int, int>)
      reads this`deserializedChunks, this`chunkInfo
      ensures forall id :: id in r <==> id in chunkInfo
      ensures forall id :: id in r ==> r[id] == I32(ChunkSize(id, memberSize, fontMapSize))
    {
      map id | id in chunkInfo :: I32(ChunkSize(id, memberSize, fontMapSize))
    }

    /**
     * `generateMemoryMap`: stores the memory map generated for the chunk
     * table, each chunk above id 2 getting the length `chunkSize` gives it.
     */
    method GenerateMemoryMap(memberSize: int -> nat, fontMapSize: nat)
      requires TableConsistent()
      modifies this`memoryMap
      ensures memoryMap.Some? && GeneratedFor(memoryMap.value, old(chunkInfo), old(chunkIds), old(Lengths(memberSize, fontMapSize)))
    {
      var maxID := MaxChunkId();
      var info, ids, lengths := chunkInfo, chunkIds, Lengths(memberSize, fontMapSize);
      var m := GenerateFor(info, ids, chunkIDsByFourCC, lengths, maxID);
      memoryMap := Some(m);
    }
  }
}
