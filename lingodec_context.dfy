/**
 * The script context chunk (`Lctx`) of the C++ decompiler: its header, the
 * section map that says which section holds the script of each slot, and
 * the linking of those scripts to the context: each one receives the
 * context's names, and each factory is filed under its parent script.
 * The resolver that turns section ids into chunks is a pair of caller-given
 * functions.
 */
module LingoDecContext {
  import opened Bytes
  import opened Stream
  import LingoDecNames
  import opened LingoDecScript
  import opened Wrappers

  // ---------------------------------------------------------------------
  // The header and the section map.

  function Int32At(data: seq<byte>, p: nat): int
  {
    Signed(UintOrZero(data, p, 4, BigEndian), 0x1_0000_0000)
  }

  /** The first 20 header bytes from p: two unknowns, the two entry counts, the entries' offset and a third unknown. */
  function CountsAt(data: seq<byte>, p: nat): (int, int, nat, nat, nat, int)
  {
    (Int32At(data, p), Int32At(data, p + 4), UintOrZero(data, p + 8, 4, BigEndian),
     UintOrZero(data, p + 12, 4, BigEndian), UintOrZero(data, p + 16, 2, BigEndian), Int16At(data, p + 18))
  }

  /** The next 22 header bytes: three unknowns, the names section id, the valid count, the flags and the free pointer. */
  function IdsAt(data: seq<byte>, p: nat): (int, int, int, int, nat, nat, int)
  {
    (Int32At(data, p + 20), Int32At(data, p + 24), Int32At(data, p + 28), Int32At(data, p + 32),
     UintOrZero(data, p + 36, 2, BigEndian), UintOrZero(data, p + 38, 2, BigEndian), Int16At(data, p + 40))
  }

  /** The context header (`ScriptContext`'s fields before the section map). */
  datatype ContextHeader = ContextHeader(
    unknown0: int, unknown1: int, entryCount: nat, entryCount2: nat, entriesOffset: nat, unknown2: int,
    unknown3: int, unknown4: int, unknown5: int, lnamSectionID: int, validCount: nat, flags: nat, freePointer: int)

  /** The header the 42 big-endian bytes at p hold. */
  function ContextHeaderAt(data: seq<byte>, p: nat): ContextHeader
  {
    var c := CountsAt(data, p);
    var d := IdsAt(data, p);
    ContextHeader(c.0, c.1, c.2, c.3, c.4, c.5, d.0, d.1, d.2, d.3, d.4, d.5, d.6)
  }

  /** The first 20 header bytes, from the cursor. */
  method ReadCounts(stream: ReadStream) returns (h: (int, int, nat, nat, nat, int))
    requires stream.endianness == BigEndian
    modifies stream`pos
    ensures h == CountsAt(stream.data, old(stream.pos))
    ensures stream.pos == old(stream.pos) + 20
  {
    var a := stream.ReadInt32();
    var b := stream.ReadInt32();
    var c := stream.ReadUint32();
    var d := stream.ReadUint32();
    var e := stream.ReadUint16();
    var f := stream.ReadInt16();
    h := (a, b, c, d, e, f);
  }

  /** The next 22 header bytes, where the counts end. */
  method ReadIds(stream: ReadStream) returns (h: (int, int, int, int, nat, nat, int))
    requires stream.endianness == BigEndian && stream.pos >= 20
    modifies stream`pos
    ensures h == IdsAt(stream.data, old(stream.pos) - 20)
  {
    var a := stream.ReadInt32();
    var b := stream.ReadInt32();
    var c := stream.ReadInt32();
    var d := stream.ReadInt32();
    var e := stream.ReadUint16();
    var f := stream.ReadUint16();
    var g := stream.ReadInt16();
    h := (a, b, c, d, e, f, g);
  }

  /** The 42-byte header from the cursor. */
  method ReadContextHeader(stream: ReadStream) returns (h: ContextHeader)
    requires stream.endianness == BigEndian
    modifies stream`pos
    ensures h == ContextHeaderAt(stream.data, old(stream.pos))
  {
    var c := ReadCounts(stream);
    var d := ReadIds(stream);
    h := ContextHeader(c.0, c.1, c.2, c.3, c.4, c.5, d.0, d.1, d.2, d.3, d.4, d.5, d.6);
  }

  /** An entry of the section map (`ScriptContextMapEntry`): the section id is -1 for an empty slot. */
  datatype MapEntry = MapEntry(unknown0: int, sectionID: int, unknown1: nat, unknown2: nat)

  /** The 12-byte entry at p. */
  function EntryAt(data: seq<byte>, p: nat): (e: MapEntry)
    ensures -0x8000_0000 <= e.sectionID < 0x8000_0000
  {
    MapEntry(Int32At(data, p), Int32At(data, p + 4), UintOrZero(data, p + 8, 2, BigEndian),
             UintOrZero(data, p + 10, 2, BigEndian))
  }

  /** `ScriptContextMapEntry::read`: two signed 32-bit words and two 16-bit words. */
  method ReadEntry(stream: ReadStream) returns (e: MapEntry)
    requires stream.endianness == BigEndian
    modifies stream`pos
    ensures e == EntryAt(stream.data, old(stream.pos)) && stream.pos == old(stream.pos) + 12
  {
    var a := stream.ReadInt32();
    var b := stream.ReadInt32();
    var c := stream.ReadUint16();
    var d := stream.ReadUint16();
    e := MapEntry(a, b, c, d);
  }

  /** `count` more entries from p appended to `acc`, as the resized section map is filled in order. */
  function EntriesOnto(data: seq<byte>, p: nat, count: nat, acc: seq<MapEntry>): (r: seq<MapEntry>)
    ensures |r| == |acc| + count && r[..|acc|] == acc
    decreases count
  {
    if count == 0 then acc
    else
      var r' := EntriesOnto(data, p + 12, count - 1, acc + [EntryAt(data, p)]);
      assert r'[..|acc|] == (acc + [EntryAt(data, p)])[..|acc|];
      r'
  }

  /** Entry i of the map is the 12 bytes at p + 12 * i. */
  lemma {:induction false} EntriesAt(data: seq<byte>, p: nat, count: nat, acc: seq<MapEntry>, i: nat)
    requires i < count
    ensures EntriesOnto(data, p, count, acc)[|acc| + i] == EntryAt(data, p + 12 * i)
    decreases count
  {
    var more := acc + [EntryAt(data, p)];
    if i == 0 {
      assert EntriesOnto(data, p, count, acc)[..|more|] == more;
    } else {
      EntriesAt(data, p + 12, count - 1, more, i - 1);
      assert p + 12 + 12 * (i - 1) == p + 12 * i;
    }
  }

  /** The loop of `read` over the section map: `count` entries from the cursor, in order. */
  method ReadEntries(stream: ReadStream, count: nat) returns (entries: seq<MapEntry>)
    requires stream.endianness == BigEndian
    modifies stream`pos
    ensures entries == EntriesOnto(stream.data, old(stream.pos), count, [])
  {
    entries := [];
    var i := 0;
    while i < count
      invariant 0 <= i <= count
      invariant EntriesOnto(stream.data, old(stream.pos), count, []) ==
        EntriesOnto(stream.data, stream.pos, count - i, entries)
    {
      var e := ReadEntry(stream);
      entries := entries + [e];
      i := i + 1;
    }
  }

  // ---------------------------------------------------------------------
  // Linking the scripts.

  /**
   * The slots of the context after the first n entries: slot i (counted
   * from 1) holds the script the resolver gives for entry i - 1's section,
   * unless that section id is negative.
   */
  function Linked(entries: seq<MapEntry>, resolve: int -> Script, n: nat): (r: map<nat, Script>)
    requires n <= |entries|
    ensures forall k :: k in r ==> 1 <= k <= n
  {
    if n == 0 then map[]
    else
      var prev := Linked(entries, resolve, n - 1);
      var section := entries[n - 1];
      if section.sectionID > -1 then prev[n := resolve(section.sectionID)] else prev
  }

  /** Slot k is filled exactly when entry k - 1 names a section, and then with that section's script. */
  lemma {:induction false} LinkedSlot(entries: seq<MapEntry>, resolve: int -> Script, n: nat, k: nat)
    requires n <= |entries| && 1 <= k <= n
    ensures k in Linked(entries, resolve, n) <==> entries[k - 1].sectionID > -1
    ensures k in Linked(entries, resolve, n) ==> Linked(entries, resolve, n)[k] == resolve(entries[k - 1].sectionID)
    decreases n
  {
    if k < n {
      LinkedSlot(entries, resolve, n - 1, k);
    }
  }

  /** How many of the first n entries link script s. */
  function LinkCount(entries: seq<MapEntry>, resolve: int -> Script, s: Script, n: nat): (r: nat)
    requires n <= |entries|
    ensures r <= n
  {
    if n == 0 then 0
    else
      var section := entries[n - 1];
      LinkCount(entries, resolve, s, n - 1) + if section.sectionID > -1 && resolve(section.sectionID) == s then 1 else 0
  }

  /** A script that fills a slot is linked at least once, and one that fills none is never linked. */
  lemma {:induction false} LinkCountPositive(entries: seq<MapEntry>, resolve: int -> Script, s: Script, n: nat)
    requires n <= |entries|
    ensures LinkCount(entries, resolve, s, n) > 0 <==> s in Linked(entries, resolve, n).Values
    decreases n
  {
    if n > 0 {
      LinkCountPositive(entries, resolve, s, n - 1);
      var prev := Linked(entries, resolve, n - 1);
      var cur := Linked(entries, resolve, n);
      var section := entries[n - 1];
      if section.sectionID > -1 && resolve(section.sectionID) == s {
        assert LinkCount(entries, resolve, s, n) == LinkCount(entries, resolve, s, n - 1) + 1;
        assert n in cur && cur[n] == s;
      } else {
        assert LinkCount(entries, resolve, s, n) == LinkCount(entries, resolve, s, n - 1);
        assert cur == if section.sectionID > -1 then prev[n := resolve(section.sectionID)] else prev;
        if s in prev.Values {
          var k :| k in prev && prev[k] == s;
          assert k in cur && cur[k] == s;
        } else {
          forall k | k in cur
            ensures cur[k] != s
          {
            if k != n {
              assert k in prev && cur[k] == prev[k];
            }
          }
        }
      }
    }
  }

  /** The scripts the resolver gives for the sections the entries name: the ones the linking loop touches. */
  ghost function Targets(entries: seq<MapEntry>, resolve: int -> Script): (r: set<Script>)
  {
    set k | 0 <= k < |entries| && entries[k].sectionID > -1 :: resolve(entries[k].sectionID)
  }

  /** The scripts in the slots are exactly the targets. */
  lemma LinkedValues(entries: seq<MapEntry>, resolve: int -> Script)
    ensures Linked(entries, resolve, |entries|).Values == Targets(entries, resolve)
  {
    var m := Linked(entries, resolve, |entries|);
    forall s | s in m.Values
      ensures s in Targets(entries, resolve)
    {
      var k :| k in m && m[k] == s;
      LinkedSlot(entries, resolve, |entries|, k);
    }
    forall s | s in Targets(entries, resolve)
      ensures s in m.Values
    {
      var k :| 0 <= k < |entries| && entries[k].sectionID > -1 && resolve(entries[k].sectionID) == s;
      LinkedSlot(entries, resolve, |entries|, k + 1);
    }
  }

  /** A script outside the targets is never linked. */
  lemma {:induction false} UntargetedNeverLinked(entries: seq<MapEntry>, resolve: int -> Script, s: Script, n: nat)
    requires n <= |entries| && s !in Targets(entries, resolve)
    ensures LinkCount(entries, resolve, s, n) == 0
    decreases n
  {
    if n > 0 {
      UntargetedNeverLinked(entries, resolve, s, n - 1);
      var section := entries[n - 1];
      if section.sectionID > -1 {
        assert resolve(section.sectionID) in Targets(entries, resolve);
      }
    }
  }

  /** k copies of xs, one after the other. */
  function Times<T>(xs: seq<T>, k: nat): (r: seq<T>)
  {
    if k == 0 then [] else Times(xs, k - 1) + xs
  }

  /** The three names a script holds once it is in a context. */
  datatype NameState = NameState(factoryName: string, propertyNames: seq<string>, globalNames: seq<string>)

  /** What one `setContext` gives a script: its factory name, if it has one, and the names to append. */
  datatype ContextNames = ContextNames(factoryName: Option<string>, propertyNames: seq<string>, globalNames: seq<string>)

  /** The state after one more `setContext`: the factory name replaced when there is one, the names appended. */
  function Applied(cur: NameState, once: ContextNames): (r: NameState)
    ensures once.factoryName.None? ==> r.factoryName == cur.factoryName
    ensures once.factoryName.Some? ==> r.factoryName == once.factoryName.value
    ensures |r.propertyNames| >= |cur.propertyNames| && r.propertyNames[..|cur.propertyNames|] == cur.propertyNames
    ensures |r.globalNames| >= |cur.globalNames| && r.globalNames[..|cur.globalNames|] == cur.globalNames
  {
    NameState(if once.factoryName.Some? then once.factoryName.value else cur.factoryName,
              cur.propertyNames + once.propertyNames, cur.globalNames + once.globalNames)
  }

  /**
   * The state `count` applications of `once` leave from `init`: the factory
   * name as soon as there has been one, and `count` copies of the names.
   */
  predicate AppliedTimes(cur: NameState, init: NameState, once: ContextNames, count: nat)
  {
    && cur.factoryName == (if count > 0 && once.factoryName.Some? then once.factoryName.value else init.factoryName)
    && cur.propertyNames == init.propertyNames + Times(once.propertyNames, count)
    && cur.globalNames == init.globalNames + Times(once.globalNames, count)
  }

  /** One more application takes the state from `count` applications to `count + 1`. */
  lemma AppliedStep(cur: NameState, init: NameState, once: ContextNames, count: nat)
    requires AppliedTimes(cur, init, once, count)
    ensures AppliedTimes(Applied(cur, once), init, once, count + 1)
  {
    assert Times(once.propertyNames, count + 1) == Times(once.propertyNames, count) + once.propertyNames;
    assert Times(once.globalNames, count + 1) == Times(once.globalNames, count) + once.globalNames;
  }

  /** Applying twice is applying the doubled names once: the factory name is not repeated. */
  lemma AppliedTwice(init: NameState, once: ContextNames)
    ensures AppliedTimes(Applied(Applied(init, once), once), init, once, 2)
    ensures once.propertyNames != [] ==> Applied(Applied(init, once), once) != Applied(init, once)
  {
    AppliedStep(init, init, once, 0);
    AppliedStep(Applied(init, once), init, once, 1);
    if once.propertyNames != [] {
      assert |Applied(Applied(init, once), once).propertyNames| > |Applied(init, once).propertyNames|;
    }
  }

  /** A script's names. */
  function NamesIn(s: Script): (r: NameState)
    reads s`factoryName, s`propertyNames, s`globalNames
  {
    NameState(s.factoryName, s.propertyNames, s.globalNames)
  }

  /** What `setContext` with the names table gives script s. */
  function ContextNamesFor(s: Script, names: seq<string>): (r: ContextNames)
    reads s`header, s`propertyNameIDs, s`globalNameIDs
  {
    ContextNames(if s.header.factoryNameID != -1 then Some(LingoDecNames.NameIn(names, s.header.factoryNameID)) else None,
                 NamesOf(names, s.propertyNameIDs, s.IsFactory()), NamesOf(names, s.globalNameIDs, false))
  }

  /**
   * What the linking loop leaves in script s, which `setContext` has been
   * given `count` times: the factory name once it has been set at all, and
   * `count` copies of its property and global names.
   */
  ghost predicate ContextApplied(s: Script, names: seq<string>, count: nat, init: NameState)
    reads s`factoryName, s`propertyNames, s`globalNames
    reads s`header, s`propertyNameIDs, s`globalNameIDs
  {
    AppliedTimes(NamesIn(s), init, ContextNamesFor(s, names), count)
  }

  /**
   * The linking loop of `read`: every entry that names a section gets its
   * script from the resolver, that script receives the context's names, and
   * it fills the entry's slot (numbered from 1). Nothing but the names of
   * the scripts changes.
   */
  method LinkScripts(entries: seq<MapEntry>, resolve: int -> Script, lnam: LingoDecNames.ScriptNames,
                     ghost targets: set<Script>)
    returns (scripts: map<nat, Script>)
    requires forall k :: 0 <= k < |entries| && entries[k].sectionID > -1 ==> resolve(entries[k].sectionID) in targets
    modifies targets`factoryName, targets`propertyNames, targets`globalNames
    ensures scripts == Linked(entries, resolve, |entries|)
    ensures forall s :: s in targets ==>
      ContextApplied(s, lnam.names, LinkCount(entries, resolve, s, |entries|), old(NamesIn(s)))
  {
    scripts := map[];
    ghost var names := lnam.names;
    // Entry n fills slot n + 1.
    var n := 0;
    while n < |entries|
      invariant 0 <= n <= |entries|
      invariant scripts == Linked(entries, resolve, n)
      invariant forall s {:trigger LinkCount(entries, resolve, s, n)} :: s in targets ==>
        ContextApplied(s, names, LinkCount(entries, resolve, s, n), old(NamesIn(s)))
      modifies targets`factoryName, targets`propertyNames, targets`globalNames
    {
      var section := entries[n];
      if section.sectionID > -1 {
        var script := resolve(section.sectionID);
        ghost var before := NamesIn(script);
        ghost var once := ContextNamesFor(script, names);
        AppliedStep(before, old(NamesIn(script)), once, LinkCount(entries, resolve, script, n));
        script.SetContext(lnam);
        scripts := scripts[n + 1 := script];
      }
      n := n + 1;
    }
  }

  // ---------------------------------------------------------------------
  // Filing the factories.

  /** The slot of a factory's parent: one past its parent number, converted to the map's uint32_t key. */
  function ParentSlot(parentNumber: int): (r: nat)
    ensures r <= UINT32_MAX
    ensures -1 <= parentNumber < UINT32_MAX ==> r == parentNumber + 1
  {
    if -1 <= parentNumber < UINT32_MAX then parentNumber + 1 else U32(parentNumber + 1)
  }

  /** The slot is C's conversion of the parent number plus one to uint32_t. */
  lemma ParentSlotIsU32(parentNumber: int)
    ensures ParentSlot(parentNumber) == U32(parentNumber + 1)
  {
  }

  /**
   * The factories filed under script t by the first n slots, in slot order:
   * each factory in a slot whose parent slot is filled with t.
   */
  ghost function FactoriesFor(scripts: map<nat, Script>, t: Script, n: nat): (r: seq<Script>)
    reads scripts.Values`header
  {
    if n == 0 then [] else FactoriesFor(scripts, t, n - 1) + FiledAt(scripts, t, n)
  }

  /** The script slot n files under t: itself when it is a factory whose parent slot holds t, else nothing. */
  ghost function FiledAt(scripts: map<nat, Script>, t: Script, n: nat): (r: seq<Script>)
    reads scripts.Values`header
  {
    if n in scripts && scripts[n].IsFactory() && ParentSlot(scripts[n].header.parentNumber) in scripts
       && scripts[ParentSlot(scripts[n].header.parentNumber)] == t
    then [scripts[n]] else []
  }

  /** Every script filed under t is a factory of the context whose parent slot holds t. */
  lemma {:induction false} FactoriesAreChildren(scripts: map<nat, Script>, t: Script, n: nat, j: nat)
    requires j < |FactoriesFor(scripts, t, n)|
    ensures var f := FactoriesFor(scripts, t, n)[j];
      && f in scripts.Values && f.IsFactory()
      && ParentSlot(f.header.parentNumber) in scripts && scripts[ParentSlot(f.header.parentNumber)] == t
    decreases n
  {
    var prev := FactoriesFor(scripts, t, n - 1);
    if j < |prev| {
      FactoriesAreChildren(scripts, t, n - 1, j);
      assert FactoriesFor(scripts, t, n)[j] == prev[j];
    }
  }

  /** A factory in slot k whose parent slot is filled is filed under that parent. */
  lemma {:induction false} FactoryFiled(scripts: map<nat, Script>, n: nat, k: nat)
    requires 1 <= k <= n && k in scripts && scripts[k].IsFactory()
    requires ParentSlot(scripts[k].header.parentNumber) in scripts
    ensures scripts[k] in FactoriesFor(scripts, scripts[ParentSlot(scripts[k].header.parentNumber)], n)
    decreases n
  {
    var t := scripts[ParentSlot(scripts[k].header.parentNumber)];
    if k < n {
      FactoryFiled(scripts, n - 1, k);
    } else {
      assert FactoriesFor(scripts, t, n) == FactoriesFor(scripts, t, n - 1) + [scripts[k]];
    }
  }

  /**
   * The factory loop of `read`, as evidently intended: in slot order, each
   * factory is appended to its parent's factories; a factory whose parent
   * slot is empty is skipped. Nothing else changes.
   */
  method FileFactories(scripts: map<nat, Script>, n: nat)
    modifies scripts.Values`factories
    ensures forall s :: s in scripts.Values ==> s.factories == old(s.factories) + FactoriesFor(scripts, s, n)
  {
    var i := 1;
    while i <= n
      invariant 1 <= i <= n + 1
      invariant forall s :: s in scripts.Values ==> s.factories == old(s.factories) + FactoriesFor(scripts, s, i - 1)
    {
      FileFactory(scripts, i);
      i := i + 1;
    }
  }

  /** The scripts linked to the slots of the section map and given the names, then the factories filed. */
  method LinkAndFile(entries: seq<MapEntry>, resolve: int -> Script, lnam: LingoDecNames.ScriptNames, ghost pool: set<Script>)
    returns (scripts: map<nat, Script>)
    requires forall id :: resolve(id) in pool
    modifies pool
    ensures scripts == Linked(entries, resolve, |entries|)
    ensures scripts.Values <= pool
    ensures forall s :: s in pool && s in scripts.Values ==>
      ContextApplied(s, lnam.names, LinkCount(entries, resolve, s, |entries|), old(NamesIn(s)))
    ensures forall s :: s in pool && s in scripts.Values ==>
      s.factories == old(s.factories) + FactoriesFor(scripts, s, |entries|)
    ensures forall s :: s in pool && s !in scripts.Values ==> unchanged(s)
  {
    LinkedValues(entries, resolve);
    scripts := LinkScripts(entries, resolve, lnam, Targets(entries, resolve));
    FileFactories(scripts, |entries|);
  }

  /** One turn of the factory loop: slot i's factory, if any, appended to its parent's factories. */
  method FileFactory(scripts: map<nat, Script>, i: nat)
    modifies scripts.Values`factories
    ensures forall s :: s in scripts.Values ==> s.factories == old(s.factories) + FiledAt(scripts, s, i)
  {
    if i in scripts {
      var script := scripts[i];
      if script.IsFactory() {
        var slot := ParentSlot(script.header.parentNumber);
        if slot in scripts {
          var parent := scripts[slot];
          parent.factories := parent.factories + [script];
        }
      }
    }
  }

  /**
   * The parent lookup as written: `std::map::operator[]` on a missing key
   * inserts a null pointer under it and yields that null, which the loop
   * then dereferences.
   */
  function ParentLookupAsWritten(scripts: map<nat, Script?>, parentNumber: int): (r: (map<nat, Script?>, Script?))
    ensures ParentSlot(parentNumber) in scripts ==> r == (scripts, scripts[ParentSlot(parentNumber)])
    ensures ParentSlot(parentNumber) !in scripts ==> r.1 == null && r.0 == scripts[ParentSlot(parentNumber) := null]
  {
    var slot := ParentSlot(parentNumber);
    if slot in scripts then (scripts, scripts[slot]) else (scripts[slot := null], null)
  }

  /**
   * A factory whose parent number is -1 asks for slot 0, which the linking
   * loop never fills: the lookup as written yields null, to be dereferenced.
   */
  lemma ParentMinusOneIsNull(entries: seq<MapEntry>, resolve: int -> Script)
    ensures var scripts: map<nat, Script?> := Linked(entries, resolve, |entries|);
      ParentLookupAsWritten(scripts, -1).1 == null
  {
  }

  // ---------------------------------------------------------------------
  // The context.

  /** The script context chunk (`ScriptContext`). */
  class ScriptContext {
    /** The 13 header fields, read together. */
    var header: ContextHeader

    var sectionMap: seq<MapEntry>
    var lnam: LingoDecNames.ScriptNames?
    var scripts: map<nat, Script>

    constructor ()
      ensures lnam == null && sectionMap == [] && scripts == map[]
    {
      lnam := null;
      sectionMap := [];
      scripts := map[];
    }

    /** The first half of `read`: the header, big-endian, then the section map it locates. */
    method ReadHeader(stream: ReadStream)
      modifies this`header, this`sectionMap, stream`pos, stream`endianness
      ensures stream.endianness == BigEndian
      ensures header == ContextHeaderAt(stream.data, old(stream.pos))
      ensures sectionMap == EntriesOnto(stream.data, header.entriesOffset, header.entryCount, [])
    {
      stream.endianness := BigEndian;
      var h := ReadContextHeader(stream);
      header := h;
      stream.Seek(h.entriesOffset);
      sectionMap := ReadEntries(stream, h.entryCount);
    }

    /**
     * `read`: big-endian whatever the file's byte order; the header from the
     * cursor, the section map from `entriesOffset`, the names chunk of
     * `lnamSectionID`, then the scripts linked to their slots, each given the
     * names, and the factories filed under their parents. The resolver is
     * the pair `resolveNames` and `resolveScript`, whose scripts all lie in
     * `pool`.
     */
    method Read(stream: ReadStream, resolveNames: int -> LingoDecNames.ScriptNames, resolveScript: int -> Script,
                ghost pool: set<Script>)
      requires forall id :: resolveScript(id) in pool
      modifies this, pool, stream`pos, stream`endianness
      ensures stream.endianness == BigEndian
      ensures header == ContextHeaderAt(stream.data, old(stream.pos))
      ensures sectionMap == EntriesOnto(stream.data, header.entriesOffset, header.entryCount, [])
      ensures lnam == resolveNames(header.lnamSectionID)
      ensures scripts == Linked(sectionMap, resolveScript, header.entryCount)
      ensures scripts.Values <= pool
      ensures forall s :: s in pool && s in scripts.Values ==>
        ContextApplied(s, lnam.names, LinkCount(sectionMap, resolveScript, s, header.entryCount), old(NamesIn(s)))
      ensures forall s :: s in pool && s in scripts.Values ==>
        s.factories == old(s.factories) + FactoriesFor(scripts, s, header.entryCount)
      ensures forall s :: s in pool && s !in scripts.Values ==> unchanged(s)
    {
      ReadHeader(stream);
      ReadScripts(resolveNames, resolveScript, pool);
    }

    /**
     * The second half of `read`: the names chunk, the scripts linked to the
     * slots of the section map and given the names, then the factories filed.
     */
    method ReadScripts(resolveNames: int -> LingoDecNames.ScriptNames, resolveScript: int -> Script, ghost pool: set<Script>)
      requires forall id :: resolveScript(id) in pool
      requires |sectionMap| == header.entryCount
      modifies this`lnam, this`scripts, pool
      ensures lnam == resolveNames(header.lnamSectionID)
      ensures scripts == Linked(sectionMap, resolveScript, header.entryCount)
      ensures scripts.Values <= pool
      ensures forall s :: s in pool && s in scripts.Values ==>
        ContextApplied(s, lnam.names, LinkCount(sectionMap, resolveScript, s, header.entryCount), old(NamesIn(s)))
      ensures forall s :: s in pool && s in scripts.Values ==>
        s.factories == old(s.factories) + FactoriesFor(scripts, s, header.entryCount)
      ensures forall s :: s in pool && s !in scripts.Values ==> unchanged(s)
    {
      lnam := resolveNames(header.lnamSectionID);
      var entries := sectionMap;
      var linked := LinkAndFile(entries, resolveScript, lnam, pool);
      scripts := linked;
      assert sectionMap == entries && header.entryCount == |entries|;
    }

    /** `validName`: the names table's verdict. */
    predicate ValidName(id: int): (r: bool)
      requires lnam != null
      reads this, lnam
      ensures r <==> 0 <= id < |lnam.names|
      ensures r ==> lnam.GetName(id) == lnam.names[id]
      ensures !r ==> lnam.GetName(id) == LingoDecNames.UnknownName(id)
    {
      lnam.ValidName(id)
    }

    /** `getName`: the names table's name for the id, or its placeholder. */
    function GetName(id: int): (r: string)
      requires lnam != null
      reads this, lnam
      ensures ValidName(id) ==> r == lnam.names[id]
      ensures !ValidName(id) ==> r == LingoDecNames.UnknownName(id)
    {
      lnam.GetName(id)
    }
  }
}
