/**
 * The `get` and `set` handlers of the JavaScript decompiler
 * (`Handler.translateBytecode`): the instruction's operand selects a kind
 * of property, the popped property id is looked up in that kind's name
 * table, and the handler pops the operands that kind of property takes.
 * `get` pushes the property reference and `set` adds an assignment to it.
 * Here on the stack's contents; the translator pops and pushes them.
 */
module LingoProperty {
  import opened Wrappers
  import opened LingoAst
  import opened LingoStack
  import opened LingoLib

  /** The property nodes `get` builds and `set` assigns to. */
  predicate PropertyNode(n: Node)
  {
    || n.MovieProp? || n.TimeExpr? || n.LastChunk? || n.ChunkCount? || n.MenuProp? || n.MenuItemProp?
    || n.SoundProp? || n.SpriteProp? || n.ObjCount? || n.FieldProp?
  }

  /** The operands of `get` with a case in its switch; any other leaves `translation` null. */
  predicate GetCase(obj: nat)
  {
    obj in {0x00, 0x01, 0x02, 0x03, 0x04, 0x06, 0x07, 0x08, 0x09, 0x0c, 0x0d}
  }

  /** The operands of `set` with a case in its switch. */
  predicate SetCase(obj: nat)
  {
    obj in {0x00, 0x03, 0x04, 0x06, 0x07, 0x09, 0x0c, 0x0d}
  }

  /**
   * How many entries `get` pops after the property id: the string of a
   * last-chunk expression (a movie id above 0x0b) or of a chunk count,
   * the menu and item of a menu item, the menu, sound, sprite, cast
   * member or field otherwise; nothing for a movie setting or a count.
   */
  function GetOperandCount(obj: nat, id: JsValue): nat
  {
    if obj == 0x00 then (if JsAtMost(id, 0x0b) then 0 else 1)
    else if obj == 0x03 then 2
    else if obj == 0x07 || obj == 0x08 then 0
    else 1
  }

  /** How many entries `set` pops after the property id: the value, then the property's owner. */
  function SetOperandCount(obj: nat): nat
  {
    if obj == 0x00 || obj == 0x07 then 1
    else if obj == 0x03 then 3
    else 2
  }

  /** The name table `get` and `set` look an owned property or a movie setting up in. */
  function KindTable(obj: nat): NameTable
  {
    if obj == 0x02 then MenuPropertyNames
    else if obj == 0x03 then MenuItemPropertyNames
    else if obj == 0x04 then SoundPropertyNames
    else if obj == 0x06 then SpritePropertyNames
    else if obj == 0x07 then MoviePropertyNames07
    else if obj == 0x09 then CastPropertyNames09
    else if obj == 0x0c then FieldPropertyNames
    else CastPropertyNames0d
  }

  /** The property kinds that belong to an owner popped off the stack. */
  predicate Owned(obj: nat)
  {
    obj in {0x02, 0x03, 0x04, 0x06, 0x09, 0x0c, 0x0d}
  }

  /**
   * The reference to property `name` of the owner popped first (and, for
   * a menu item, of the item popped after it). The two cast member kinds
   * are built as sprite references, as the source builds them.
   */
  function OwnedReference(obj: nat, owners: seq<Node>, name: Name): (r: Result<Node>)
    requires Owned(obj) && |owners| == (if obj == 0x03 then 2 else 1)
    ensures r.Err? ==> r.error == TypeError
    ensures r.Ok? ==> PropertyNode(r.value)
    ensures r.Err? <==> Null in owners
  {
    if obj == 0x02 then New(MenuProp(owners[0], name))
    else if obj == 0x03 then New(MenuItemProp(owners[0], owners[1], name))
    else if obj == 0x04 then New(SoundProp(owners[0], name))
    else if obj == 0x0c then New(FieldProp(owners[0], name))
    else New(SpriteProp(owners[0], name))
  }

  /**
   * The reference of one `get` case, from the property id and the entries
   * popped after it (`more[0]` first); `new` fails on a `null` operand.
   */
  function GetNode(obj: nat, id: JsValue, more: seq<Node>): (r: Result<Node>)
    requires GetCase(obj) && |more| == GetOperandCount(obj, id)
    ensures r.Err? ==> r.error == TypeError
    ensures r.Ok? ==> PropertyNode(r.value)
  {
    var key := JsKey(id);
    if obj == 0x00 then
      if JsAtMost(id, 0x05) then Ok(MovieProp(Lookup(MoviePropertyNames00, key)))
      else if JsAtMost(id, 0x0b) then Ok(TimeExpr(Lookup(TimeNames, JsKeyMinus(id, 0x05))))
      else New(LastChunk(Lookup(ChunkTypeNames, JsKeyMinus(id, 0x0b)), more[0]))
    else if obj == 0x01 then New(ChunkCount(Lookup(ChunkTypeNames, key), more[0]))
    else if obj == 0x07 then Ok(MovieProp(Lookup(KindTable(obj), key)))
    else if obj == 0x08 then
      Ok(if id == JNumber(0x01) then MovieProp(Some("perFrameHook")) else ObjCount(Lookup(CountableObjectNames, key)))
    else OwnedReference(obj, more, Lookup(KindTable(obj), key))
  }

  /**
   * The assignment of one `set` case: `more[0]` is the value and the rest
   * the property's owner. A movie id above 0x05 leaves `translation` null.
   */
  function SetNode(obj: nat, id: JsValue, more: seq<Node>): (r: Result<Node>)
    requires SetCase(obj) && |more| == SetOperandCount(obj)
    ensures r.Err? ==> r.error == TypeError
    ensures r.Ok? && r.value != Null ==> r.value.Assignment? && r.value.value == more[0] && PropertyNode(r.value.variable)
    ensures r.Ok? && r.value == Null ==> obj == 0x00 && !JsAtMost(id, 0x05)
    ensures obj == 0x00 && !JsAtMost(id, 0x05) ==> r == Ok(Null)
    ensures r.Ok? && more[0] == Null ==> r.value == Null
  {
    var key := JsKey(id);
    var value := more[0];
    if obj == 0x00 then
      if JsAtMost(id, 0x05) then New(Assignment(MovieProp(Lookup(MoviePropertyNames00, key)), value))
      else Ok(Null)
    else if obj == 0x07 then New(Assignment(MovieProp(Lookup(KindTable(obj), key)), value))
    else
      var target :- OwnedReference(obj, more[1..], Lookup(KindTable(obj), key));
      New(Assignment(target, value))
  }

  /** The n entries popped after the property id, in pop order. */
  function OperandsBelowId(s: seq<Node>, n: nat): (r: seq<Node>)
    ensures |r| == n && forall j :: 0 <= j < n ==> r[j] == Popped(s, 1 + j)
  {
    seq(n, j requires 0 <= j < n => Popped(s, 1 + j))
  }

  /**
   * `get` on the stack `s`: the translation it pushes and the stack under
   * it. An operand without a case leaves the stack as it is and pushes
   * `null`; otherwise the property id and the case's operands are popped
   * and the reference is built, and the only error is a TypeError from a
   * `null` id or operand. At most three entries are popped.
   */
  function GetProperty(obj: nat, s: seq<Node>): (r: Result<(Node, seq<Node>)>)
    ensures r.Err? ==> r.error == TypeError
    ensures !GetCase(obj) ==> r == Ok((Null, s))
    ensures GetCase(obj) && Popped(s, 0) == Null ==> r.Err?
    ensures r.Ok? && GetCase(obj) ==> PropertyNode(r.value.0)
    ensures r.Ok? ==> |r.value.1| <= |s| && r.value.1 == s[..|r.value.1|] && |r.value.1| + 3 >= |s|
  {
    if !GetCase(obj) then Ok((Null, s))
    else
      var id :- GetValue(Popped(s, 0));
      var n := GetOperandCount(obj, id);
      var node :- GetNode(obj, id, OperandsBelowId(s, n));
      Ok((node, AfterPops(s, 1 + n)))
  }

  /**
   * `set` on the stack `s`: the statement it adds and the stack left. An
   * operand without a case adds `null` and pops nothing; otherwise the
   * property id, the value and the owner are popped. The statement is an
   * assignment of the popped value to a property, or `null` for a movie
   * property id above 0x05. At most four entries are popped.
   */
  function SetProperty(obj: nat, s: seq<Node>): (r: Result<(Node, seq<Node>)>)
    ensures r.Err? ==> r.error == TypeError
    ensures !SetCase(obj) ==> r == Ok((Null, s))
    ensures SetCase(obj) && Popped(s, 0) == Null ==> r.Err?
    ensures r.Ok? && SetCase(obj) && Popped(s, 1) == Null ==> r.value.0 == Null
    ensures r.Ok? && r.value.0 != Null ==>
      r.value.0.Assignment? && r.value.0.value == Popped(s, 1) && PropertyNode(r.value.0.variable)
    ensures r.Ok? && SetCase(obj) && r.value.0 == Null ==>
      obj == 0x00 && GetValue(Popped(s, 0)).Ok? && !JsAtMost(GetValue(Popped(s, 0)).value, 0x05)
    ensures obj == 0x00 && GetValue(Popped(s, 0)).Ok? && !JsAtMost(GetValue(Popped(s, 0)).value, 0x05) ==>
      r == Ok((Null, AfterPops(s, 2)))
    ensures r.Ok? ==> |r.value.1| <= |s| && r.value.1 == s[..|r.value.1|] && |r.value.1| + 4 >= |s|
  {
    if !SetCase(obj) then Ok((Null, s))
    else
      var id :- GetValue(Popped(s, 0));
      var n := SetOperandCount(obj);
      var node :- SetNode(obj, id, OperandsBelowId(s, n));
      Ok((node, AfterPops(s, 1 + n)))
  }

  /** One `set` case assigns the value to the reference the `get` case builds from the same owner. */
  lemma SetNodeAssignsGetNode(obj: nat, id: JsValue, value: Node, more: seq<Node>)
    requires SetCase(obj) && value != Null
    requires |more| == GetOperandCount(obj, id) && SetOperandCount(obj) == |more| + 1
    requires obj == 0x00 ==> JsAtMost(id, 0x05)
    ensures var g := GetNode(obj, id, more);
      var t := SetNode(obj, id, [value] + more);
      && (t.Ok? <==> g.Ok?)
      && (t.Ok? ==> t.value == Assignment(g.value, value))
  {
    if obj == 0x00 || obj == 0x07 {
      SetMovieAssignsGetMovie(obj, id, value, more);
    } else {
      SetOwnedAssignsGetOwned(obj, id, value, more);
    }
  }

  /** The movie cases of SetNodeAssignsGetNode: no owner, so the assignment never fails. */
  lemma SetMovieAssignsGetMovie(obj: nat, id: JsValue, value: Node, more: seq<Node>)
    requires (obj == 0x00 && JsAtMost(id, 0x05)) || obj == 0x07
    requires value != Null && more == []
    ensures GetNode(obj, id, more).Ok?
    ensures SetNode(obj, id, [value] + more) == Ok(Assignment(GetNode(obj, id, more).value, value))
  {
    var m := [value] + more;
    assert m[0] == value;
    var target := MovieProp(Lookup(if obj == 0x00 then MoviePropertyNames00 else KindTable(obj), JsKey(id)));
    assert GetNode(obj, id, more) == Ok(target);
    assert New(Assignment(target, value)) == Ok(Assignment(target, value));
  }

  /** The owned cases of SetNodeAssignsGetNode: both fail exactly when an owner is null. */
  lemma SetOwnedAssignsGetOwned(obj: nat, id: JsValue, value: Node, more: seq<Node>)
    requires Owned(obj) && SetCase(obj) && value != Null
    requires |more| == GetOperandCount(obj, id) && SetOperandCount(obj) == |more| + 1
    ensures var g := GetNode(obj, id, more);
      var t := SetNode(obj, id, [value] + more);
      && (t.Ok? <==> g.Ok?)
      && (t.Ok? ==> t.value == Assignment(g.value, value))
  {
    var m := [value] + more;
    assert m[0] == value && m[1..] == more;
    var g := OwnedReference(obj, more, Lookup(KindTable(obj), JsKey(id)));
    assert GetNode(obj, id, more) == g;
    assert g.Ok? ==> New(Assignment(g.value, value)) == Ok(Assignment(g.value, value));
  }

  /**
   * `set` assigns to the property `get` reads: with the value pushed
   * between the property's owner and its id, `set` pops the same owner,
   * builds the reference `get` builds and assigns the value to it, and
   * leaves the stack `get` leaves under its reference.
   */
  lemma SetAssignsWhatGetReads(obj: nat, s: seq<Node>, id: Node, value: Node)
    requires SetCase(obj) && value != Null && id != Null
    requires obj == 0x00 ==> JsAtMost(GetValue(id).value, 0x05)
    ensures var g := GetProperty(obj, s + [id]);
      var t := SetProperty(obj, s + [value, id]);
      && (t.Ok? <==> g.Ok?)
      && (t.Ok? ==> t.value.0 == Assignment(g.value.0, value) && t.value.1 == g.value.1)
  {
    var v := GetValue(id).value;
    var sg := s + [id];
    var st := s + [value, id];
    assert Popped(sg, 0) == id && Popped(st, 0) == id;
    var n := GetOperandCount(obj, v);
    assert SetOperandCount(obj) == n + 1;
    var mg := OperandsBelowId(sg, n);
    var mt := OperandsBelowId(st, n + 1);
    forall j | 0 <= j < n + 1 ensures mt[j] == ([value] + mg)[j] {
      if j > 0 {
        assert Popped(st, 1 + j) == Popped(s, j - 1) == Popped(sg, j);
      }
    }
    assert mt == [value] + mg;
    assert AfterPops(st, 2 + n) == AfterPops(s, n) == AfterPops(sg, 1 + n);
    SetNodeAssignsGetNode(obj, v, value, mg);
  }

  /**
   * `get 0x07` reads the movie setting its id names; with the id pushed
   * by `pushint8 1` that is `the beepOn`.
   */
  lemma GetSettingReadsTable(s: seq<Node>, k: int)
    ensures GetProperty(0x07, s + [IntLit(k)]) == Ok((MovieProp(Lookup(MoviePropertyNames07, Some(k))), s))
    ensures GetProperty(0x07, s + [IntLit(1)]) == Ok((MovieProp(Some("beepOn")), s))
  {
    var sk := s + [IntLit(k)];
    assert Popped(sk, 0) == IntLit(k) && AfterPops(sk, 1) == s;
    assert OperandsBelowId(sk, 0) == [];
    GetPropertyPops(0x07, sk);
    assert GetNode(0x07, JNumber(k), []) == Ok(MovieProp(Lookup(MoviePropertyNames07, Some(k))));
    BeepOnIsSettingOne();
  }

  lemma BeepOnIsSettingOne()
    ensures Lookup(MoviePropertyNames07, Some(1)) == Some("beepOn")
  {
    assert 1 in MoviePropertyNames07;
  }

  /**
   * `get 0x00` by integer id: a movie property up to 0x05, a time or date
   * format up to 0x0b (`TimeNames[id - 5]`), and above that the last chunk
   * of the string popped next, of the kind `ChunkTypeNames[id - 0x0b]`.
   */
  lemma GetMovieIds(s: seq<Node>, k: int)
    ensures var g := GetProperty(0x00, s + [IntLit(k)]);
      && (k <= 0x05 ==> g == Ok((MovieProp(Lookup(MoviePropertyNames00, Some(k))), s)))
      && (0x05 < k <= 0x0b ==> g == Ok((TimeExpr(Lookup(TimeNames, Some(k - 0x05))), s)))
      && (0x0b < k && Popped(s, 0) != Null ==>
            g == Ok((LastChunk(Lookup(ChunkTypeNames, Some(k - 0x0b)), Popped(s, 0)), AfterPops(s, 1))))
      && (0x0b < k && Popped(s, 0) == Null ==> g == Err(TypeError))
  {
    if k <= 0x0b {
      GetMovieSettingId(s, k);
    } else {
      GetMovieChunkId(s, k);
    }
  }

  /** The ids of GetMovieIds up to 0x0b pop nothing more. */
  lemma GetMovieSettingId(s: seq<Node>, k: int)
    requires k <= 0x0b
    ensures var g := GetProperty(0x00, s + [IntLit(k)]);
      && (k <= 0x05 ==> g == Ok((MovieProp(Lookup(MoviePropertyNames00, Some(k))), s)))
      && (0x05 < k ==> g == Ok((TimeExpr(Lookup(TimeNames, Some(k - 0x05))), s)))
  {
    var sk := s + [IntLit(k)];
    assert Popped(sk, 0) == IntLit(k) && AfterPops(sk, 1) == s;
    assert OperandsBelowId(sk, 0) == [];
    GetPropertyPops(0x00, sk);
    MovieIdNode(k, []);
  }

  /** GetProperty with an id on top: the node is built from the operands below it. */
  lemma GetPropertyPops(obj: nat, s: seq<Node>)
    requires GetCase(obj) && Popped(s, 0) != Null
    ensures var id := GetValue(Popped(s, 0)).value;
      var n := GetOperandCount(obj, id);
      var node := GetNode(obj, id, OperandsBelowId(s, n));
      GetProperty(obj, s) == if node.Ok? then Ok((node.value, AfterPops(s, 1 + n))) else Err(TypeError)
  {
  }

  /** The ids of GetMovieIds above 0x0b pop the string next. */
  lemma GetMovieChunkId(s: seq<Node>, k: int)
    requires 0x0b < k
    ensures var g := GetProperty(0x00, s + [IntLit(k)]);
      && (Popped(s, 0) != Null ==> g == Ok((LastChunk(Lookup(ChunkTypeNames, Some(k - 0x0b)), Popped(s, 0)), AfterPops(s, 1))))
      && (Popped(s, 0) == Null ==> g == Err(TypeError))
  {
    var sk := s + [IntLit(k)];
    assert Popped(sk, 0) == IntLit(k) && Popped(sk, 1) == Popped(s, 0);
    assert AfterPops(sk, 2) == AfterPops(s, 1);
    assert OperandsBelowId(sk, 1) == [Popped(s, 0)];
    GetPropertyPops(0x00, sk);
    MovieIdNode(k, [Popped(s, 0)]);
  }

  /** The node of `get 0x00` for an integer id, by the id's range. */
  lemma MovieIdNode(k: int, more: seq<Node>)
    requires |more| == GetOperandCount(0x00, JNumber(k))
    ensures |more| == if k <= 0x0b then 0 else 1
    ensures k <= 0x05 ==> GetNode(0x00, JNumber(k), more) == Ok(MovieProp(Lookup(MoviePropertyNames00, Some(k))))
    ensures 0x05 < k <= 0x0b ==> GetNode(0x00, JNumber(k), more) == Ok(TimeExpr(Lookup(TimeNames, Some(k - 0x05))))
    ensures 0x0b < k ==> (GetNode(0x00, JNumber(k), more).Ok? <==> more[0] != Null)
    ensures 0x0b < k && more[0] != Null ==> GetNode(0x00, JNumber(k), more) == Ok(LastChunk(Lookup(ChunkTypeNames, Some(k - 0x0b)), more[0]))
  {
    var v := JNumber(k);
    assert JsAtMost(v, 0x05) <==> k <= 0x05;
    assert JsAtMost(v, 0x0b) <==> k <= 0x0b;
    assert JsKeyMinus(v, 0x05) == Some(k - 0x05);
    assert JsKeyMinus(v, 0x0b) == Some(k - 0x0b);
    if 0x0b < k {
      assert Operands(LastChunk(Lookup(ChunkTypeNames, Some(k - 0x0b)), more[0])) == [more[0]];
    }
  }

  /**
   * On an empty stack the id popped is ERROR, whose `getValue()` is
   * `true`: it passes `id <= 0x05` as 1 but indexes no entry, so `get 0`
   * reads the movie property `undefined`.
   */
  lemma GetOnEmptyStack()
    ensures GetProperty(0x00, []) == Ok((MovieProp(None), []))
  {
  }
}
