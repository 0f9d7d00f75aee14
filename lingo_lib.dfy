/**
 * The name tables of the JavaScript decompiler's library (`lib.ts`) that
 * the `get` and `set` handlers index, and the JavaScript coercions that
 * turn the popped property id into a comparison operand (`id <= 0x05`,
 * `id - 0x05`) and into a property key (`table[id]`).
 */
module LingoLib {
  import opened Wrappers
  import opened Bytes
  import opened LingoAst

  /** A plain object of `lib.ts`, keyed by integer literals. */
  type NameTable = map<int, string>

  const MoviePropertyNames00: NameTable := map[
    0x00 := "floatPrecision", 0x01 := "mouseDownScript", 0x02 := "mouseUpScript",
    0x03 := "keyDownScript", 0x04 := "keyUpScript", 0x05 := "timeoutScript"]

  const TimeNames: NameTable := map[
    0x01 := "short time", 0x02 := "abbr time", 0x03 := "long time",
    0x04 := "short date", 0x05 := "abbr date", 0x06 := "long date"]

  const ChunkTypeNames: NameTable := map[0x01 := "char", 0x02 := "word", 0x03 := "item", 0x04 := "line"]

  const MenuPropertyNames: NameTable := map[0x01 := "name", 0x02 := "number of menuItems"]

  const MenuItemPropertyNames: NameTable := map[0x01 := "name", 0x02 := "checkMark", 0x03 := "enabled", 0x04 := "script"]

  const SoundPropertyNames: NameTable := map[0x01 := "volume"]

  const SpritePropertyNames: NameTable := map[
    0x01 := "type", 0x02 := "backColor", 0x03 := "bottom", 0x04 := "castNum", 0x05 := "constraint",
    0x06 := "cursor", 0x07 := "foreColor", 0x08 := "height", 0x0a := "ink", 0x0b := "left",
    0x0c := "lineSize", 0x0d := "locH", 0x0e := "locV", 0x0f := "movieRate", 0x10 := "movieTime",
    0x12 := "puppet", 0x13 := "right", 0x14 := "startTime", 0x15 := "stopTime", 0x16 := "stretch",
    0x17 := "top", 0x18 := "trails", 0x19 := "visible", 0x1a := "volume", 0x1b := "width",
    0x1d := "scriptNum", 0x1e := "moveableSprite", 0x20 := "scoreColor"]

  const MoviePropertyNames07: NameTable := map[
    0x01 := "beepOn", 0x02 := "buttonStyle", 0x03 := "centerStage", 0x04 := "checkBoxAccess",
    0x05 := "checkboxType", 0x06 := "colorDepth", 0x08 := "exitLock", 0x09 := "fixStageSize",
    0x13 := "timeoutLapsed", 0x17 := "selEnd", 0x18 := "selStart", 0x19 := "soundEnabled",
    0x1a := "soundLevel", 0x1b := "stageColor", 0x1d := "stillDown", 0x1e := "timeoutKeyDown",
    0x1f := "timeoutLength", 0x20 := "timeoutMouse", 0x21 := "timeoutPlay", 0x22 := "timer"]

  const CountableObjectNames: NameTable := map[0x02 := "castMember", 0x03 := "menu"]

  const CastPropertyNames09: NameTable := map[
    0x01 := "name", 0x02 := "text", 0x08 := "picture", 0x0a := "number",
    0x0b := "size", 0x11 := "foreColor", 0x12 := "backColor"]

  const FieldPropertyNames: NameTable := map[
    0x03 := "textStyle", 0x04 := "textFont", 0x05 := "textHeight", 0x06 := "textAlign", 0x07 := "textSize"]

  const CastPropertyNames0d: NameTable := map[0x01 := "sound"]

  /** Every character is a decimal digit. */
  predicate DecimalText(s: string)
  {
    forall k :: 0 <= k < |s| ==> '0' <= s[k] <= '9'
  }

  /**
   * `Number(v)` when it is an integer, None when it is NaN: a boolean
   * `true` is 1, `undefined` NaN, the empty string and the empty list 0.
   * A string counts as a number only when it is plain decimal digits.
   */
  function JsNumber(v: JsValue): (r: Option<int>)
    ensures v.JNumber? ==> r == Some(v.num)
    ensures v.JUndefined? ==> r.None?
    ensures v.JString? && r.Some? ==> r.value >= 0
  {
    match v
    case JNumber(n) => Some(n)
    case JTrue => Some(1)
    case JUndefined => None
    case JString(s) =>
      if DecimalText(s) then
        DecimalValue(s);
        Some(ParseDigits(s, 10))
      else None
    case JArray(elems) => if elems == [] then Some(0) else None
  }

  lemma {:induction false} DecimalValue(s: string)
    requires DecimalText(s)
    ensures ParseDigits(s, 10) >= 0
  {
    if s != [] {
      assert DecimalText(s[..|s| - 1]);
      DecimalValue(s[..|s| - 1]);
    }
  }

  /** `v <= k` against a number: the comparison is false when `Number(v)` is NaN. */
  predicate JsAtMost(v: JsValue, k: int)
  {
    JsNumber(v).Some? && JsNumber(v).value <= k
  }

  /**
   * The integer key that `String(v)` spells in a lookup `table[v]`. A
   * string key names an entry only when it is the decimal text of a
   * non-negative integer, the only keys the tables have; `true`,
   * `undefined` and lists name none.
   */
  function JsKey(v: JsValue): (r: Option<int>)
    ensures v.JNumber? ==> r == Some(v.num)
    ensures !v.JNumber? && !v.JString? ==> r.None?
    ensures v.JString? && r.Some? ==> r.value >= 0 && v.str == Digits(r.value, 10, false)
  {
    match v
    case JNumber(n) => Some(n)
    case JString(s) =>
      if DecimalText(s) then
        DecimalValue(s);
        var n := ParseDigits(s, 10);
        if s == Digits(n, 10, false) then Some(n) else None
      else None
    case _ => None
  }

  /** `v - k` used as a key: the key of the difference, none when it is NaN. */
  function JsKeyMinus(v: JsValue, k: int): (r: Option<int>)
    ensures r.Some? <==> JsNumber(v).Some?
    ensures r.Some? ==> r.value == JsNumber(v).value - k
  {
    var n := JsNumber(v);
    if n.Some? then Some(n.value - k) else None
  }

  /** `table[key]`: the entry, or `undefined` when the key names none. */
  function Lookup(table: NameTable, key: Option<int>): (r: Name)
    ensures r.Some? <==> key.Some? && key.value in table
    ensures r.Some? ==> r.value == table[key.value]
  {
    if key.Some? && key.value in table then Some(table[key.value]) else None
  }

  /**
   * A number and the decimal text of a non-negative number index a table
   * alike, and compare alike; `true` compares as 1 but indexes nothing.
   */
  lemma DecimalKeyAgrees(n: nat, k: int)
    ensures JsKey(JString(Digits(n, 10, false))) == JsKey(JNumber(n)) == Some(n)
    ensures JsAtMost(JString(Digits(n, 10, false)), k) <==> n <= k
    ensures JsNumber(JTrue) == Some(1) && JsKey(JTrue).None?
  {
    var s := Digits(n, 10, false);
    DigitsAreDigits(n, 10, false);
    DigitsRoundTrip(n, 10, false);
    forall j | 0 <= j < |s| ensures '0' <= s[j] <= '9' {
      DigitIsDecimal(s[j]);
    }
  }

  lemma DigitIsDecimal(c: char)
    requires DigitValue(c) < 10
    ensures '0' <= c <= '9'
  {
  }
}
