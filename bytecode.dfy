/**
 * Mnemonics of Lingo bytecode in the JavaScript generation. Codes below
 * 0x40 carry no operand and are looked up in the one-byte table; every
 * other code is reduced modulo 0x40 and looked up in the multi-byte table,
 * so the operand width (the top two bits) never changes the mnemonic.
 */
module LingoBytecode {
  import opened Bytes
  import opened Wrappers

  /** The table of codes without an operand. */
  function OneByteName(val: nat): Option<string>
  {
    match val
    case 0x01 => Some("ret")
    case 0x03 => Some("pushint0")
    case 0x04 => Some("mul")
    case 0x05 => Some("add")
    case 0x06 => Some("sub")
    case 0x07 => Some("div")
    case 0x08 => Some("mod")
    case 0x09 => Some("inv")
    case 0x0a => Some("joinstr")
    case 0x0b => Some("joinpadstr")
    case 0x0c => Some("lt")
    case 0x0d => Some("lteq")
    case 0x0e => Some("nteq")
    case 0x0f => Some("eq")
    case 0x10 => Some("gt")
    case 0x11 => Some("gteq")
    case 0x12 => Some("and")
    case 0x13 => Some("or")
    case 0x14 => Some("not")
    case 0x15 => Some("containsstr")
    case 0x16 => Some("contains0str")
    case 0x17 => Some("splitstr")
    case 0x18 => Some("lightstr")
    case 0x19 => Some("ontospr")
    case 0x1a => Some("intospr")
    case 0x1b => Some("caststr")
    case 0x1c => Some("startobj")
    case 0x1d => Some("stopobj")
    case 0x1e => Some("wraplist")
    case 0x1f => Some("newproplist")
    case _ => None
  }

  /** The table of codes with an operand, indexed by the code modulo 0x40. */
  function MultiByteName(code: nat): Option<string>
  {
    match code
    case 0x01 => Some("pushint")
    case 0x02 => Some("newarglist")
    case 0x03 => Some("newlist")
    case 0x04 => Some("pushcons")
    case 0x05 => Some("pushsymb")
    case 0x09 => Some("getglobal")
    case 0x0a => Some("getprop")
    case 0x0b => Some("getparam")
    case 0x0c => Some("getlocal")
    case 0x0f => Some("setglobal")
    case 0x10 => Some("setprop")
    case 0x11 => Some("setparam")
    case 0x12 => Some("setlocal")
    case 0x13 => Some("jmp")
    case 0x14 => Some("endrepeat")
    case 0x15 => Some("iftrue")
    case 0x16 => Some("call_local")
    case 0x17 => Some("call_external")
    case 0x18 => Some("callobj_old?")
    case 0x19 => Some("op_59xx")
    case 0x1b => Some("op_5bxx")
    case 0x1c => Some("get")
    case 0x1d => Some("set")
    case 0x1f => Some("getmovieprop")
    case 0x20 => Some("setmovieprop")
    case 0x21 => Some("getobjprop")
    case 0x22 => Some("setobjprop")
    case 0x26 => Some("getmovieinfo")
    case 0x27 => Some("callobj")
    case 0x2e => Some("pushint")
    case _ => None
  }

  /** Which table entry, if any, names a code. */
  function TableName(val: nat): Option<string>
  {
    if val < 0x40 then OneByteName(val) else MultiByteName(val % 0x40)
  }

  const UnknownPrefix: string := "unk_"

  predicate IsUnknownName(name: string)
  {
    |name| >= 4 && name[..4] == UnknownPrefix
  }

  /** `getOpcode`: the table entry, or "unk_" and the code in lower-case hexadecimal. */
  function GetOpcode(val: nat): (r: string)
    ensures |r| > 0
  {
    var name := TableName(val);
    if name.Some? then name.value else UnknownPrefix + Digits(val, 16, false)
  }

  /** No table entry begins with the letter of the unknown prefix. */
  lemma TableNamesAreKnown(val: nat)
    ensures TableName(val).Some? ==> |TableName(val).value| > 0 && TableName(val).value[0] != 'u'
  {
    if val < 0x40 {
      match val
      case _ =>
    } else {
      match val % 0x40
      case _ =>
    }
  }

  /**
   * The two outcomes of `getOpcode` cannot be confused: a name carries the
   * "unk_" prefix exactly when the code is in neither table, and then the
   * code can be read back from the hexadecimal digits after the prefix.
   */
  lemma UnknownOpcodeDecodes(val: nat)
    ensures IsUnknownName(GetOpcode(val)) <==> TableName(val).None?
    ensures TableName(val).None? ==> ParseDigits(GetOpcode(val)[4..], 16) == val
  {
    if TableName(val).Some? {
      TableNamesAreKnown(val);
    } else {
      var r := GetOpcode(val);
      assert r[4..] == Digits(val, 16, false);
      DigitsRoundTrip(val, 16, false);
    }
  }

  /**
   * Codes of 0x40 and above that agree modulo 0x40 share their mnemonic when
   * the table names them; an unnamed code prints its own hexadecimal value,
   * so two distinct unnamed codes never share one.
   */
  lemma CongruentCodesShareName(a: nat, b: nat)
    requires a >= 0x40 && b >= 0x40 && a % 0x40 == b % 0x40
    ensures TableName(a) == TableName(b)
    ensures TableName(a).Some? ==> GetOpcode(a) == GetOpcode(b)
    ensures TableName(a).None? ==> (GetOpcode(a) == GetOpcode(b) <==> a == b)
  {
    if TableName(a).None? && GetOpcode(a) == GetOpcode(b) {
      UnknownOpcodeDecodes(a);
      UnknownOpcodeDecodes(b);
    }
  }

  /** Exactly the operand-carrying codes 0x01 and 0x2e modulo 0x40 are `pushint`, at every operand width. */
  lemma PushintCodes(val: nat)
    ensures GetOpcode(val) == "pushint" <==> val >= 0x40 && (val % 0x40 == 0x01 || val % 0x40 == 0x2e)
  {
    if TableName(val).None? {
      assert GetOpcode(val)[0] == 'u';
    }
  }

  /**
   * One decoded instruction: the code, its operand (`null` when the code
   * is below 0x40), the operand's width and the instruction's position.
   * The mnemonic (`new Bytecode` computes it from the code) depends on the
   * code alone.
   */
  datatype Bytecode = Bytecode(val: nat, obj: Option<nat>, objLength: nat, pos: nat)
  {
    function opcode(): string
    {
      GetOpcode(val)
    }
  }
}
