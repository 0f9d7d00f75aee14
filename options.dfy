/**
 * The command-line parser: a command, one input file, and options, each
 * enabled for some of the commands, given by long name (`--name`,
 * `--name=value`) or by a run of short names (`-vo file`).
 */
module CommonOptions {
  import opened Wrappers

  /** `Command`: each command is a bit, so an option can be enabled for several. */
  const CMD_NONE: bv8 := 0
  const CMD_DECOMPILE: bv8 := 1
  const CMD_VERSION: bv8 := 2
  const CMD_ALL: bv8 := 3

  datatype CommandInfo = CommandInfo(cmd: bv8, name: string)

  datatype EnumOptionInfo = EnumOptionInfo(name: string, value: nat)

  /**
   * An option: whether it is for debugging, the commands it is enabled for,
   * its names, the argument it takes (none for a flag), the names its
   * argument may take when it is an enumeration, and its default.
   */
  datatype OptionInfo = OptionInfo(debug: bool, cmd: bv8, longName: string, shortName: Option<char>,
                                   argName: Option<string>, enumInfo: seq<EnumOptionInfo>, def: Option<string>)

  /** The commands `Options()` registers. */
  function CommandTable(): seq<CommandInfo>
  {
    [CommandInfo(CMD_DECOMPILE, "decompile"), CommandInfo(CMD_VERSION, "version")]
  }

  /** The values of `--style`. */
  function VersionStyles(): seq<EnumOptionInfo>
  {
    [EnumOptionInfo("long", 0), EnumOptionInfo("short", 1), EnumOptionInfo("integer", 2), EnumOptionInfo("internal", 3)]
  }

  /** The options `Options()` registers, in order. */
  function OptionTable(): seq<OptionInfo>
  {
    [ OptionInfo(false, CMD_DECOMPILE, "output", Some('o'), Some("file"), [], None),
      OptionInfo(false, CMD_ALL, "dump-scripts", None, None, [], None),
      OptionInfo(false, CMD_VERSION, "style", None, Some("name"), VersionStyles(), Some("long")),
      OptionInfo(true, CMD_ALL, "verbose", Some('v'), None, [], None),
      OptionInfo(true, CMD_ALL, "dump-chunks", None, None, [], None),
      OptionInfo(true, CMD_ALL, "dump-json", None, None, [], None) ]
  }

  /** The first index at or after k whose element matches: what each lookup loop of the parser finds. */
  function FirstMatch<T>(s: seq<T>, matches: T -> bool, k: nat): (r: Option<nat>)
    ensures r.Some? ==> k <= r.value < |s| && matches(s[r.value])
    ensures r.Some? ==> forall j :: k <= j < r.value ==> !matches(s[j])
    ensures r.None? ==> forall j :: k <= j < |s| ==> !matches(s[j])
    decreases |s| - k
  {
    if k >= |s| then None
    else if matches(s[k]) then Some(k)
    else FirstMatch(s, matches, k + 1)
  }

  /** `getCommand`: the command of the first entry with that name, or none. */
  function CommandOf(table: seq<CommandInfo>, name: string): (r: bv8)
    ensures (forall k :: 0 <= k < |table| ==> table[k].name != name) ==> r == CMD_NONE
    ensures forall k ::
      0 <= k < |table| && table[k].name == name && (forall j :: 0 <= j < k ==> table[j].name != name) ==> r == table[k].cmd
  {
    var k := FirstMatch(table, (c: CommandInfo) => c.name == name, 0);
    if k.Some? then table[k.value].cmd else CMD_NONE
  }

  /** `getOptionInfo(longName)`. */
  function LongInfo(table: seq<OptionInfo>, name: string): (r: Option<OptionInfo>)
    ensures r.Some? ==> r.value in table && r.value.longName == name
  {
    var k := FirstMatch(table, (o: OptionInfo) => o.longName == name, 0);
    if k.Some? then Some(table[k.value]) else None
  }

  /** `getOptionInfo(shortName)`. */
  function ShortInfo(table: seq<OptionInfo>, name: char): (r: Option<OptionInfo>)
    ensures r.Some? ==> r.value in table && r.value.shortName == Some(name)
  {
    var k := FirstMatch(table, (o: OptionInfo) => o.shortName == Some(name), 0);
    if k.Some? then Some(table[k.value]) else None
  }

  /** `info->cmd & _cmd`: the option is enabled for the command. */
  predicate Enabled(info: OptionInfo, cmd: bv8)
  {
    info.cmd & cmd != 0
  }

  /** `--name=value` after the dashes, split at its first `=`: the name, and the value when there is one. */
  function SplitLong(option: string): (r: (string, Option<string>))
    ensures forall j :: 0 <= j < |r.0| ==> r.0[j] != '='
    ensures r.1.None? ==> r.0 == option
    ensures r.1.Some? ==> |r.0| < |option| && option[|r.0|] == '=' && r.0 == option[..|r.0|] && r.1.value == option[|r.0| + 1..]
  {
    var k := FirstMatch(option, (ch: char) => ch == '=', 0);
    if k.Some? then (option[..k.value], Some(option[k.value + 1..])) else (option, None)
  }

  /** What the options parsed so far amount to: flags, string and enum values, and the input file. */
  datatype Parsed = Parsed(noArg: set<string>, strings: map<string, string>, enums: map<string, nat>, input: Option<string>)

  /** An option once its names are read: its entry, how it was written, and the value written with it. */
  datatype OptionRead = OptionRead(info: OptionInfo, optionString: string, arg: Option<string>, noArg: set<string>)

  /** A long option: the name before the first `=` must name an option enabled for the command. */
  function LongOption(table: seq<OptionInfo>, cmd: bv8, arg: string, noArg: set<string>): (r: Result<OptionRead>)
    requires |arg| >= 2
    ensures r.Ok? ==> r.value.info in table && Enabled(r.value.info, cmd) && r.value.noArg == noArg
    ensures r.Ok? ==> r.value.info.longName == SplitLong(arg[2..]).0 && r.value.arg == SplitLong(arg[2..]).1
    ensures r.Err? ==> r.error == "Unknown option: --" + SplitLong(arg[2..]).0
  {
    var (option, value) := SplitLong(arg[2..]);
    var optionString := "--" + option;
    var info := LongInfo(table, option);
    if info.None? || !Enabled(info.value, cmd) then Err("Unknown option: " + optionString)
    else Ok(OptionRead(info.value, optionString, value, noArg))
  }

  /**
   * A run of short options from position j: each must be enabled for the
   * command; a flag before the last is recorded at once, and an option that
   * takes an argument takes the rest of the run as its value.
   */
  function ShortOptions(table: seq<OptionInfo>, cmd: bv8, arg: string, j: nat, noArg: set<string>): (r: Result<OptionRead>)
    requires 1 <= j < |arg|
    ensures r.Ok? ==> r.value.info in table && Enabled(r.value.info, cmd) && noArg <= r.value.noArg
    ensures r.Ok? ==> r.value.info.shortName.Some? && r.value.optionString == "-" + [r.value.info.shortName.value]
    ensures r.Err? ==> |r.error| == 18 && r.error[..16] == "Unknown option: "
    decreases |arg| - j
  {
    var option := arg[j];
    var optionString := "-" + [option];
    var info := ShortInfo(table, option);
    if info.None? || !Enabled(info.value, cmd) then Err("Unknown option: " + optionString)
    else if j < |arg| - 1 then
      if info.value.argName.Some? then Ok(OptionRead(info.value, optionString, Some(arg[j + 1..]), noArg))
      else ShortOptions(table, cmd, arg, j + 1, noArg + {info.value.longName})
    else Ok(OptionRead(info.value, optionString, None, noArg))
  }

  /** The first listed name equal to the argument of an enumeration option. */
  function EnumNamed(values: seq<EnumOptionInfo>, name: string): Option<nat>
  {
    FirstMatch(values, (e: EnumOptionInfo) => e.name == name, 0)
  }

  /**
   * An option read at argument i takes effect: its value is the one written
   * with it or else the next argument, an enumeration's value must be
   * listed, and a flag must come without a value. The index after it is
   * returned.
   */
  function ApplyOption(argv: seq<string>, i: nat, st: Parsed, opt: OptionRead): (r: Result<(Parsed, nat)>)
    requires i < |argv|
    ensures r.Ok? ==> i < r.value.1 <= |argv|
    ensures r.Ok? ==> Grown(st, r.value.0)
  {
    var info := opt.info;
    if info.argName.Some? then
      var got :- if opt.arg.Some? then Ok((opt.arg.value, i + 1))
                 else if i < |argv| - 1 then Ok((argv[i + 1], i + 2))
                 else Err("Argument not found for " + opt.optionString);
      var value := got.0;
      if |info.enumInfo| > 0 then
        var e := EnumNamed(info.enumInfo, value);
        if e.None? then Err("Invalid argument for " + opt.optionString + ": " + value)
        else Ok((st.(enums := st.enums[info.longName := info.enumInfo[e.value].value]), got.1))
      else Ok((st.(strings := st.strings[info.longName := value]), got.1))
    else if opt.arg.Some? then Err("Extra argument for " + opt.optionString + "\": " + opt.arg.value)
    else Ok((st.(noArg := st.noArg + {info.longName}), i + 1))
  }

  /** Argument i of the option loop: an option, the input file, or a stray argument. */
  function ArgStep(table: seq<OptionInfo>, cmd: bv8, argv: seq<string>, i: nat, st: Parsed): (r: Result<(Parsed, nat)>)
    requires i < |argv|
    ensures r.Ok? ==> i < r.value.1 <= |argv|
    ensures r.Ok? ==> Grown(st, r.value.0)
  {
    var arg := argv[i];
    if |arg| > 0 && arg[0] == '-' then
      if |arg| == 1 then Err("Unknown option: -")
      else
        var opt :- if arg[1] == '-' then LongOption(table, cmd, arg, st.noArg) else ShortOptions(table, cmd, arg, 1, st.noArg);
        ApplyOption(argv, i, st.(noArg := opt.noArg), opt)
    else if st.input.None? then Ok((st.(input := Some(arg)), i + 1))
    else Err("Stray argument: " + arg)
  }

  /**
   * What was parsed before is kept: flags stay recorded, and the names of
   * string and enumeration options stay filed.
   */
  predicate Grown(before: Parsed, after: Parsed)
  {
    && before.noArg <= after.noArg
    && before.strings.Keys <= after.strings.Keys
    && before.enums.Keys <= after.enums.Keys
  }

  /** The option loop from argument i, then the check that an input file was given. */
  function ParseFrom(table: seq<OptionInfo>, cmd: bv8, argv: seq<string>, i: nat, st: Parsed): (r: Result<Parsed>)
    ensures r.Ok? ==> Grown(st, r.value)
    decreases |argv| - i
  {
    if i >= |argv| then
      if st.input.None? then Err("Input file not specified") else Ok(st)
    else
      var step :- ArgStep(table, cmd, argv, i, st);
      ParseFrom(table, cmd, argv, step.1, step.0)
  }

  /** Nothing parsed yet. */
  function NothingParsed(): Parsed
  {
    Parsed({}, map[], map[], None)
  }

  /** `parse` as a whole: the command, then the options and the input file after it. */
  function ParseArgs(commands: seq<CommandInfo>, table: seq<OptionInfo>, argv: seq<string>): (r: Result<(bv8, Parsed)>)
    ensures |argv| <= 1 ==> r == Err("Command not specified")
    ensures |argv| > 1 && CommandOf(commands, argv[1]) == CMD_NONE ==> r == Err("Unknown command: " + argv[1])
    ensures r.Ok? ==> r.value.0 != CMD_NONE
  {
    if |argv| <= 1 then Err("Command not specified")
    else
      var cmd := CommandOf(commands, argv[1]);
      if cmd == CMD_NONE then Err("Unknown command: " + argv[1])
      else
        var p :- ParseFrom(table, cmd, argv, 2, NothingParsed());
        Ok((cmd, p))
  }

  // ---------------------------------------------------------------------
  // Properties of the parse.

  /** Each registered command is found by its own name, and any other name is no command. */
  lemma CommandNamesRoundTrip(name: string)
    ensures forall k :: 0 <= k < |CommandTable()| ==> CommandOf(CommandTable(), CommandTable()[k].name) == CommandTable()[k].cmd
    ensures name != "decompile" && name != "version" ==> CommandOf(CommandTable(), name) == CMD_NONE
  {
    var t := CommandTable();
    assert CommandOf(t, "decompile") == CMD_DECOMPILE;
    assert FirstMatch(t, (c: CommandInfo) => c.name == "version", 1) == Some(1);
    assert CommandOf(t, "version") == CMD_VERSION;
  }

  /** Without a known command the options are never valid. */
  lemma CommandRequired(commands: seq<CommandInfo>, table: seq<OptionInfo>, argv: seq<string>)
    ensures ParseArgs(commands, table, argv).Ok? ==> |argv| > 1 && CommandOf(commands, argv[1]) != CMD_NONE
    ensures ParseArgs(commands, table, argv).Ok? ==> ParseArgs(commands, table, argv).value.0 == CommandOf(commands, argv[1])
  {
  }

  /**
   * A long option splits at its first `=`: the name has no `=`, and name,
   * `=` and value give back what was written; without `=` it is all name.
   */
  lemma SplitAtFirstEquals(option: string)
    ensures var (name, value) := SplitLong(option);
      && '=' !in name
      && (value.Some? ==> name + "=" + value.value == option)
      && (value.None? ==> name == option)
  {
    var k := FirstMatch(option, (ch: char) => ch == '=', 0);
    if k.Some? {
      var name := option[..k.value];
      assert forall j :: 0 <= j < |name| ==> name[j] == option[j] && option[j] != '=';
      assert name + "=" + option[k.value + 1..] == option;
    } else {
      assert forall j :: 0 <= j < |option| ==> option[j] != '=';
    }
  }

  /** A long option that names no option enabled for the command is rejected. */
  lemma DisabledLongOptionRejected(table: seq<OptionInfo>, cmd: bv8, argv: seq<string>, i: nat, st: Parsed)
    requires i < |argv| && |argv[i]| >= 2 && argv[i][..2] == "--"
    requires var info := LongInfo(table, SplitLong(argv[i][2..]).0); info.None? || !Enabled(info.value, cmd)
    ensures ArgStep(table, cmd, argv, i, st) == Err("Unknown option: --" + SplitLong(argv[i][2..]).0)
  {
    assert argv[i][0] == '-' && argv[i][1] == '-';
  }

  /** A short option not enabled for the command is rejected, wherever it stands in its run. */
  lemma {:induction false} DisabledShortOptionRejected(table: seq<OptionInfo>, cmd: bv8, arg: string, j: nat, noArg: set<string>, bad: nat)
    requires 1 <= j <= bad < |arg|
    requires var info := ShortInfo(table, arg[bad]); info.None? || !Enabled(info.value, cmd)
    requires forall m :: j <= m < bad ==> var info := ShortInfo(table, arg[m]); info.Some? && info.value.argName.None?
    ensures ShortOptions(table, cmd, arg, j, noArg).Err?
    decreases bad - j
  {
    if j < bad {
      var info := ShortInfo(table, arg[j]);
      assert info.Some? && info.value.argName.None?;
      if Enabled(info.value, cmd) {
        DisabledShortOptionRejected(table, cmd, arg, j + 1, noArg + {info.value.longName}, bad);
      }
    }
  }

  /** An enumeration's argument must be one of its names; a listed name stores that name's value. */
  lemma EnumArgumentMustMatch(argv: seq<string>, i: nat, st: Parsed, opt: OptionRead)
    requires i < |argv| && opt.info.argName.Some? && |opt.info.enumInfo| > 0 && opt.arg.Some?
    ensures var r := ApplyOption(argv, i, st, opt);
      var e := EnumNamed(opt.info.enumInfo, opt.arg.value);
      && (r.Err? <==> e.None?)
      && (r.Ok? ==> opt.info.enumInfo[e.value].name == opt.arg.value
                    && r.value.0.enums == st.enums[opt.info.longName := opt.info.enumInfo[e.value].value])
  {
  }

  /** A flag written with `=value` is rejected; without, it is recorded and nothing else changes. */
  lemma FlagTakesNoValue(argv: seq<string>, i: nat, st: Parsed, opt: OptionRead)
    requires i < |argv| && opt.info.argName.None?
    ensures opt.arg.Some? ==> ApplyOption(argv, i, st, opt).Err?
    ensures opt.arg.None? ==> ApplyOption(argv, i, st, opt) == Ok((st.(noArg := st.noArg + {opt.info.longName}), i + 1))
  {
  }

  /** The first positional argument is the input file; any later one is a stray argument and is rejected. */
  lemma SecondPositionalRejected(table: seq<OptionInfo>, cmd: bv8, argv: seq<string>, i: nat, st: Parsed)
    requires i < |argv| && !(|argv[i]| > 0 && argv[i][0] == '-')
    ensures st.input.None? ==> ArgStep(table, cmd, argv, i, st) == Ok((st.(input := Some(argv[i])), i + 1))
    ensures st.input.Some? ==> ArgStep(table, cmd, argv, i, st) == Err("Stray argument: " + argv[i])
  {
  }

  /** A successful parse always has its input file, and an argument that fails ends the parse. */
  lemma {:induction false} ParsedHasInput(table: seq<OptionInfo>, cmd: bv8, argv: seq<string>, i: nat, st: Parsed)
    ensures ParseFrom(table, cmd, argv, i, st).Ok? ==> ParseFrom(table, cmd, argv, i, st).value.input.Some?
    ensures i < |argv| && ArgStep(table, cmd, argv, i, st).Err? ==> ParseFrom(table, cmd, argv, i, st).Err?
    decreases |argv| - i
  {
    if i < |argv| {
      var step := ArgStep(table, cmd, argv, i, st);
      if step.Ok? {
        ParsedHasInput(table, cmd, argv, step.value.1, step.value.0);
      }
    }
  }

  /** An input file, once found, is kept: later arguments only add options. */
  lemma {:induction false} InputKept(table: seq<OptionInfo>, cmd: bv8, argv: seq<string>, i: nat, st: Parsed)
    requires st.input.Some?
    ensures ParseFrom(table, cmd, argv, i, st).Ok? ==> ParseFrom(table, cmd, argv, i, st).value.input == st.input
    decreases |argv| - i
  {
    if i < |argv| {
      var step := ArgStep(table, cmd, argv, i, st);
      if step.Ok? {
        assert step.value.0.input == st.input;
        InputKept(table, cmd, argv, step.value.1, step.value.0);
      }
    }
  }

  /** n is the long name of a flag enabled for the command. */
  predicate IsFlag(table: seq<OptionInfo>, cmd: bv8, n: string)
  {
    exists o :: o in table && o.longName == n && Enabled(o, cmd) && o.argName.None?
  }

  /** n is the long name of an option with a free-form argument enabled for the command. */
  predicate IsValued(table: seq<OptionInfo>, cmd: bv8, n: string)
  {
    exists o :: o in table && o.longName == n && Enabled(o, cmd) && o.argName.Some? && o.enumInfo == []
  }

  /** n is the long name of an enumeration option enabled for the command, and v one of its values. */
  predicate IsEnum(table: seq<OptionInfo>, cmd: bv8, n: string, v: nat)
  {
    exists o :: o in table && o.longName == n && Enabled(o, cmd) && o.argName.Some?
                && exists e :: e in o.enumInfo && e.value == v
  }

  /**
   * Every name the parse recorded is an option enabled for the command,
   * filed by its kind: flags in noArg, free-form values in strings,
   * enumeration values in enums.
   */
  predicate Filed(table: seq<OptionInfo>, cmd: bv8, p: Parsed)
  {
    && (forall n :: n in p.noArg ==> IsFlag(table, cmd, n))
    && (forall n :: n in p.strings ==> IsValued(table, cmd, n))
    && (forall n :: n in p.enums ==> IsEnum(table, cmd, n, p.enums[n]))
  }

  /** A run of short options yields an enabled option and records only enabled flags. */
  lemma {:induction false} ShortOptionsFiled(table: seq<OptionInfo>, cmd: bv8, arg: string, j: nat, noArg: set<string>)
    requires 1 <= j < |arg|
    requires forall n :: n in noArg ==> IsFlag(table, cmd, n)
    ensures var r := ShortOptions(table, cmd, arg, j, noArg);
      r.Ok? ==> r.value.info in table && Enabled(r.value.info, cmd) && forall n :: n in r.value.noArg ==> IsFlag(table, cmd, n)
    decreases |arg| - j
  {
    var info := ShortInfo(table, arg[j]);
    if info.Some? && Enabled(info.value, cmd) {
      var k := FirstMatch(table, (o: OptionInfo) => o.shortName == Some(arg[j]), 0);
      assert info.value == table[k.value];
      if j < |arg| - 1 && info.value.argName.None? {
        assert IsFlag(table, cmd, info.value.longName);
        ShortOptionsFiled(table, cmd, arg, j + 1, noArg + {info.value.longName});
      }
    }
  }

  /** An enabled option that takes effect keeps the parse filed. */
  lemma ApplyOptionFiled(table: seq<OptionInfo>, cmd: bv8, argv: seq<string>, i: nat, st: Parsed, opt: OptionRead)
    requires i < |argv| && opt.info in table && Enabled(opt.info, cmd) && Filed(table, cmd, st)
    ensures var r := ApplyOption(argv, i, st, opt); r.Ok? ==> Filed(table, cmd, r.value.0)
  {
    var r := ApplyOption(argv, i, st, opt);
    if r.Ok? {
      var info := opt.info;
      if info.argName.Some? && |info.enumInfo| > 0 {
        var value := if opt.arg.Some? then opt.arg.value else argv[i + 1];
        var e := EnumNamed(info.enumInfo, value);
        assert info.enumInfo[e.value] in info.enumInfo;
        assert IsEnum(table, cmd, info.longName, info.enumInfo[e.value].value);
      } else if info.argName.Some? {
        assert IsValued(table, cmd, info.longName);
      } else {
        assert IsFlag(table, cmd, info.longName);
      }
    }
  }

  /** One argument keeps the parse filed. */
  lemma ArgStepFiled(table: seq<OptionInfo>, cmd: bv8, argv: seq<string>, i: nat, st: Parsed)
    requires i < |argv| && Filed(table, cmd, st)
    ensures var r := ArgStep(table, cmd, argv, i, st); r.Ok? ==> Filed(table, cmd, r.value.0)
  {
    var arg := argv[i];
    if |arg| > 1 && arg[0] == '-' {
      var opt := if arg[1] == '-' then LongOption(table, cmd, arg, st.noArg) else ShortOptions(table, cmd, arg, 1, st.noArg);
      if opt.Ok? {
        if arg[1] == '-' {
          var k := FirstMatch(table, (o: OptionInfo) => o.longName == SplitLong(arg[2..]).0, 0);
          assert opt.value.info == table[k.value];
        } else {
          ShortOptionsFiled(table, cmd, arg, 1, st.noArg);
        }
        ApplyOptionFiled(table, cmd, argv, i, st.(noArg := opt.value.noArg), opt.value);
      }
    }
  }

  /** The option loop keeps the parse filed to the end. */
  lemma {:induction false} ParseFromFiled(table: seq<OptionInfo>, cmd: bv8, argv: seq<string>, i: nat, st: Parsed)
    requires Filed(table, cmd, st)
    ensures var r := ParseFrom(table, cmd, argv, i, st); r.Ok? ==> Filed(table, cmd, r.value)
    decreases |argv| - i
  {
    if i < |argv| {
      var step := ArgStep(table, cmd, argv, i, st);
      if step.Ok? {
        ArgStepFiled(table, cmd, argv, i, st);
        ParseFromFiled(table, cmd, argv, step.value.1, step.value.0);
      }
    }
  }

  /**
   * A valid parse records only options the command enables, each under its
   * long name and by its kind, with an input file.
   */
  lemma ParsedOptionsFiled(commands: seq<CommandInfo>, table: seq<OptionInfo>, argv: seq<string>)
    ensures var r := ParseArgs(commands, table, argv);
      r.Ok? ==> Filed(table, r.value.0, r.value.1) && r.value.1.input.Some?
  {
    if |argv| > 1 {
      var cmd := CommandOf(commands, argv[1]);
      ParseFromFiled(table, cmd, argv, 2, NothingParsed());
      ParsedHasInput(table, cmd, argv, 2, NothingParsed());
    }
  }

  // ---------------------------------------------------------------------
  // The parser.

  class Options {
    const commandInfo: seq<CommandInfo>
    const optionInfo: seq<OptionInfo>
    var valid: bool
    var programName: string
    var cmd: bv8
    var inputFile: string
    var optionsNoArg: set<string>
    var stringOptions: map<string, string>
    var enumOptions: map<string, nat>

    /** `Options()`: the commands and options the program knows, nothing parsed. */
    constructor ()
      ensures commandInfo == CommandTable() && optionInfo == OptionTable()
      ensures !valid && cmd == CMD_NONE
    {
      commandInfo := CommandTable();
      optionInfo := OptionTable();
      valid := false;
      programName := "";
      cmd := CMD_NONE;
      inputFile := "";
      optionsNoArg := {};
      stringOptions := map[];
      enumOptions := map[];
    }

    /** What the option loop has collected, with `found` saying whether an input file was seen. */
    function Current(found: bool): Parsed
      reads this
    {
      Parsed(optionsNoArg, stringOptions, enumOptions, if found then Some(inputFile) else None)
    }

    /** `getCommand`: the first registered command with that name, or none. */
    method GetCommand(name: string) returns (c: bv8)
      ensures c == CommandOf(commandInfo, name)
    {
      var k := 0;
      while k < |commandInfo|
        invariant k <= |commandInfo|
        invariant FirstMatch(commandInfo, (ci: CommandInfo) => ci.name == name, 0)
               == FirstMatch(commandInfo, (ci: CommandInfo) => ci.name == name, k)
      {
        if name == commandInfo[k].name {
          return commandInfo[k].cmd;
        }
        k := k + 1;
      }
      c := CMD_NONE;
    }

    /** `getOptionInfo(longName)`. */
    method GetLongOptionInfo(name: string) returns (r: Option<OptionInfo>)
      ensures r == LongInfo(optionInfo, name)
    {
      var k := 0;
      while k < |optionInfo|
        invariant k <= |optionInfo|
        invariant FirstMatch(optionInfo, (o: OptionInfo) => o.longName == name, 0)
               == FirstMatch(optionInfo, (o: OptionInfo) => o.longName == name, k)
      {
        if name == optionInfo[k].longName {
          return Some(optionInfo[k]);
        }
        k := k + 1;
      }
      r := None;
    }

    /** `getOptionInfo(shortName)`. */
    method GetShortOptionInfo(name: char) returns (r: Option<OptionInfo>)
      ensures r == ShortInfo(optionInfo, name)
    {
      var k := 0;
      while k < |optionInfo|
        invariant k <= |optionInfo|
        invariant FirstMatch(optionInfo, (o: OptionInfo) => o.shortName == Some(name), 0)
               == FirstMatch(optionInfo, (o: OptionInfo) => o.shortName == Some(name), k)
      {
        if optionInfo[k].shortName == Some(name) {
          return Some(optionInfo[k]);
        }
        k := k + 1;
      }
      r := None;
    }

    /**
     * `parse`: the program name, the command, then each argument in turn;
     * the options are valid only when every argument was accepted and an
     * input file was given.
     */
    method Parse(argv: seq<string>)
      modifies this
      ensures programName == if |argv| > 0 then argv[0] else ""
      ensures cmd == if |argv| > 1 then CommandOf(commandInfo, argv[1]) else CMD_NONE
      ensures valid <==> ParseArgs(commandInfo, optionInfo, argv).Ok?
      ensures valid ==>
        var p := ParseArgs(commandInfo, optionInfo, argv).value.1;
        && p.input == Some(inputFile)
        && optionsNoArg == p.noArg && stringOptions == p.strings && enumOptions == p.enums
    {
      valid := false;
      programName := "";
      cmd := CMD_NONE;
      inputFile := "";
      var inputFileFound := false;
      optionsNoArg := {};
      stringOptions := map[];
      enumOptions := map[];
      if |argv| > 0 {
        programName := argv[0];
      }
      if |argv| > 1 {
        cmd := GetCommand(argv[1]);
        if cmd == CMD_NONE {
          return;
        }
      } else {
        return;
      }
      var i := 2;
      while i < |argv|
        invariant 2 <= i <= |argv|
        invariant cmd == CommandOf(commandInfo, argv[1]) && cmd != CMD_NONE
        invariant programName == argv[0] && !valid
        invariant ParseFrom(optionInfo, cmd, argv, 2, NothingParsed()) == ParseFrom(optionInfo, cmd, argv, i, Current(inputFileFound))
        decreases |argv| - i
      {
        ghost var before := Current(inputFileFound);
        var ok, next, found := ParseArg(argv, i, inputFileFound);
        if !ok {
          ParsedHasInput(optionInfo, cmd, argv, i, before);
          return;
        }
        i, inputFileFound := next, found;
      }
      if !inputFileFound {
        return;
      }
      valid := true;
    }

    /** One argument of the option loop; false when it is rejected. */
    method ParseArg(argv: seq<string>, i: nat, inputFileFound: bool) returns (ok: bool, next: nat, found: bool)
      requires i < |argv|
      modifies this`optionsNoArg, this`stringOptions, this`enumOptions, this`inputFile
      ensures var step := ArgStep(optionInfo, cmd, argv, i, old(Current(inputFileFound)));
        && (ok <==> step.Ok?)
        && (ok ==> Current(found) == step.value.0 && next == step.value.1)
    {
      var arg := argv[i];
      found := inputFileFound;
      next := i + 1;
      if |arg| > 0 && arg[0] == '-' {
        if |arg| == 1 {
          return false, next, found;
        }
        var opt: Result<OptionRead>;
        if arg[1] == '-' {
          opt := ReadLongOption(arg);
        } else {
          opt := ReadShortOptions(arg);
        }
        if opt.Err? {
          return false, next, found;
        }
        ok, next := ApplyOptionArg(argv, i, opt.value, old(Current(inputFileFound)).input);
      } else if !inputFileFound {
        inputFile := arg;
        found := true;
        ok := true;
      } else {
        ok := false;
      }
    }

    /** A long option: split at the first `=`, then looked up and checked against the command. */
    method ReadLongOption(arg: string) returns (r: Result<OptionRead>)
      requires |arg| >= 2
      ensures r == LongOption(optionInfo, cmd, arg, optionsNoArg)
    {
      var (option, value) := SplitLong(arg[2..]);
      var optionString := "--" + option;
      var info := GetLongOptionInfo(option);
      if info.None? || !Enabled(info.value, cmd) {
        return Err("Unknown option: " + optionString);
      }
      r := Ok(OptionRead(info.value, optionString, value, optionsNoArg));
    }

    /** A run of short options: a flag before the last is recorded as it is read. */
    method ReadShortOptions(arg: string) returns (r: Result<OptionRead>)
      requires |arg| >= 2
      modifies this`optionsNoArg
      ensures var spec := ShortOptions(optionInfo, cmd, arg, 1, old(optionsNoArg));
        && (r.Err? <==> spec.Err?)
        && (r.Ok? ==> r == spec && optionsNoArg == r.value.noArg)
    {
      var j := 1;
      while true
        invariant 1 <= j < |arg|
        invariant ShortOptions(optionInfo, cmd, arg, 1, old(optionsNoArg)) == ShortOptions(optionInfo, cmd, arg, j, optionsNoArg)
        decreases |arg| - j
      {
        var option := arg[j];
        var optionString := "-" + [option];
        var info := GetShortOptionInfo(option);
        if info.None? || !Enabled(info.value, cmd) {
          return Err("Unknown option: " + optionString);
        }
        if j < |arg| - 1 {
          if info.value.argName.Some? {
            return Ok(OptionRead(info.value, optionString, Some(arg[j + 1..]), optionsNoArg));
          }
          optionsNoArg := optionsNoArg + {info.value.longName};
          j := j + 1;
        } else {
          return Ok(OptionRead(info.value, optionString, None, optionsNoArg));
        }
      }
    }

    /** The option takes effect: a value stored, checked against its enumeration, or a flag recorded. */
    method ApplyOptionArg(argv: seq<string>, i: nat, opt: OptionRead, ghost input: Option<string>) returns (ok: bool, next: nat)
      requires i < |argv| && opt.noArg == optionsNoArg
      modifies this`optionsNoArg, this`stringOptions, this`enumOptions
      ensures var step := ApplyOption(argv, i, old(Parsed(optionsNoArg, stringOptions, enumOptions, input)), opt);
        && (ok <==> step.Ok?)
        && (ok ==> step.value.0.input == input)
        && (ok ==> optionsNoArg == step.value.0.noArg && stringOptions == step.value.0.strings
                   && enumOptions == step.value.0.enums && next == step.value.1)
    {
      var info := opt.info;
      next := i + 1;
      if info.argName.Some? {
        var value: string;
        if opt.arg.Some? {
          value := opt.arg.value;
        } else if i < |argv| - 1 {
          value := argv[i + 1];
          next := i + 2;
        } else {
          return false, next;
        }
        if |info.enumInfo| > 0 {
          var e := FindEnum(info.enumInfo, value);
          if e.None? {
            return false, next;
          }
          enumOptions := enumOptions[info.longName := info.enumInfo[e.value].value];
        } else {
          stringOptions := stringOptions[info.longName := value];
        }
        ok := true;
      } else if opt.arg.Some? {
        ok := false;
      } else {
        optionsNoArg := optionsNoArg + {info.longName};
        ok := true;
      }
    }

    /** The loop over an enumeration's names. */
    method FindEnum(values: seq<EnumOptionInfo>, name: string) returns (r: Option<nat>)
      ensures r == EnumNamed(values, name)
    {
      var k := 0;
      while k < |values|
        invariant k <= |values|
        invariant FirstMatch(values, (e: EnumOptionInfo) => e.name == name, 0)
               == FirstMatch(values, (e: EnumOptionInfo) => e.name == name, k)
      {
        if name == values[k].name {
          return Some(k);
        }
        k := k + 1;
      }
      r := None;
    }
  }
}
