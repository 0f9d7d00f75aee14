/**
 * Text helpers of the C++ generation: block indentation of Lingo source, and
 * the mapping from Director's internal version number to a product version.
 */
module DirectorUtil {
  import opened Bytes

  /** Lingo source lines end in a carriage return. */
  const LingoLineEnding: char := '\r'

  /** Index of the first line ending in `s`, or |s| when there is none (`std::string::find`). */
  function FindLineEnding(s: string): (k: nat)
    ensures k <= |s|
    ensures k < |s| ==> s[k] == LingoLineEnding
  {
    if s == [] || s[0] == LingoLineEnding then 0 else 1 + FindLineEnding(s[1..])
  }

  /** FindLineEnding finds the first line ending: none comes before it. */
  lemma {:induction false} FindLineEndingIsFirst(s: string, j: nat)
    requires j < FindLineEnding(s)
    ensures s[j] != LingoLineEnding
  {
    if j > 0 {
      FindLineEndingIsFirst(s[1..], j - 1);
    }
  }

  /** The specification of `indent`: every complete line gets two leading spaces; an unterminated tail is dropped. */
  function Indented(s: string): string
    decreases |s|
  {
    var k := FindLineEnding(s);
    if k == |s| then "" else ("  " + s[..k + 1]) + Indented(s[k + 1..])
  }

  method Indent(str: string) returns (res: string)
    ensures res == Indented(str)
  {
    res := "";
    var rest := str;
    var pos := FindLineEnding(rest);
    while pos != |rest|
      invariant pos == FindLineEnding(rest)
      invariant res + Indented(rest) == Indented(str)
      decreases |rest|
    {
      var chunk := "  " + rest[..pos + 1];
      var tail := rest[pos + 1..];
      assert Indented(rest) == chunk + Indented(tail);
      res := res + chunk;
      rest := tail;
      pos := FindLineEnding(rest);
    }
    assert Indented(rest) == "";
  }

  /** Text with no line ending at all is a trailing fragment and vanishes. */
  lemma IndentDropsFragment(s: string)
    requires forall j :: 0 <= j < |s| ==> s[j] != LingoLineEnding
    ensures Indented(s) == ""
  {
    NoEndingFound(s);
  }

  lemma {:induction false} NoEndingFound(s: string)
    requires forall j :: 0 <= j < |s| ==> s[j] != LingoLineEnding
    ensures FindLineEnding(s) == |s|
  {
    if s != [] {
      NoEndingFound(s[1..]);
    }
  }

  /** One complete line is emitted as two spaces, the line and its ending, ahead of the rest. */
  lemma {:induction false} IndentLine(line: string, rest: string)
    requires forall j :: 0 <= j < |line| ==> line[j] != LingoLineEnding
    ensures Indented(line + [LingoLineEnding] + rest) == "  " + line + [LingoLineEnding] + Indented(rest)
  {
    var s := line + [LingoLineEnding] + rest;
    FindLineEndingOfLine(line, rest);
    assert s[..|line| + 1] == line + [LingoLineEnding];
    assert s[|line| + 1..] == rest;
  }

  lemma {:induction false} FindLineEndingOfLine(line: string, rest: string)
    requires forall j :: 0 <= j < |line| ==> line[j] != LingoLineEnding
    ensures FindLineEnding(line + [LingoLineEnding] + rest) == |line|
  {
    if line != [] {
      FindLineEndingOfLine(line[1..], rest);
      assert (line + [LingoLineEnding] + rest)[1..] == line[1..] + [LingoLineEnding] + rest;
    }
  }

  /**
   * Director's internal file version mapped to the version Lingo's `the
   * fileVersion` reports (with the correction for Director 12).
   */
  function HumanVersion(ver: nat): (r: nat)
    ensures 200 <= r <= 1200
    ensures ver < 1028 ==> r == 200
    ensures ver >= 1951 ==> r == 1200
  {
    if ver >= 1951 then 1200
    else if ver >= 1922 then 1150
    else if ver >= 1921 then 1100
    else if ver >= 1851 then 1000
    else if ver >= 1700 then 850
    else if ver >= 1410 then 800
    else if ver >= 1224 then 700
    else if ver >= 1218 then 600
    else if ver >= 1201 then 500
    else if ver >= 1117 then 404
    else if ver >= 1115 then 400
    else if ver >= 1029 then 310
    else if ver >= 1028 then 300
    else 200
  }

  /** A later internal version never maps to an earlier product version. */
  lemma HumanVersionMonotone(a: nat, b: nat)
    requires a <= b
    ensures HumanVersion(a) <= HumanVersion(b)
  {
  }

  /** `major.minor`, with `.patch` only when the patch digit is not zero. */
  function VersionNumber(ver: nat): (r: string)
    ensures |r| >= 3
  {
    var major, minor, patch := ver / 100, (ver / 10) % 10, ver % 10;
    IntToString(major) + "." + IntToString(minor) + (if patch != 0 then "." + IntToString(patch) else "")
  }

  /**
   * The product name for a version: "Adobe Director" from major version 11,
   * "Macromedia Director MX 2004" at 10 and "Macromedia Director MX" at 9,
   * both with the number in parentheses, and plain "Macromedia Director"
   * below. A non-empty version string from the file replaces the computed
   * number.
   */
  function VersionString(ver: nat, fverVersionString: string): (r: string)
    ensures |r| >= 16
    ensures ver / 100 >= 11 ==> r[0] == 'A'
    ensures ver / 100 < 11 ==> r[0] == 'M'
  {
    var versionNumber := if fverVersionString == [] then VersionNumber(ver) else fverVersionString;
    var major := ver / 100;
    if major >= 11 then "Adobe Director " + versionNumber
    else if major == 10 then "Macromedia Director MX 2004 (" + versionNumber + ")"
    else if major == 9 then "Macromedia Director MX (" + versionNumber + ")"
    else "Macromedia Director " + versionNumber
  }

  /** Where the product name puts the version number, and what comes before and after it. */
  lemma VersionStringShape(ver: nat, fverVersionString: string)
    ensures var r := VersionString(ver, fverVersionString);
      var num := if fverVersionString == [] then VersionNumber(ver) else fverVersionString;
      var major := ver / 100;
      var k := ProductPrefixLength(major);
      && |r| == k + |num| + (if major == 9 || major == 10 then 1 else 0)
      && r[k..k + |num|] == num
      && ((major == 9 || major == 10) ==> r[|r| - 1] == ')')
      && (major >= 11 ==> r[..15] == "Adobe Director ")
      && (major < 11 ==> r[..20] == "Macromedia Director ")
      && (major == 10 ==> r[20..29] == "MX 2004 (")
      && (major == 9 ==> r[20..24] == "MX (")
  {
    var num := if fverVersionString == [] then VersionNumber(ver) else fverVersionString;
    var major := ver / 100;
    if major >= 11 {
      AdobeName(num);
    } else if major == 10 {
      MX2004Name(num);
    } else if major == 9 {
      MXName(num);
    } else {
      MacromediaName(num);
    }
  }

  /** The product name of version 11 and later. */
  lemma AdobeName(num: string)
    ensures var r := "Adobe Director " + num;
      |r| == 15 + |num| && r[15..15 + |num|] == num && r[..15] == "Adobe Director "
  {
    Framed("Adobe Director ", num, "");
  }

  /** The product name of Director MX 2004. */
  lemma MX2004Name(num: string)
    ensures var r := "Macromedia Director MX 2004 (" + num + ")";
      && |r| == 30 + |num| && r[29..29 + |num|] == num && r[|r| - 1] == ')'
      && r[..20] == "Macromedia Director " && r[20..29] == "MX 2004 ("
  {
    var pre := "Macromedia Director MX 2004 (";
    Framed(pre, num, ")");
    FramedSlice(pre, num, ")", 0, 20);
    FramedSlice(pre, num, ")", 20, 29);
    assert pre[..20] == "Macromedia Director " && pre[20..29] == "MX 2004 (";
  }

  /** The product name of Director MX. */
  lemma MXName(num: string)
    ensures var r := "Macromedia Director MX (" + num + ")";
      && |r| == 25 + |num| && r[24..24 + |num|] == num && r[|r| - 1] == ')'
      && r[..20] == "Macromedia Director " && r[20..24] == "MX ("
  {
    var pre := "Macromedia Director MX (";
    Framed(pre, num, ")");
    FramedSlice(pre, num, ")", 0, 20);
    FramedSlice(pre, num, ")", 20, 24);
    assert pre[..20] == "Macromedia Director " && pre[20..24] == "MX (";
  }

  /** The product name of the versions before Director MX. */
  lemma MacromediaName(num: string)
    ensures var r := "Macromedia Director " + num;
      |r| == 20 + |num| && r[20..20 + |num|] == num && r[..20] == "Macromedia Director "
  {
    Framed("Macromedia Director ", num, "");
  }

  /** A slice inside the first part of a concatenation is that slice of the first part. */
  lemma FramedSlice(pre: string, num: string, post: string, i: nat, j: nat)
    requires i <= j <= |pre|
    ensures (pre + num + post)[i..j] == pre[i..j]
  {
  }

  /** The parts of a concatenation are its slices. */
  lemma Framed(pre: string, num: string, post: string)
    ensures var r := pre + num + post;
      && |r| == |pre| + |num| + |post|
      && r[..|pre|] == pre && r[|pre|..|pre| + |num|] == num && r[|pre| + |num|..] == post
  {
    var r := pre + num + post;
    assert r[..|pre|] == pre;
    assert r[|pre|..|pre| + |num|] == num;
    assert r[|pre| + |num|..] == post;
  }

  /** How many characters of the product name come before the version number. */
  function ProductPrefixLength(major: nat): nat
  {
    if major >= 11 then 15 else if major == 10 then 29 else if major == 9 then 24 else 20
  }

  /**
   * Without a version string from the file, the number inside the product
   * name reads back as the version it was printed from.
   */
  lemma VersionStringRoundTrip(ver: nat)
    ensures var r := VersionString(ver, "");
      var k := ProductPrefixLength(ver / 100);
      k + |VersionNumber(ver)| <= |r| && ParseVersionNumber(r[k..k + |VersionNumber(ver)|]) == ver
  {
    VersionStringShape(ver, "");
    VersionNumberRoundTrip(ver);
  }

  /** Reads `a.b` or `a.b.c` back into a version number; the inverse of VersionNumber. */
  function ParseVersionNumber(s: string): int
  {
    var (a, rest) := SplitAtDot(s);
    var (b, c) := SplitAtDot(rest);
    ParseDigits(a, 10) * 100 + ParseDigits(b, 10) * 10 + ParseDigits(c, 10)
  }

  /** The text before the first '.' and the text after it (empty when there is no '.'). */
  function SplitAtDot(s: string): (string, string)
  {
    if s == [] then ([], [])
    else if s[0] == '.' then ([], s[1..])
    else var (a, b) := SplitAtDot(s[1..]); ([s[0]] + a, b)
  }

  predicate AllDigits(d: string)
  {
    forall k :: 0 <= k < |d| ==> DigitValue(d[k]) < 10
  }

  lemma {:induction false} SplitAfterDigits(d: string, rest: string)
    requires AllDigits(d)
    ensures SplitAtDot(d + "." + rest) == (d, rest)
    ensures SplitAtDot(d) == (d, [])
  {
    if d != [] {
      SplitAfterDigits(d[1..], rest);
      assert (d + "." + rest)[1..] == d[1..] + "." + rest;
      assert [d[0]] + d[1..] == d;
    }
  }

  /** No version is lost in printing: the printed number reads back as the version it came from. */
  lemma VersionNumberRoundTrip(ver: nat)
    ensures ParseVersionNumber(VersionNumber(ver)) == ver
  {
    var major, minor, patch := ver / 100, (ver / 10) % 10, ver % 10;
    var a, b, c := IntToString(major), IntToString(minor), IntToString(patch);
    DigitsAreDigits(major, 10, false);
    DigitsAreDigits(minor, 10, false);
    DigitsAreDigits(patch, 10, false);
    IntToStringRoundTrip(major);
    IntToStringRoundTrip(minor);
    IntToStringRoundTrip(patch);
    assert major * 100 + minor * 10 + patch == ver;
    if patch != 0 {
      var rest := b + "." + c;
      assert VersionNumber(ver) == a + "." + rest;
      SplitAfterDigits(a, rest);
      SplitAfterDigits(b, c);
    } else {
      assert VersionNumber(ver) == a + "." + b;
      SplitAfterDigits(a, b);
      SplitAfterDigits(b, "");
      assert ParseDigits([], 10) == 0;
    }
  }
}
