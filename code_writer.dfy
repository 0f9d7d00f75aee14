/**
 * The text sink the decompiler writes Lingo into: it tracks an indentation
 * level and writes the indentation once, before the first text of each line.
 */
module CodeWriter {
  /** `level` copies of `unit`. */
  function Repeat(unit: string, level: nat): (r: string)
    ensures |r| == level * |unit|
  {
    if level == 0 then "" else Repeat(unit, level - 1) + unit
  }

  /** Indenting by a levels and then by b more is indenting by a + b levels. */
  lemma {:induction false} RepeatAdd(unit: string, a: nat, b: nat)
    ensures Repeat(unit, a + b) == Repeat(unit, a) + Repeat(unit, b)
  {
    if b > 0 {
      RepeatAdd(unit, a, b - 1);
    }
  }

  class CodeWriter {
    var stream: string
    const lineEnding: string
    const indentation: string
    var indentationLevel: nat
    var indentationWritten: bool

    constructor (lineEnding: string, indentation: string)
      ensures stream == "" && indentationLevel == 0 && !indentationWritten
      ensures this.lineEnding == lineEnding && this.indentation == indentation
    {
      stream := "";
      this.lineEnding := lineEnding;
      this.indentation := indentation;
      indentationLevel := 0;
      indentationWritten := false;
    }

    /** What writeIndentation adds: nothing if this line already has it, else `level` copies. */
    function PendingIndentation(): string
      reads this
    {
      if indentationWritten then "" else Repeat(indentation, indentationLevel)
    }

    method WriteIndentation()
      modifies this`stream, this`indentationWritten
      ensures stream == old(stream) + old(PendingIndentation())
      ensures indentationWritten
    {
      if indentationWritten {
        return;
      }
      var i := 0;
      while i < indentationLevel
        invariant 0 <= i <= indentationLevel
        invariant stream == old(stream) + Repeat(indentation, i)
        invariant !indentationWritten
      {
        stream := stream + indentation;
        i := i + 1;
      }
      indentationWritten := true;
    }

    method Write(str: string)
      modifies this`stream, this`indentationWritten
      ensures str == "" ==> stream == old(stream) && indentationWritten == old(indentationWritten)
      ensures str != "" ==> stream == old(stream) + old(PendingIndentation()) + str && indentationWritten
    {
      if str == "" {
        return;
      }
      WriteIndentation();
      stream := stream + str;
    }

    method WriteChar(ch: char)
      modifies this`stream, this`indentationWritten
      ensures stream == old(stream) + old(PendingIndentation()) + [ch] && indentationWritten
    {
      WriteIndentation();
      stream := stream + [ch];
    }

    method WriteLine(str: string)
      modifies this`stream, this`indentationWritten
      ensures str == "" ==> stream == old(stream) + lineEnding
      ensures str != "" ==> stream == old(stream) + old(PendingIndentation()) + str + lineEnding
      ensures !indentationWritten
    {
      if str == "" {
        stream := stream + lineEnding;
      } else {
        WriteIndentation();
        stream := stream + str + lineEnding;
      }
      indentationWritten := false;
    }

    method EndLine()
      modifies this`stream, this`indentationWritten
      ensures stream == old(stream) + lineEnding && !indentationWritten
    {
      stream := stream + lineEnding;
      indentationWritten := false;
    }

    method Indent()
      modifies this`indentationLevel
      ensures indentationLevel == old(indentationLevel) + 1
    {
      indentationLevel := indentationLevel + 1;
    }

    method Unindent()
      modifies this`indentationLevel
      ensures indentationLevel == if old(indentationLevel) > 0 then old(indentationLevel) - 1 else 0
    {
      if indentationLevel > 0 {
        indentationLevel := indentationLevel - 1;
      }
    }

    function Str(): string
      reads this
    {
      stream
    }
  }

  /** Two writes on one line carry the indentation once: the second finds it already written. */
  method TwoWritesOneIndentation(w: CodeWriter, a: string, b: string)
    requires a != "" && b != ""
    modifies w
    ensures w.stream == old(w.stream) + old(w.PendingIndentation()) + a + b
  {
    w.Write(a);
    w.Write(b);
  }
}
