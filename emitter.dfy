/**
 * The code builder: an indentation-tracking list of generated source lines
 * (main.py, class CodeBuilder).  A line is either text or a whole nested
 * builder, spliced in by `add` when a template is included.
 */
module Emitter {

  /** CodeBuilder.INDENT_STEP: columns moved by one `forward` or `backward`. */
  const IndentStep: int := 4

  /** One entry of a builder's `lines` list. */
  datatype Line = Text(text: string) | Block(lines: seq<Line>)

  /** `' ' * n`: n spaces, and no padding at all when n is zero or negative. */
  function Pad(n: int): (r: string)
    ensures |r| == if n < 0 then 0 else n
    ensures forall i :: 0 <= i < |r| ==> r[i] == ' '
  {
    if n <= 0 then "" else Pad(n - 1) + " "
  }

  /** `'\n'.join(ss)`. */
  function JoinLines(ss: seq<string>): string
  {
    if |ss| == 0 then ""
    else if |ss| == 1 then ss[0]
    else ss[0] + "\n" + JoinLines(ss[1..])
  }

  /** `str(builder)`: the lines joined by newlines, a nested builder rendered by its own `__str__`. */
  function Render(ls: seq<Line>): string
    decreases ls
  {
    if |ls| == 0 then ""
    else if |ls| == 1 then RenderLine(ls[0])
    else RenderLine(ls[0]) + "\n" + Render(ls[1..])
  }

  /** `str(line)` for one entry of `lines`. */
  function RenderLine(l: Line): string
    decreases l
  {
    match l
    case Text(s) => s
    case Block(ls) => Render(ls)
  }

  /** The physical text lines of a builder once every nested builder is expanded in place. */
  function Flatten(ls: seq<Line>): (r: seq<string>)
    ensures |ls| > 0 ==> |r| > 0
    decreases ls
  {
    if |ls| == 0 then [] else FlattenLine(ls[0]) + Flatten(ls[1..])
  }

  /** The physical lines of one entry; an empty nested builder still renders as one empty line. */
  function FlattenLine(l: Line): (r: seq<string>)
    ensures |r| > 0
    decreases l
  {
    match l
    case Text(s) => [s]
    case Block(ls) => if |ls| == 0 then [""] else Flatten(ls)
  }

  lemma {:induction false} JoinLinesAppend(a: seq<string>, b: seq<string>)
    requires |a| > 0 && |b| > 0
    ensures JoinLines(a + b) == JoinLines(a) + "\n" + JoinLines(b)
  {
    if |a| == 1 {
      assert (a + b)[1..] == b;
    } else {
      assert (a + b)[1..] == a[1..] + b;
      JoinLinesAppend(a[1..], b);
    }
  }

  /**
   * Rendering a builder is joining its physical lines: nested builders are
   * spliced in as they are, never re-indented.
   */
  lemma {:induction false} RenderIsJoinOfFlatten(ls: seq<Line>)
    ensures Render(ls) == JoinLines(Flatten(ls))
    decreases ls
  {
    if |ls| == 1 {
      RenderLineIsJoinOfFlatten(ls[0]);
      assert Flatten(ls) == FlattenLine(ls[0]) + Flatten(ls[1..]);
      assert Flatten(ls[1..]) == [];
      assert Flatten(ls) == FlattenLine(ls[0]);
    } else if |ls| > 1 {
      RenderLineIsJoinOfFlatten(ls[0]);
      RenderIsJoinOfFlatten(ls[1..]);
      JoinLinesAppend(FlattenLine(ls[0]), Flatten(ls[1..]));
    }
  }

  lemma {:induction false} RenderLineIsJoinOfFlatten(l: Line)
    ensures RenderLine(l) == JoinLines(FlattenLine(l))
    decreases l
  {
    match l
    case Text(s) =>
    case Block(ls) => RenderIsJoinOfFlatten(ls);
  }

  /**
   * Appending one entry to a non-empty builder extends its text by a newline
   * and the entry's own rendering, and leaves the earlier text untouched.
   */
  lemma {:induction false} RenderAppend(ls: seq<Line>, l: Line)
    requires |ls| > 0
    ensures Render(ls + [l]) == Render(ls) + "\n" + RenderLine(l)
    decreases ls
  {
    if |ls| == 1 {
      assert (ls + [l])[1..] == [l];
    } else {
      assert (ls + [l])[1..] == ls[1..] + [l];
      RenderAppend(ls[1..], l);
    }
  }

  class CodeBuilder {
    var indent: int
    var lines: seq<Line>

    /** `CodeBuilder(indent)`: no lines yet. */
    constructor (indent: int)
      ensures this.indent == indent && lines == []
    {
      this.indent := indent;
      lines := [];
    }

    /** `forward`: one indentation step deeper; lines unchanged. */
    method Forward()
      modifies this
      ensures indent == old(indent) + IndentStep && lines == old(lines)
    {
      indent := indent + IndentStep;
    }

    /** `backward`: one indentation step shallower (it may go below zero); lines unchanged. */
    method Backward()
      modifies this
      ensures indent == old(indent) - IndentStep && lines == old(lines)
    {
      indent := indent - IndentStep;
    }

    /** `add`: splice another builder in as one entry, exactly as it is, without re-indenting it. */
    method Add(code: CodeBuilder)
      modifies this
      ensures lines == old(lines) + [Block(old(code.lines))] && indent == old(indent)
    {
      lines := lines + [Block(code.lines)];
    }

    /** `add_line`: append exactly one line, `code` padded by the current indentation. */
    method AddLine(code: string)
      modifies this
      ensures lines == old(lines) + [Text(Pad(old(indent)) + code)] && indent == old(indent)
    {
      lines := lines + [Text(Pad(indent) + code)];
    }

    /** `__str__`: the builder's physical lines, nested builders expanded in place, joined by newlines. */
    function ToString(): (r: string)
      reads this
      ensures r == JoinLines(Flatten(lines))
    {
      RenderIsJoinOfFlatten(lines);
      Render(lines)
    }
  }
}
